/**
 * The snippet store (src/services/storage.js): every saved snippet lives in one
 * browser-local storage entry, `files`, holding a JSON object that maps a file
 * name to `{ code }`.
 *
 * The stored object is modelled by its parsed content, a `map<string, string>`
 * from name to code. `saveFile` and `deleteFile` build a new JavaScript object by
 * spreading the current one and then writing one property; `JSON.stringify`
 * then drops every property whose value is `undefined`. Those three steps are
 * modelled separately (Parse, Spread, Stringify) so that "delete by writing
 * undefined" is proved to be a real delete rather than assumed to be one.
 */
module SnippetStore {
  import opened Wrappers

  /** The value of one property of the object handed to JSON.stringify. */
  datatype Slot = Undefined | Entry(code: string)

  /** JSON.parse of a stored object: every stored name holds `{ code }`. */
  function Parse(stored: map<string, string>): (o: map<string, Slot>)
    ensures o.Keys == stored.Keys
    ensures forall k :: k in o ==> o[k] == Entry(stored[k])
  {
    map k | k in stored :: Entry(stored[k])
  }

  /** `{ ...base, [key]: v }`: the later property wins, every other one is kept. */
  function Spread(base: map<string, Slot>, key: string, v: Slot): (o: map<string, Slot>)
    ensures o.Keys == base.Keys + {key}
    ensures o[key] == v
    ensures forall k :: k in base && k != key ==> o[k] == base[k]
  {
    base[key := v]
  }

  /** JSON.stringify followed by JSON.parse: properties holding `undefined` are dropped. */
  function Stringify(o: map<string, Slot>): (stored: map<string, string>)
    ensures forall k :: k in stored <==> k in o && o[k].Entry?
    ensures forall k :: k in stored ==> stored[k] == o[k].code
  {
    map k | k in o && o[k].Entry? :: o[k].code
  }

  /** `files()`: the stored object, or `{}` when the entry was never written. */
  function Load(item: Option<map<string, string>>): (files: map<string, string>)
    ensures item.None? ==> files == map[]
  {
    match item
    case None => map[]
    case Some(stored) => stored
  }

  /** The object `saveFile(name, code)` writes, given what `files()` returned. */
  function Saved(files: map<string, string>, name: string, code: string): (r: map<string, string>)
    ensures r.Keys == files.Keys + {name} && r[name] == code
    ensures forall k :: k in files && k != name ==> r[k] == files[k]
  {
    Stringify(Spread(Parse(files), name, Entry(code)))
  }

  /** The object `deleteFile(name)` writes, given what `files()` returned. */
  function Deleted(files: map<string, string>, name: string): (r: map<string, string>)
    ensures r.Keys == files.Keys - {name}
    ensures forall k :: k in r ==> r[k] == files[k]
  {
    Stringify(Spread(Parse(files), name, Undefined))
  }

  /** Writing back what was read changes nothing: no stored entry is undefined. */
  lemma StringifyParse(stored: map<string, string>)
    ensures Stringify(Parse(stored)) == stored
  {
  }

  /**
   * After saving, `name` maps to `code` whether or not it was there before
   * (unconditional overwrite), and every other name keeps its entry.
   */
  lemma SaveStores(files: map<string, string>, name: string, code: string)
    ensures name in Saved(files, name, code) && Saved(files, name, code)[name] == code
    ensures forall k :: k != name ==> (k in Saved(files, name, code) <==> k in files)
    ensures forall k :: k != name && k in files ==> Saved(files, name, code)[k] == files[k]
    ensures Saved(files, name, code) == files[name := code]
  {
  }

  /** After deleting, `name` is gone and every other entry is kept. */
  lemma DeleteRemoves(files: map<string, string>, name: string)
    ensures name !in Deleted(files, name)
    ensures forall k :: k != name ==> (k in Deleted(files, name) <==> k in files)
    ensures forall k :: k != name && k in files ==> Deleted(files, name)[k] == files[k]
    ensures Deleted(files, name) == files - {name}
  {
  }

  /** Deleting a name that is not stored is a no-op, not an error. */
  lemma DeleteAbsent(files: map<string, string>, name: string)
    requires name !in files
    ensures Deleted(files, name) == files
  {
  }

  /** Saving a new name and then deleting it restores the original store. */
  lemma SaveThenDelete(files: map<string, string>, name: string, code: string)
    requires name !in files
    ensures Deleted(Saved(files, name, code), name) == files
  {
  }

  /** Of two saves under one name the later wins entirely. */
  lemma SaveTwice(files: map<string, string>, name: string, first: string, second: string)
    ensures Saved(Saved(files, name, first), name, second) == Saved(files, name, second)
  {
    calc {
      Saved(Saved(files, name, first), name, second);
    == { SaveStores(Saved(files, name, first), name, second); }
      Saved(files, name, first)[name := second];
    == { SaveStores(files, name, first); }
      files[name := first][name := second];
    ==
      files[name := second];
    == { SaveStores(files, name, second); }
      Saved(files, name, second);
    }
  }

  /** Deleting twice is deleting once. */
  lemma DeleteIdempotent(files: map<string, string>, name: string)
    ensures Deleted(Deleted(files, name), name) == Deleted(files, name)
  {
  }

  /** The storage service, a singleton over the browser's local storage. */
  class Storage {
    /** The local-storage entry `files`, already parsed; None until first written. */
    var item: Option<map<string, string>>

    /** A browser whose local storage holds no `files` entry yet. */
    constructor ()
      ensures item == None
      ensures Load(item) == map[]
    {
      item := None;
    }

    /** `files()`: read the entry, falling back to the empty object. */
    method Files() returns (files: map<string, string>)
      ensures files == Load(item)
      ensures item.None? ==> files == map[]
    {
      files := Load(item);
    }

    /** `saveFile(name, code)`: insert or overwrite the entry for `name`. */
    method SaveFile(name: string, code: string)
      modifies this
      ensures item == Some(Saved(old(Load(item)), name, code))
      ensures Load(item) == old(Load(item))[name := code]
    {
      var current := Files();
      item := Some(Saved(current, name, code));
      SaveStores(current, name, code);
    }

    /** `deleteFile(name)`: write `undefined` for `name`, which drops it. */
    method DeleteFile(name: string)
      modifies this
      ensures item == Some(Deleted(old(Load(item)), name))
      ensures Load(item) == old(Load(item)) - {name}
    {
      var current := Files();
      item := Some(Deleted(current, name));
      DeleteRemoves(current, name);
    }
  }
}
