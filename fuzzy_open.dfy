/**
 * The open-file picker (src/components/FuzzyOpen/index.js). It lists the names
 * of the stored snippets and keeps those that pass the test
 * `query === '' || i.replace(query, '') !== i`. String.prototype.replace with a
 * string pattern removes only the FIRST occurrence; the model follows that code
 * as written (ReplaceFirst) and proves it is exactly substring containment.
 */
module FuzzyOpen {
  import opened Wrappers
  import opened SnippetStore

  /** `q` occurs in `s` starting at position `i`. */
  predicate OccursAt(s: string, q: string, i: nat) {
    i + |q| <= |s| && s[i..i + |q|] == q
  }

  /** `q` occurs in `s` as a contiguous substring. */
  predicate Contains(s: string, q: string) {
    exists i: nat | i <= |s| :: OccursAt(s, q, i)
  }

  /** The position of the first occurrence of `q` in `s`, the search `replace` does. */
  function IndexOf(s: string, q: string): (r: Option<nat>)
    ensures r.Some? ==> OccursAt(s, q, r.value)
    ensures r.Some? ==> forall j: nat :: j < r.value ==> !OccursAt(s, q, j)
    ensures r.None? <==> !Contains(s, q)
    decreases |s|
  {
    if q <= s then
      assert OccursAt(s, q, 0);
      Some(0)
    else if s == [] then
      None
    else
      ShiftOccurrence(s, q);
      match IndexOf(s[1..], q)
      case None => None
      case Some(k) => Some(k + 1)
  }

  /** An occurrence in the tail is an occurrence one place later in the whole. */
  lemma ShiftOccurrence(s: string, q: string)
    requires s != [] && !(q <= s)
    ensures forall j: nat :: 0 < j ==> (OccursAt(s, q, j) <==> OccursAt(s[1..], q, j - 1))
    ensures !OccursAt(s, q, 0)
    ensures Contains(s, q) <==> Contains(s[1..], q)
  {
    forall j: nat | 0 < j
      ensures OccursAt(s, q, j) <==> OccursAt(s[1..], q, j - 1)
    {
      if j + |q| <= |s| {
        var here, there := s[j..j + |q|], s[1..][j - 1..j - 1 + |q|];
        assert forall k :: 0 <= k < |q| ==> here[k] == there[k];
        assert here == there;
      }
    }
    if Contains(s, q) {
      var i: nat :| OccursAt(s, q, i);
      assert i != 0;
      assert OccursAt(s[1..], q, i - 1);
    }
    if Contains(s[1..], q) {
      var i: nat :| OccursAt(s[1..], q, i);
      assert OccursAt(s, q, i + 1);
    }
  }

  /**
   * `s.replace(q, replacement)` for a string pattern: the first occurrence only.
   * The replacement is taken literally (no `$` patterns); the filter only uses "".
   */
  function ReplaceFirst(s: string, q: string, replacement: string): (r: string)
    ensures Contains(s, q) ==> |r| == |s| - |q| + |replacement|
    ensures Contains(s, q) ==>
      exists k: nat :: OccursAt(s, q, k) && (forall j: nat :: j < k ==> !OccursAt(s, q, j))
        && r == s[..k] + replacement + s[k + |q|..]
    ensures !Contains(s, q) ==> r == s
  {
    match IndexOf(s, q)
    case None => s
    case Some(k) =>
      assert OccursAt(s, q, k);
      s[..k] + replacement + s[k + |q|..]
  }

  /**
   * The filter test at line 16, as written. Removing the first occurrence of a
   * non-empty query changes the name exactly when the query occurs in it, so
   * the test is substring containment.
   */
  predicate Matches(item: string, query: string): (b: bool)
    ensures b <==> (query == "" || Contains(item, query))
  {
    query == "" || ReplaceFirst(item, query, "") != item
  }

  /** `items.filter(i => Matches(i, query))`, in order. */
  function Filter(items: seq<string>, query: string): (r: seq<string>)
    ensures |r| <= |items|
    ensures forall x :: x in r ==> x in items
    decreases |items|
  {
    if items == [] then []
    else (if Matches(items[0], query) then [items[0]] else []) + Filter(items[1..], query)
  }

  /** `a` is `b` with some elements left out, the rest in their order. */
  predicate IsSubsequence(a: seq<string>, b: seq<string>)
    decreases |b|
  {
    if a == [] then true
    else if b == [] then false
    else if a[0] == b[0] then IsSubsequence(a[1..], b[1..])
    else IsSubsequence(a, b[1..])
  }

  predicate NoDuplicates(s: seq<string>) {
    forall i, j :: 0 <= i < j < |s| ==> s[i] != s[j]
  }

  /** The empty query keeps every name, in the same order. */
  lemma {:induction false} FilterEmptyQuery(items: seq<string>)
    ensures Filter(items, "") == items
    decreases |items|
  {
    if items != [] {
      FilterEmptyQuery(items[1..]);
    }
  }

  /** A name is listed iff it is a candidate and the query is empty or occurs in it. */
  lemma {:induction false} FilterMembers(items: seq<string>, query: string, x: string)
    ensures x in Filter(items, query) <==> x in items && (query == "" || Contains(x, query))
    decreases |items|
  {
    if items != [] {
      FilterMembers(items[1..], query, x);
      assert x in items <==> x == items[0] || x in items[1..];
    }
  }

  /** The listed names keep their relative order from the candidate list. */
  lemma {:induction false} FilterSubsequence(items: seq<string>, query: string)
    ensures IsSubsequence(Filter(items, query), items)
    decreases |items|
  {
    if items != [] {
      var rest := Filter(items[1..], query);
      FilterSubsequence(items[1..], query);
      if Matches(items[0], query) {
        var r := Filter(items, query);
        assert r == [items[0]] + rest;
        assert r[0] == items[0] && r[1..] == rest;
      } else {
        assert Filter(items, query) == rest;
        SubsequenceOfTail(rest, items);
      }
    }
  }

  /** A subsequence of the tail is a subsequence of the whole. */
  lemma {:induction false} SubsequenceOfTail(a: seq<string>, b: seq<string>)
    requires b != [] && IsSubsequence(a, b[1..])
    ensures IsSubsequence(a, b)
    decreases |b|, |a|
  {
    if a != [] && a[0] == b[0] {
      SubsequenceDropHead(a, b[1..]);
    }
  }

  /** Dropping the first element of a subsequence keeps it a subsequence. */
  lemma {:induction false} SubsequenceDropHead(a: seq<string>, b: seq<string>)
    requires a != [] && IsSubsequence(a, b)
    ensures IsSubsequence(a[1..], b)
    decreases |b|, |a|
  {
    if a[0] == b[0] {
      if a[1..] != [] {
        SubsequenceOfTail(a[1..], b);
      }
    } else {
      SubsequenceDropHead(a, b[1..]);
      if a[1..] != [] {
        SubsequenceOfTail(a[1..], b);
      }
    }
  }

  /** Substring containment is transitive. */
  lemma ContainsTransitive(s: string, m: string, q: string)
    requires Contains(s, m) && Contains(m, q)
    ensures Contains(s, q)
  {
    var i: nat :| OccursAt(s, m, i);
    assert OccursAt(s, m, i);
    var j: nat :| OccursAt(m, q, j);
    assert OccursAt(m, q, j);
    var here, there := s[i + j..i + j + |q|], m[j..j + |q|];
    forall k | 0 <= k < |q| ensures here[k] == there[k] {
      assert m[j + k] == s[i..i + |m|][j + k];
    }
    assert here == there;
    assert OccursAt(s, q, i + j);
  }

  /**
   * Refining the query: filtering by `q1` and then by a `q2` that contains
   * it gives the same list as filtering by `q2` directly.
   */
  lemma {:induction false} FilterNarrowing(items: seq<string>, q1: string, q2: string)
    requires Contains(q2, q1)
    ensures Filter(Filter(items, q1), q2) == Filter(items, q2)
    decreases |items|
  {
    if items != [] {
      var h, t := items[0], items[1..];
      FilterNarrowing(t, q1, q2);
      if Matches(h, q2) && q2 != "" {
        ContainsTransitive(h, q2, q1);
      }
      if q2 == "" {
        assert !OccursAt(q2, q1, 0) ==> q1 != "";
      }
      var once := Filter(items, q1);
      if Matches(h, q1) {
        assert once == [h] + Filter(t, q1);
        assert once[0] == h && once[1..] == Filter(t, q1);
      } else {
        assert once == Filter(t, q1);
        assert !Matches(h, q2);
      }
    }
  }

  /** Everything kept for a query is kept for any substring of it. */
  lemma FilterNarrowingKept(items: seq<string>, q1: string, q2: string, x: string)
    requires Contains(q2, q1)
    requires x in Filter(items, q2)
    ensures x in Filter(items, q1)
  {
    FilterNarrowing(items, q1, q2);
    FilterMembers(Filter(items, q1), q2, x);
  }

  /** Filtering twice by the same query changes nothing. */
  lemma FilterIdempotent(items: seq<string>, query: string)
    ensures Filter(Filter(items, query), query) == Filter(items, query)
  {
    assert query[0..|query|] == query;
    assert OccursAt(query, query, 0);
    FilterNarrowing(items, query, query);
  }

  /** Filtering a list without repeats yields a list without repeats. */
  lemma {:induction false} FilterNoDuplicates(items: seq<string>, query: string)
    requires NoDuplicates(items)
    ensures NoDuplicates(Filter(items, query))
    decreases |items|
  {
    if items != [] {
      assert NoDuplicates(items[1..]);
      FilterNoDuplicates(items[1..], query);
      FilterMembers(items[1..], query, items[0]);
    }
  }

  /** A query whose first character appears nowhere a match could start is not matched. */
  lemma NotMatchedByFirst(s: string, q: string)
    requires q != [] && |q| <= |s|
    requires q[0] !in s[..|s| - |q| + 1]
    ensures !Matches(s, q)
  {
  }

  /** `main` occurs in `main.asm`. */
  lemma MainMatches()
    ensures Matches("main.asm", "main")
  {
    assert "main.asm"[0..4] == "main";
    assert OccursAt("main.asm", "main", 0);
  }

  /** `main` does not occur in `loop.asm`. */
  lemma LoopDoesNotMatch()
    ensures !Matches("loop.asm", "main")
  {
    assert "loop.asm"[..5] == "loop.";
    NotMatchedByFirst("loop.asm", "main");
  }

  /** Of two names, only the second passing: only the second is listed. */
  lemma FilterSecondOfTwo(x: string, y: string, query: string)
    requires !Matches(x, query) && Matches(y, query)
    ensures Filter([x, y], query) == [y]
  {
    assert [x, y][1..] == [y];
    assert [y][1..] == [];
  }

  /** Of `loop.asm` and `main.asm`, the query `main` keeps only `main.asm`. */
  lemma FilterExampleMain()
    ensures Filter(["loop.asm", "main.asm"], "main") == ["main.asm"]
  {
    MainMatches();
    LoopDoesNotMatch();
    FilterSecondOfTwo("loop.asm", "main.asm", "main");
  }

  /** A query that occurs in no name keeps nothing. */
  lemma FilterExampleNone()
    ensures Filter(["a.asm"], "xyz") == []
  {
    assert "a.asm"[..3] == "a.a";
    NotMatchedByFirst("a.asm", "xyz");
    FilterNoneOfOne("a.asm", "xyz");
  }

  /** A single name that does not pass: nothing is listed. */
  lemma FilterNoneOfOne(x: string, query: string)
    requires !Matches(x, query)
    ensures Filter([x], query) == []
  {
    assert [x][1..] == [];
  }

  /** What the picker shows below the search box. */
  datatype View = NothingFound | Listing(names: seq<string>)

  /** "No items found." exactly when the filtered list is empty. */
  function Render(filtered: seq<string>): (v: View)
    ensures v.NothingFound? <==> filtered == []
    ensures v.Listing? ==> v.names == filtered
  {
    if filtered == [] then NothingFound else Listing(filtered)
  }

  /** `Object.keys(files)`: every stored name once, in some order. */
  method KeysOf(files: map<string, string>) returns (keys: seq<string>)
    ensures NoDuplicates(keys)
    ensures forall x :: x in keys <==> x in files
  {
    keys := [];
    var rest := files.Keys;
    while rest != {}
      invariant forall x :: x in files <==> x in keys || x in rest
      invariant forall x :: x in keys ==> x !in rest
      invariant NoDuplicates(keys)
      decreases rest
    {
      var k :| k in rest;
      keys := keys + [k];
      rest := rest - {k};
    }
  }

  /** The picker component: its React state `query` and `files`. */
  class Picker {
    var query: string
    var files: map<string, string>

    /** Mounting: an empty query and the store's current content. */
    constructor (store: Storage)
      ensures query == ""
      ensures files == Load(store.item)
    {
      var stored := store.Files();
      query := "";
      files := stored;
    }

    /** Typing into the search box. */
    method SetQuery(q: string)
      modifies this
      ensures query == q
      ensures files == old(files)
    {
      query := q;
    }

    /**
     * One render: the candidate names (line 15) and what is shown for them
     * (lines 16 and 32-49).
     */
    method Show() returns (items: seq<string>, view: View)
      ensures NoDuplicates(items)
      ensures forall x :: x in items <==> x in files
      ensures view == Render(Filter(items, query))
      ensures view.NothingFound? <==> forall x :: x in files ==> !(query == "" || Contains(x, query))
      ensures view.Listing? ==> NoDuplicates(view.names) && IsSubsequence(view.names, items)
      ensures view.Listing? ==> forall x :: x in view.names <==> x in files && (query == "" || Contains(x, query))
    {
      items := KeysOf(files);
      var filtered := Filter(items, query);
      view := Render(filtered);
      FilterSubsequence(items, query);
      FilterNoDuplicates(items, query);
      forall x ensures x in filtered <==> x in files && (query == "" || Contains(x, query)) {
        FilterMembers(items, query, x);
      }
      if filtered != [] {
        assert filtered[0] in filtered;
      }
    }

    /**
     * The trash icon: the parent's `onDelete` removes the snippet from the
     * store, then the list is re-read from storage.
     */
    method DeleteHandler(item: string, store: Storage)
      modifies this, store
      ensures Load(store.item) == old(Load(store.item)) - {item}
      ensures files == Load(store.item)
      ensures query == old(query)
    {
      store.DeleteFile(item);
      var stored := store.Files();
      files := stored;
    }
  }
}
