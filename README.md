# ARMore client core in Dafny

ARMore is an in-browser editor for ARM assembly. Assembling, linking and running happen on a remote service. This project models the three pieces of client-side logic in that editor and proves properties about them:

- **Snippet store** (`src/services/storage.js`). All saved snippets live under one local-storage entry, `files`. It holds a JSON object mapping each file name to `{ code }`. `saveFile` spreads the current object and writes one property, which always overwrites. `deleteFile` spreads it and writes `undefined`; `JSON.stringify` then drops that property. The model goes through the same three steps: `Parse`, `Spread` (the later property wins) and `Stringify` (drops undefined slots). This is how it proves that writing `undefined` really deletes the entry. The store is the class `Storage`. Its field `item` holds the parsed entry, or `None` when nothing has been written yet.
- **Open-file picker** (`src/components/FuzzyOpen/index.js`). The candidates are the stored names. A name is kept when the query is empty or when `name.replace(query, '') !== name`. String `replace` removes only the first occurrence. The model does the same (`IndexOf`, `ReplaceFirst`, `Matches`) and proves the test is exactly substring containment (`Contains`). The picker's React state is the class `Picker`.
- **Run pipeline** (`src/App.js`). `run` opens the terminal. It then calls assemble, link and exec in order, passing each call's payload to the next. Before each call it writes a fixed announcement, and after assemble and link a fixed acknowledgement; each of these five status writes is followed by a fixed pause (100 or 200 ms). After exec it writes the program's output lines joined by newlines, with no pause. The first failure is caught and shown as `"Failed: " + message` (App.js line 72), also with no pause. The remote service is a `Backend`: three stub functions, each returning a payload or a failure message. The page state is the class `AppState`. Ghost fields record every terminal-text write (with its delay) and every remote call. The pipeline has a separate specification: a state machine over the phases Idle, Assembling, Linking, Executing, Done and Failed (`Advance`, `Drive`, `Pipeline`). `Run` is proved to make exactly that machine's writes and calls.

Files: `wrappers.dfy` (Option), `storage.dfy` (module SnippetStore), `fuzzy_open.dfy` (module FuzzyOpen), `app.dfy` (module App).

## Model

| member | source | states |
|---|---|---|
| SnippetStore.Parse | src/services/storage.js:4 | every stored name becomes a `{ code }` property holding its stored code; no other keys |
| SnippetStore.Spread | src/services/storage.js:9-12 | the spread object has the old keys plus the written one; the written key holds the new value (later wins); every other key keeps its old value |
| SnippetStore.Stringify | src/services/storage.js:17-20 | a property survives serialisation iff its value is not `undefined`, and keeps its code |
| SnippetStore.Load | src/services/storage.js:4 | with no `files` entry stored, `files()` is the empty map |
| SnippetStore.Saved | src/services/storage.js:8-13 | the object `saveFile` writes has the old names plus `name`, which holds the new code; every other name keeps its code |
| SnippetStore.Deleted | src/services/storage.js:17-20 | the object `deleteFile` writes has the old names except `name`, each with its old code |
| SnippetStore.StringifyParse | src/services/storage.js:8-9 | serialising what was just parsed gives back the same stored map |
| SnippetStore.SaveStores | src/services/storage.js:7-13 | after saving, the name maps to the new code whether or not it existed; every other name is unchanged; the result is `files[name := code]` |
| SnippetStore.DeleteRemoves | src/services/storage.js:16-20 | after deleting, the name is no key; every other entry is unchanged; the result is `files - {name}` |
| SnippetStore.DeleteAbsent | src/services/storage.js:16-20 | deleting an absent name leaves the map exactly as it was |
| SnippetStore.SaveThenDelete | src/services/storage.js:7-20 | for a name that was absent, save followed by delete restores the original map |
| SnippetStore.SaveTwice | src/services/storage.js:9-12 | of two saves under one name, the later one wins completely |
| SnippetStore.DeleteIdempotent | src/services/storage.js:16-20 | deleting twice equals deleting once |
| SnippetStore.Storage.constructor | src/services/storage.js:4 | a fresh browser has no `files` entry, so `files()` is empty |
| SnippetStore.Storage.Files | src/services/storage.js:3-5 | returns the stored map, or the empty map when nothing was stored |
| SnippetStore.Storage.SaveFile | src/services/storage.js:7-14 | the entry becomes the serialised spread; the stored map becomes the old map with `name` mapped to `code` |
| SnippetStore.Storage.DeleteFile | src/services/storage.js:16-21 | the entry becomes the serialised spread with `undefined`; the stored map becomes the old map without `name` |
| FuzzyOpen.IndexOf | src/components/FuzzyOpen/index.js:16 | returns the first position where the query occurs; returns None iff the query does not occur |
| FuzzyOpen.ReplaceFirst | src/components/FuzzyOpen/index.js:16 | replaces the first occurrence of the query, keeping the text before and after it, so the length changes by the replacement's length minus the query's; returns the string unchanged when the query does not occur |
| FuzzyOpen.Filter | src/components/FuzzyOpen/index.js:16 | the result is never longer than the input and holds only input names |
| FuzzyOpen.Matches | src/components/FuzzyOpen/index.js:16 | the test `query === '' \|\| i.replace(query, '') !== i` holds iff the query is empty or occurs in `i` as a contiguous substring |
| FuzzyOpen.FilterEmptyQuery | src/components/FuzzyOpen/index.js:16 | the empty query returns every name, unchanged and in order |
| FuzzyOpen.FilterMembers | src/components/FuzzyOpen/index.js:16 | a name is listed iff it is a candidate and the query is empty or occurs in it (both directions) |
| FuzzyOpen.FilterSubsequence | src/components/FuzzyOpen/index.js:16 | the result is a subsequence of the candidates, in their relative order |
| FuzzyOpen.FilterNoDuplicates | src/components/FuzzyOpen/index.js:15-16 | filtering a list with no repeats gives a list with no repeats |
| FuzzyOpen.FilterNarrowing | src/components/FuzzyOpen/index.js:16 | if `q1` occurs in `q2`, filtering by `q1` and then by `q2` equals filtering by `q2` alone |
| FuzzyOpen.FilterNarrowingKept | src/components/FuzzyOpen/index.js:16 | if `q1` occurs in `q2`, every name kept for `q2` is also kept for `q1` |
| FuzzyOpen.FilterIdempotent | src/components/FuzzyOpen/index.js:16 | filtering twice by one query equals filtering once |
| FuzzyOpen.FilterExampleMain | src/components/FuzzyOpen/index.js:16 | of `loop.asm` and `main.asm`, the query `main` keeps exactly `main.asm` |
| FuzzyOpen.FilterExampleNone | src/components/FuzzyOpen/index.js:16 | `xyz` keeps nothing of `a.asm` |
| FuzzyOpen.Render | src/components/FuzzyOpen/index.js:32-49 | "No items found." is shown iff the filtered list is empty; otherwise the list shown is exactly the filtered list |
| FuzzyOpen.KeysOf | src/components/FuzzyOpen/index.js:15 | each stored name appears exactly once, and nothing else appears |
| FuzzyOpen.Picker.constructor | src/components/FuzzyOpen/index.js:13-14 | the picker starts with an empty query and the store's current content |
| FuzzyOpen.Picker.SetQuery | src/components/FuzzyOpen/index.js:31 | typing changes the query and nothing else |
| FuzzyOpen.Picker.Show | src/components/FuzzyOpen/index.js:15-49 | the candidates are exactly the stored names, without repeats; "No items found." is shown iff no stored name passes the query; otherwise the listed names are exactly the passing ones, without repeats and in candidate order |
| FuzzyOpen.Picker.DeleteHandler | src/components/FuzzyOpen/index.js:22-26 | the item is removed from the store; the picker's names are re-read from storage; the query is kept |
| App.Join | src/App.js:69 | `.join(sep)` of no lines is empty; otherwise the joined text starts with the first line |
| App.JoinShape | src/App.js:69 | the joined text ends with the last line, and its length is the lines' total plus one separator per gap |
| App.JoinTwo | src/App.js:69 | two lines are joined as the first, the separator, the second |
| App.SplitJoin | src/App.js:69 | for a non-empty list of lines, none holding the separator, splitting the joined text gives back exactly those lines |
| App.JoinExample | src/App.js:69 | the output lines `hello`, `world` are shown as `hello\nworld` |
| App.Advance | src/App.js:61-73 | every step from an unsettled phase moves closer to settling and makes at most one remote call; a failing step writes only `Failed: <message>` |
| App.Drive | src/App.js:58-74 | from any phase the run settles, as Done or Failed, with no more remote calls than the phase's rank; a run started from Idle makes at most three |
| App.Pipeline | src/App.js:58-74 | one run on the code settles, as Done or Failed, after at most three calls, and its first write is "Assembling..." with 100 ms |
| App.Shown | src/App.js:69-72 | a settled run shows the exec output when done, and `"Failed: "` followed by the message when failed |
| App.PipelineSucceeds | src/App.js:61-69 | when all three stages succeed, the writes are, in order, "Assembling..." 100, "Assembling ✔️" 200, "Linking ..." 100, "Linking ✔️" 200, "Running ..." 200, then the joined output; the calls are assemble(code), link(assemble's payload), exec(link's payload) |
| App.PipelineAssembleFails | src/App.js:58-73 | when assemble fails, "Assembling..." is followed by `Failed: <message>`; link and exec are never called |
| App.PipelineLinkFails | src/App.js:58-73 | when link fails, the writes are "Assembling...", "Assembling ✔️", "Linking ...", then `Failed: <message>`; exec is never called |
| App.PipelineExecFails | src/App.js:58-73 | when exec fails, all five status lines are written, then `Failed: <message>` |
| App.PipelineShape | src/App.js:58-74 | for any service answers: the run starts with "Assembling..." and assemble(code); each later call receives exactly the previous payload, and only after that call succeeded; it fails iff its last call failed, with that message; it is done iff all three calls succeeded; the last write is the settled text |
| App.AppState.constructor | src/App.js:36-38 | the initial page has the default code, the terminal closed and the terminal text empty |
| App.AppState.SetCode | src/App.js:94 | an editor change replaces the code; it touches neither the terminal nor the histories |
| App.AppState.PrintOut | src/App.js:53-56 | shows the text and appends it with its delay to the write history; nothing else changes |
| App.AppState.Assemble | src/services/api.js:10-12 | returns the service's answer for the code; records the call; runs only while the terminal is open |
| App.AppState.Link | src/services/api.js:14-16 | returns the service's answer for the assembled artifact; records the call; runs only while the terminal is open |
| App.AppState.Exec | src/services/api.js:18-20 | returns the service's answer for the linked artifact; records the call; runs only while the terminal is open |
| App.AppState.Run | src/App.js:58-74 | opens the terminal before any call; appends exactly the pipeline machine's writes and calls; leaves the terminal showing the settled text (output or `Failed: <message>`); keeps the code |
| App.AppState.Close | src/App.js:97 | only closes the terminal: its text, the code and the histories are unchanged |

Throughout, `AppState.Valid()` holds: the terminal text is the last text written, or empty before any write. So the text changes only through `PrintOut`, which models `setTerminaltext`.

## Left out

- Real timing: `sleep` is not modelled. Each write records its delay as a number, and the last write of a run (no pause follows) records 0.
- Concurrent runs: two overlapping runs racing on the terminal text are not modelled, and neither is closing the terminal while a run is in flight. Each `Run` is one uninterrupted step.
- HTTP transport (src/services/api.js): the base URL, the 15 s timeout and the endpoint paths are left out. Each call is a stub function of its input. Unpacking `.data.data.data` is folded into the stub's payload. A malformed exec response that makes `.join` throw counts as an exec failure.
- Malformed assemble or link success bodies: a response lacking `.data.data` makes App.js line 65 or 68 throw a TypeError after the acknowledgement and the next announcement were already written, so the terminal then shows `Failed:` with that error's message. The model has no such path; a stub either fails (before the acknowledgement) or returns a payload. Only exec's `.join` failure is mapped onto a stage failure.
- Logging: `console.log(error)` in the catch block (App.js line 71) has no observable effect on the modelled state and is left out.
- SnippetStore.Storage.SaveFile, SnippetStore.Storage.DeleteFile: `localStorage.setItem` can throw (for instance when the storage quota is full, storage.js lines 8 and 17); in the model both always succeed.
- How `error.message` is extracted from an axios error is left out; the message is an opaque string.
- Corrupted storage is not modelled: `JSON.parse` would throw on a malformed `files` entry, and the entry is taken to be well formed.
- FuzzyOpen.KeysOf: JavaScript's `Object.keys` order is not modelled. `KeysOf` returns the stored names in an arbitrary order. Names that look like integers, which JavaScript lists first, are not treated specially.
- FuzzyOpen.Picker.DeleteHandler: `onDelete` is a callback supplied by the parent component, which is not modelled; the model takes it to be the store's `DeleteFile`.
- `deleteFile` takes a second parameter, `code`, that it never uses; the model leaves it out.
- Strings are sequences of Unicode scalar values, while JavaScript strings are UTF-16 code units. For well-formed names and queries, substring containment means the same in both; a lone surrogate typed into the search box, which can match half of a surrogate pair in JavaScript, cannot be expressed in the model.
- Left out as UI chrome with no logic to verify: src/config.js, src/components/Terminal/index.js, src/components/DropZone/index.js, the window-resize handler (App.js lines 41-51), the Monaco editor and the icon setup.
