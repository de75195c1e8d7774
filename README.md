# db-dot-json in Dafny

A model of the core of db-dot-json, a small JSON-file store for JavaScript.
It covers:

- the error classes of `lib/errs.js` (`NestedError`, `DatabaseError`,
  `DataError`) and their `toString`;
- the array accessors of a data path (`name[]`, `name[3]`, `name[-1]`):
  `processArray` in `lib/utils.js` recognises them in a token, and
  `lib/array-info.js` resolves them against a live array to read, push,
  assign, check and splice;
- `removeEdgeSlashes` from `lib/utils.js`;
- the two key-wise recursive merges, `merge` (`lib/utils.js`) and `deepMerge`
  (`db.js`);
- `ParentData` (`lib/parent-data.js`), the handle on the last step of a data
  path, whose `getData`, `setData` and `delete` read or change a container
  in place or reset the store's state;
- the store class `DBDotJSON` of `db.js`: its option and file-name rules,
  `toJSON`, and the `loaded` state machine of `loadSync`, `saveSync` and
  `reloadSync`.

Files, one module each:

- `errs.dfy` (`Errs`): the `Error` datatype, its `Kind`s and numeric ids, and
  `Option`/`Result`, used for every throw.
- `decimal.dfy` (`Decimal`): decimal integer tokens, and the index keys
  `"0"`, `"1"`, … that `for...in` yields for arrays and strings.
- `json.dfy` (`Json`): JSON values with integer numbers plus `undefined`, and
  `Container`, a mutable JavaScript object.
- `array_info.dfy` (`ArrayInfos`): `ArrayInfo`. Pure functions for the reads,
  and methods with `modifies` for the in-place push, assignment and splice.
- `utils.dfy` (`Utils`): `processArray`, `merge`, `removeEdgeSlashes`.
- `merges.dfy` (`Merges`): the shared merge semantics, parameterised by the
  value that gets replaced (`null` in `merge`, `undefined` in `deepMerge`):
  - specification functions;
  - the loops of the source, proved against those functions;
  - the properties.
- `parent_data.dfy` (`ParentDatas`): the `ParentData` class.
- `db.dfy` (`Db`): `deepMerge`, the options, a `Disk` class behind the
  adapter calls, and the `DBDotJSON` class. Its methods are proved equal to
  specification functions over a `World` (the store's fields plus the
  disk), about which the properties are stated.

How JavaScript behaviour is represented:

- A thrown exception is an `Err` result.
- A runtime error (TypeError, ReferenceError, SyntaxError, an adapter's I/O
  error) is `Native(name, message)`.
- `JSON.parse` and `JSON.stringify`, with their reviver, replacer and
  indentation, are the two function fields of a `Codec`. Either may fail.
- The adapters `exists`, `mkdir`, `read` and `save` act on a `Disk` (a map
  from file names to texts, plus a set of directories). Each adapter in the
  disk's `faults` set throws on every call.
- `pjoin`, the `dirname` resolver and the codec are parameters.
- `for...in` is modelled by what it yields. An object yields its own keys, an
  array or a string yields its index keys, and anything else yields nothing. A
  string entry is its one-character string; a string is a sequence of Unicode
  characters, not of UTF-16 code units (see "Left out").
- `lib/errs.js` and `db.js` (lines 22-32) each declare a `DatabaseError`. The
  two classes keep the same fields and print the same text, so both are
  `Errs.NewDatabaseError`.

Two behaviours of the code worth noting:

- A failing `saveSync` leaves `loaded` as it was. It does not reset it.
- `setData` at an index past the end of an array grows the array. It does not
  fail. The positions in between are holes, which read back as `undefined`.

## Model

| member | source | states |
|---|---|---|
| `Errs.NewDataError` | lib/errs.js:20-25 | the error is a DataError that keeps exactly the message, id and inner cause it was given |
| `Errs.NewDatabaseError` | lib/errs.js:13-18 | the error is a DatabaseError that keeps exactly the message, id and inner cause it was given |
| `Errs.ToString` | lib/errs.js:8-10 | the text of a nested error starts with its name, `": "` and its message, and is exactly that when there is no inner cause; a runtime error's text is its bare name when the message is empty, and its bare message when the name is empty |
| `Errs.ToStringWithoutCause` | lib/errs.js:8-10 | with no inner cause the text is exactly name, `": "`, message |
| `Errs.ToStringWithCause` | lib/errs.js:9 | with an inner cause the text is name, `": "`, message, `":\n"`, then the cause's own text |
| `Errs.ToStringEndsWithRootCause` | lib/errs.js:8-10 | however deep the nesting, the text ends with the text of the innermost cause (proved by induction on the chain) |
| `Errs.KindChangesOnlyName` | lib/errs.js:13-25 | the three classes differ only in their name: the same message, id and cause under another class give the same text after the name |
| `Decimal.IsIntToken` | lib/array-info.js:3 | an index token is a non-empty string of decimal digits, optionally after one leading `-` |
| `Decimal.ParseInt` | lib/array-info.js:11 | `parseInt` of a token is negative only after a `-`, and never negative without one |
| `Decimal.ShowParseInt` | lib/array-info.js:11 | a token without leading zeros (and not `-0`) is the decimal spelling of the integer read from it |
| `Decimal.ParseShowInt` | lib/array-info.js:10-11 | every decimal integer is an index token, and parsing it gives the integer back |
| `ArrayInfos.NewArrayInfo` | lib/array-info.js:6-14 | these are exclusive: the token `""` gives append mode; an integer token gives that position; any other token fails with DataError 200 |
| `ArrayInfos.NewArrayInfoOfDecimal` | lib/array-info.js:10-11 | in the model, any integer written in decimal is accepted as exactly that index; JavaScript does so only below 2^53 (see "Left out") |
| `ArrayInfos.Resolve` | lib/array-info.js:24-30 | -1 resolves to the last position, or 0 for an empty array; every other index resolves to itself |
| `ArrayInfos.GetIndex` | lib/array-info.js:22-32 | the append token passes through; an index other than -1 is returned without reading the array; -1 is resolved against the current length of `data[property]`, and fails if that is not an array |
| `ArrayInfos.GetIndexDependsOnlyOnLength` | lib/array-info.js:24-25 | two containers whose arrays have the same length resolve the index alike |
| `ArrayInfos.GetData` | lib/array-info.js:40-46 | append mode fails with DataError 100 whatever the data; otherwise the element at the resolved index, or `undefined` when there is none |
| `ArrayInfos.IsValid` | lib/array-info.js:68-71 | true exactly when the index is not the append token and resolves to an existing position `0 <= i < length` |
| `ArrayInfos.SetItems` | lib/array-info.js:53-60 | cases: append grows the array by one, puts the value last and keeps every earlier element; an in-range index replaces only that element and keeps the length; past the end the array grows to the index with `undefined` holes; another negative index leaves the elements as they are (the non-element property JavaScript sets there is not kept; see Left out) |
| `ArrayInfos.SetData` | lib/array-info.js:53-60 | the container's array becomes the result of the push or assignment, and no other property changes; a property that is not an array fails and changes nothing |
| `ArrayInfos.SpliceOne` | lib/array-info.js:79 | `splice(start, 1)`: an in-range start removes exactly that element; a start past the end removes nothing; a negative start counts from the end; an empty array stays empty |
| `ArrayInfos.DeleteItems` | lib/array-info.js:77-80 | at a valid index `i` the array becomes `a[..i] + a[i+1..]`, one shorter; an index past the end leaves it unchanged |
| `ArrayInfos.Delete` | lib/array-info.js:77-80 | the container's array loses the element named by the index, and no other property changes; a property that is not an array fails and changes nothing |
| `ArrayInfos.DeleteLast` | lib/array-info.js:24-29 | deleting at -1 removes exactly the last element |
| `Utils.SplitArrayToken` | lib/utils.js:3 | no match exactly when no `[` comes before a `]`; on a match the token is name, `[`, idx, `]`, rest, where idx holds no `[` and rest no `]` |
| `Utils.SplitArrayTokenIsUnique` | lib/utils.js:3 | that decomposition is the only one with those properties, so the groups are the text before the last `[` that has a `]` after it, and the text up to the last `]` |
| `Utils.ProcessArray` | lib/utils.js:9-14 | a token with no accessor is a plain property; otherwise the ArrayInfo built from the two groups, or that constructor's DataError 200 |
| `Utils.ProcessArrayAppend` | lib/utils.js:3-12 | `"list[]"` is `list` in append mode |
| `Utils.ProcessArrayLast` | lib/utils.js:3-12 | `"items[-1]"` is `items` at index -1 |
| `Utils.ProcessArrayNonNumeric` | lib/utils.js:12 | `"a[x]"` fails with DataError 200 |
| `Utils.ProcessArrayPlain` | lib/utils.js:13 | `"items"` is a plain property |
| `Utils.ProcessArrayUndefined` | lib/parent-data.js:56 | the root's token, `undefined` read as text, is a plain property |
| `Utils.Merge` | lib/utils.js:19-37 | the result is the fold, with `null` as the replaced value, and its keys are exactly the keys of all sources |
| `Utils.RemoveEdgeSlashes` | lib/utils.js:44 | only one leading `/` and one trailing `/` are removed, each at most once, and nothing else changes; a path that both starts and ends with `/` and is longer than one character loses exactly both, so every input has one result |
| `Utils.RemoveEdgeSlashesExamples` | lib/utils.js:44 | `"/"` and `"//"` give `""`; `"///"` gives `"/"`; `"//a//"` gives `"/a/"`; `"/a/b/"` gives `"a/b"`; `"a/b"` is unchanged |
| `Merges.MergeWith` | lib/utils.js:19-37 | the nested loops over the sources and their keys compute the fold `MergeAll` |
| `Merges.MergeSource` | lib/utils.js:22-34 | one `for...in` pass over a source computes `MergeInto` |
| `Merges.MergeObject` | lib/utils.js:22-34 | the loop over an object's keys, in any order, computes the pass over all of them |
| `Merges.MergeArray` | lib/utils.js:22-34 | the loop over an array's index keys computes the pass over all of them |
| `Merges.MergeString` | lib/utils.js:22-34 | the loop over a string's index keys computes the pass over all of them |
| `Merges.CombineStep` | lib/utils.js:23-33 | the loop body for one key, recursing through `merge` for an object |
| `Merges.CombineCharIsCombine` | lib/utils.js:22-33 | visiting a character of a string source is visiting its one-character string |
| `Merges.MergeIntoAt` | lib/utils.js:22-34 | after one pass the keys are those of the accumulator and the source; each key the source yields gets the loop body's value, and every other key keeps its value |
| `Merges.MergeAllKeys` | lib/utils.js:19-37 | a key is in the result exactly when some source yields it |
| `Merges.MergeAllSingleSource` | lib/utils.js:31-33 | a key that only one source yields keeps that source's value |
| `Merges.MergeAllStep` | lib/utils.js:21-34 | visiting source `i` at key `k` applies the loop body to the value accumulated from the sources before it |
| `Merges.MergeConcatenatesArrays` | lib/utils.js:25-27 | an accumulated array is followed by the incoming elements (or the incoming value), existing elements first; the lengths add up |
| `Merges.MergeReplacesEmptyMarker` | lib/utils.js:23-24 | an accumulated empty marker (`null` here, `undefined` in `deepMerge`) is replaced by the incoming value |
| `Merges.MergePairIsCopyThenMerge` | lib/utils.js:20-22 | merging an object-typed value with another copies its entries into a fresh object and merges the other in |
| `Merges.MergeRecursesIntoObjects` | lib/utils.js:28-30 | an accumulated object becomes the recursive merge of it with the incoming value |
| `Merges.MergeLaterScalarWins` | lib/utils.js:31-33 | with nothing accumulated, or a scalar, the later source's value wins |
| `Merges.MergeDisjointObjects` | lib/utils.js:19-37 | two objects with disjoint keys merge into their union |
| `Merges.NullSeparatesThePolicies` | db.js:6-13 | `merge` replaces an accumulated `null`, while `deepMerge` merges into it as into an object, so `[{a:null},{a:5}]` gives `{a:5}` and `{a:{}}` respectively |
| `Merges.PoliciesAgreeOnDefiniteSources` | db.js:4-19 | on sources holding no `null` and no `undefined`, `deepMerge` and `merge` give the same result, which holds neither (mutual induction over the recursion) |
| `Db.DeepMerge` | db.js:4-19 | the result is the fold from a fresh `{}`, with `undefined` as the replaced value, and its keys are exactly the keys of all sources |
| `Db.NormalizeFilename` | db.js:96 | the file name always ends with `.json`: kept when it already does, otherwise with `.json` appended |
| `Db.NormalizeFilenameIdempotent` | db.js:96 | normalising a normalised name changes nothing |
| `Db.NormalizeFilenameKeepsName` | db.js:96 | the given name is a prefix of the file name, which is at most five characters longer |
| `Db.Configure` | db.js:62-96 | `file` defaults to `db.json` and `filename` to `file`; arrays are joined; an empty `file` is refused with a SyntaxError; otherwise the file name is the normalised `filename` and `init`, when absent or `undefined`, defaults to `{type: 'DBDotJSON'}` |
| `Db.ConfigureDefaults` | db.js:63 | with an empty options object (or only `init: undefined`) the file and the file name are both `db.json` and the state starts as `{type: 'DBDotJSON'}` |
| `Db.WriteState` | db.js:201-206 | a successful write stores exactly the stringified state under the file name and changes nothing else |
| `Db.LoadSkipsWhenLoaded` | db.js:164-165 | a loaded store is not loaded again unless forced, and nothing changes |
| `Db.LoadOutcomes` | db.js:167-184 | either the store ends loaded with the state parsed from the file, or it ends not loaded with its state untouched and a DatabaseError 1 wrapping the cause; only the store's own file may have been written, and no directory disappears |
| `Db.LoadCreatesMissingFile` | db.js:169-176 | when the file is missing, its directory is recorded and created, the current state is written there and read back, and the store ends loaded |
| `Db.ReloadIsForcedLoad` | db.js:122-125 | `reloadSync` is `loadSync(true)` whatever `loaded` was, so it always reads the file again |
| `Db.SaveRequiresLoaded` | db.js:220-221 | `saveSync(false)` on a store that is not loaded throws DatabaseError 7 before anything is written |
| `Db.SaveOutcomes` | db.js:219-232 | a save succeeds exactly when it is allowed, the state stringifies and the adapter works; it then writes exactly the stringified state under the file name; a failed save changes nothing and past the gate is a DatabaseError 2 wrapping the cause; `loaded` and the state are never touched |
| `Db.SaveIdempotent` | db.js:219-232 | saving twice leaves the same disk and result as saving once |
| `Db.SaveThenReload` | db.js:122-125 | with a codec that reads back what it wrote, a save followed by a reload succeeds and gives back the same state, loaded |
| `Db.SetupCreatesStore` | db.js:70-72 | the default setup on a disk without the file ends with the file holding the initial state and the store loaded with it |
| `Db.DBDotJSON.constructor` | db.js:75-76 | a new store is not loaded and its state is the initial value |
| `Db.DBDotJSON.New` | db.js:62-99 | an empty `file` throws before anything else; otherwise the store is created and its setup runs, and a throw from the setup escapes the constructor |
| `Db.DBDotJSON.Setup` | db.js:70-72 | `loadSync()`, then `saveSync(true)` when loading threw |
| `Db.DBDotJSON.ToJSON` | db.js:104-106 | the serialisable form is the live state itself |
| `Db.DBDotJSON.WriteStateToDisk` | db.js:201-206 | stringify then write, as `WriteState` describes |
| `Db.DBDotJSON.ReadAndParseFromDisk` | db.js:177-179 | read the file and parse it into the state, marking the store loaded |
| `Db.DBDotJSON.LoadSync` | db.js:163-185 | the new store and disk, and the result, are those `LoadSpec` gives for the old ones |
| `Db.DBDotJSON.ReloadSync` | db.js:122-125 | the new store and disk, and the result, are those `ReloadSpec` gives for the old ones |
| `Db.DBDotJSON.SaveSync` | db.js:219-232 | the new disk and the result are those `SaveSpec` gives for the old store and disk |
| `Db.SaveSyncAsWritten` | db.js:227 | as written, `saveSync` never writes and always throws; past the gate the error is a DatabaseError 2 |
| `Db.SaveSyncAsWrittenNeverSaves` | db.js:227 | with a working adapter and codec, the code as written throws DatabaseError 2 where the intended call stores the text |
| `ParentDatas.ParentData.constructor` | lib/parent-data.js:5-11 | the handle keeps the token, the container, the store and the path |
| `ParentDatas.ParentData.CheckArray` | lib/parent-data.js:18-26 | for a plain token, nothing; otherwise the token's ArrayInfo. The index is checked on a deletion and whenever not appending: one that names no element fails with DataError 10, one that names an element is accepted, and DataError 200 propagates |
| `ParentDatas.ParentData.GetData` | lib/parent-data.js:27-37 | the whole container at the root; a plain token's property (`undefined` when absent); for an array token, DataError 100 in append mode, DataError 10 for an index with no element, else the element; nothing changes |
| `ParentDatas.ParentData.SetData` | lib/parent-data.js:38-51 | at the root the store's state becomes its initial value and the value is ignored; a plain token changes nothing; an array token on a non-array property fails with DataError 11 and changes nothing; on an array it pushes or assigns through the ArrayInfo |
| `ParentDatas.ParentData.Delete` | lib/parent-data.js:52-60 | at the root the state becomes `{}` and then the container loses its "undefined" key; a plain token's key is removed; an array token removes the checked element or fails with DataError 10 (append mode included) before any change |
| `ParentDatas.DeleteRemovesCheckedElement` | lib/parent-data.js:56-58 | once the index is checked, the array loses exactly the element at the resolved index and keeps the others in order |
| `ParentDatas.CheckArrayAsWritten` | lib/parent-data.js:19 | as written, `__checkArray` always throws a ReferenceError |
| `ParentDatas.CheckArrayAsWrittenBreaksGetData` | lib/parent-data.js:19 | on `{a: 1}` with token `a` the code as written throws, where the intended `getData` returns 1 |
| `ParentDatas.CheckArrayUndefinedDataAsWritten` | lib/parent-data.js:22 | without the logging line, the code as written still throws a TypeError exactly when the index is checked |
| `ParentDatas.CheckArrayUndefinedDataRejectsValidIndex` | lib/parent-data.js:22 | on `{list: [7]}` with token `list[0]` the code as written throws, where the intended check accepts the index and `getData` returns 7 |
| `ParentDatas.SetArrayAsWritten` | lib/parent-data.js:45-49 | as written, `setData` on an array token always throws and never changes the container |
| `ParentDatas.SetArrayAsWrittenRejectsPush` | lib/parent-data.js:47 | a push of 3 onto `{list: []}` throws as written, where the intended push gives `[3]` |

## Left out

- The Promise-based `load`, `save` and `reload`, and the static `load` and `loadSync` factories (db.js:113-116, 132-157, 194-210, 239-249). They are asynchronous wrappers around the same gating. The synchronous part of `save(true)` that `loadSync` runs is modelled (`Db.WriteState`).
- The default adapters (`fs`, `mkdirp`, `path.dirname`, `path.join`). The model replaces them with the `Disk` class and with `pjoin` and the `dirname` resolver as parameters. A directory is not required for a write to succeed.
- What `JSON.parse` and `JSON.stringify` compute. They are abstract functions that may fail. Round trips are stated under the hypothesis that the codec reads back what it wrote.
- A `setup` option that is a custom function: it is arbitrary code. The model has the default setup and the no-function case.
- The `console.log` calls of lib/parent-data.js:6 and 28. The one at line 19 is a finding (below).
- Floating-point numbers: JSON numbers are integers here.
- The `isInt` coercions at lib/array-info.js:3: whitespace, `"+5"`, `"1.0"`, `"1e2"`, `"0x10"`. An index token is an optional `-` followed by decimal digits.
- `ArrayInfos.NewArrayInfo`: it does not model integer width. It takes every index token as an exact unbounded integer. JavaScript reads the index as a double, so `isInt` rejects a token whose magnitude rounds to 1e21 or more with DataError 200, and `parseInt` rounds an index above 2^53.
- `ArrayInfos.SetItems`: it grows the array at any non-negative index. In JavaScript an index of 2^32-1 or more sets a plain property and leaves `length` alone. A negative index other than -1 also sets a non-element property (such as `"-2"`) in JavaScript; the model does not store it, so later reads, validity checks and deletes at the same index see it in JavaScript but not in the model.
- `Merges.MergeString`: it enumerates a string by Unicode characters. JavaScript's `for...in` enumerates UTF-16 code units, so a character outside the Basic Multilingual Plane gives two keys there and one here.
- The `m` flag of the slash-trimming regex: paths are taken to hold no line breaks.
- Holes versus `undefined`. The model stores a hole as `undefined`, so it does not capture that `hasOwnProperty` is false at a hole.
- What JavaScript does with a non-array property in `ArrayInfo` (a string's `length`, an object's `NaN` index). All of it is one generic failure, `NotArrayFailure`.
- The `avoidProperty` flag of `getIndex`: no caller in the modelled files passes it.
- `__proto__`, inherited keys and key order. Keys form a set, so properties that depend on enumeration order are not stated.
- Aliasing. A `Container` is separate from the store's state, so a change made through a `ParentData` is not seen in `DBDotJSON.state`. Likewise, `init` is not shared with the state it initialises.
- `ParentDatas.ParentData.GetData`: at the root it returns a snapshot of the container's properties, not the live object.
- Thrown values that are not errors, and the `id` argument that the base `Error` constructor ignores.

## Findings

| source | as written | input that shows it | evidently intended | confidence | as-written member | corrected member |
|---|---|---|---|---|---|---|
| lib/parent-data.js:19 | the log call reads `parent`, `data` and `dataPath`, which are bound nowhere, so every `__checkArray` throws a ReferenceError | `getData()` with token `a` over `{a: 1}` | log the handle's own fields, or nothing | high (not executed) | `ParentDatas.CheckArrayAsWritten` | `ParentDatas.ParentData.CheckArray` |
| lib/parent-data.js:22 | the index check passes `this.data`, never assigned, to `isValid`, which reads a property of `undefined` | token `list[0]` over `{list: [7]}` | check against `this.__data` | high (not executed) | `ParentDatas.CheckArrayUndefinedDataAsWritten` | `ParentDatas.ParentData.CheckArray` |
| lib/parent-data.js:47 | the array check reads `this.data[...]`, a property of `undefined`; a missing property falls through to a push on `undefined` | `setData(3)` with token `list[]` over `{list: []}` | check `this.__data[...]` | high (not executed) | `ParentDatas.SetArrayAsWritten` | `ParentDatas.ParentData.SetData` |
| db.js:227 | the adapter gets `(data, this, filename)`, and `filename` is unbound, so past the gate `saveSync` throws DatabaseError 2 without writing | `saveSync()` on a loaded store with a working adapter | `this.opts.save(data, this.filename)` | high (not executed) | `Db.SaveSyncAsWritten` | `Db.DBDotJSON.SaveSync` |
