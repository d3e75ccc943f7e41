# World-Management command layer in Dafny

This project models the command layer of Korth-Spirit/World-Management. That
is a Python tool that backs up and restores an Active Worlds world, which has
three data categories: objects, terrain and world attributes.

- A **Save** command queries one category through the SDK and appends one
  JSON line per entity to a file.
- A **Load** command reads such a file back and issues one SDK call per
  line.
- A **Delete** command makes one bulk SDK call.
- An **Aggregate** runs commands in order.
- An **Iterator** drains a generator through an action.
- A **LocalInvoker** keeps a registry of named commands and a history of
  the commands it executed.
- `create_loaded` and the command-line helpers fill that registry.

The modules follow the program's structure:

| file | module | models |
|---|---|---|
| wrappers.dfy | Wrappers | Python exceptions as `Error`, `Result`/`Outcome`, and a record stream with the error that ends it |
| func.dfy | Func | `on_each` (a closed form plus an imperative loop proved against it), `and_do`, `every_x` |
| codec.dfy | Codec | records, and the JSON and text codecs as parameters, with the laws the round-trips need |
| file.dfy | Store | `append_to` and `load` on a `Disk` object whose `files` map the methods update |
| query.dfy | Query | resolving a query-type argument: `upper`, `removesuffix('S')`, `replace('ATTRIBUTE','WORLD')`, `QueryEnum[...]` |
| world.dfy | World | the SDK as a `World` object that records every call it receives; an oracle says which calls raise |
| commands.dfy | Commands | the command constructors and the per-record callbacks |
| run.dfy | Semantics | `Run`: what each `execute` does as a function of the state before it |
| properties.dfy | Properties | the promises of the commands, stated over `Run` |
| execute.dfy | Execution | each `execute` as a method on the objects, proved equal to `Run` |
| invoker.dfy | Invoker | `LocalInvoker` (register, unregister, invoke) and `create_loaded` |
| cli.dfy | Cli | the `register` helpers of `src/cli/commands` and the final invoke of the command line |

A callback invocation is described by the effects it performed and how it
ended. `on_each` is then:

- the concatenation of the effects of the elements it reached;
- the error it lets escape.

The imperative loops are proved against that closed form: `OnEach`,
`Execution.IssueEach`, `Execution.SaveEach` and the `execute` methods. The
properties are proved about the closed form.

Two behaviours follow the code as written:

- Load stops at the first record that fails, with no per-record skip. The
  code has no `ignore_exceptions` at `src/management/commands/load.py:60-66`.
- `on_each` returns `None`. The test at `src/tests/test_common/test_func.py:25-38`
  expects a list, and is not modelled.

One behaviour is modelled as evidently intended rather than as written.
Load's per-record dispatch reads `self._query_type`, which nothing assigns
(first row of "## Findings"). `Semantics.Run` therefore runs Load through the
corrected dispatch `Commands.LoadReceive`. So do everything built on it:
`Execution.ExecuteLoad`, `Execution.Execute`, `Invoker.LocalInvoker.Invoke`,
`Cli.InvokeSelected` and the Load lemmas of `Properties`. The Load of the code
as written is `Semantics.RunLoadAsWritten`, and `Properties.LoadAsWrittenFails`
states what it does.

## Model

| member | source | states |
|---|---|---|
| Func.FirstFailure | src/common/func.py:33-38 | the index of the first element whose callback raises, or the length; every element before it passes |
| Func.OnEach | src/common/func.py:24-38 | the loop performs exactly the effects of the elements it reaches: all of them when ignoring, otherwise up to and including the first that raises; it lets escape that error, or else the iterable's own |
| Func.FlatMapAppend | src/common/func.py:33-35 | the effects over xs + ys are those over xs followed by those over ys |
| Func.OnEachIgnoring | src/common/func.py:36-38 | with ignore_exceptions every element is processed and only the iterable's own error escapes |
| Func.OnEachAborting | src/common/func.py:36-38 | without ignore_exceptions the elements after the first raising one are not processed and its error escapes |
| Func.OnEachNoFailure | src/common/func.py:33-38 | when no callback raises, the flag makes no difference |
| Func.AndDo | src/common/func.py:40-53 | one result per function, in order, each the function applied to the shared arguments |
| Func.AndDoArithmetic | src/tests/test_common/test_func.py:40-50 | (+, *, -) on (1, 2) give [3, 2, -1] |
| Func.EveryX | src/common/func.py:55-75 | the yielded values are func of each consecutive chunk of abs(x) elements, the last chunk possibly short; x == 0 raises ZeroDivisionError on a non-empty iterable and yields nothing |
| Func.Chunks | src/common/func.py:67-75 | every_x's grouping: consecutive chunks of x elements and a short last one; its properties are Func.ChunksFlatten, Func.ChunksShape and Func.ChunksAppend |
| Func.ChunksFlatten | src/common/func.py:67-75 | the chunks concatenate back to the iterable: nothing lost, duplicated or reordered |
| Func.ChunksShape | src/common/func.py:67-75 | every chunk but the last has exactly x elements; the last is non-empty and at most x; there are ceil(n / x) chunks |
| Func.ChunksAppend | src/common/func.py:68-72 | appending a short tail after whole chunks adds exactly one chunk |
| Func.EveryXFirstElements | src/tests/test_common/test_func.py:69-72 | the chunks of 1..9 and 1..8 by 3 are those whose first elements are [1, 4, 7] |
| Codec.EncodeNoNewline | src/common/file.py:41-44 | a newline-free text encodes to bytes without the newline byte |
| Codec.DecodeLine | src/common/file.py:60-63 | decoding the encoded text plus the newline byte gives the text plus "\n" |
| Store.IndexOfNewline | src/common/file.py:60 | the position of the first newline byte, or the length when there is none |
| Store.Appended | src/common/file.py:26-44 | append_to over the file system: the data and one newline appended to the path, created if absent, or the error open raises with nothing changed; Store.Disk.AppendTo is proved equal to it; a text the locale cannot encode is left out |
| Store.SplitLines | src/common/file.py:59-60 | iterating a file: each line up to and including its newline byte, and a last line without one; Store.SplitAppend and Store.SplitAtNewline state its properties |
| Store.Parsed | src/common/file.py:59-63 | the records of the lines in order, ending with the error of the first line that does not decode or parse; Store.ParsedStep and Store.ParsedAppend state its properties |
| Store.Loaded | src/common/file.py:46-63 | load: open's error for a None, empty or missing path, otherwise Parsed of the file's lines; Store.ReadBack and Properties.SaveLoadFresh state its round trip; text-mode decoding is per line, not per read chunk |
| Store.Disk.AppendTo | src/common/file.py:26-44 | the new file system and outcome are `Appended`: the data then one newline appended to the path, created if absent; a None path raises TypeError and an empty path FileNotFoundError, changing nothing; a text the locale cannot encode is left out |
| Store.Disk.Load | src/common/file.py:46-63 | the records are `Loaded`: one per line in file order, decoded as UTF-8 in binary mode, ending at the first line that does not parse; a missing file yields FileNotFoundError; text-mode decoding is per line, not per read chunk |
| Store.ParsedStep | src/common/file.py:59-63 | each line either raises, ending the records before it, or adds its own record after them |
| Store.WrittenIsOneLine | src/common/file.py:35-44 | append_to writes the payload and exactly one newline byte, in binary and text mode alike |
| Store.NewlineInPrefix | src/common/file.py:60 | the first newline of a + b is a's when a has one |
| Store.NewlineAfterPrefix | src/common/file.py:60 | a newline-free prefix shifts the first newline by its length |
| Store.SplitAtNewline | src/common/file.py:60 | a content with a newline splits into its first line and the rest |
| Store.SplitAppend | src/common/file.py:39-44 | appending a newline-free line to a terminated file adds exactly that one line and keeps the earlier lines |
| Store.ParsedAppend | src/common/file.py:59-63 | one more well-formed line yields one more record after the earlier ones |
| Store.AppendOneRecord | src/common/file.py:26-63 | appending one serialized record keeps the file terminated and makes load yield that record last |
| Store.BlockLast | src/common/file.py:39-44 | the bytes of n appended lines are those of the first n - 1 followed by the last |
| Store.ReadBack | src/common/file.py:26-63 | round trip: after appending the lines of texts to a terminated, well-formed file, load yields the old records followed by the decoded texts, in order, with no error |
| Query.FromName | src/management/commands/file_abc.py:51 | QueryEnum[name] is the member with that name, or KeyError(name) when no member has it |
| Query.Upper | src/management/commands/file_abc.py:44-45 | str.upper, one character at a time; Query.UpperIdempotent, Query.UpperAppend and Query.UpperLowerAscii state its properties |
| Query.Replace | src/management/commands/file_abc.py:47 | str.replace: every non-overlapping occurrence, left to right; Query.ReplaceAbsent and Query.ReplaceToWorld state its properties |
| Query.Normalised | src/management/commands/file_abc.py:44-47 | the name the constructors compute: upper, removesuffix('S'), replace('ATTRIBUTE', 'WORLD'); Query.SpellingResolves states which arguments give which name |
| Query.Resolve | src/management/commands/file_abc.py:44-51 | QueryEnum of the normalised name, or KeyError of it; Query.ResolveSpellings states exactly which arguments resolve to which category |
| Query.RemoveSuffix | src/management/commands/file_abc.py:46 | the suffix is dropped once exactly when the string ends with it |
| Query.UpperCharFixed | src/management/commands/file_abc.py:45 | every character upper-casing produces is one upper-casing keeps |
| Query.UpperOfFixed | src/management/commands/file_abc.py:45 | a string of kept characters upper-cases to itself |
| Query.UpperIdempotent | src/management/commands/file_abc.py:45 | upper-casing twice is upper-casing once |
| Query.UpperAppend | src/management/commands/file_abc.py:45 | upper-casing distributes over concatenation |
| Query.UpperLowerAscii | src/management/commands/file_abc.py:45 | a lower-case ASCII word upper-cases letter by letter, keeping its length |
| Query.UpperUpperAscii | src/management/commands/file_abc.py:45 | an upper-case ASCII word upper-cases to itself |
| Query.RemoveAppendedSuffix | src/management/commands/file_abc.py:46 | removing an appended suffix gives the string back |
| Query.ReplaceAbsent | src/management/commands/file_abc.py:47 | replace changes nothing when the pattern occurs nowhere |
| Query.ReplaceShort | src/management/commands/file_abc.py:47 | replace changes nothing in a string shorter than the pattern |
| Query.ReplaceWithout | src/management/commands/file_abc.py:47 | replace changes nothing when the pattern's first character does not occur |
| Query.ReplaceToWorld | src/management/commands/file_abc.py:47 | the only strings the replacement turns into WORLD are WORLD and ATTRIBUTE |
| Query.ReplaceNonEmpty | src/management/commands/file_abc.py:47 | replace gives the empty string exactly for the empty string |
| Query.ResolveSpellings | src/management/commands/file_abc.py:44-51 | resolution gives category c if and only if the upper-cased argument is one of c's spellings (OBJECT(S), TERRAIN(S), WORLD(S), ATTRIBUTE(S)); otherwise KeyError of the normalised name |
| Query.SuffixedSpellings | src/management/commands/file_abc.py:44-47 | each category name and that name plus S are spellings of it |
| Query.SpellingResolves | src/management/commands/file_abc.py:44-51 | every spelling of c normalises to c's enum name |
| Query.ObjectSpellings | src/management/commands/file_abc.py:44-47 | OBJECT and OBJECTS normalise to OBJECT |
| Query.TerrainSpellings | src/management/commands/file_abc.py:44-47 | TERRAIN and TERRAINS normalise to TERRAIN |
| Query.WorldSpellings | src/management/commands/file_abc.py:44-47 | WORLD(S) and ATTRIBUTE(S) normalise to WORLD |
| Query.ResolveAttributes | src/management/invoker.py:134 | "attributes" upper-cases to ATTRIBUTES and resolves to WORLD |
| Query.ResolveObjects | src/management/invoker.py:135 | "objects" resolves to OBJECT |
| Query.ResolveTerrain | src/management/invoker.py:136 | "terrain" resolves to TERRAIN |
| Query.UpperAll | src/cli/__init__.py:97 | "all" upper-cases to ALL |
| Query.ResolveDoubleSuffix | src/management/commands/file_abc.py:46 | only one trailing S is dropped: "objectss" raises KeyError('OBJECTS') |
| Query.ResolveCapitalAttributes | src/management/invoker.py:118-128 | the item ATTRIBUTES resolves to WORLD |
| Query.ResolveCapitalObjects | src/management/invoker.py:118-128 | the item OBJECTS resolves to OBJECT |
| Query.ResolveCapitalTerrain | src/management/invoker.py:118-128 | the item TERRAIN resolves to TERRAIN |
| Query.ResolveCapitalObject | src/management/commands/file_abc.py:44-51 | the singular OBJECT resolves to OBJECT |
| Query.ResolveCapitalised | src/management/commands/file_abc.py:44-51 | mixed case is folded: "Attribute" resolves to WORLD |
| Query.UpperCapitalised | src/management/commands/file_abc.py:45 | "Attribute" upper-cases to ATTRIBUTE |
| Query.UpperCons | src/management/commands/file_abc.py:45 | upper-casing a character and then the rest is upper-casing both |
| World.CallOutcome | src/management/commands/delete.py:56-61 | an SDK call passes exactly when the SDK does not raise on it |
| World.World.Issue | src/management/commands/delete.py:56-61 | the call is appended to the world's trace whether or not it raises, and the outcome is the SDK's |
| Commands.NewFileFields | src/management/commands/file_abc.py:28-53 | construction succeeds exactly when the argument is a spelling of some category, and then stores the argument verbatim, that category, the file name and the mode; otherwise it raises KeyError of the normalised name |
| Commands.NewSave | src/management/commands/save.py:30 | Save is constructed exactly when FileABC's fields are, from those fields, with the same KeyError otherwise |
| Commands.NewLoad | src/management/commands/load.py:33 | Load is constructed exactly when FileABC's fields are, from those fields, with the same KeyError otherwise |
| Commands.NewDelete | src/management/commands/delete.py:29-48 | Delete resolves like FileABC: it exists exactly for the spellings of a category, keeping the argument and that category |
| Commands.ConstructorsResolved | src/management/commands/file_abc.py:28-53 | a query type that resolves to a category makes Delete, Load and Save construct over that category, keeping the argument verbatim |
| Commands.NewSaveQuery | src/management/commands/save/query.py:31-50 | SaveQuery keeps the category as given, with the file name and the mode |
| Commands.Strip | src/management/commands/load.py:55-57 | id and number are removed when present and every other key keeps its value |
| Commands.WorldWrite | src/management/commands/load.py:45-49 | write_data is called exactly when name is present, a string and a known attribute, and value is present, with the attribute's number and the value |
| Commands.LoadDispatch | src/management/commands/load.py:41-49 | an object record becomes aw_object_load, a terrain record aw_terrain_load_node, a world record write_data |
| Commands.LoadReceive | src/management/commands/load.py:55-58 | Load's `_receive`: pop 'id' and 'number', then the corrected dispatch Commands.LoadDispatch on the stored category |
| Commands.LoadDispatchAsWrittenFails | src/management/commands/load.py:41 | as written, every record raises AttributeError('_query_type'), while the intended dispatch loads every object and terrain record |
| Commands.ObjectLoadFunction | src/management/commands/load/objects.py:44-52 | aw_object_load of the record with id and number stripped |
| Commands.NewLoadObjects | src/management/commands/load/objects.py:30-60 | a LoadQuery of the objects whose load function is ObjectLoadFunction, on the given file and mode |
| Commands.ObjectDeleteAction | src/management/commands/delete/objects.py:43-45 | aw_object_delete(number, x, z) exactly when all three are present; AttributeError('number') when number is missing |
| Commands.BulkDeleteInjective | src/management/commands/delete.py:56-61 | each category's bulk delete is a different SDK call |
| Commands.GeneratorsOfPart | src/management/commands/aggregate.py:44-45 | an aggregate owns the generators of each of its commands |
| Semantics.ApplyAppend | src/common/func.py:33-35 | applying a + b is applying a and then b |
| Semantics.Run | src/management/commands/load.py:41-66 | what each command's execute leaves and how it ends: Save, SaveQuery, Load, LoadQuery, Delete, Iterator and Aggregate; its Load case applies the `_query_type` fix through Commands.LoadReceive (the code as written is Semantics.RunLoadAsWritten); the Execution methods are proved equal to it and Properties states its promises |
| Semantics.RunLoadAsWritten | src/management/commands/load.py:41-66 | Load.execute as the code is written: the file's records through the `_query_type` dispatch, which raises AttributeError on the first record; Properties.LoadAsWrittenFails states it |
| Semantics.SaveAttempt | src/management/commands/save.py:34-40 | Save's `_receive`: the serialized record appended as one line, or the error of serializing or opening with nothing written; Semantics.SaveAttemptOne states it |
| Semantics.IssueAttempt | src/management/commands/iterator.py:47-51 | a callback that issues one SDK call: the call recorded and the SDK's outcome, or the error of computing the call with nothing issued; Properties.IssueAttemptPass states it |
| Semantics.ApplyOne | src/common/func.py:33-35 | applying one more effect is one more step |
| Semantics.IssuedCalls | src/management/commands/iterator.py:47-51 | at most one call per record |
| Semantics.BlockEmpty | src/common/file.py:41-44 | the appended bytes are empty exactly when no line was appended |
| Semantics.ExtendedStep | src/common/file.py:37-44 | appending further bytes to one path extends the same file |
| Semantics.SaveAttemptOne | src/management/commands/save.py:34-40 | Save's callback writes one line for a record that serializes, and nothing otherwise |
| Semantics.SavedBlockStep | src/management/commands/save.py:34-40 | one more record adds its line to the saved block exactly when it serializes |
| Semantics.SaveEffects | src/management/commands/save.py:42-46 | Save's callbacks over records append to one file exactly the lines of the records that serialize, in order, and touch no other file |
| Properties.SavedPairs | src/management/commands/save.py:34-40 | with json's round-trip law, each saved text is one line and loads back to its record |
| Properties.SavedFromRecords | src/management/commands/save.py:42-46 | only queried records are saved |
| Properties.SavedAll | src/management/commands/save.py:42-46 | when every record serializes, all are saved, in query order |
| Properties.IssuedCallsAll | src/management/commands/load.py:60-66 | when every call can be computed, one call per record, in order |
| Properties.IssuedCallsAppend | src/common/func.py:33-35 | the calls for xs + ys are those for xs followed by those for ys |
| Properties.IssuedCallsSkip | src/management/commands/iterator.py:47-51 | a record whose call cannot be computed contributes nothing |
| Properties.IssueEffects | src/management/commands/load.py:60-66 | the SDK callbacks extend the trace by exactly the issued calls and change nothing else |
| Properties.NoEffects | src/common/func.py:33-35 | callbacks with no effects do nothing |
| Properties.ContentExtended | src/common/file.py:37-44 | the extended path gains exactly the bytes and every other path is unchanged |
| Properties.SaveRun | src/management/commands/save.py:31-46 | Save appends to its file exactly the lines of the queried records that serialize, in order; no SDK call, no other file; only the query's own error escapes |
| Properties.SaveQueryRun | src/management/commands/save/query.py:52-70 | the same for SaveQuery, through json.dumps(data.__dict__) |
| Properties.SaveNowhere | src/common/file.py:37 | with no file name or an empty one, every append raises, is swallowed, and Save changes nothing |
| Properties.SaveTwice | src/management/commands/save.py:40 | two saves to one file leave the old content, then the first block, then the second |
| Properties.IssueAttemptPass | src/management/commands/load.py:55-58 | a record loads exactly when its call can be computed and the SDK does not raise on it |
| Properties.IssueAll | src/common/func.py:33-38 | when every record loads, one call per record whatever the flag, and only the stream's error escapes |
| Properties.IssueIgnoring | src/management/commands/iterator.py:47-51 | ignoring errors, a call for every record whose call can be computed, and only the stream's error escapes |
| Properties.IssueStops | src/common/func.py:36-38 | not ignoring errors, calls up to and including the first failing record, and its error escapes |
| Properties.LoadRun | src/management/commands/load.py:52-66 | when every record loads, one dispatched call per stripped record of the file, in file order |
| Properties.LoadStops | src/management/commands/load.py:60-66 | the first record that fails ends the load with its error, and no later record is loaded |
| Properties.LoadQueryRun | src/management/commands/load/query.py:55-69 | load_function gets each record of the file, in order; the category plays no part |
| Properties.LoadQueryStops | src/management/commands/load/query.py:63-69 | LoadQuery stops at the first record that does not load |
| Properties.LoadObjectsRun | src/management/commands/load/objects.py:44-60 | one aw_object_load per record of the file, with id and number stripped, in order |
| Properties.LoadFreshBlock | src/common/file.py:46-63 | loading the lines appended to a fresh file yields their records, or FileNotFoundError if none was appended |
| Properties.ReadBackFresh | src/common/file.py:46-63 | a file that holds only the appended lines loads as exactly their records, without error |
| Properties.SaveLoadFresh | src/management/commands/load.py:52-66 | a save then a load of a new file reads back exactly the saved records, or FileNotFoundError when none was saved |
| Properties.LoadAppendedBlock | src/common/file.py:46-63 | loading a file extended by lines yields the old records followed by the new |
| Properties.SaveLoadAppends | src/management/commands/save.py:40 | a save to an existing well-formed file keeps the old records and adds the saved ones after them |
| Properties.BackupRestore | src/management/commands/load.py:52-66 | backup then restore: the load issues, in order, the dispatched call of each saved record; it passes, or raises FileNotFoundError when nothing was saved |
| Properties.RestoreCalls | src/management/commands/load.py:55-66 | the restore half: exactly the dispatched call of each saved record |
| Properties.LoadAsWrittenFails | src/management/commands/load.py:41 | as written, a Load of a non-empty file raises AttributeError on the first record and issues no SDK call |
| Properties.DeleteRepeats | src/management/commands/delete.py:50-61 | Delete makes one bulk call for its category; run twice, it makes it twice |
| Properties.DeleteRaises | src/management/commands/delete.py:56-61 | a bulk call that raises is still made, and its error escapes |
| Properties.AggregateEmpty | src/management/commands/aggregate.py:44-45 | an empty aggregate does nothing |
| Properties.RunFromSame | src/management/commands/aggregate.py:44-45 | two aggregates whose remaining commands are the same run the same way |
| Properties.RunFromConcat | src/management/commands/aggregate.py:44-45 | running xs + ys from i is running xs from i, then ys if nothing raised |
| Properties.RunFromConcatEnd | src/management/commands/aggregate.py:44-45 | once the commands of xs are done, the rest of xs + ys runs exactly as ys does |
| Properties.AggregateConcat | src/management/commands/aggregate.py:44-45 | an aggregate of xs + ys runs xs, then ys only if xs passed |
| Properties.AggregateSingle | src/management/commands/aggregate.py:44-45 | an aggregate of one command is that command |
| Properties.AggregatePair | src/management/commands/aggregate.py:44-45 | two commands run in order, the second only if the first passed |
| Properties.AggregateStops | src/management/commands/aggregate.py:44-45 | after a command raises, the later commands do not run and its error escapes |
| Properties.AggregateFlatten | src/management/commands/aggregate.py:44-45 | a nested aggregate runs like its commands spliced in place |
| Properties.IteratorRun | src/management/commands/iterator.py:43-51 | the action's call for every pending record whose call can be computed, in order; the generator is exhausted; only its own error escapes |
| Properties.IteratorOneShot | src/management/commands/iterator.py:47-51 | a second execute yields nothing and changes nothing |
| Properties.DeleteObjectsRun | src/management/commands/delete/objects.py:41-46 | one aw_object_delete(number, x, z) per queried object, in query order |
| Properties.DeleteObjectsSkips | src/management/commands/delete/objects.py:41-46 | an object without number, x or z is skipped and the rest proceed |
| Execution.IssueEach | src/management/commands/load.py:60-66 | the loop issues exactly the calls, and ends with exactly the outcome, of on_each over the SDK callback |
| Execution.SaveEach | src/management/commands/save.py:42-46 | the loop appends exactly the lines of on_each over Save's callback with errors ignored |
| Execution.Execute | src/management/commands/delete.py:50-61 | every execute leaves the trace, files and generators as `Run` says and ends as it says; Delete's branch is inline |
| Execution.ExecuteSave | src/management/commands/save.py:31-46 | Save.execute and SaveQuery.execute are `Run` of the command |
| Execution.ExecuteLoad | src/management/commands/load.py:52-66 | Load.execute with the `_query_type` fix applied is `Run` of the command: each record of the file stripped and dispatched on the stored category, stopping at the first that raises (the code as written raises AttributeError instead: `Semantics.RunLoadAsWritten`) |
| Execution.ExecuteLoadQuery | src/management/commands/load/query.py:55-69 | LoadQuery.execute is `Run` of the command |
| Execution.ExecuteIterator | src/management/commands/iterator.py:43-51 | the generator is drained and exhausted, as `Run` says |
| Execution.ExecuteAggregate | src/management/commands/aggregate.py:39-46 | the for loop runs the commands in order and stops at the first that raises, as `Run` says |
| Execution.NewDeleteObjects | src/management/commands/delete/objects.py:32-46 | the object query runs at construction; the command holds a fresh generator over its results and the delete action |
| Invoker.NotFound | src/management/invoker/local.py:84 | the KeyError message names the command |
| Invoker.LocalInvoker.constructor | src/management/invoker/local.py:25-30 | empty registry and empty history |
| Invoker.LocalInvoker.Register | src/management/invoker/local.py:56-69 | binds the name, leaves every other entry and the history, returns the same invoker |
| Invoker.LocalInvoker.Unregister | src/management/invoker/local.py:42-54 | removes exactly that name; an absent name raises KeyError(name) and changes nothing; the history is untouched |
| Invoker.LocalInvoker.Invoke | src/management/invoker/local.py:71-89 | an unknown name raises KeyError and changes nothing; a known name runs its command once, as `Run` says, and appends exactly it to the history only if execute did not raise |
| Invoker.LocalInvoker.CreateLoaded | src/management/invoker.py:94-159 | returns a fresh invoker with empty history whose registry is `Registry(args)` |
| Invoker.LocalInvoker.RegisterEntry | src/management/invoker.py:126-128 | one turn of the nested loop binds f"{name} {item}" to its command |
| Invoker.LocalInvoker.RegisterItems | src/management/invoker.py:126-128 | the inner loop for one action registers its three items, in order, and nothing else |
| Invoker.LocalInvoker.RegisterAggregates | src/management/invoker.py:130-159 | DELETE ALL always, LOAD ALL and SAVE ALL only for a truthy file |
| Invoker.LocalInvoker.CreateLoadedAsWritten | src/management/invoker.py:140-159 | as written, create_loaded returns None on both paths |
| Invoker.TableStep | src/management/invoker.py:126-128 | the loop's registrations come in action-major order |
| Invoker.RowOfTable | src/management/invoker.py:126-128 | one turn of the outer loop is the next three registrations of the table |
| Invoker.TableKeys | src/management/invoker.py:126-128 | after n turns the registry holds exactly the first n names |
| Invoker.TableLookup | src/management/invoker.py:126-128 | each earlier name keeps its command: no later turn overwrites it |
| Invoker.GridDistinct | src/management/invoker.py:113-128 | different loop turns register different names |
| Invoker.GridIndex | src/management/invoker.py:126-127 | the nine names by turn are the nine names by action and item |
| Invoker.LoadedKeys | src/management/invoker.py:113-159 | the registry holds exactly {DELETE, LOAD, SAVE} x {ATTRIBUTES, OBJECTS, TERRAIN} and DELETE ALL, plus LOAD ALL and SAVE ALL if and only if the file is truthy |
| Invoker.Table | src/management/invoker.py:126-128 | the registry after the first n turns of the nested loop, in action-major order; Invoker.TableKeys and Invoker.TableLookup state its keys and values |
| Invoker.Registry | src/management/invoker.py:124-159 | the registry create_loaded fills: the nine action-item commands, DELETE ALL, and LOAD ALL and SAVE ALL for a truthy file; Invoker.LoadedKeys and Invoker.LoadedLookup state it |
| Invoker.LoadedLookup | src/management/invoker.py:107-159 | each name is bound to its command: Delete, or Load or Save on args.file with args.binary; DELETE ALL to the three deletes in order; LOAD ALL and SAVE ALL to the three suffixed files in order |
| Invoker.NamesDistinct | src/management/invoker.py:113-128 | the nine action-item names are pairwise different |
| Invoker.OutsideGrid | src/management/invoker.py:130-159 | the three ALL names are none of the nine |
| Invoker.FactoryEntry | src/management/invoker.py:107-128 | every action-item factory call constructs without raising, and constructs `Entry` |
| Invoker.FactoryResolved | src/management/invoker.py:107-128 | an item that resolves to its category makes the action's factory construct `Entry` |
| Invoker.ResolveAll | src/management/invoker.py:133-158 | the lower-case constructors of the ALL aggregates do not raise |
| Cli.Formatted | src/cli/commands/save.py:47-49 | f"{file}" of a missing file is "None" |
| Cli.RegisterSave | src/cli/commands/save.py:37-51 | the chained registers bind the four SAVE names as `SaveBindings` says and leave the history |
| Cli.RegisterLoad | src/cli/commands/load.py:37-53 | the chained registers bind LOAD OBJECTS and LOAD ATTRIBUTES as `LoadBindings` says and leave the history |
| Cli.SaveBindingsExact | src/cli/commands/save.py:40-51 | exactly the four SAVE names are added or rebound, to Saves on args.file and a three-part SAVE ALL; every other entry is unchanged |
| Cli.SaveAgreesWithLoaded | src/cli/commands/save.py:44-50 | with a truthy file, SAVE ALL equals create_loaded's; each per-category Save matches create_loaded's except for the kept spelling |
| Cli.LoadBindingsExact | src/cli/commands/load.py:37-53 | exactly LOAD OBJECTS and LOAD ATTRIBUTES are bound; LOAD TERRAIN and LOAD ALL are not added; every other entry is unchanged |
| Cli.UpperChoice | src/cli/__init__.py:57-63 | the four --type choices upper-case to ALL and the three item names |
| Cli.ActionRegistered | src/cli/__init__.py:94-97 | the name the command line invokes is registered by create_loaded exactly when it is not LOAD ALL or SAVE ALL without a truthy file |
| Cli.ActionName | src/cli/__init__.py:94-97 | the name the command line invokes: DELETE, else LOAD, else SAVE, a space, and the upper-cased type; Cli.ActionRegistered states when it is registered |
| Cli.ItemRegistered | src/management/invoker.py:126-128 | every action-item name is registered |
| Cli.AllRegistered | src/management/invoker.py:130-159 | DELETE ALL is registered; LOAD ALL and SAVE ALL only with a truthy file |
| Cli.RegistryOwnsNoGenerator | src/management/invoker.py:113-159 | no registered command holds a generator |
| Cli.TableOwnsNoGenerator | src/management/invoker.py:126-128 | no action-item command holds a generator |
| Cli.InvokeSelected | src/cli/__init__.py:91-97 | with create_loaded returning its invoker, the selected command runs as `Run` says, or KeyError when it is not registered |
| Cli.InvokeSelectedAsWritten | src/cli/__init__.py:92-97 | as written, invoke is looked up on None and raises AttributeError |

## Left out

- Logging calls are not modelled: they have no effect on state.
- Python's generators are modelled as whole record streams plus the error that ends them. For `and_do` and `every_x` that means value sequences. Laziness is not modelled. The one generator a command owns (DeleteObjects) is a `Generator` object.
- Func.EveryX: the aliasing of the reused `store` list, which a caller can observe, is not modelled; the chunks are values.
- Invoker.LocalInvoker.Invoke: the history is a field, and aliasing of the list returned by the `history` property is not modelled.
- The korth_spirit SDK is not part of this model:
  - every SDK call is an event recorded in the world's trace;
  - a fixed oracle (`Sdk.raises`) says whether a call raises;
  - a fixed function (`Sdk.query`) gives each category's records;
  - `Sdk.attribute` stands for `WorldAttributeEnum`.
- The construction of `ObjectLoadData`, `TerrainNodeData` and `ObjectDeleteData` is not separated from the call. A constructor failure counts as the call raising.
- QueryEnum is modelled as a closed enum of OBJECT, TERRAIN and WORLD. The model assumes it has no other members.
- json, `dataclasses.asdict`/`__dict__` and the UTF-8 and locale codecs are parameters. The round-trip lemmas require the laws stated in codec.dfy: `Inverts`, `LawfulText`.
- Values are JSON scalars: floats and nested objects are not modelled.
- The floating-point case of the and_do test (1 / 2 == 0.5) is not modelled.
- The on_each test at src/tests/test_common/test_func.py:25-38 is not modelled: it expects a list, and on_each returns None.
- Store.Disk.Load: lines are split at the newline byte only. In text mode Python reads with universal newlines, so a lone "\r" or a "\r\n" also ends a line and is read as "\n"; a text file holding `{"a":1}\r{"b":2}` is two records to Python and one malformed line to the model. Files written by Save are unaffected, because json.dumps escapes "\r".
- Store.Disk.Load, Store.Loaded, Store.Parsed: in text mode Python decodes the file one read chunk at a time (8192 bytes through the TextIOWrapper that `open(file, "r")` returns at src/common/file.py:57-60). A byte the locale cannot decode therefore raises UnicodeDecodeError before any line of its chunk is yielded. The model decodes each line on its own, so it yields the records that come before the bad line. With a UTF-8 locale, a text file holding the bytes `1\n\xff\n` loads as no record and DecodeError in Python, and as the record of `1` and then DecodeError in the model; by Properties.LoadStops the model's Load then makes the first record's SDK call, and Python makes none. Binary mode decodes line by line as the model does (src/common/file.py:61-62), and json.loads errors are per line in both. Files written by Save are unaffected: json.dumps output is ASCII.
- Store.Appended, Store.Disk.AppendTo, Store.Payload, Store.Written: text-mode encoding cannot fail in the model, because the locale codec's `encode` is total. In Python, `open(file, "a+")` at src/common/file.py:37 creates the file, and `f.write(data)` at src/common/file.py:39 raises UnicodeEncodeError for a character the locale encoding cannot represent. The file then exists, nothing is written to it, and the error escapes append_to. For example, `append_to("f", "☃")` under cp1252 leaves an empty file "f" and raises; the model appends the encoded bytes and passes. Save's own lines are unaffected, because json.dumps output is ASCII which ASCII-compatible locale encodings such as UTF-8 and cp1252 represent.
- Store.Disk.AppendTo: text mode writes "\n" unchanged; the platform's newline translation on write is not modelled.
- OS errors other than a None path and an empty path are not modelled, for example permissions or a full disk. A missing file read by `load` is FileNotFoundError.
- Query.Upper: `str.upper` is modelled for ASCII letters and for the characters whose upper case is ASCII. Other non-ASCII letters are kept unchanged.
- The world passed to `execute` is a parameter, not a field of each command. A command holds only its own data and, for Iterator, its generator.
- src/management/invoker.py repeats local.py's register, unregister and invoke verbatim, so they are modelled once, in `Invoker.LocalInvoker`.
- Import resolution between management/invoker.py and the management/invoker/ package is not modelled.
- LoadAttributes and src/cli/commands/delete.py are not part of this model. The LOAD ATTRIBUTES command is a parameter of `Cli.RegisterLoad`.
- src/cli/commands/__init__.py only calls the three helpers in turn, one of them unseen, and is not modelled.
- Argument parsing, the `ReceiverInstance` context manager and the configuration file are not modelled; the parsed flags are parameters.
- Properties.DeleteObjectsRun requires every object to carry number, x and z. A missing key is covered by Properties.DeleteObjectsSkips and, in general, by Properties.IteratorRun.

## Findings

| source | as written | input that shows it | evidently intended | confidence | as-written member | corrected member |
|---|---|---|---|---|---|---|
| src/management/commands/load.py:41 | `_load_function` reads `self._query_type`, which no constructor assigns. FileABC stores the category as `_query` (src/management/commands/file_abc.py:51). | any Load whose file holds one record: the first record raises AttributeError and nothing is loaded | compare `self._query` and dispatch on it | high; not executed | Commands.LoadDispatchAsWritten, Properties.LoadAsWrittenFails | Commands.LoadDispatch, Commands.LoadReceive, Semantics.Run, Execution.ExecuteLoad, Properties.BackupRestore |
| src/management/invoker.py:140-159 | `create_loaded` ends in a bare `return` (line 141) or falls off its end (line 159), so it returns None despite its documented return type | any command line, e.g. `backup f -t objects`: `actor.invoke(...)` at src/cli/__init__.py:97 raises AttributeError | `return invoker` on both paths | high; not executed | Invoker.LocalInvoker.CreateLoadedAsWritten, Cli.InvokeSelectedAsWritten | Invoker.LocalInvoker.CreateLoaded, Cli.InvokeSelected |
