# In-memory file system shell, modelled in Dafny

The program keeps a tree of directories and files in memory and drives it from a
command loop. A directory is a Python dict from names to entries; an entry is either
another dict or a `FileObject`. A `FileObject` has a name, a text content, a recorded
size and the mode it was last opened in.

The engine, `FileSystem`, holds four things:
- the root dict;
- the current directory, `current_dir`;
- the current path string, `current_path`;
- a single open-file handle, `open_file`.

The loop strips each input line and stops on `exit`. Any other line is cut into
arguments: a line containing `"` yields three arguments (the first word, the text
between the first two quotes and the last word); any other line is split on whitespace.
The first argument selects one of fourteen operations. Any exception the operation
raises (a missing argument, a non-integer, an unknown file, a wrong mode, an existing
name) is caught and printed.

The model is split into six modules:

- `Outcomes` (outcomes.dfy): `Option`, `Result<T>` and `Error`, one constructor per kind
  of exception the program can raise.
- `PyStr` (python_str.dfy): the Python string operations the program relies on.
  - Slicing, with clamped and negative bounds.
  - `strip`, `split(c)` and `join`.
  - `split()` on whitespace.
  - Decimal rendering of integers, and the subset of `int()` that accepts ASCII digit
    strings.
- `FileObjects` (file_object.dfy): `FileObject` as a class with its mode-guarded edits.
  - The content edits are specified by functions: `Inserted`, `ReadRange`, `Moved` and
    `Truncated`.
  - `Mode.Unset` stands for a file that was never opened; reading its missing `mode`
    attribute raises.
- `Tree` (tree.dfy): the directory tree as values.
  - A dict is an ordered list of unique bindings.
  - `Lookup` walks a path of names through the tree.
  - `UpdateAt` is the tree after one dict has been changed in place.
  - Also the lines printed by `listDir` and `_printMemoryMap`.
- `FileSystems` (file_system.dfy): `FileSystem` as a class.
  - `cwd`, the list of names walked from the root, stands for `current_dir`.
  - `Valid()` says every dict has unique names and `cwd` resolves.
  - Each operation is a method whose effect is a two-state predicate.
  - The path-string arithmetic of `chDir("..")` is modelled with it.
- `Shell` (shell.dfy): one turn of the command loop.
  - `Tokenise` cuts the line into arguments.
  - `Decode` turns the arguments into a `Command`, or into the error that argument
    access or `int()` raises.
  - `Execute` runs the command on the engine and yields the printed lines and the
    error, if any.
  - `Step` is one whole turn.

Three behaviours of the code are followed as written.

**chDir("..") and the path string.** The parent path is computed as
`"/".join(path.strip("/").split("/")[:-1])`. From `/a/b/` this gives `a`, without
slashes. The next descent into `c` makes the path `ac/`, and the `..` after that returns
to the root rather than to `/a`. `ParentPathDropsSlashes` and `WalkOfUnslashed` state
this. `ChDirUpGoesToParent` proves that `..` from a canonical path does reach the parent.

**move_within_file.** When the target lies beyond the current length, the content
becomes `content[:start] + content[start+size:] + content[start:start+size]`. For a
non-negative start and size this cuts the range out and appends it, so the length is
kept. The loop passes the integers on unchecked, though, and a negative start is
counted from the end. Then the formula no longer rearranges: "ABCDE" with start -1,
size 3 and a far target becomes "ABCDCDE" (`MovedNegativeStart`). When the target lies
within the content, a copy of the range is inserted at the target and the original
stays in place. `size` is not updated in either case.

**Where current_dir can end up.** `_getDirFromPath` can end on a file. The model
keeps that case: every later dict operation on `current_dir` then fails.

## Model

| member | source | states |
|---|---|---|
| PyStr.Slice | file_manager.py:29 | Python slicing: within bounds it is the Dafny slice; otherwise it has the length of the clamped range, and an inverted range gives the empty string |
| PyStr.SliceSplit | file_manager.py:29 | `s[:k] + s[k:] == s` for every integer k, negative and out-of-range ones included |
| PyStr.Strip | main.py:11 | `strip` keeps exactly the middle piece between a maximal run of droppable characters on each side |
| PyStr.StripIdempotent | main.py:11 | stripping twice is stripping once |
| PyStr.StripFramed | main.py:11-12 | stripping blanks from blanks + w + blanks, where w neither starts nor ends with a blank, gives w |
| PyStr.SplitOn | main.py:20 | `split(c)` yields at least one piece, no piece contains c, and the first piece is everything before the first c |
| PyStr.JoinSplitOn | file_manager.py:126-127 | joining the pieces of `split(c)` with c gives back the string |
| PyStr.SplitOnJoin | file_manager.py:126-127 | splitting a c-join of pieces that do not contain c gives back the pieces |
| PyStr.Words | main.py:25 | whitespace `split()` yields only words: non-empty and blank-free |
| PyStr.WordsOfJoin | main.py:25 | splitting a space-join of words on whitespace gives back the words |
| PyStr.WordsSnoc | main.py:23 | the last word of `x + " " + n` is n, and the words before it are those of x |
| PyStr.NatToStringValue | main.py:48 | the decimal rendering of n reads back as n |
| PyStr.ParseInt | main.py:48-56 | `int()`: surrounding whitespace is stripped and the rest parsed; no contract of its own, characterised by `ParseTrimmed` and `ParseIntToString` |
| PyStr.ParseTrimmed | main.py:48 | `int()` of a stripped string succeeds exactly when it is an optional sign followed by digit groups joined by single underscores (no limit on the number of digits) |
| PyStr.ParseIntToString | main.py:48 | `int(str(i)) == i` for every integer, negative ones included; with no digit limit in the model (see "Left out") |
| FileObjects.ModeOf | file_manager.py:10-13 | "r", "w" and "a" select read, write and append; every other string is refused |
| FileObjects.Inserted | file_manager.py:29 | the text sits at the clamped index; removing it gives back the old content; the length grows by the text's length |
| FileObjects.ReadRange | file_manager.py:35-37 | the result is the piece of content from the clamped start: all the rest without a size; with a size, the length is the distance between the two clamped bounds, or 0 when they cross; negative bounds count from the end |
| FileObjects.Truncated | file_manager.py:52 | the result is a prefix whose length is n clamped as a slice bound (a negative n counts from the end); it equals the content exactly when n reaches the end or the content is empty |
| FileObjects.Moved | file_manager.py:42-47 | the content after move_within_file; no contract of its own, characterised by `MovedToEnd`, `MovedNegativeStart`, `MovedCopies` and `MovedExamples` |
| FileObjects.MovedToEnd | file_manager.py:42-45 | with a target beyond the end and a non-negative start and size, the range is cut out and appended, so the length is kept and the characters are a permutation of the old ones |
| FileObjects.MovedNegativeStart | file_manager.py:42-45 | with a negative start the far-target branch repeats text: "ABCDE", start -1, size 3 becomes "ABCDCDE", longer than before |
| FileObjects.MovedCopies | file_manager.py:42-46 | with a target within the content, the move is an insertion of a copy of the range at the target, so the content grows |
| FileObjects.MovedExamples | file_manager.py:39-47 | "ABCDEFGH" with range 2..5 becomes "ABFGHCDE" for target 100 and "ACDEBCDEFGH" for target 1 |
| FileObjects.FileObject.constructor | file_manager.py:5-8 | a new file has the given name, size 0, empty content and no mode |
| FileObjects.FileObject.Check | file_manager.py:21-22 | a mode guard passes exactly when the mode attribute exists and equals the wanted mode |
| FileObjects.FileObject.Open | file_manager.py:10-14 | a valid mode is stored; any other raises and leaves the file as it was |
| FileObjects.FileObject.Close | file_manager.py:16-18 | the mode becomes None |
| FileObjects.FileObject.AppendText | file_manager.py:20-24 | mode "a" is needed; the text goes at the end and size follows the content; a failure leaves the file unchanged |
| FileObjects.FileObject.WriteText | file_manager.py:26-30 | mode "w" is needed; the content becomes `Inserted` and size follows; a failure leaves the file unchanged |
| FileObjects.FileObject.ReadText | file_manager.py:32-37 | succeeds exactly in mode "r" and returns `ReadRange`; otherwise it names the missing attribute or the wrong mode |
| FileObjects.FileObject.MoveWithin | file_manager.py:39-47 | mode "w" is needed; the content becomes `Moved` and size is left as it was |
| FileObjects.FileObject.Truncate | file_manager.py:49-53 | mode "w" is needed; the content becomes `Truncated` and size follows |
| Tree.Find | file_manager.py:64-66 | `d[name]` when `name in d`, else nothing; no contract of its own, characterised by `FindAt` and the `Added`/`Removed`/`Renamed`/`Replaced` contracts |
| Tree.Position | file_manager.py:64 | `name in d`: the found position holds the name and no earlier one does; nothing is found exactly when no binding has the name |
| Tree.FindAt | file_manager.py:66 | in a dict, a binding's name finds that binding's entry |
| Tree.Added | file_manager.py:108 | `d[name] = e` for an unbound name appends the binding last, keeps the names unique, and changes the lookup of that name only |
| Tree.Removed | file_manager.py:114 | `del d[name]` drops that binding, keeps the others in order, and makes only that name unbound |
| Tree.Renamed | file_manager.py:166-167 | after the rebinding, the destination finds the source's entry (placed last), the source is unbound, and every other name is unchanged |
| Tree.Replaced | file_manager.py:108 | a nested dict changed in place is seen from its parent as its binding holding the new dict; every name and every other lookup stay |
| Tree.WellFormedAdded | file_manager.py:108 | adding an unbound name keeps every directory a dict |
| Tree.WellFormedRemoved | file_manager.py:114 | deleting keeps every directory a dict |
| Tree.WellFormedRenamed | file_manager.py:166-167 | renaming to an unbound name keeps every directory a dict |
| Tree.Lookup | file_manager.py:147-151 | indexing with each name in turn, a file raising and a missing name raising; no contract of its own, characterised by `LookupAppend`, `WellFormedLookup`, `LookupUpdatedBelow`, `LookupUpdatedApart` and `GetDirFromPath` |
| Tree.LookupAppend | file_manager.py:149-150 | walking p + q is walking q from where p leads |
| Tree.WellFormedLookup | file_manager.py:149-150 | where a walk leads in a well-formed tree is well formed |
| Tree.LookupUpdatedBelow | file_manager.py:108 | after a dict is changed in place, walking through it sees the new bindings |
| Tree.LookupUpdatedApart | file_manager.py:108 | after a dict is changed in place, walks that neither pass through it nor end above it are unaffected |
| Tree.WellFormedUpdated | file_manager.py:108 | changing one dict to unique bindings keeps the whole tree well formed |
| Tree.ObjectsOfLookup | file_manager.py:66 | the files reachable from where a walk leads are files of the tree |
| Tree.Line | file_manager.py:157-159 | one printed entry, `- name (N bytes)` for a file and `- name/` for a directory, after the indent; no contract of its own, used by `ListFrom`'s contract |
| Tree.ListFrom | file_manager.py:155-159 | one listing line per binding, in dict order, each the binding's own line |
| Tree.MapFrom | file_manager.py:193-199 | _printMemoryMap's lines, each directory followed by its own entries four spaces in; no contract of its own, characterised by `MapLineCount`, `MapIndented`, `MapMargins` and `MapTopLevel` |
| Tree.MapLineCount | file_manager.py:193-199 | the memory map prints exactly one line per entry anywhere in the tree |
| Tree.MapIndented | file_manager.py:193-199 | every line of a directory's map begins with that level's indent; a subdirectory's lines begin with four more spaces |
| Tree.MapTopLevel | file_manager.py:193-199 | the lines of the map at the left margin are exactly the listing's lines, in dict order |
| Tree.MapMargins | file_manager.py:193-199 | every line of the map from the root is non-empty and either a top-level line (starting "-") or begins four spaces in |
| Tree.MapOfFlatDirectory | file_manager.py:193-199 | over a directory holding only files, the memory map prints the listing lines |
| FileSystems.PathNames | file_manager.py:149 | a path string always walks at least one name |
| FileSystems.ParentPath | file_manager.py:126-128 | the path ".." computes; no contract of its own, characterised by `ParentPathOfCanonical`, `ParentOfCanonical`, `ParentPathDropsSlashes` and `WalkOfUnslashed` |
| FileSystems.Canonical | file_manager.py:139 | a path built by descents starts and ends with "/" |
| FileSystems.CanonicalJoin | file_manager.py:139 | the path after descents into n1..nk is "/" + "n1/…/nk" + "/" |
| FileSystems.PathNamesOfJoin | file_manager.py:126-127 | a path joined from slash-free names, slashed or not, walks exactly those names |
| FileSystems.CanonicalWalk | file_manager.py:149 | the path string after a series of descents walks back to the same directory |
| FileSystems.ParentPathOfCanonical | file_manager.py:126-128 | ".." from "/n1/…/nk/" computes the names without the last one, joined by "/" and without the outer slashes |
| FileSystems.ParentOfCanonical | file_manager.py:126-133 | one level down, ".." computes ""; deeper, it computes a path that walks to the parent |
| FileSystems.DeepParentWalk | file_manager.py:133 | two or more levels down, the parent's path is non-empty and walks the names without the last one |
| FileSystems.LookupPrefix | file_manager.py:149-150 | a walk that succeeds passes through every prefix of its names |
| FileSystems.ChDirUpGoesToParent | file_manager.py:124-133 | ".." from a canonical path goes to the root from one level down, and otherwise to the directory it came from, by a walk that cannot fail |
| FileSystems.ParentPathDropsSlashes | file_manager.py:126-128 | ".." from "/a/b/" leaves the path "a", without its slashes |
| FileSystems.WalkOfUnslashed | file_manager.py:126-139 | from "a", a descent into c gives "ac/", which walks as the single name "ac", and ".." from there computes "" (the root) |
| FileSystems.FileSystem.constructor | file_manager.py:57-61 | an empty root, the current directory at the root, path "/", nothing open |
| FileSystems.FileSystem.GetDirFromPath | file_manager.py:147-151 | the walk of the stripped, split path from the root, or the error of the first missing or non-directory step |
| FileSystems.FileSystem.OpenFile | file_manager.py:63-66 | an unbound name raises; otherwise the file is opened in the mode, the handle becomes that file on success, and tree and path are kept |
| FileSystems.FileSystem.CloseFile | file_manager.py:68-71 | it raises when nothing is open; afterwards nothing is open |
| FileSystems.FileSystem.ReadFile | file_manager.py:73-79 | the named file ends in mode "r", its `ReadRange` is returned, the handle is cleared, and content and size are kept |
| FileSystems.FileSystem.WriteFile | file_manager.py:81-84 | it raises when nothing is open; otherwise the handle's file, from any directory, gets the `WriteText` effect |
| FileSystems.FileSystem.AppendFile | file_manager.py:86-89 | it raises when nothing is open; otherwise the handle's file gets the `AppendText` effect |
| FileSystems.FileSystem.MoveFile | file_manager.py:91-96 | the named file ends in mode "w" with `Moved` content and unchanged size, and the handle is cleared |
| FileSystems.FileSystem.TruncateFile | file_manager.py:98-103 | the named file ends in mode "w" with `Truncated` content and matching size, and the handle is cleared |
| FileSystems.FileSystem.Create | file_manager.py:105-109 | an existing name raises; otherwise a fresh empty, never-opened file is bound last in the current directory, and nothing else changes |
| FileSystems.FileSystem.Delete | file_manager.py:111-115 | an unbound name raises; otherwise current_dir becomes `Removed`, in place, and nothing else changes |
| FileSystems.FileSystem.MkDir | file_manager.py:117-121 | an existing name raises; otherwise an empty dict is bound last in the current directory |
| FileSystems.FileSystem.Move | file_manager.py:161-168 | a missing source and an existing destination raise, in that order; otherwise current_dir becomes `Renamed` |
| FileSystems.FileSystem.ChDir | file_manager.py:123-141 | ".." is a no-op at "/", else the shortened path string is re-walked; a bound directory is descended into and its name appended with "/"; any other name changes nothing and reports not found |
| FileSystems.FileSystem.ListDir | file_manager.py:153-159 | it succeeds exactly when current_dir is a dict, with one `ListFrom` line per binding |
| FileSystems.FileSystem.MemoryMap | file_manager.py:170-172 | one line per entry of the whole tree; each line is a top-level line or begins four spaces in; the top-level lines are the root listing, in order |
| Shell.Tokenise | main.py:16-25 | a line with a quote gives exactly three arguments; every argument is a word except the quoted text |
| Shell.TokeniseUnquoted | main.py:24-25 | a line made of quote-free words separated by spaces tokenises to those words |
| Shell.QuotedPiece | main.py:20 | the second piece of splitting on '"' is the text between the first two quotes |
| Shell.TokeniseQuoted | main.py:19-23 | `verb "text" last` tokenises to [verb, text, last] |
| Shell.TokeniseQuotedTail | main.py:19-23 | `verb "text"` tokenises with verb first and text second |
| Shell.VerbOf | main.py:28-59 | a recognised verb is exactly the spelling it was matched from |
| Shell.VerbOfKnown | main.py:28-60 | a first argument falls through to "Invalid command" exactly when it is none of the fourteen verbs |
| Shell.VerbOfSpelling | main.py:28-58 | each verb's spelling is recognised as that verb |
| Shell.Arg | main.py:29-56 | `args[i]` succeeds exactly for a present index; a missing one raises |
| Shell.Number | main.py:48-56 | `int(args[i])` succeeds exactly when the argument is present and parses; a missing argument and a bad number raise distinct errors |
| Shell.Decode | main.py:27-60 | the dispatch on the first argument with the argument positions each call takes; no contract of its own, characterised by `DecodeAsks`, `DecodeFails`, `DecodeInvalid` and `DecodeRender` |
| Shell.DecodeFails | main.py:27-62 | a line fails exactly when it is too short for its verb or a numeric argument in reach does not parse; the failure is NotAnInteger exactly in the latter case |
| Shell.DecodeCharacterised | main.py:27-62 | for every argument list, the command decoded and the failure both match their independent descriptions |
| Shell.DecodeAsks | main.py:27-62 | decoding yields a command exactly when the arguments ask for it: the verb's spelling, then the arguments in the order the call takes them |
| Shell.DecodeInvalid | main.py:59-60 | a line is an invalid command exactly when its first word is no verb, whatever follows |
| Shell.NumberedFails | main.py:49-56 | write and truncate fail exactly when the text or name, or the integer after it, is missing, or the integer does not parse |
| Shell.ReadFails | main.py:44-48 | read takes one name, or a name, start and size; with three arguments a bad start raises before the missing size |
| Shell.MoveFileFails | main.py:53-54 | moveFile fails exactly when an argument is missing or one of the three integers does not parse, checked left to right |
| Shell.RenderAsks | main.py:27-58 | the rendering of a command asks for that command |
| Shell.DecodeRender | main.py:27-58 | decoding the rendering of a command gives the command back, integers included |
| Shell.TypedRoundTrip | main.py:16-58 | a command with quote-free word arguments, typed as a line, tokenises and decodes to itself |
| Shell.Raised | main.py:61-62 | an exception is reported exactly when the operation failed, and it is the operation's own error |
| Shell.Report | main.py:27-62 | the message is printed exactly on success, and the failure is reported otherwise |
| Shell.Execute | main.py:27-62 | the command runs the operation its verb names, with that operation's effect and printed lines; file objects it does not name are untouched |
| Shell.ExecuteOnDirectory | main.py:28-39 | the directory commands, memory and invalid commands have the effect `Execute` promises |
| Shell.ExecuteOnFile | main.py:40-56 | the file commands have the effect `Execute` promises |
| Shell.ExecuteOnHandle | main.py:42-52 | close, write and append have the effect `Execute` promises |
| Shell.ExecuteOnNamedFile | main.py:40-56 | open, read, moveFile and truncate have the effect `Execute` promises |
| Shell.Step | main.py:11-62 | "exit" after stripping ends the loop with nothing changed; a line that fails to decode raises before the engine is touched; any other line is executed |
| Shell.ExitIsNotACommand | main.py:11-14 | "exit" with blanks around it still ends the loop, and "exit" is no verb |

## Left out

- Saving to and loading from disk with pickle (file_manager.py:174-191) is left out. It is I/O; `Step` starts from whatever engine it is given and ends the loop on "exit" without saving.
- `show_memory_map` (file_manager.py:143-145) is left out. The loop never calls it, and its output is the same as `MemoryMap`'s.
- The banner lines printed before each prompt (main.py:9-10) and the `input()` call are left out. `Step` takes the line as a parameter, and the loop itself is a repetition of `Step`.
- Exception messages are modelled as their kind (`Error`), not as their text. The model does not format the "Error:" line.
- `Shell.Decode` takes the integer parser as a parameter. The model supplies `PyStr.ParseInt` for it.
- PyStr.ParseTrimmed: the default limit of 4300 digits on `int()` and `str()` for integers is not modelled; the model parses and renders integers of any length, so a line such as `read f 0 <4301 digits>` reads where the program reports a ValueError. The same applies to `PyStr.ParseInt`, `PyStr.ParseIntToString` and the decoding round trips built on them.
- PyStr.ParseInt: `int()` also accepts non-ASCII Unicode digits. The model accepts only ASCII digits, with an optional sign, single underscores between digits and surrounding blanks.
- Printed output is modelled as lines of text. The model does not write them to a terminal, and it does not model printing in the middle of an operation that then raises; no operation here prints before it can raise, except the listing header, which is modelled.
- Directories are modelled as values inside the tree, and `current_dir` as the path of names that reaches it. A dict changed through `current_dir` is therefore changed in the tree (`UpdateAt`). This is the only sharing of dicts that these commands create. File objects remain references, so the open handle can outlive a `delete` of its file, as in the program.
