# I/Q Viewer core in Dafny

A model of the non-rendering core of I/Q Viewer. I/Q Viewer is a desktop
browser for SDR sample recordings (`.cu8`, `.cs16`, `.sigmf`, ...). The
model covers these parts:

- **Listing** (`dirs.dfy`, src/dirs.rs):
  - the list of recognised sample-file extensions;
  - the extension test that decides whether a path is an I/Q file;
  - `read_dir_iq`, which collects a folder's entries, keeps the I/Q files
    and sorts them by path.
- **Gallery list** (`items.dfy`, src/items.rs):
  - `ItemList`, a vector of `FileItem`s with a cursor;
  - pushing files and folders; cursor movement with `usize` saturating
    arithmetic;
  - toggling the move/delete tags, counting them;
  - filtering by file name;
  - the two `retain` passes that move or delete tagged files and keep the
    files whose operation failed.
- **Folder watcher** (`watcher.dfy`, src/watcher.rs):
  - the list of watched folders, which acknowledgements keep up to date;
  - the bounded command channel to the watcher task;
  - how the subscription turns commands and notify events into
    `WatcherEvent`s.
- **Plot options** (`options.dfy`, src/options.rs): the six option enums,
  with their variant tables, numeric values, defaults and labels.
- **Application** (`app.dfy`, src/main.rs):
  - the hotkey table;
  - the `Viewer` state with its defaults, as a class whose methods are the
    arms of `Viewer::update`;
  - `Step`, the same arms as a function from a state snapshot and a
    message to the next snapshot and the outcome, which `Viewer.Update`
    is proved to follow.
- **Shared pieces**:
  - `paths.dfy`: paths as component sequences, `join`, `file_name`,
    `extension`, and the component-wise order `PathBuf` sorts by;
  - `common.dfy`: `Option`, `Result`, `usize` and its saturating
    operations, and an order-preserving filter (`retain`).

The outside world enters as parameters. A file-system probe says whether a
path is a file, or what `read_dir` lists for it. The folder reader that
`push` calls is a parameter of `ItemList.Push` and `ItemList.Extend`; the
viewer passes `ReadDirIq`, and the item list's own lemmas hold for any
reader. Per-item booleans say
whether each `rename` or `remove_file` succeeded. A flag says whether the
notify backend accepted a watch. A panic of the source (`unwrap`, `expect`,
a `usize` overflow with overflow checks on) is modelled as an explicit
outcome: `None`, `ok == false`, or `Outcome.Panic`. A panic ends the
application, so for a panicking arm `Step` fixes the outcome and
`Viewer.Update` promises nothing about the state left behind.

The item list's cursor methods follow the code as written: `set_selection`
and `inc_selection` compute `len() - 1` unguarded, so on an empty list they
panic (with overflow checks on), and so do the arms that call them. On a
non-empty list they give `Clamp` and `Advance`. See "## Findings".

## Model

| member | source | states |
|---|---|---|
| Paths.Join | src/items.rs:149 | `dst.join(name)` appends exactly one normal component to the destination folder |
| Paths.FileName | src/items.rs:145 | a path has a file name iff its last component is a normal name, and then it is that name |
| Paths.SplitExtension | src/dirs.rs:32 | a name has an extension iff it is not `..` and has a dot after its first character; the extension is the dot-free suffix after the last dot |
| Paths.Extension | src/dirs.rs:32 | `extension()` is absent when there is no file name, else it is the split of the file name |
| Paths.ExtensionAfterLastDot | src/dirs.rs:32 | when the file name is not `..` and its last dot is not its first character, the extension is the text after that dot |
| Paths.ExtensionExamples | src/dirs.rs:32 | upper case is kept, only the last dot counts, and `x.` has the empty extension |
| Paths.ExtensionAbsent | src/dirs.rs:32 | a leading-dot name such as `.cu8`, a name without a dot, a path ending in `..` and the empty path have no extension |
| Paths.PathLeTotal | src/dirs.rs:61-63 | any two paths are comparable in the order `sort` uses |
| Paths.PathLeAntisymmetric | src/dirs.rs:61-63 | paths that are ordered both ways are equal, so the sorted order is unique |
| Paths.PathLeTransitive | src/dirs.rs:61-63 | the path order is transitive |
| Paths.PathLeReflexive | src/dirs.rs:61-63 | every path is ordered before itself |
| Paths.PathOrderExamples | src/dirs.rs:61-63 | paths compare component by component, not as flat strings |
| Dirs.FormatsDistinct | src/dirs.rs:11-27 | the list has 20 entries and no duplicates |
| Dirs.IqExtensionInFormats | src/dirs.rs:10-49 | the comparison chain of `is_iq_file` accepts exactly the entries of `FORMATS` |
| Dirs.IqExtensionLeads | src/dirs.rs:30-49 | every accepted extension has at least three characters and starts with a lower-case `c`, `d` or `s` |
| Dirs.IsIqFile | src/dirs.rs:30-49 | a path is an I/Q file iff it has an extension and that extension is in `FORMATS` |
| Dirs.IsIqFileAccepts | src/dirs.rs:30-49 | a lower-case `.cu8` file is accepted |
| Dirs.IsIqFileUsesLastDot | src/dirs.rs:30-49 | a multi-dot `.sigmf` file under a folder is accepted: only the text after the last dot counts |
| Dirs.IsIqFileCaseSensitive | src/dirs.rs:30-49 | the match is case-sensitive: `x.CU8` is refused |
| Dirs.IsIqFileRefusesUnknown | src/dirs.rs:30-49 | an unlisted extension such as `.txt` is refused |
| Dirs.IsIqFileRefusesNoExtension | src/dirs.rs:30-49 | `.cu8` and `cu8` have no extension, so they are refused |
| Dirs.NoExtensionNotIq | src/dirs.rs:30-49 | a path without an extension is never an I/Q file |
| Dirs.CollectEntries | src/dirs.rs:52-54 | collecting into a `Result` succeeds iff every entry is `Ok`, then gives the entry values in order; otherwise it gives the first error |
| Dirs.InsertPermutes | src/dirs.rs:61-63 | inserting adds exactly one element to the multiset |
| Dirs.InsertSorted | src/dirs.rs:61-63 | inserting into a sorted list keeps it sorted |
| Dirs.SortSortedPermutation | src/dirs.rs:61-63 | the sort result is sorted and a permutation of its input |
| Dirs.SortedPermutationUnique | src/dirs.rs:61-63 | two sorted permutations of the same list are equal |
| Dirs.ReadDirIq | src/dirs.rs:51-66 | `read_dir_iq` fails iff the folder cannot be read or some entry fails; there is no partial result |
| Dirs.ReadDirIqSortedIqFiles | src/dirs.rs:51-66 | on success the result is sorted, a permutation of the I/Q entries, and contains a path iff it is an I/Q file and was listed |
| Dirs.ReadDirIqOrderIndependent | src/dirs.rs:51-66 | two listings with the same entries in any order give the same result |
| Dirs.CollectPermutation | src/dirs.rs:52-54 | permuted all-`Ok` entry lists collect to permuted path lists |
| Dirs.OkValuesMultiset | src/dirs.rs:52-54 | each path occurs in the collected list as often as its `Ok` entry occurs in the listing |
| Dirs.OkMultiset | src/dirs.rs:52-54 | a path list that matches an entry list position by position holds each path as often as the entries hold it as `Ok` |
| Dirs.FilterIqPermutation | src/dirs.rs:56-59 | filtering permuted lists gives permuted results |
| Items.FileItem.ToggleMark | src/items.rs:256-258 | flips the move tag and changes nothing else |
| Items.FileItem.ToggleDelete | src/items.rs:260-262 | flips the delete tag and changes nothing else |
| Items.FileItem.Filename | src/items.rs:264-269 | the path's file name, or the empty string when there is none |
| Items.TogglesInvolutive | src/items.rs:256-262 | each toggle undoes itself, and the two toggles commute |
| Items.FreshAll | src/items.rs:60-69 | the i-th new item carries the i-th path, with both tags clear |
| Items.Pushed | src/items.rs:60-69 | `push` panics iff the path is a folder whose listing fails; every item it adds is untagged |
| Items.PushedFolderIsSortedIqFiles | src/items.rs:60-69 | pushing a folder adds only I/Q files, untagged, in ascending path order |
| Items.ExtendedSucceeds | src/items.rs:51-58 | `extend` panics iff one of its pushes does |
| Items.ExtendedGrows | src/items.rs:51-58 | one more successful push appends its items to what `extend` has appended |
| Items.ExtendedPanics | src/items.rs:51-58 | one more push that panics makes `extend` panic |
| Items.ExtendedStopsAtPanic | src/items.rs:51-58 | once one push panics, `extend` panics whatever follows |
| Items.ExtendedWithFiles | src/items.rs:51-69 | extending with plain files appends one untagged item per path, in order |
| Items.CountFlagged | src/items.rs:75-85 | the tag count is at most the length; it is 0 iff no item is tagged, and the length iff every item is |
| Items.CountAfterUpdate | src/items.rs:75-85 | replacing one item changes a tag count by what the old item had and the new one has |
| Items.CountAfterToggle | src/items.rs:114-116 | toggling one item's mark changes the mark count by exactly one, in the right direction, and leaves the delete count alone |
| Items.Retained | src/items.rs:141-175 | a `retain` pass never lengthens the list |
| Items.KeptIndices | src/items.rs:141-175 | the survivors of a `retain` pass are strictly increasing positions of the old list, one per kept item |
| Items.RetainedAtKept | src/items.rs:141-175 | the j-th surviving item is the old item at the j-th kept position, so `retain` keeps the relative order |
| Items.KeptIffNotDropped | src/items.rs:141-175 | an item survives iff it is untagged, its file operation failed, or (on a move) it has no file name |
| Items.RetainedNothingDropped | src/items.rs:141-175 | with no item dropped, the list is unchanged |
| Items.RetainedAllSucceed | src/items.rs:162-175 | when every operation succeeds, exactly the untagged items remain, none tagged, and the length drops by the tag count |
| Items.Moves | src/items.rs:141-160 | one rename per removed item, each to the destination joined with the item's file name |
| Items.MoveKeepsFileName | src/items.rs:149 | a move target has the same file name and lies directly in the destination folder |
| Items.ClampAsWritten | src/items.rs:95-97 | when `index.min(len() - 1)` does not underflow, the result is at most the index and inside the list |
| Items.ClampAsWrittenUnderflows | src/items.rs:95-97 | the as-written clamp panics exactly on an empty list, and otherwise agrees with `Clamp` |
| Items.SelectedRemoveOfOnlyItemUnderflows | src/items.rs:107-112 | removing the only item re-clamps against length 0, which is where the as-written clamp panics |
| Items.Clamp | src/items.rs:95-97 | the clamped cursor never exceeds the index, lies in range on a non-empty list, keeps an in-range index, and goes to the last item otherwise |
| Items.Advance | src/items.rs:99-101 | the advanced cursor lies in range on a non-empty list, never moves backwards from an in-range cursor, and is the sum or the last index |
| Items.FilterByName | src/items.rs:134-139 | an item is in the filtered list iff it is in the list and its file name contains the filter |
| Items.EmptyFilterKeepsAll | src/items.rs:134-139 | the empty filter keeps every item, in order |
| Items.ItemList.constructor | src/items.rs:17-21 | the default list is empty with the cursor at 0 |
| Items.ItemList.CountMarked | src/items.rs:75-79 | the count is at most the length, and 0 iff no item is marked |
| Items.ItemList.CountToDelete | src/items.rs:81-85 | the count is at most the length, and 0 iff no item is tagged for deletion |
| Items.ItemList.HasSelection | src/items.rs:87-89 | a selection implies a non-empty list |
| Items.ItemList.Filtered | src/items.rs:134-139 | yields exactly the items whose file name contains the filter |
| Items.ItemList.Get | src/items.rs:71-73 | present iff the index is in range, and then it is that item |
| Items.ItemList.Selected | src/items.rs:122-124 | present iff there is a selection, and then it is the item under the cursor |
| Items.ItemList.Clear | src/items.rs:46-49 | no items, cursor at 0, nothing selected |
| Items.ItemList.Push | src/items.rs:60-69 | succeeds iff the path is a file or the folder reader succeeds on its listing; appends the pushed items; the cursor is unchanged |
| Items.ItemList.Extend | src/items.rs:51-58 | succeeds iff every push succeeds, then appends all their items; on a panic only a prefix of the paths was pushed |
| Items.ItemList.SetSelection | src/items.rs:95-97 | panics iff the list is empty (`len() - 1` underflows), leaving the cursor; otherwise the cursor becomes the clamped index; the items are unchanged |
| Items.ItemList.IncSelection | src/items.rs:99-101 | panics iff the list is empty; otherwise the cursor advances by the saturating sum, clamped to the last item; the items are unchanged |
| Items.ItemList.DecSelection | src/items.rs:103-105 | the cursor moves back by a saturating difference and never increases |
| Items.ItemList.SelectedRemove | src/items.rs:107-112 | with a selection, exactly the selected item is removed and the others keep their order; the re-clamp panics iff that was the only item, and otherwise leaves the cursor on an item; without a selection nothing changes |
| Items.ItemList.SelectedToggleMark | src/items.rs:114-116 | only the selected item's mark flips, and nothing changes without a selection |
| Items.ItemList.SelectedToggleDelete | src/items.rs:118-120 | only the selected item's delete tag flips, and nothing changes without a selection |
| Items.ItemList.MoveMarkedTo | src/items.rs:141-160 | the list becomes the `retain` result for the move tag, the renames are exactly `Moves`, and the cursor is untouched |
| Items.ItemList.DeleteMarked | src/items.rs:162-175 | the list becomes the `retain` result for the delete tag, and the cursor is untouched |
| Items.RetainCanStrandSelection | src/items.rs:141-175 | for every list whose last item is under the cursor and is dropped, the `retain` result ends before the cursor, which is not re-clamped |
| Watcher.Classify | src/watcher.rs:66-86 | an event is forwarded iff it is an `Ok` file create, data modify or file remove, with its paths unchanged and the matching variant |
| Watcher.ClassifyIgnores | src/watcher.rs:66-86 | folder creations, unspecific removals, renames, accesses and errors are dropped, and any data change is forwarded |
| Watcher.Acknowledge | src/watcher.rs:53-63 | `Added`/`Removed` is sent back iff the backend call succeeded, for the same path, `Added` exactly for `Watch` |
| Watcher.CommandQueue.constructor | src/watcher.rs:31-91 | a new channel is empty with the given capacity |
| Watcher.CommandQueue.TrySend | src/watcher.rs:123-134 | `try_send` succeeds iff the queue has room, then appends in FIFO order; on failure nothing changes |
| Watcher.CommandQueue.Next | src/watcher.rs:53-63 | the receiver takes the oldest command, or nothing from an empty queue |
| Watcher.UnwatchAllCmds | src/watcher.rs:136-142 | one `Unwatch` per folder, in list order |
| Watcher.RemovedDropsExactly | src/watcher.rs:119-121 | `removed(p)` drops every copy of `p` and no other entry, and does nothing when `p` is absent |
| Watcher.AddedThenRemoved | src/watcher.rs:115-121 | acknowledging the removal of a newly added folder restores the list |
| Watcher.FolderWatcher.constructor | src/watcher.rs:108-113 | a new watcher has no folders and keeps the given sender |
| Watcher.FolderWatcher.Added | src/watcher.rs:115-117 | appends the folder, duplicates allowed |
| Watcher.FolderWatcher.Removed | src/watcher.rs:119-121 | keeps the other entries in order, and the folder is gone |
| Watcher.FolderWatcher.Watch | src/watcher.rs:123-127 | queues `Watch(p)` when there is room (otherwise `expect` panics); the folder list is unchanged |
| Watcher.FolderWatcher.Unwatch | src/watcher.rs:129-134 | queues `Unwatch(p)` when there is room (otherwise `expect` panics); the folder list is unchanged |
| Watcher.FolderWatcher.UnwatchAll | src/watcher.rs:136-142 | succeeds iff the queue has room for every folder; then the list is empty and one `Unwatch` per folder was queued in order; otherwise a proper prefix was queued and the queue is full |
| Options.FftSize.ToValue | src/options.rs:28-30 | every FFT size is a power of two between 16 and 512 that divides 512 |
| Options.FftSizeVariantsInOrder | src/options.rs:19-26 | the variant table lists each size once, at its declaration index |
| Options.FftSizeValues | src/options.rs:28-30 | the i-th variant has value 2^(9-i), that is 512, 256, 128, 64, 32, 16 |
| Options.FftSizeDecreasing | src/options.rs:19-30 | values strictly decrease along the table |
| Options.FftSizeInjective | src/options.rs:28-30 | distinct sizes have distinct values |
| Options.FftSize.Label | src/options.rs:33-44 | the label starts with `N=` followed by the size, at least two characters |
| Options.FftSizeLabels | src/options.rs:33-44 | the label is `N=` followed by the value in decimal |
| Options.DbGain.ToValue | src/options.rs:78-80 | every gain is a multiple of 3 of at most 30 |
| Options.DbGainVariantsInOrder | src/options.rs:64-76 | the table lists each gain once, at its declaration index |
| Options.DbGainValues | src/options.rs:78-80 | the i-th gain is 3i dB; values strictly increase and are distinct |
| Options.DbGain.Label | src/options.rs:83-99 | the label starts with `+` and ends with ` dB` |
| Options.DbGainLabels | src/options.rs:83-99 | the label is `+`, the value, ` dB` |
| Options.DbRange.ToValue | src/options.rs:141-143 | every range is a multiple of 6 between 6 and 90 |
| Options.DbRangeVariantsInOrder | src/options.rs:123-139 | the table lists each range once, at its declaration index |
| Options.DbRangeValues | src/options.rs:141-143 | the i-th range is 6(i+1) dB; values strictly increase and are distinct |
| Options.DbRange.Label | src/options.rs:146-166 | the label ends with ` dB` after at least one character |
| Options.DbRangeLabels | src/options.rs:146-166 | the label is the value followed by ` dB` |
| Options.DbRangeLabelsUpTo48 | src/options.rs:149-156 | the same, for the ranges from 6 to 48 dB |
| Options.DbRangeLabelsFrom54 | src/options.rs:157-163 | the same, for the ranges from 54 to 90 dB |
| Options.Colormap.ToValue | src/options.rs:204-206 | the value is the variant's position in the table |
| Options.ColormapVariantsInOrder | src/options.rs:188-202 | 13 variants, the i-th with value i |
| Options.Colormap.Label | src/options.rs:209-227 | every colormap name is non-empty and capitalised |
| Options.WindowFunctions.ToValue | src/options.rs:263-265 | the value is the variant's position in the table |
| Options.WindowFunctionsVariantsInOrder | src/options.rs:248-261 | 12 variants, the i-th with value i |
| Options.WindowFunctions.Label | src/options.rs:268-285 | every window name is non-empty and capitalised |
| Options.Orientation.ToValue | src/options.rs:304-306 | the value is the variant's position in the table |
| Options.OrientationVariantsInOrder | src/options.rs:298-302 | 3 variants, the i-th with value i |
| Options.Orientation.Label | src/options.rs:309-317 | every orientation name is non-empty and capitalised |
| Options.DefaultValues | src/main.rs:93-98 | the option defaults the viewer starts with: N=512, +6 dB gain, 30 dB range, the first colormap, Blackman-Harris (value 5), spectrogram |
| App.HandleHotkey | src/main.rs:189-224 | only unmodified or shift-only keys are bound, and the shifted bindings are exactly the three character keys that ask to delete, move or open a folder |
| App.TableRowsHandled | src/main.rs:196-223 | every row of the binding table is what `handle_hotkey` returns for its key and modifiers |
| App.HandledKeysInTable | src/main.rs:189-224 | every key combination that yields a message is a row of the table, so no other binding exists |
| App.BindingsDistinct | src/main.rs:196-223 | no key and modifier pair is bound twice |
| App.HotkeyExamples | src/main.rs:189-224 | shift changes `d` and `m`; shifted arrows, control-q and the commented-out PageDown are unbound |
| App.Viewer.constructor | src/main.rs:80-106 | the default state: gallery, no help, 256-pixel thumbnails, option defaults, no plot, empty list |
| App.Viewer.OpenPlot | src/main.rs:273-291 | the plot shows the path; every other modelled field is unchanged |
| App.Viewer.ToggleHelp | src/main.rs:296-298 | help flips and every other modelled field is unchanged |
| App.Viewer.Close | src/main.rs:299-307 | Escape closes help if it is shown, otherwise returns to the gallery; nothing else changes, and the editor stays backed by a plot |
| App.Viewer.SwitchScreen | src/main.rs:308-325 | panics iff the list is non-empty with no selection; otherwise opens the selected item, or returns to the gallery when it is already shown; only the screen and the plot change |
| App.Viewer.SetThumbnailSize | src/main.rs:345-347 | the size is stored, capped at `u32::MAX` as the `as u32` cast saturates; nothing else changes |
| App.Viewer.ClearAll | src/main.rs:348-351 | back to the gallery with an empty list and the cursor at 0; nothing else changes |
| App.Viewer.ConfirmMoveTask | src/main.rs:358-362 | a destination is asked for iff some item is marked |
| App.Viewer.ConfirmDeleteTask | src/main.rs:363-370 | confirmation is asked iff some item is tagged for deletion, quoting the tag count |
| App.Viewer.MoveTo | src/main.rs:371-375 | moves happen only when a destination was chosen |
| App.Viewer.DeleteOnOk | src/main.rs:376-380 | deletes happen only on an `Ok` answer |
| App.Viewer.OpenAt | src/main.rs:381-389 | clicking the selected thumbnail opens it in the editor, panicking when the cursor is past the end; clicking another moves only the cursor, clamped, and panics on an empty list |
| App.Viewer.AddSelected | src/main.rs:396-410 | a cancelled dialog does nothing; otherwise a first file is loaded into the plot and a first folder becomes the working folder, the screen is unchanged, the paths are added, and it panics iff a push does |
| App.Viewer.Hovered | src/main.rs:411 | counts a hovered file, panicking on `usize` overflow; nothing else changes |
| App.Viewer.HoverLeft | src/main.rs:412 | resets the hover count; nothing else changes |
| App.Viewer.Dropped | src/main.rs:413-437 | a dropped file is appended and plotted, showing the editor for a single file and the gallery for several; a dropped folder becomes the working folder and its I/Q files are added |
| App.Viewer.StepBack | src/main.rs:442-446 | the cursor moves back by the offset, saturating at 0, and the view snaps to it (also `SelectUp` with one row's width) |
| App.Viewer.StepForward | src/main.rs:447-461 | panics iff the list is empty; otherwise the cursor advances by the offset, clamped to the last item, and the view snaps to it (also `SelectDown` with one row's width) |
| App.Viewer.SelectFirst | src/main.rs:462-468 | panics iff the list is empty; otherwise the cursor goes to 0 and the view snaps to the top |
| App.Viewer.SelectLast | src/main.rs:469-475 | panics iff the list is empty; otherwise the cursor goes to the last item and the view snaps to the bottom |
| App.Viewer.Pick | src/main.rs:495-527 | the chosen option is stored and nothing else changes; the arm panics iff no plot is open |
| App.Viewer.Update | src/main.rs:293-590 | each message ends as `Step` says; when it does not panic the new state is the one `Step` gives; the editor stays backed by a plot |
| App.Viewer.UpdateView | src/main.rs:293-347 | the same, for the screen, help, thumbnail-size, dialog, hover and zoom arms |
| App.Viewer.UpdateItems | src/main.rs:348-380 | the same, for clearing, tagging, confirming, moving and deleting |
| App.Viewer.UpdateCursor | src/main.rs:381-456 | the same, for opening a thumbnail and the arrow keys |
| App.Viewer.UpdateForward | src/main.rs:447-475 | the same, for the arms that move the cursor forward or to either end |
| App.Viewer.UpdateFiles | src/main.rs:396-437 | the same, for chosen and dropped files |
| App.Step | src/main.rs:293-590 | every arm keeps the editor backed by a plot, and only opening, toggling the screen, adding, hovering, dropping, the forward cursor keys and the option pickers can panic |
| App.EmptyGalleryCursorPanics | src/main.rs:381-475 | on an empty gallery the forward arrows, Home, End and any thumbnail click panic |
| App.BackKeysNeverPanic | src/main.rs:442-456 | the backward arrows never panic, whatever the list |
| App.ClearThenHomePanics | src/main.rs:348-468 | pressing `x` then Home panics: `x` clears the list and Home then underflows |
| App.HelpTwiceRestores | src/main.rs:296-298 | pressing `h` twice restores the whole state |
| App.MarkTwiceRestores | src/main.rs:352-354 | toggling the move mark twice restores the whole state |
| App.DeleteTagTwiceRestores | src/main.rs:355-357 | toggling the delete tag twice restores the whole state |
| App.CursorArmsKeepSelection | src/main.rs:442-475 | with a selection, every arrow, Home and End succeeds, keeps a selection and changes only the cursor |
| App.DropSingleFileOpensEditor | src/main.rs:411-437 | one file hovered and dropped opens the editor on it, appends it to the gallery and resets the hover count |
| App.ConfirmMoveAsksIffMarked | src/main.rs:358-362 | asking to move asks for a destination iff some item is marked, and changes nothing |
| App.MoveAllSucceeds | src/main.rs:371-375 | when every rename succeeds, the move drops exactly the marked items and leaves none marked |
| App.DeleteCanStrandCursor | src/main.rs:376-380 | deleting the selected last item leaves no selection, and Space then panics on a non-empty list |

## Left out

- FileItem metadata (size, sample format, count, frequencies) and the thumbnail handle: they come from `fs::metadata` and the native plot library, so `FileItem::new` keeps only the path and the two cleared tags.
- The file system: `is_file`, `read_dir`, `rename` and `remove_file` are oracle parameters, and the printed error messages are left out.
- `ItemList::selection`, `selected_mut` and `iter` are plain field and element access in the model.
- The async subscription loop, the notify backend, the output stream and the `Ready` handle hand-off: only the per-command and per-event decisions are modelled. The channel is a bounded FIFO; a closed receiver is not modelled.
- The `WatcherEvent`s produced by the watcher module are not consumed by src/main.rs, which does not declare that module, so no reconciliation of `Create`/`Modify`/`Remove` into the item list exists to model.
- Rendering: `view`, the gallery grid, the help overlay, icons, `plotarea` and `plot_ffi`. The plot is reduced to the path it shows; `open_plot`'s engine settings are not modelled.
- The `GalleryScrolled`, `WindowResized` and `Plot*` mouse arms and the `f32` scroll offset: they only drive layout and the plot engine. The zoom arms call the engine only and change no modelled state.
- Dialogs and `Task`s: a returned `Task` is a tag naming what it would do (exit, ask, pick, snap the scroll).
- `Viewer::default` appends the command-line paths; the constructor stops before that step, which is `ItemList.Extend` applied afterwards.
- Options: the `f32` values are modelled as whole numbers, and `Display` labels as a decimal rendering of them. The Colormap and WindowFunctions `Display` strings are kept as text; only the Blackman-Harris one has a lemma.
- `ThumbnailSize` takes its `f32` payload as a whole number (the bound keys send 64, 128, 256).
- The folder reader is a parameter of `Step`; `Viewer.Update` instantiates it with `ReadDirIq`, and the lemmas about `Step` hold for any reader.
- Items.Advance: the exact-value clause relies on `len <= usize::MAX + 1`, which always holds for a vector's length.
- App.Viewer.SelectLast: the last-index clause relies on the list length fitting in `usize`, which always holds.
- The tag counts use `acc + 1` on `usize`; the model counts in unbounded integers, as no list can reach `usize::MAX` items.
- Build scripts (`build.rs`) and the C library binding are not part of this model.
- The item list of this code keeps no filter map, canonical paths or remembered selection; `filtered` is a plain substring filter on file names and is never applied to the stored list. The model follows the code, not that richer design.

## Findings

| source | as written | input that shows it | evidently intended | confidence | as-written member | corrected member |
|---|---|---|---|---|---|---|
| src/items.rs:95-101 | `index.min(self.len() - 1)` subtracts 1 from the length unguarded | an empty list: SelectHome or SelectEnd on an empty gallery, or `selected_remove` of the only item, evaluates `0 - 1` on `usize` | clamp to 0 on an empty list (`self.len().saturating_sub(1)`) | not executed; panics only with overflow checks on (debug builds), and in release the cursor is left unclamped | Items.ClampAsWrittenUnderflows | Items.Clamp |
