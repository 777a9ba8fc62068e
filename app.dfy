/**
 * The application state machine (src/main.rs): the hotkey table and the
 * arms of `Viewer::update` that act on the screen, the help overlay, the
 * drag-and-drop hover count, the option fields and the gallery list. The
 * spectrogram plot is reduced to the path it shows; dialogs and the file
 * system are inputs; the tasks `update` returns are named, not run.
 */
module App {
  import opened Common
  import opened Paths
  import opened Dirs
  import opened Items
  import opened Options

  // ------------------------------------------------------------------ hotkeys

  datatype NamedKey =
    | ArrowLeft | ArrowRight | ArrowUp | ArrowDown | Home | End | PageUp | PageDown
    | Escape | Space | Enter | Tab | OtherNamed

  /** A logical key as `keyboard::Key::as_ref` presents it. */
  datatype Key = Named(named: NamedKey) | Character(text: string) | Unidentified

  datatype Modifiers = Modifiers(shift: bool, control: bool, alt: bool, logo: bool)

  const NO_MODIFIERS: Modifiers := Modifiers(false, false, false, false)
  const SHIFT: Modifiers := Modifiers(true, false, false, false)

  /** `MessageDialogResult`. */
  datatype DialogResult = DialogOk | DialogCancel | DialogYes | DialogNo | DialogCustom(text: string)

  /**
   * The messages whose arms are modelled. `ThumbnailSize` carries the
   * requested size as a whole number (its `f32` payloads are 64, 128, 256).
   */
  datatype Message =
    | ShowHelp | Quit | CloseEditor | ToggleGallery | ThumbnailSize(size: nat) | ClearGallery
    | OpenThumbnail(index: Usize) | OpenDirDialog | OpenFileDialog | FilesSelected(files: Option<seq<Path>>)
    | FileHovered | FilesHoveredLeft | FileDropped(path: Path)
    | ToggleMark | ToggleDelete | ConfirmMove | ConfirmDelete
    | MoveFiles(dst: Option<Path>) | DeleteFiles(answer: DialogResult)
    | SelectPrev | SelectNext | SelectUp | SelectDown | SelectHome | SelectEnd
    | IncrementZoom | DecrementZoom | ResetZoom
    | PickFftn(fftn: FftSize) | PickWindowf(windowf: WindowFunctions) | PickGain(gain: DbGain)
    | PickRange(range: DbRange) | PickColormap(colormap: Colormap) | PickOrientation(orientation: Orientation)

  /** `handle_hotkey`: unmodified keys and a few shifted letters; every other combination is ignored. */
  function HandleHotkey(key: Key, modifiers: Modifiers): (r: Option<Message>)
    ensures r.Some? ==> modifiers == NO_MODIFIERS || modifiers == SHIFT
    ensures r.Some? && modifiers == SHIFT ==> key.Character? && (r.value == ConfirmDelete || r.value == ConfirmMove || r.value == OpenDirDialog)
  {
    if modifiers == NO_MODIFIERS then
      match key
      case Named(ArrowLeft) => Some(SelectPrev)
      case Named(ArrowRight) => Some(SelectNext)
      case Named(ArrowUp) => Some(SelectUp)
      case Named(ArrowDown) => Some(SelectDown)
      case Named(Home) => Some(SelectHome)
      case Named(End) => Some(SelectEnd)
      case Named(Escape) => Some(CloseEditor)
      case Named(Space) => Some(ToggleGallery)
      case Character("o") => Some(OpenFileDialog)
      case Character("x") => Some(ClearGallery)
      case Character("q") => Some(Quit)
      case Character("f") => Some(ToggleMark)
      case Character("d") => Some(ToggleDelete)
      case Character("s") => Some(ThumbnailSize(64))
      case Character("m") => Some(ThumbnailSize(128))
      case Character("l") => Some(ThumbnailSize(256))
      case Character("+") => Some(IncrementZoom)
      case Character("-") => Some(DecrementZoom)
      case Character("0") => Some(ResetZoom)
      case Character("h") => Some(ShowHelp)
      case _ => None
    else if modifiers == SHIFT then
      match key
      case Character("d") => Some(ConfirmDelete)
      case Character("m") => Some(ConfirmMove)
      case Character("o") => Some(OpenDirDialog)
      case _ => None
    else None
  }

  /** The bindings of the hotkey table, as a list of (key, modifiers, message) rows. */
  const BINDINGS: seq<(Key, Modifiers, Message)> := [
    (Named(ArrowLeft), NO_MODIFIERS, SelectPrev),
    (Named(ArrowRight), NO_MODIFIERS, SelectNext),
    (Named(ArrowUp), NO_MODIFIERS, SelectUp),
    (Named(ArrowDown), NO_MODIFIERS, SelectDown),
    (Named(Home), NO_MODIFIERS, SelectHome),
    (Named(End), NO_MODIFIERS, SelectEnd),
    (Named(Escape), NO_MODIFIERS, CloseEditor),
    (Named(Space), NO_MODIFIERS, ToggleGallery),
    (Character("d"), SHIFT, ConfirmDelete),
    (Character("m"), SHIFT, ConfirmMove),
    (Character("o"), SHIFT, OpenDirDialog),
    (Character("o"), NO_MODIFIERS, OpenFileDialog),
    (Character("x"), NO_MODIFIERS, ClearGallery),
    (Character("q"), NO_MODIFIERS, Quit),
    (Character("f"), NO_MODIFIERS, ToggleMark),
    (Character("d"), NO_MODIFIERS, ToggleDelete),
    (Character("s"), NO_MODIFIERS, ThumbnailSize(64)),
    (Character("m"), NO_MODIFIERS, ThumbnailSize(128)),
    (Character("l"), NO_MODIFIERS, ThumbnailSize(256)),
    (Character("+"), NO_MODIFIERS, IncrementZoom),
    (Character("-"), NO_MODIFIERS, DecrementZoom),
    (Character("0"), NO_MODIFIERS, ResetZoom),
    (Character("h"), NO_MODIFIERS, ShowHelp)
  ]

  /** Every row of the binding table is honoured by the hotkey handler. */
  lemma TableRowsHandled(i: nat)
    requires i < |BINDINGS|
    ensures HandleHotkey(BINDINGS[i].0, BINDINGS[i].1) == Some(BINDINGS[i].2)
  {
    if i < 8 {
      assert BINDINGS[i].0.Named? && BINDINGS[i].1 == NO_MODIFIERS;
    } else if i < 11 {
      assert BINDINGS[i].1 == SHIFT;
    } else {
      assert BINDINGS[i].1 == NO_MODIFIERS;
    }
  }

  /** The hotkey handler yields a message only for a row of the binding table. */
  lemma HandledKeysInTable(key: Key, modifiers: Modifiers)
    requires HandleHotkey(key, modifiers).Some?
    ensures (key, modifiers, HandleHotkey(key, modifiers).value) in BINDINGS
  {
  }

  /** No two rows bind the same key and modifiers, so the table is unambiguous. */
  lemma BindingsDistinct()
    ensures forall i, j :: 0 <= i < j < |BINDINGS| ==> (BINDINGS[i].0, BINDINGS[i].1) != (BINDINGS[j].0, BINDINGS[j].1)
  {
  }

  /** Arrow keys move the cursor only when no modifier is held; `d` and `m` differ by Shift. */
  lemma HotkeyExamples()
    ensures HandleHotkey(Named(ArrowLeft), NO_MODIFIERS) == Some(SelectPrev)
    ensures HandleHotkey(Named(ArrowRight), NO_MODIFIERS) == Some(SelectNext)
    ensures HandleHotkey(Named(ArrowUp), NO_MODIFIERS) == Some(SelectUp)
    ensures HandleHotkey(Named(ArrowDown), NO_MODIFIERS) == Some(SelectDown)
    ensures HandleHotkey(Named(ArrowLeft), SHIFT) == None
    ensures HandleHotkey(Character("d"), SHIFT) == Some(ConfirmDelete)
    ensures HandleHotkey(Character("d"), NO_MODIFIERS) == Some(ToggleDelete)
    ensures HandleHotkey(Character("m"), SHIFT) == Some(ConfirmMove)
    ensures HandleHotkey(Character("m"), NO_MODIFIERS) == Some(ThumbnailSize(128))
    ensures HandleHotkey(Character("q"), Modifiers(false, true, false, false)) == None
    ensures HandleHotkey(Named(PageDown), NO_MODIFIERS) == None
  {
  }

  // ------------------------------------------------------------------- viewer

  /** Which screen is shown; the gallery is the default. */
  datatype Screen = Gallery | Editor

  /** The `Task` an arm returns, by what it asks the runtime to do. */
  datatype Task =
    | NoTask
    | Exit
    | AskMoveDestination                    // save_dir_dialog, answered by MoveFiles
    | AskDeleteConfirmation(count: nat)     // confirm_delete_dialog, answered by DeleteFiles
    | PickFolders                           // open_dir_dialog, answered by FilesSelected
    | PickFiles                             // open_files_dialog, answered by FilesSelected
    | SnapToSelection                       // scroll the gallery to the selected row
    | SnapToTop
    | SnapToBottom

  /** What handling a message ends in: a task, or a panic (`unwrap`, or `+=` overflowing with checks on). */
  datatype Outcome = Done(task: Task) | Panic

  /** The file-system and dialog answers an arm consults. */
  datatype Env = Env(fs: Path -> Probe, fileOpOk: nat -> bool)

  /** The outcome of the file operation on each of the first `n` items. */
  function Outcomes(env: Env, n: nat): (r: seq<bool>)
    ensures |r| == n && forall i :: 0 <= i < n ==> r[i] == env.fileOpOk(i)
  {
    seq(n, i requires 0 <= i < n => env.fileOpOk(i))
  }

  const U32_MAX: nat := 0xFFFF_FFFF

  // ------------------------------------------------------------ the state

  /** The six plot settings the pickers choose, `None` where none is chosen. */
  datatype PlotOptions = PlotOptions(
    fftn: Option<FftSize>,
    windowf: Option<WindowFunctions>,
    gain: Option<DbGain>,
    range: Option<DbRange>,
    colormap: Option<Colormap>,
    orientation: Option<Orientation>)

  /**
   * Everything `update` reads or writes that this model keeps, as one
   * value: the viewer's fields and the gallery list with its cursor.
   */
  datatype ViewerState = ViewerState(
    screen: Screen,
    showHelp: bool,
    cellsPerRow: Usize,
    thumbnailSize: nat,
    hoverCount: Usize,
    opts: PlotOptions,
    cwd: Option<Path>,
    plot: Option<Path>,
    items: seq<FileItem>,
    selection: Usize)
  {
    /** The editor is only ever shown with a plot open. */
    predicate Valid()
    {
      screen == Editor ==> plot.Some?
    }

    /** The cursor is on an item. */
    predicate HasSelection()
    {
      selection < |items|
    }
  }

  // ------------------------------------------------------------- the arms

  /** `ToggleGallery`: the two `unwrap`s panic without a selection, or in the editor without a plot. */
  function SwitchArm(s: ViewerState): (ViewerState, Outcome)
  {
    if |s.items| == 0 then (s, Done(NoTask))
    else if !s.HasSelection() then (s, Panic)
    else
      var shown := s.items[s.selection].path;
      if s.screen == Editor && s.plot.None? then (s, Panic)
      else if s.screen == Editor && s.plot == Some(shown) then (s.(screen := Gallery), Done(NoTask))
      else (s.(screen := Editor, plot := Some(shown)), Done(NoTask))
  }

  /** A `set_selection` or `inc_selection` that puts the cursor at `to`; as written, `len() - 1` underflows on an empty list. */
  function CursorArm(s: ViewerState, to: Usize, task: Task): (ViewerState, Outcome)
  {
    if |s.items| == 0 then (s, Panic) else (s.(selection := to), Done(task))
  }

  /** `OpenThumbnail(index)`: opens the selected item, or moves the cursor to another one. */
  function OpenArm(s: ViewerState, index: Usize): (ViewerState, Outcome)
  {
    if s.selection == index then
      if s.HasSelection() then (s.(screen := Editor, plot := Some(s.items[index].path)), Done(NoTask))
      else (s, Panic)
    else CursorArm(s, Clamp(index, |s.items|), NoTask)
  }

  /** The end of an arm that extends the gallery: the new items are appended, or a push panicked. */
  function AppendArm(s: ViewerState, added: Option<seq<FileItem>>): (ViewerState, Outcome)
  {
    match added
    case None => (s, Panic)
    case Some(more) => (s.(items := s.items + more), Done(NoTask))
  }

  /** `FilesSelected(files)`: the first path is plotted or becomes the working folder, then all are added. */
  function AddArm(s: ViewerState, files: Option<seq<Path>>, fs: Path -> Probe, read: Reader): (ViewerState, Outcome)
  {
    match files
    case None => (s, Done(NoTask))
    case Some(chosen) =>
      var first :=
        if |chosen| == 0 then s
        else if fs(chosen[0]).IsFile? then s.(plot := Some(chosen[0]))
        else s.(cwd := Some(chosen[0]));
      AppendArm(first, Extended(chosen, fs, read))
  }

  /** `FileDropped(path)`: a file is added and plotted; a folder's I/Q files are added. */
  function DropArm(s: ViewerState, path: Path, fs: Path -> Probe, read: Reader): (ViewerState, Outcome)
  {
    match fs(path)
    case IsFile =>
      var shown :=
        if s.hoverCount == 1 then s.(screen := Editor, hoverCount := 0)
        else if s.hoverCount > 1 then s.(screen := Gallery, hoverCount := 0)
        else s;
      (shown.(items := shown.items + [Fresh(path)], plot := Some(path)), Done(NoTask))
    case NotFile(listing) =>
      var folder := s.(screen := Gallery, cwd := Some(path));
      match read(listing)
      case Err(_) => (folder, Panic)
      case Ok(files) => AppendArm(folder, Extended(files, fs, read))
  }

  /** The arms of `update` that change the screen, the overlay or the drag count, or only return a task. */
  predicate IsViewMessage(msg: Message)
  {
    msg.Quit? || msg.ShowHelp? || msg.CloseEditor? || msg.ToggleGallery? || msg.ThumbnailSize?
    || msg.OpenDirDialog? || msg.OpenFileDialog? || msg.FileHovered? || msg.FilesHoveredLeft?
    || msg.IncrementZoom? || msg.DecrementZoom? || msg.ResetZoom?
  }

  /** The arms of `update` that tag, move, delete or clear the gallery's items. */
  predicate IsItemsMessage(msg: Message)
  {
    msg.ClearGallery? || msg.ToggleMark? || msg.ToggleDelete? || msg.ConfirmMove? || msg.ConfirmDelete?
    || msg.MoveFiles? || msg.DeleteFiles?
  }

  /** The arms of `update` that move the cursor or open a thumbnail. */
  predicate IsCursorMessage(msg: Message)
  {
    msg.OpenThumbnail? || msg.SelectPrev? || msg.SelectNext? || msg.SelectUp? || msg.SelectDown?
    || msg.SelectHome? || msg.SelectEnd?
  }

  /** The arms of `update` that record a plot option. */
  predicate IsPickMessage(msg: Message)
  {
    msg.PickFftn? || msg.PickWindowf? || msg.PickGain? || msg.PickRange? || msg.PickColormap? || msg.PickOrientation?
  }

  /** A `Pick*` arm once the option is recorded: `plot.unwrap()` panics when no plot is open. */
  function PickArm(s: ViewerState): (ViewerState, Outcome)
  {
    (s, if s.plot.None? then Panic else Done(NoTask))
  }

  /** The arms that can end in a panic. */
  predicate MayPanic(msg: Message)
  {
    msg.ToggleGallery? || msg.OpenThumbnail? || msg.FilesSelected? || msg.FileHovered? || msg.FileDropped?
    || msg.SelectNext? || msg.SelectDown? || msg.SelectHome? || msg.SelectEnd?
    || msg.PickFftn? || msg.PickWindowf? || msg.PickGain? || msg.PickRange? || msg.PickColormap? || msg.PickOrientation?
  }

  /**
   * `update(message)` on the modelled state: the state the arm leaves and
   * how it ends. A panic ends the application, so what matters of a
   * panicking arm is that it panics. Every arm keeps the editor backed by a
   * plot, and only the arms `MayPanic` names can panic.
   */
  function Step(s: ViewerState, msg: Message, env: Env, read: Reader): (r: (ViewerState, Outcome))
    ensures s.Valid() ==> r.0.Valid()
    ensures r.1.Panic? ==> MayPanic(msg)
  {
    match msg
    case Quit => (s, Done(Exit))
    case ShowHelp => (s.(showHelp := !s.showHelp), Done(NoTask))
    case CloseEditor => (if s.showHelp then s.(showHelp := false) else s.(screen := Gallery), Done(NoTask))
    case ToggleGallery => SwitchArm(s)
    case ThumbnailSize(size) => (s.(thumbnailSize := Min(size, U32_MAX)), Done(NoTask))
    case ClearGallery => (s.(screen := Gallery, items := [], selection := 0), Done(NoTask))
    case ToggleMark =>
      (if s.HasSelection() then s.(items := s.items[s.selection := s.items[s.selection].ToggleMark()]) else s, Done(NoTask))
    case ToggleDelete =>
      (if s.HasSelection() then s.(items := s.items[s.selection := s.items[s.selection].ToggleDelete()]) else s, Done(NoTask))
    case ConfirmMove =>
      (s, Done(if CountFlagged(s.items, Mark) > 0 then AskMoveDestination else NoTask))
    case ConfirmDelete =>
      var n := CountFlagged(s.items, Delete);
      (s, Done(if n > 0 then AskDeleteConfirmation(n) else NoTask))
    case MoveFiles(dst) =>
      (if dst.Some? then s.(items := Retained(s.items, Mark, Outcomes(env, |s.items|))) else s, Done(NoTask))
    case DeleteFiles(answer) =>
      (if answer == DialogOk then s.(items := Retained(s.items, Delete, Outcomes(env, |s.items|))) else s, Done(NoTask))
    case OpenThumbnail(index) => OpenArm(s, index)
    case OpenDirDialog => (s, Done(PickFolders))
    case OpenFileDialog => (s, Done(PickFiles))
    case FilesSelected(files) => AddArm(s, files, env.fs, read)
    case FileHovered =>
      if s.hoverCount == USIZE_MAX then (s, Panic) else (s.(hoverCount := s.hoverCount + 1), Done(NoTask))
    case FilesHoveredLeft => (s.(hoverCount := 0), Done(NoTask))
    case FileDropped(path) => DropArm(s, path, env.fs, read)
    case SelectPrev => (s.(selection := SaturatingSub(s.selection, 1)), Done(SnapToSelection))
    case SelectNext => CursorArm(s, Advance(s.selection, 1, |s.items|), SnapToSelection)
    case SelectUp => (s.(selection := SaturatingSub(s.selection, s.cellsPerRow)), Done(SnapToSelection))
    case SelectDown => CursorArm(s, Advance(s.selection, s.cellsPerRow, |s.items|), SnapToSelection)
    case SelectHome => CursorArm(s, Clamp(0, |s.items|), SnapToTop)
    case SelectEnd => CursorArm(s, Clamp(USIZE_MAX, |s.items|), SnapToBottom)
    case IncrementZoom => (s, Done(NoTask))
    case DecrementZoom => (s, Done(NoTask))
    case ResetZoom => (s, Done(NoTask))
    case PickFftn(v) => PickArm(s.(opts := s.opts.(fftn := Some(v))))
    case PickWindowf(v) => PickArm(s.(opts := s.opts.(windowf := Some(v))))
    case PickGain(v) => PickArm(s.(opts := s.opts.(gain := Some(v))))
    case PickRange(v) => PickArm(s.(opts := s.opts.(range := Some(v))))
    case PickColormap(v) => PickArm(s.(opts := s.opts.(colormap := Some(v))))
    case PickOrientation(v) => PickArm(s.(opts := s.opts.(orientation := Some(v))))
  }

  // ------------------------------------------------------- properties of update

  /**
   * On an empty gallery the arrow keys forward, Home, End and any click on
   * a thumbnail panic (`len() - 1` underflows, or `selected().unwrap()`
   * finds nothing).
   */
  lemma EmptyGalleryCursorPanics(s: ViewerState, msg: Message, env: Env, read: Reader)
    requires |s.items| == 0
    requires msg.SelectNext? || msg.SelectDown? || msg.SelectHome? || msg.SelectEnd? || msg.OpenThumbnail?
    ensures Step(s, msg, env, read).1.Panic?
  {
  }

  /** Stepping back never panics, whatever the list: `saturating_sub` needs no length. */
  lemma BackKeysNeverPanic(s: ViewerState, env: Env, read: Reader)
    ensures Step(s, SelectPrev, env, read).1 == Done(SnapToSelection)
    ensures Step(s, SelectUp, env, read).1 == Done(SnapToSelection)
  {
  }

  /** Pressing `x` and then Home panics: `set_selection(0)` meets the list `clear` has just emptied. */
  lemma ClearThenHomePanics(s: ViewerState, env: Env, read: Reader)
    ensures HandleHotkey(Character("x"), NO_MODIFIERS) == Some(ClearGallery)
    ensures HandleHotkey(Named(Home), NO_MODIFIERS) == Some(SelectHome)
    ensures Step(Step(s, ClearGallery, env, read).0, SelectHome, env, read).1.Panic?
  {
  }

  /** Toggling the help overlay twice restores the whole state. */
  lemma HelpTwiceRestores(s: ViewerState, env: Env, read: Reader)
    ensures Step(Step(s, ShowHelp, env, read).0, ShowHelp, env, read).0 == s
  {
  }

  /** Toggling the selected item's move mark twice restores the whole state. */
  lemma MarkTwiceRestores(s: ViewerState, env: Env, read: Reader)
    ensures Step(Step(s, ToggleMark, env, read).0, ToggleMark, env, read).0 == s
  {
    if s.HasSelection() {
      TogglesInvolutive(s.items[s.selection]);
    }
  }

  /** Toggling the selected item's delete tag twice restores the whole state. */
  lemma DeleteTagTwiceRestores(s: ViewerState, env: Env, read: Reader)
    ensures Step(Step(s, ToggleDelete, env, read).0, ToggleDelete, env, read).0 == s
  {
    if s.HasSelection() {
      TogglesInvolutive(s.items[s.selection]);
    }
  }

  /** With a selection, every cursor arm keeps one and changes nothing but the cursor. */
  lemma CursorArmsKeepSelection(s: ViewerState, msg: Message, env: Env, read: Reader)
    requires s.HasSelection()
    requires msg.SelectPrev? || msg.SelectNext? || msg.SelectUp? || msg.SelectDown? || msg.SelectHome? || msg.SelectEnd?
    ensures Step(s, msg, env, read).1.Done?
    ensures Step(s, msg, env, read).0 == s.(selection := Step(s, msg, env, read).0.selection)
    ensures Step(s, msg, env, read).0.HasSelection()
  {
  }

  /** A file dragged over the window and dropped there alone opens in the editor, added at the end of the gallery. */
  lemma DropSingleFileOpensEditor(s: ViewerState, path: Path, env: Env, read: Reader)
    requires s.hoverCount == 0 && env.fs(path).IsFile?
    ensures var t := Step(Step(s, FileHovered, env, read).0, FileDropped(path), env, read);
      && t.1 == Done(NoTask)
      && t.0.screen == Editor && t.0.plot == Some(path) && t.0.hoverCount == 0
      && t.0.items == s.items + [Fresh(path)]
  {
  }

  /** Asking to move asks for a destination exactly when some item is marked, and changes nothing. */
  lemma ConfirmMoveAsksIffMarked(s: ViewerState, env: Env, read: Reader)
    ensures Step(s, ConfirmMove, env, read).0 == s
    ensures Step(s, ConfirmMove, env, read).1 == Done(AskMoveDestination) <==>
      exists i :: 0 <= i < |s.items| && s.items[i].hasMark
  {
  }

  /** When every rename succeeds, moving drops exactly the marked items and leaves none marked. */
  lemma MoveAllSucceeds(s: ViewerState, dst: Path, env: Env, read: Reader)
    requires forall i :: 0 <= i < |s.items| ==> env.fileOpOk(i) && FileName(s.items[i].path).Some?
    ensures var t := Step(s, MoveFiles(Some(dst)), env, read);
      && t.1 == Done(NoTask)
      && CountFlagged(t.0.items, Mark) == 0
      && |t.0.items| == |s.items| - CountFlagged(s.items, Mark)
  {
    var ok := Outcomes(env, |s.items|);
    assert Step(s, MoveFiles(Some(dst)), env, read) == (s.(items := Retained(s.items, Mark, ok)), Done(NoTask));
    assert forall i :: 0 <= i < |s.items| ==> ok[i] && FileName(s.items[i].path).Some?;
    RetainedAllSucceed(s.items, Mark, ok);
  }

  /**
   * Deleting the selected item when it is the last one leaves the cursor
   * past the end, since `retain` does not re-clamp it; Space then panics.
   */
  lemma DeleteCanStrandCursor(s: ViewerState, env: Env, read: Reader)
    requires s.selection + 1 == |s.items| && s.items[s.selection].hasDelete && env.fileOpOk(s.selection)
    ensures var t := Step(s, DeleteFiles(DialogOk), env, read).0;
      !t.HasSelection() && (|t.items| > 0 ==> Step(t, ToggleGallery, env, read).1.Panic?)
  {
    RetainCanStrandSelection(s.items, Delete, Outcomes(env, |s.items|), s.selection);
  }

  // ------------------------------------------------------------- the viewer

  class Viewer {
    var screen: Screen
    var showHelp: bool
    var cellsPerRow: Usize
    var thumbnailSize: nat
    var hoverCount: Usize
    var optsFftn: Option<FftSize>
    var optsWindowf: Option<WindowFunctions>
    var optsGain: Option<DbGain>
    var optsRange: Option<DbRange>
    var optsColormap: Option<Colormap>
    var optsOrientation: Option<Orientation>
    var cwd: Option<Path>
    /** The file the plot shows, `None` before any plot is opened. */
    var plot: Option<Path>
    const thumbnails: ItemList

    /** The modelled state as one value. */
    function State(): ViewerState
      reads this, thumbnails
    {
      ViewerState(screen, showHelp, cellsPerRow, thumbnailSize, hoverCount,
        PlotOptions(optsFftn, optsWindowf, optsGain, optsRange, optsColormap, optsOrientation),
        cwd, plot, thumbnails.items, thumbnails.selection)
    }

    predicate Valid()
      reads this, thumbnails
    {
      State().Valid()
    }

    /** `Viewer::default()` before the command-line paths are added. */
    constructor ()
      ensures Valid()
      ensures screen == Gallery && !showHelp && cellsPerRow == 1 && thumbnailSize == 256 && hoverCount == 0
      ensures optsFftn == Some(FFT_SIZE_DEFAULT) && optsWindowf == Some(WINDOW_FUNCTIONS_DEFAULT)
      ensures optsGain == Some(DB_GAIN_DEFAULT) && optsRange == Some(DB_RANGE_DEFAULT)
      ensures optsColormap == Some(COLORMAP_DEFAULT) && optsOrientation == Some(ORIENTATION_DEFAULT)
      ensures cwd.None? && plot.None?
      ensures fresh(thumbnails) && thumbnails.items == [] && thumbnails.selection == 0
    {
      screen := Gallery;
      showHelp := false;
      cellsPerRow := 1;
      thumbnailSize := 256;
      hoverCount := 0;
      optsFftn := Some(FFT_SIZE_DEFAULT);
      optsWindowf := Some(WINDOW_FUNCTIONS_DEFAULT);
      optsGain := Some(DB_GAIN_DEFAULT);
      optsRange := Some(DB_RANGE_DEFAULT);
      optsColormap := Some(COLORMAP_DEFAULT);
      optsOrientation := Some(ORIENTATION_DEFAULT);
      cwd := None;
      plot := None;
      thumbnails := new ItemList();
    }

    /** `open_plot(path)`: the plot now shows `path` (the engine settings it applies are not modelled). */
    method OpenPlot(path: Path)
      modifies this
      ensures State() == old(State()).(plot := Some(path))
    {
      plot := Some(path);
    }

    /** `ShowHelp`: toggles the help overlay. */
    method ToggleHelp()
      modifies this
      ensures State() == old(State()).(showHelp := !old(showHelp))
    {
      showHelp := !showHelp;
    }

    /** `CloseEditor` (Escape): closes the help overlay if shown, otherwise returns to the gallery. */
    method Close()
      modifies this
      ensures old(showHelp) ==> State() == old(State()).(showHelp := false)
      ensures !old(showHelp) ==> State() == old(State()).(screen := Gallery)
      ensures old(Valid()) ==> Valid()
    {
      if showHelp {
        showHelp := !showHelp;
      } else {
        screen := Gallery;
      }
    }

    /**
     * `ToggleGallery` (Space): nothing on an empty list; otherwise opens the
     * selected item, or in the editor on the item already shown, returns to
     * the gallery. Panics when the cursor is past the end of the list.
     */
    method SwitchScreen() returns (out: Outcome)
      requires Valid()
      modifies this
      ensures Valid()
      ensures State() == old(State()).(screen := screen, plot := plot)
      ensures out.Panic? <==> |thumbnails.items| > 0 && !thumbnails.HasSelection()
      ensures |thumbnails.items| == 0 ==> screen == old(screen) && plot == old(plot)
      ensures out.Done? && |thumbnails.items| > 0 ==>
        var shown := thumbnails.items[thumbnails.selection].path;
        if old(screen) == Editor && old(plot) == Some(shown) then screen == Gallery && plot == old(plot)
        else screen == Editor && plot == Some(shown)
      ensures out.Done? ==> out.task == NoTask
    {
      out := Done(NoTask);
      if thumbnails.IsEmpty() {
        // do nothing
      } else if screen == Editor {
        match thumbnails.Selected()
        case None =>
          out := Panic;
        case Some(thumbnail) =>
          if Some(thumbnail.path) == plot {
            screen := Gallery;
          } else {
            OpenPlot(thumbnail.path);
          }
      } else {
        match thumbnails.Selected()
        case None =>
          out := Panic;
        case Some(thumbnail) =>
          OpenPlot(thumbnail.path);
          screen := Editor;
      }
    }

    /** `ThumbnailSize(size)`: `size as u32`, which saturates. */
    method SetThumbnailSize(size: nat)
      modifies this
      ensures State() == old(State()).(thumbnailSize := Min(size, U32_MAX))
      ensures thumbnailSize <= U32_MAX && (size <= U32_MAX ==> thumbnailSize == size)
    {
      thumbnailSize := Min(size, U32_MAX);
    }

    /** `ClearGallery`: back to the gallery with an empty list and the cursor at 0. */
    method ClearAll()
      modifies this, thumbnails
      ensures State() == old(State()).(screen := Gallery, items := [], selection := 0)
      ensures Valid()
    {
      screen := Gallery;
      thumbnails.Clear();
    }

    /** `ConfirmMove`: asks for a destination only when some item is marked. */
    method ConfirmMoveTask() returns (task: Task)
      ensures task == AskMoveDestination || task == NoTask
      ensures task == AskMoveDestination <==> exists i :: 0 <= i < |thumbnails.items| && thumbnails.items[i].hasMark
    {
      if thumbnails.CountMarked() > 0 {
        task := AskMoveDestination;
      } else {
        task := NoTask;
      }
    }

    /** `ConfirmDelete`: asks to confirm only when some item is tagged, quoting how many. */
    method ConfirmDeleteTask() returns (task: Task)
      ensures task == NoTask || (task.AskDeleteConfirmation? && 0 < task.count <= |thumbnails.items|)
      ensures task.AskDeleteConfirmation? <==> exists i :: 0 <= i < |thumbnails.items| && thumbnails.items[i].hasDelete
      ensures task.AskDeleteConfirmation? ==> task.count == CountFlagged(thumbnails.items, Delete)
    {
      if thumbnails.CountToDelete() > 0 {
        task := AskDeleteConfirmation(thumbnails.CountToDelete());
      } else {
        task := NoTask;
      }
    }

    /** `MoveFiles(dst)`: moves the marked files when a destination was chosen. */
    method MoveTo(dst: Option<Path>, renameOk: seq<bool>)
      requires |renameOk| == |thumbnails.items|
      modifies thumbnails
      ensures dst.None? ==> thumbnails.items == old(thumbnails.items)
      ensures dst.Some? ==> thumbnails.items == Retained(old(thumbnails.items), Mark, renameOk)
      ensures thumbnails.selection == old(thumbnails.selection)
    {
      if dst.Some? {
        var _ := thumbnails.MoveMarkedTo(dst.value, renameOk);
      }
    }

    /** `DeleteFiles(answer)`: deletes the tagged files only on an `Ok` answer. */
    method DeleteOnOk(answer: DialogResult, removeOk: seq<bool>)
      requires |removeOk| == |thumbnails.items|
      modifies thumbnails
      ensures answer != DialogOk ==> thumbnails.items == old(thumbnails.items)
      ensures answer == DialogOk ==> thumbnails.items == Retained(old(thumbnails.items), Delete, removeOk)
      ensures thumbnails.selection == old(thumbnails.selection)
    {
      if answer == DialogOk {
        thumbnails.DeleteMarked(removeOk);
      }
    }

    /**
     * `OpenThumbnail(index)`: a click on the selected thumbnail opens it in
     * the editor (panicking if the cursor is past the end); a click
     * elsewhere only moves the cursor there, clamped, and panics on an
     * empty list.
     */
    method OpenAt(index: Usize) returns (out: Outcome)
      requires Valid()
      modifies this, thumbnails
      ensures Valid()
      ensures out.Panic? <==>
        if index == old(thumbnails.selection) then !old(thumbnails.HasSelection()) else |old(thumbnails.items)| == 0
      ensures out.Panic? ==> State() == old(State())
      ensures index == old(thumbnails.selection) && out.Done? ==>
        State() == old(State()).(screen := Editor, plot := Some(old(thumbnails.items)[index].path))
      ensures index != old(thumbnails.selection) && out.Done? ==>
        State() == old(State()).(selection := Clamp(index, |old(thumbnails.items)|))
      ensures out.Done? ==> out.task == NoTask
    {
      out := Done(NoTask);
      if thumbnails.selection == index {
        match thumbnails.Selected()
        case None =>
          out := Panic;
        case Some(item) =>
          OpenPlot(item.path);
          screen := Editor;
      } else {
        var ok := thumbnails.SetSelection(index);
        if !ok {
          out := Panic;
        }
      }
    }

    /**
     * `FilesSelected(files)`: for a non-empty choice, opens the first path
     * in the plot if it is a file or remembers it as the working folder;
     * then adds every chosen path to the gallery.
     */
    method AddSelected(files: Option<seq<Path>>, fs: Path -> Probe) returns (out: Outcome)
      requires Valid()
      modifies this, thumbnails
      ensures Valid()
      ensures State() == old(State()).(plot := plot, cwd := cwd, items := thumbnails.items)
      ensures files.None? ==> (out == Done(NoTask) && thumbnails.items == old(thumbnails.items)
        && plot == old(plot) && cwd == old(cwd))
      ensures files.Some? && |files.value| > 0 && fs(files.value[0]).IsFile? ==>
        (plot == Some(files.value[0]) && cwd == old(cwd))
      ensures files.Some? && |files.value| > 0 && !fs(files.value[0]).IsFile? ==>
        (cwd == Some(files.value[0]) && plot == old(plot))
      ensures files.Some? && |files.value| == 0 ==> plot == old(plot) && cwd == old(cwd)
      ensures files.Some? ==> (out.Panic? <==> Extended(files.value, fs, ReadDirIq).None?)
      ensures files.Some? && out.Done? ==> thumbnails.items == old(thumbnails.items) + Extended(files.value, fs, ReadDirIq).value
      ensures out.Done? ==> out.task == NoTask
    {
      out := Done(NoTask);
      if files.Some? {
        var chosen := files.value;
        if |chosen| > 0 {
          if fs(chosen[0]).IsFile? {
            OpenPlot(chosen[0]);
          } else {
            cwd := Some(chosen[0]);
          }
        }
        var ok := thumbnails.Extend(chosen, fs, ReadDirIq);
        if !ok {
          out := Panic;
        }
      }
    }

    /** `FileHovered`: one more file is being dragged over the window (`+= 1`, checked). */
    method Hovered() returns (out: Outcome)
      modifies this
      ensures old(hoverCount) < USIZE_MAX ==> out == Done(NoTask) && State() == old(State()).(hoverCount := old(hoverCount) + 1)
      ensures old(hoverCount) == USIZE_MAX ==> out.Panic? && State() == old(State())
    {
      if hoverCount == USIZE_MAX {
        out := Panic;
      } else {
        hoverCount := hoverCount + 1;
        out := Done(NoTask);
      }
    }

    /** `FilesHoveredLeft`: the drag left the window. */
    method HoverLeft()
      modifies this
      ensures State() == old(State()).(hoverCount := 0)
    {
      hoverCount := 0;
    }

    /**
     * `FileDropped(path)`. A file: the editor opens if it was dropped alone,
     * the gallery shows if it was one of several, and with no hover seen
     * neither changes; it is added to the gallery and opened in the plot.
     * A folder: the gallery shows, the folder becomes the working folder and
     * its I/Q files are added (a listing or push failure panics).
     */
    method Dropped(path: Path, fs: Path -> Probe) returns (out: Outcome)
      requires Valid()
      modifies this, thumbnails
      ensures Valid()
      ensures State() == old(State()).(screen := screen, hoverCount := hoverCount, cwd := cwd, plot := plot, items := thumbnails.items)
      ensures fs(path).IsFile? ==>
        && out == Done(NoTask)
        && (old(hoverCount) == 1 ==> screen == Editor && hoverCount == 0)
        && (old(hoverCount) > 1 ==> screen == Gallery && hoverCount == 0)
        && (old(hoverCount) == 0 ==> screen == old(screen) && hoverCount == 0)
        && thumbnails.items == old(thumbnails.items) + [Fresh(path)]
        && plot == Some(path) && cwd == old(cwd)
      ensures !fs(path).IsFile? ==>
        && screen == Gallery && cwd == Some(path) && plot == old(plot) && hoverCount == old(hoverCount)
        && (out.Panic? <==> ReadDirIq(fs(path).listing).Err? || Extended(ReadDirIq(fs(path).listing).value, fs, ReadDirIq).None?)
        && (out.Done? ==> thumbnails.items == old(thumbnails.items) + Extended(ReadDirIq(fs(path).listing).value, fs, ReadDirIq).value)
      ensures out.Done? ==> out.task == NoTask
    {
      out := Done(NoTask);
      match fs(path)
      case IsFile =>
        if hoverCount == 1 {
          screen := Editor;
          hoverCount := 0;
        } else if hoverCount > 1 {
          screen := Gallery;
          hoverCount := 0;
        }
        var _ := thumbnails.Push(path, fs, ReadDirIq);
        OpenPlot(path);
      case NotFile(listing) =>
        screen := Gallery;
        cwd := Some(path);
        match ReadDirIq(listing)
        case Err(_) =>
          out := Panic;
        case Ok(files) =>
          var ok := thumbnails.Extend(files, fs, ReadDirIq);
          if !ok {
            out := Panic;
          }
    }

    /** `SelectPrev` / `SelectUp`: the cursor steps back by `offset`, saturating at 0. */
    method StepBack(offset: Usize) returns (task: Task)
      modifies thumbnails
      ensures thumbnails.items == old(thumbnails.items)
      ensures thumbnails.selection == SaturatingSub(old(thumbnails.selection), offset)
      ensures task == SnapToSelection
    {
      thumbnails.DecSelection(offset);
      task := SnapToSelection;
    }

    /** `SelectNext` / `SelectDown`: the cursor steps forward by `offset`, clamped to the last item; an empty list panics. */
    method StepForward(offset: Usize) returns (out: Outcome)
      modifies thumbnails
      ensures thumbnails.items == old(thumbnails.items)
      ensures out.Panic? <==> |thumbnails.items| == 0
      ensures out.Panic? ==> thumbnails.selection == old(thumbnails.selection)
      ensures out.Done? ==>
        out.task == SnapToSelection && thumbnails.selection == Advance(old(thumbnails.selection), offset, |thumbnails.items|)
    {
      var ok := thumbnails.IncSelection(offset);
      out := if ok then Done(SnapToSelection) else Panic;
    }

    /** `SelectHome`: the cursor goes to the first item; an empty list panics. */
    method SelectFirst() returns (out: Outcome)
      modifies thumbnails
      ensures thumbnails.items == old(thumbnails.items)
      ensures out.Panic? <==> |thumbnails.items| == 0
      ensures out.Panic? ==> thumbnails.selection == old(thumbnails.selection)
      ensures out.Done? ==> out.task == SnapToTop && thumbnails.selection == 0
    {
      var ok := thumbnails.SetSelection(0);
      out := if ok then Done(SnapToTop) else Panic;
    }

    /** `SelectEnd`: the cursor goes to the last item (`set_selection(usize::MAX)`); an empty list panics. */
    method SelectLast() returns (out: Outcome)
      modifies thumbnails
      ensures thumbnails.items == old(thumbnails.items)
      ensures out.Panic? <==> |thumbnails.items| == 0
      ensures out.Panic? ==> thumbnails.selection == old(thumbnails.selection)
      ensures out.Done? ==> out.task == SnapToBottom && thumbnails.selection == Clamp(USIZE_MAX, |thumbnails.items|)
      ensures out.Done? && |thumbnails.items| <= USIZE_MAX + 1 ==> thumbnails.selection == |thumbnails.items| - 1
    {
      var ok := thumbnails.SetSelection(USIZE_MAX);
      out := if ok then Done(SnapToBottom) else Panic;
    }

    /** The `Pick*` arms: the option is recorded, then `plot.unwrap()` panics if no plot is open. */
    method Pick(msg: Message) returns (out: Outcome)
      requires IsPickMessage(msg)
      modifies this
      ensures out.Panic? <==> plot.None?
      ensures out.Done? ==> out.task == NoTask
      ensures msg.PickFftn? ==> State() == old(State()).(opts := old(State()).opts.(fftn := Some(msg.fftn)))
      ensures msg.PickWindowf? ==> State() == old(State()).(opts := old(State()).opts.(windowf := Some(msg.windowf)))
      ensures msg.PickGain? ==> State() == old(State()).(opts := old(State()).opts.(gain := Some(msg.gain)))
      ensures msg.PickRange? ==> State() == old(State()).(opts := old(State()).opts.(range := Some(msg.range)))
      ensures msg.PickColormap? ==> State() == old(State()).(opts := old(State()).opts.(colormap := Some(msg.colormap)))
      ensures msg.PickOrientation? ==> State() == old(State()).(opts := old(State()).opts.(orientation := Some(msg.orientation)))
    {
      match msg {
        case PickFftn(v) => optsFftn := Some(v);
        case PickWindowf(v) => optsWindowf := Some(v);
        case PickGain(v) => optsGain := Some(v);
        case PickRange(v) => optsRange := Some(v);
        case PickColormap(v) => optsColormap := Some(v);
        case PickOrientation(v) => optsOrientation := Some(v);
      }
      out := if plot.None? then Panic else Done(NoTask);
    }

    /**
     * `update(message)` for the modelled arms: it ends as `Step` says, and
     * when it does not panic it leaves the state `Step` gives.
     */
    method Update(msg: Message, env: Env) returns (out: Outcome)
      requires Valid()
      modifies this, thumbnails
      ensures Valid()
      ensures out == Step(old(State()), msg, env, ReadDirIq).1
      ensures out.Done? ==> State() == Step(old(State()), msg, env, ReadDirIq).0
    {
      if IsViewMessage(msg) {
        out := UpdateView(msg, env);
      } else if IsItemsMessage(msg) {
        out := UpdateItems(msg, env);
      } else if IsCursorMessage(msg) {
        out := UpdateCursor(msg, env);
      } else if IsPickMessage(msg) {
        out := Pick(msg);
      } else {
        out := UpdateFiles(msg, env);
      }
    }

    /** The arms of `update` that change the screen, the overlay or the drag count, with the same contract. */
    method UpdateView(msg: Message, env: Env) returns (out: Outcome)
      requires Valid()
      requires IsViewMessage(msg)
      modifies this, thumbnails
      ensures Valid()
      ensures out == Step(old(State()), msg, env, ReadDirIq).1
      ensures out.Done? ==> State() == Step(old(State()), msg, env, ReadDirIq).0
    {
      out := Done(NoTask);
      match msg
      case Quit => out := Done(Exit);
      case ShowHelp => ToggleHelp();
      case CloseEditor => Close();
      case ToggleGallery => out := SwitchScreen();
      case ThumbnailSize(size) => SetThumbnailSize(size);
      case OpenDirDialog => out := Done(PickFolders);
      case OpenFileDialog => out := Done(PickFiles);
      case FileHovered => out := Hovered();
      case FilesHoveredLeft => HoverLeft();
      case IncrementZoom =>
      case DecrementZoom =>
      case ResetZoom =>
    }

    /** The arms of `update` that tag, move, delete or clear the gallery's items, with the same contract. */
    method UpdateItems(msg: Message, env: Env) returns (out: Outcome)
      requires Valid()
      requires IsItemsMessage(msg)
      modifies this, thumbnails
      ensures Valid()
      ensures out == Step(old(State()), msg, env, ReadDirIq).1
      ensures out.Done? ==> State() == Step(old(State()), msg, env, ReadDirIq).0
    {
      out := Done(NoTask);
      match msg
      case ClearGallery => ClearAll();
      case ToggleMark => thumbnails.SelectedToggleMark();
      case ToggleDelete => thumbnails.SelectedToggleDelete();
      case ConfirmMove =>
        var task := ConfirmMoveTask();
        out := Done(task);
      case ConfirmDelete =>
        var task := ConfirmDeleteTask();
        out := Done(task);
      case MoveFiles(dst) => MoveTo(dst, Outcomes(env, |thumbnails.items|));
      case DeleteFiles(answer) => DeleteOnOk(answer, Outcomes(env, |thumbnails.items|));
    }

    /** The arms of `update` that move the cursor or open a thumbnail, with the same contract. */
    method UpdateCursor(msg: Message, env: Env) returns (out: Outcome)
      requires Valid()
      requires IsCursorMessage(msg)
      modifies this, thumbnails
      ensures Valid()
      ensures out == Step(old(State()), msg, env, ReadDirIq).1
      ensures out.Done? ==> State() == Step(old(State()), msg, env, ReadDirIq).0
    {
      if msg.SelectNext? || msg.SelectDown? || msg.SelectHome? || msg.SelectEnd? {
        out := UpdateForward(msg, env);
        return;
      }
      ghost var s0 := State();
      match msg
      case OpenThumbnail(index) =>
        assert Step(s0, msg, env, ReadDirIq) == OpenArm(s0, index);
        out := OpenAt(index);
      case SelectPrev =>
        assert Step(s0, msg, env, ReadDirIq) == (s0.(selection := SaturatingSub(s0.selection, 1)), Done(SnapToSelection));
        var task := StepBack(1);
        out := Done(task);
      case SelectUp =>
        assert Step(s0, msg, env, ReadDirIq) == (s0.(selection := SaturatingSub(s0.selection, s0.cellsPerRow)), Done(SnapToSelection));
        var task := StepBack(cellsPerRow);
        out := Done(task);
    }

    /** The cursor arms of `update` that can meet an empty list, with the same contract. */
    method UpdateForward(msg: Message, env: Env) returns (out: Outcome)
      requires Valid()
      requires msg.SelectNext? || msg.SelectDown? || msg.SelectHome? || msg.SelectEnd?
      modifies thumbnails
      ensures Valid()
      ensures out == Step(old(State()), msg, env, ReadDirIq).1
      ensures out.Done? ==> State() == Step(old(State()), msg, env, ReadDirIq).0
    {
      ghost var s0 := State();
      match msg
      case SelectNext =>
        assert Step(s0, msg, env, ReadDirIq) == CursorArm(s0, Advance(s0.selection, 1, |s0.items|), SnapToSelection);
        out := StepForward(1);
      case SelectDown =>
        assert Step(s0, msg, env, ReadDirIq) == CursorArm(s0, Advance(s0.selection, s0.cellsPerRow, |s0.items|), SnapToSelection);
        out := StepForward(cellsPerRow);
      case SelectHome =>
        assert Step(s0, msg, env, ReadDirIq) == CursorArm(s0, Clamp(0, |s0.items|), SnapToTop);
        out := SelectFirst();
      case SelectEnd =>
        assert Step(s0, msg, env, ReadDirIq) == CursorArm(s0, Clamp(USIZE_MAX, |s0.items|), SnapToBottom);
        out := SelectLast();
    }

    /** The arms of `update` that add files from a dialog or a drop, with the same contract. */
    method UpdateFiles(msg: Message, env: Env) returns (out: Outcome)
      requires Valid()
      requires msg.FilesSelected? || msg.FileDropped?
      modifies this, thumbnails
      ensures Valid()
      ensures out == Step(old(State()), msg, env, ReadDirIq).1
      ensures out.Done? ==> State() == Step(old(State()), msg, env, ReadDirIq).0
    {
      match msg
      case FilesSelected(files) => out := AddSelected(files, env.fs);
      case FileDropped(path) => out := Dropped(path, env.fs);
    }
  }
}
