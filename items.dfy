/**
 * The gallery's item list (src/items.rs): a vector of file items with a
 * cursor, tag toggles and counts, and the two retain passes that move or
 * delete tagged files. File-system calls are oracle inputs.
 */
module Items {
  import opened Common
  import opened Paths
  import opened Dirs

  // --------------------------------------------------------------- file items

  /** Which of an item's two independent tags is meant. */
  datatype Flag = Mark | Delete

  /**
   * A gallery entry: its path and its "move" (`has_mark`) and "delete"
   * (`has_delete`) tags. Size, sample metadata and the thumbnail come from
   * the spectrogram engine and are not part of this model.
   */
  datatype FileItem = FileItem(path: Path, hasMark: bool, hasDelete: bool)
  {
    predicate Has(f: Flag)
    {
      match f
      case Mark => hasMark
      case Delete => hasDelete
    }

    /** `toggle_mark`: flips the move tag and nothing else. */
    function ToggleMark(): (r: FileItem)
      ensures r.path == path && r.hasDelete == hasDelete && r.hasMark == !hasMark
    {
      this.(hasMark := !hasMark)
    }

    /** `toggle_delete`: flips the delete tag and nothing else. */
    function ToggleDelete(): (r: FileItem)
      ensures r.path == path && r.hasMark == hasMark && r.hasDelete == !hasDelete
    {
      this.(hasDelete := !hasDelete)
    }

    /** `filename`: the path's file name, or the empty string when it has none. */
    function Filename(): (r: string)
      ensures FileName(path).Some? ==> r == FileName(path).value
      ensures FileName(path).None? ==> r == ""
    {
      match FileName(path)
      case Some(name) => name
      case None => ""
    }
  }

  /** Toggling a tag twice restores the item; the two toggles commute. */
  lemma TogglesInvolutive(item: FileItem)
    ensures item.ToggleMark().ToggleMark() == item
    ensures item.ToggleDelete().ToggleDelete() == item
    ensures item.ToggleMark().ToggleDelete() == item.ToggleDelete().ToggleMark()
  {
  }

  /** The part of `FileItem::new(path)` this model keeps: the path, both tags clear. */
  function Fresh(path: Path): FileItem
  {
    FileItem(path, false, false)
  }

  /** One fresh item per path, in order. */
  function FreshAll(paths: seq<Path>): (r: seq<FileItem>)
    ensures |r| == |paths|
    ensures forall i :: 0 <= i < |paths| ==> r[i] == Fresh(paths[i])
  {
    if |paths| == 0 then [] else FreshAll(paths[..|paths| - 1]) + [Fresh(paths[|paths| - 1])]
  }

  // ------------------------------------------------------------- pushing paths

  /** What the file system says about a pushed path: a file, or the listing `read_dir` gives. */
  datatype Probe = IsFile | NotFile(listing: Listing)

  /**
   * The folder reader `push` calls, `read_dir_iq`, taken as a parameter:
   * the viewer passes `ReadDirIq`, and the item list's own proofs hold
   * whatever the reader returns.
   */
  type Reader = Listing -> Result<seq<Path>, IoError>

  /**
   * The items `push(path)` appends: the file itself, or every I/Q file of
   * the folder; `None` where `read_dir_iq(path).unwrap()` panics.
   */
  function Pushed(path: Path, probe: Probe, read: Reader): (r: Option<seq<FileItem>>)
    ensures r.None? <==> probe.NotFile? && read(probe.listing).Err?
    ensures r.Some? ==> forall i :: 0 <= i < |r.value| ==> !r.value[i].hasMark && !r.value[i].hasDelete
  {
    match probe
    case IsFile => Some([Fresh(path)])
    case NotFile(listing) =>
      match read(listing)
      case Ok(files) => Some(FreshAll(files))
      case Err(_) => None
  }

  /** Pushing a folder adds its I/Q files, untagged, in ascending path order. */
  lemma PushedFolderIsSortedIqFiles(path: Path, listing: Listing)
    requires Pushed(path, NotFile(listing), ReadDirIq).Some?
    ensures var added := Pushed(path, NotFile(listing), ReadDirIq).value;
      && (forall i :: 0 <= i < |added| ==> IsIqFile(added[i].path) && !added[i].hasMark && !added[i].hasDelete)
      && (forall i, j :: 0 <= i < j < |added| ==> PathLe(added[i].path, added[j].path))
  {
    var files := ReadDirIq(listing).value;
    ReadDirIqSortedIqFiles(listing);
    forall i | 0 <= i < |files| ensures IsIqFile(files[i]) {
      assert files[i] in files;
    }
  }

  /** The items `extend(paths)` appends, `None` if one of the pushes panics. */
  function Extended(paths: seq<Path>, fs: Path -> Probe, read: Reader): (r: Option<seq<FileItem>>)
  {
    if |paths| == 0 then Some([])
    else
      match Extended(paths[..|paths| - 1], fs, read)
      case None => None
      case Some(before) =>
        match Pushed(paths[|paths| - 1], fs(paths[|paths| - 1]), read)
        case None => None
        case Some(added) => Some(before + added)
  }

  /** `extend` panics exactly when one of its pushes does. */
  lemma {:induction false} ExtendedSucceeds(paths: seq<Path>, fs: Path -> Probe, read: Reader)
    ensures Extended(paths, fs, read).Some? <==> forall k :: 0 <= k < |paths| ==> Pushed(paths[k], fs(paths[k]), read).Some?
  {
    if |paths| > 0 {
      ExtendedSucceeds(paths[..|paths| - 1], fs, read);
    }
  }

  /** One more path whose push succeeds: `extend` appends its items. */
  lemma ExtendedGrows(paths: seq<Path>, i: nat, fs: Path -> Probe, read: Reader, added: seq<FileItem>, pushed: seq<FileItem>)
    requires i < |paths| && Extended(paths[..i], fs, read) == Some(added) && Pushed(paths[i], fs(paths[i]), read) == Some(pushed)
    ensures Extended(paths[..i + 1], fs, read) == Some(added + pushed)
  {
    assert paths[..i + 1][..i] == paths[..i];
  }

  /** One more path whose push panics: `extend` panics. */
  lemma ExtendedPanics(paths: seq<Path>, i: nat, fs: Path -> Probe, read: Reader)
    requires i < |paths| && Pushed(paths[i], fs(paths[i]), read).None?
    ensures Extended(paths[..i + 1], fs, read).None?
  {
    assert paths[..i + 1][..i] == paths[..i];
  }

  /** Once a push panics, the rest of `extend` never runs. */
  lemma {:induction false} ExtendedStopsAtPanic(paths: seq<Path>, k: nat, fs: Path -> Probe, read: Reader)
    requires k <= |paths| && Extended(paths[..k], fs, read).None?
    ensures Extended(paths, fs, read).None?
  {
    if k < |paths| {
      assert paths[..|paths| - 1][..k] == paths[..k];
      ExtendedStopsAtPanic(paths[..|paths| - 1], k, fs, read);
    } else {
      assert paths[..k] == paths;
    }
  }

  /** Extending with files only appends one untagged item per path, in order. */
  lemma {:induction false} ExtendedWithFiles(paths: seq<Path>, fs: Path -> Probe, read: Reader)
    requires forall i :: 0 <= i < |paths| ==> fs(paths[i]).IsFile?
    ensures Extended(paths, fs, read) == Some(FreshAll(paths))
  {
    if |paths| > 0 {
      ExtendedWithFiles(paths[..|paths| - 1], fs, read);
      assert FreshAll(paths) == FreshAll(paths[..|paths| - 1]) + [Fresh(paths[|paths| - 1])];
    }
  }

  // ------------------------------------------------------------------- counts

  /** The `fold` of `count_marked` / `count_to_delete`: how many items carry the tag. */
  function CountFlagged(items: seq<FileItem>, f: Flag): (n: nat)
    ensures n <= |items|
    ensures n == 0 <==> forall i :: 0 <= i < |items| ==> !items[i].Has(f)
    ensures n == |items| <==> forall i :: 0 <= i < |items| ==> items[i].Has(f)
  {
    if |items| == 0 then 0
    else CountFlagged(items[..|items| - 1], f) + (if items[|items| - 1].Has(f) then 1 else 0)
  }

  /** Replacing one item moves a tag count by what the old item had and the new one has. */
  lemma {:induction false} CountAfterUpdate(items: seq<FileItem>, i: nat, x: FileItem, f: Flag)
    requires i < |items|
    ensures CountFlagged(items[i := x], f) + (if items[i].Has(f) then 1 else 0) ==
      CountFlagged(items, f) + (if x.Has(f) then 1 else 0)
  {
    var n := |items| - 1;
    if i < n {
      CountAfterUpdate(items[..n], i, x, f);
      assert items[i := x][..n] == items[..n][i := x];
    } else {
      assert items[i := x][..n] == items[..n];
    }
  }

  /** Toggling one item's tag moves the count by exactly one, the other tag's count not at all. */
  lemma CountAfterToggle(items: seq<FileItem>, i: nat)
    requires i < |items|
    ensures CountFlagged(items[i := items[i].ToggleMark()], Mark) ==
      if items[i].hasMark then CountFlagged(items, Mark) - 1 else CountFlagged(items, Mark) + 1
    ensures CountFlagged(items[i := items[i].ToggleMark()], Delete) == CountFlagged(items, Delete)
  {
    CountAfterUpdate(items, i, items[i].ToggleMark(), Mark);
    CountAfterUpdate(items, i, items[i].ToggleMark(), Delete);
  }

  // ------------------------------------------------------------- retain passes

  /**
   * Whether the closure of `move_marked_to` (f = Mark) or `delete_marked`
   * (f = Delete) returns false, so that `retain` drops the item: it carries
   * the tag, the file operation succeeded, and, for a move, the path has a
   * file name to move under.
   */
  predicate Dropped(item: FileItem, f: Flag, succeeded: bool)
  {
    item.Has(f) && succeeded && (f == Mark ==> FileName(item.path).Some?)
  }

  /** The list `retain` leaves, where `ok[i]` is the outcome of the file operation on item `i`. */
  function Retained(items: seq<FileItem>, f: Flag, ok: seq<bool>): (r: seq<FileItem>)
    requires |ok| == |items|
    ensures |r| <= |items|
  {
    if |items| == 0 then []
    else
      var n := |items| - 1;
      Retained(items[..n], f, ok[..n]) + (if Dropped(items[n], f, ok[n]) then [] else [items[n]])
  }

  /** The positions `retain` keeps: increasing, one per surviving item. */
  function KeptIndices(items: seq<FileItem>, f: Flag, ok: seq<bool>): (r: seq<nat>)
    requires |ok| == |items|
    ensures |r| == |Retained(items, f, ok)|
    ensures forall j :: 0 <= j < |r| ==> r[j] < |items|
    ensures forall j, l :: 0 <= j < l < |r| ==> r[j] < r[l]
  {
    if |items| == 0 then []
    else
      var n := |items| - 1;
      KeptIndices(items[..n], f, ok[..n]) + (if Dropped(items[n], f, ok[n]) then [] else [n])
  }

  /** The survivors of `retain` are the items at the kept positions, in that order. */
  lemma {:induction false} RetainedAtKept(items: seq<FileItem>, f: Flag, ok: seq<bool>)
    requires |ok| == |items|
    ensures forall j :: 0 <= j < |KeptIndices(items, f, ok)| ==>
      Retained(items, f, ok)[j] == items[KeptIndices(items, f, ok)[j]]
  {
    if |items| > 0 {
      var n := |items| - 1;
      RetainedAtKept(items[..n], f, ok[..n]);
      var r, k := Retained(items, f, ok), KeptIndices(items, f, ok);
      var r', k' := Retained(items[..n], f, ok[..n]), KeptIndices(items[..n], f, ok[..n]);
      forall j | 0 <= j < |k| ensures r[j] == items[k[j]] {
        if j < |k'| {
          assert r[j] == r'[j] && k[j] == k'[j];
          assert r'[j] == items[..n][k'[j]];
          assert items[..n][k'[j]] == items[k'[j]];
        } else {
          assert !Dropped(items[n], f, ok[n]);
          assert k == k' + [n] && r == r' + [items[n]];
        }
      }
    }
  }

  /** `retain` keeps a position exactly when its item is not dropped. */
  lemma {:induction false} KeptIffNotDropped(items: seq<FileItem>, f: Flag, ok: seq<bool>)
    requires |ok| == |items|
    ensures forall i :: 0 <= i < |items| ==> (i in KeptIndices(items, f, ok) <==> !Dropped(items[i], f, ok[i]))
  {
    if |items| > 0 {
      var n := |items| - 1;
      KeptIffNotDropped(items[..n], f, ok[..n]);
      forall i | 0 <= i < n ensures items[..n][i] == items[i] && ok[..n][i] == ok[i] { }
    }
  }

  /** When no file operation succeeds, or nothing carries the tag, the list is unchanged. */
  lemma {:induction false} RetainedNothingDropped(items: seq<FileItem>, f: Flag, ok: seq<bool>)
    requires |ok| == |items|
    requires forall i :: 0 <= i < |items| ==> !ok[i] || !items[i].Has(f)
    ensures Retained(items, f, ok) == items
  {
    if |items| > 0 {
      var n := |items| - 1;
      RetainedNothingDropped(items[..n], f, ok[..n]);
      assert items == items[..n] + [items[n]];
    }
  }

  /**
   * When every file operation succeeds (and, for a move, every path has a
   * file name) no tagged item is left, and exactly the tagged ones are gone.
   */
  lemma {:induction false} RetainedAllSucceed(items: seq<FileItem>, f: Flag, ok: seq<bool>)
    requires |ok| == |items|
    requires forall i :: 0 <= i < |items| ==> ok[i] && (f == Mark ==> FileName(items[i].path).Some?)
    ensures Retained(items, f, ok) == Filter(items, (x: FileItem) => !x.Has(f))
    ensures CountFlagged(Retained(items, f, ok), f) == 0
    ensures |Retained(items, f, ok)| == |items| - CountFlagged(items, f)
  {
    if |items| > 0 {
      var n := |items| - 1;
      RetainedAllSucceed(items[..n], f, ok[..n]);
      var r := Retained(items, f, ok);
      var r' := Retained(items[..n], f, ok[..n]);
      var last := if items[n].Has(f) then [] else [items[n]];
      assert Dropped(items[n], f, ok[n]) == items[n].Has(f);
      assert r == r' + last;
      assert CountFlagged(items, f) == CountFlagged(items[..n], f) + (if items[n].Has(f) then 1 else 0);
      assert |r| == |r'| + |last|;
      forall i | 0 <= i < |r| ensures !r[i].Has(f) {
        if i < |r'| {
          assert r[i] == r'[i];
        }
      }
    }
  }


  /** The `(from, to)` pairs of the renames `move_marked_to(dst)` carries out. */
  function Moves(items: seq<FileItem>, dst: Path, ok: seq<bool>): (r: seq<(Path, Path)>)
    requires |ok| == |items|
    ensures |r| + |Retained(items, Mark, ok)| == |items|
    ensures forall m :: m in r ==> FileName(m.0).Some? && m.1 == Join(dst, FileName(m.0).value)
  {
    if |items| == 0 then []
    else
      var n := |items| - 1;
      Moves(items[..n], dst, ok[..n])
      + (if Dropped(items[n], Mark, ok[n]) then [(items[n].path, Join(dst, FileName(items[n].path).value))] else [])
  }

  /** A moved file keeps its file name and lands directly inside the destination folder. */
  lemma MoveKeepsFileName(items: seq<FileItem>, dst: Path, ok: seq<bool>, m: (Path, Path))
    requires |ok| == |items| && m in Moves(items, dst, ok)
    ensures FileName(m.1) == FileName(m.0)
    ensures |m.1| == |dst| + 1 && m.1[..|dst|] == dst
  {
  }

  // ---------------------------------------------------------------- selection

  /** `index.min(len - 1)` as written, with overflow checks on: `None` is the underflow panic of an empty list. */
  function ClampAsWritten(index: Usize, len: nat): (r: Option<Usize>)
    ensures r.Some? ==> r.value <= index && r.value < len
  {
    if len == 0 then None else Some(Min(index, len - 1))
  }

  /** `index.min(len.saturating_sub(1))`: the nearest position of a list of length `len`. */
  function Clamp(index: Usize, len: nat): (r: Usize)
    ensures r <= index
    ensures len > 0 ==> r < len
    ensures index < len ==> r == index
    ensures 0 < len <= index ==> r == len - 1
    ensures len == 0 ==> r == 0
  {
    Min(index, if len == 0 then 0 else len - 1)
  }

  /** On an empty list the written clamp underflows; elsewhere it agrees with `Clamp`. */
  lemma ClampAsWrittenUnderflows(index: Usize, len: nat)
    ensures ClampAsWritten(index, len).None? <==> len == 0
    ensures len > 0 ==> ClampAsWritten(index, len) == Some(Clamp(index, len))
  {
  }

  /** As written, `selected_remove` on a one-item list re-clamps against length 0 and underflows. */
  lemma SelectedRemoveOfOnlyItemUnderflows(items: seq<FileItem>, selection: Usize)
    requires |items| == 1 && selection < |items|
    ensures var rest := items[..selection] + items[selection + 1..];
      |rest| == 0 && ClampAsWritten(selection, |rest|).None?
  {
  }

  /** `inc_selection`: a saturating step forward, then clamped into the list. */
  function Advance(selection: Usize, offset: Usize, len: nat): (r: Usize)
    ensures len > 0 ==> r < len
    ensures selection < len ==> selection <= r
    ensures len <= USIZE_MAX + 1 ==>
      (selection + offset < len ==> r == selection + offset) && (0 < len <= selection + offset ==> r == len - 1)
  {
    Clamp(SaturatingAdd(selection, offset), len)
  }

  // ---------------------------------------------------------------- filtering

  /** `filtered(filter)`: the items whose file name contains `filter`, in list order. */
  function FilterByName(items: seq<FileItem>, filter: string): (r: seq<FileItem>)
    ensures forall x :: x in r <==> x in items && Contains(x.Filename(), filter)
  {
    FilterMembers(items, (x: FileItem) => Contains(x.Filename(), filter));
    Filter(items, (x: FileItem) => Contains(x.Filename(), filter))
  }

  /** The empty filter is contained in every name, so it shows the whole list, in order. */
  lemma EmptyFilterKeepsAll(items: seq<FileItem>)
    ensures FilterByName(items, "") == items
  {
    forall i | 0 <= i < |items| ensures Contains(items[i].Filename(), "") {
      assert OccursAt(items[i].Filename(), "", 0);
    }
    FilterKeepsAll(items, (x: FileItem) => Contains(x.Filename(), ""));
  }

  // ---------------------------------------------------------------- the list

  /** `ItemList`: the gallery items and the selection cursor (`usize`). */
  class ItemList {
    var items: seq<FileItem>
    var selection: Usize

    /** `ItemList::default()`. */
    constructor ()
      ensures items == [] && selection == 0
    {
      items := [];
      selection := 0;
    }

    function Len(): nat
      reads this
    {
      |items|
    }

    predicate IsEmpty()
      reads this
    {
      |items| == 0
    }

    /** `get(index)`. */
    function Get(index: nat): (r: Option<FileItem>)
      reads this
      ensures r.Some? <==> index < |items|
      ensures r.Some? ==> r.value == items[index]
    {
      if index < |items| then Some(items[index]) else None
    }

    /** `count_marked`: zero exactly when no item is marked. */
    function CountMarked(): (n: nat)
      reads this
      ensures n <= |items|
      ensures n == 0 <==> forall i :: 0 <= i < |items| ==> !items[i].hasMark
    {
      CountFlagged(items, Mark)
    }

    /** `count_to_delete`: zero exactly when no item is tagged for deletion. */
    function CountToDelete(): (n: nat)
      reads this
      ensures n <= |items|
      ensures n == 0 <==> forall i :: 0 <= i < |items| ==> !items[i].hasDelete
    {
      CountFlagged(items, Delete)
    }

    /** `has_selection`: the cursor is on an item, so the list is not empty. */
    predicate HasSelection()
      reads this
      ensures HasSelection() ==> !IsEmpty()
    {
      selection < |items|
    }

    /** `selected()`: the item under the cursor, present exactly when there is a selection. */
    function Selected(): (r: Option<FileItem>)
      reads this
      ensures r.Some? <==> HasSelection()
      ensures r.Some? ==> r.value == items[selection]
    {
      Get(selection)
    }

    /** `filtered(filter)`: the items whose file name contains `filter`. */
    function Filtered(filter: string): (r: seq<FileItem>)
      reads this
      ensures forall x :: x in r <==> x in items && Contains(x.Filename(), filter)
    {
      FilterByName(items, filter)
    }

    /** `clear`: no items, cursor back at 0. */
    method Clear()
      modifies this
      ensures items == [] && selection == 0
      ensures !HasSelection() && Selected().None?
    {
      items := [];
      selection := 0;
    }

    /** `push(path)`; `ok` is false where the source panics, before anything is appended. */
    method Push(path: Path, fs: Path -> Probe, read: Reader) returns (ok: bool)
      modifies this
      ensures selection == old(selection)
      ensures ok <==> Pushed(path, fs(path), read).Some?
      ensures items == old(items) + if ok then Pushed(path, fs(path), read).value else []
    {
      match fs(path)
      case IsFile =>
        items := items + [Fresh(path)];
        ok := true;
      case NotFile(listing) =>
        var files := read(listing);
        if files.Err? {
          // `read_dir_iq(path).unwrap()` panics
          ok := false;
          return;
        }
        var i := 0;
        while i < |files.value|
          invariant 0 <= i <= |files.value|
          invariant items == old(items) + FreshAll(files.value[..i])
          invariant selection == old(selection)
        {
          assert files.value[..i + 1][..i] == files.value[..i];
          items := items + [Fresh(files.value[i])];
          i := i + 1;
        }
        assert files.value[..i] == files.value;
        ok := true;
    }

    /** `extend(paths)`: push each path in turn, stopping at the first panic. */
    method Extend(paths: seq<Path>, fs: Path -> Probe, read: Reader) returns (ok: bool)
      modifies this
      ensures selection == old(selection)
      ensures ok <==> Extended(paths, fs, read).Some?
      ensures ok ==> items == old(items) + Extended(paths, fs, read).value
      ensures !ok ==> exists k :: (0 <= k < |paths| && Extended(paths[..k], fs, read).Some?
        && Pushed(paths[k], fs(paths[k]), read).None? && items == old(items) + Extended(paths[..k], fs, read).value)
    {
      var i := 0;
      ghost var added: seq<FileItem> := [];
      while i < |paths|
        invariant 0 <= i <= |paths|
        invariant Extended(paths[..i], fs, read) == Some(added)
        invariant items == old(items) + added
        invariant selection == old(selection)
      {
        ok := Push(paths[i], fs, read);
        if !ok {
          ExtendedPanics(paths, i, fs, read);
          ExtendedStopsAtPanic(paths, i + 1, fs, read);
          return;
        }
        ExtendedGrows(paths, i, fs, read, added, Pushed(paths[i], fs(paths[i]), read).value);
        added := added + Pushed(paths[i], fs(paths[i]), read).value;
        i := i + 1;
      }
      assert paths[..i] == paths;
      ok := true;
    }

    /**
     * `set_selection(index)` as written: `ok` is false where `len() - 1`
     * underflows on an empty list (a panic with overflow checks on), and the
     * cursor is then left alone; otherwise it is the nearest position.
     */
    method SetSelection(index: Usize) returns (ok: bool)
      modifies this
      ensures items == old(items)
      ensures ok <==> |items| > 0
      ensures ok ==> selection == Clamp(index, |items|)
      ensures !ok ==> selection == old(selection)
    {
      match ClampAsWritten(index, |items|)
      case None =>
        ok := false;
      case Some(c) =>
        ClampAsWrittenUnderflows(index, |items|);
        selection := c;
        ok := true;
    }

    /** `inc_selection(offset)` as written: the same underflow on an empty list. */
    method IncSelection(offset: Usize) returns (ok: bool)
      modifies this
      ensures items == old(items)
      ensures ok <==> |items| > 0
      ensures ok ==> selection == Advance(old(selection), offset, |items|)
      ensures !ok ==> selection == old(selection)
    {
      match ClampAsWritten(SaturatingAdd(selection, offset), |items|)
      case None =>
        ok := false;
      case Some(c) =>
        ClampAsWrittenUnderflows(SaturatingAdd(selection, offset), |items|);
        selection := c;
        ok := true;
    }

    /** `dec_selection(offset)`: saturating step back, not clamped to the length. */
    method DecSelection(offset: Usize)
      modifies this
      ensures items == old(items)
      ensures selection == SaturatingSub(old(selection), offset)
      ensures selection <= old(selection)
    {
      selection := SaturatingSub(selection, offset);
    }

    /**
     * `selected_remove`: drops the selected item and keeps the others in
     * order, then re-clamps the cursor; without a selection it does nothing.
     * `ok` is false where the re-clamp underflows: the removed item was the
     * only one.
     */
    method SelectedRemove() returns (ok: bool)
      modifies this
      ensures ok <==> !(old(selection) < old(|items|) && old(|items|) == 1)
      ensures old(selection) < old(|items|) ==>
        && items == old(items)[..old(selection)] + old(items)[old(selection) + 1..]
        && multiset(items) + multiset{old(items)[old(selection)]} == multiset(old(items))
        && (ok ==> selection == Clamp(old(selection), |items|) && HasSelection())
      ensures old(selection) >= old(|items|) ==> items == old(items) && selection == old(selection)
    {
      ok := true;
      if HasSelection() {
        ghost var before := items;
        items := items[..selection] + items[selection + 1..];
        assert before == before[..selection] + [before[selection]] + before[selection + 1..];
        ok := SetSelection(selection);
      }
    }

    /** `selected_toggle_mark`: flips the move tag of the selected item only. */
    method SelectedToggleMark()
      modifies this
      ensures selection == old(selection)
      ensures old(HasSelection()) ==> items == old(items)[selection := old(items)[selection].ToggleMark()]
      ensures !old(HasSelection()) ==> items == old(items)
    {
      if HasSelection() {
        items := items[selection := items[selection].ToggleMark()];
      }
    }

    /** `selected_toggle_delete`: flips the delete tag of the selected item only. */
    method SelectedToggleDelete()
      modifies this
      ensures selection == old(selection)
      ensures old(HasSelection()) ==> items == old(items)[selection := old(items)[selection].ToggleDelete()]
      ensures !old(HasSelection()) ==> items == old(items)
    {
      if HasSelection() {
        items := items[selection := items[selection].ToggleDelete()];
      }
    }

    /**
     * `move_marked_to(dst)`: renames each marked file into `dst`, where
     * `renameOk[i]` is the outcome of `fs::rename` for item `i`; items whose
     * rename succeeded leave the list, all others stay. The cursor is left
     * as it was. `moved` lists the renames carried out.
     */
    method MoveMarkedTo(dst: Path, renameOk: seq<bool>) returns (moved: seq<(Path, Path)>)
      requires |renameOk| == |items|
      modifies this
      ensures items == Retained(old(items), Mark, renameOk)
      ensures moved == Moves(old(items), dst, renameOk)
      ensures selection == old(selection)
    {
      var all := items;
      var kept: seq<FileItem> := [];
      moved := [];
      var i := 0;
      while i < |all|
        invariant 0 <= i <= |all|
        invariant kept == Retained(all[..i], Mark, renameOk[..i])
        invariant moved == Moves(all[..i], dst, renameOk[..i])
      {
        assert all[..i + 1][..i] == all[..i] && renameOk[..i + 1][..i] == renameOk[..i];
        var item := all[i];
        if item.hasMark {
          match FileName(item.path)
          case None =>
            kept := kept + [item];  // no file name: error, retained
          case Some(name) =>
            if renameOk[i] {
              moved := moved + [(item.path, Join(dst, name))];
            } else {
              kept := kept + [item];  // rename failed: retained
            }
        } else {
          kept := kept + [item];
        }
        i := i + 1;
      }
      assert all[..i] == all && renameOk[..i] == renameOk;
      items := kept;
    }

    /**
     * `delete_marked`: removes each file tagged for deletion, where
     * `removeOk[i]` is the outcome of `fs::remove_file` for item `i`; items
     * whose removal succeeded leave the list. The cursor is left as it was.
     */
    method DeleteMarked(removeOk: seq<bool>)
      requires |removeOk| == |items|
      modifies this
      ensures items == Retained(old(items), Delete, removeOk)
      ensures selection == old(selection)
    {
      var all := items;
      var kept: seq<FileItem> := [];
      var i := 0;
      while i < |all|
        invariant 0 <= i <= |all|
        invariant kept == Retained(all[..i], Delete, removeOk[..i])
      {
        assert all[..i + 1][..i] == all[..i] && removeOk[..i + 1][..i] == removeOk[..i];
        var item := all[i];
        if item.hasDelete && removeOk[i] {
          // removed
        } else {
          kept := kept + [item];  // not tagged, or the removal failed: retained
        }
        i := i + 1;
      }
      assert all[..i] == all && removeOk[..i] == removeOk;
      items := kept;
    }
  }

  /**
   * The retain passes do not re-clamp the cursor: when the selected item is
   * the last one and it leaves the list, the cursor is past the end.
   */
  lemma RetainCanStrandSelection(items: seq<FileItem>, f: Flag, ok: seq<bool>, selection: nat)
    requires |ok| == |items| && selection + 1 == |items| && Dropped(items[selection], f, ok[selection])
    ensures |Retained(items, f, ok)| <= selection
  {
    assert Retained(items, f, ok) == Retained(items[..selection], f, ok[..selection]);
  }
}
