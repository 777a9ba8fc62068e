/**
 * The folder watcher (src/watcher.rs): the list of watched folders kept in
 * step with acknowledgements, the outgoing command queue, and the rules by
 * which the subscription turns commands and file-system notifications into
 * watcher events. The notify backend, the async loop and the output stream
 * are not part of this model; their outcomes are inputs.
 */
module Watcher {
  import opened Common
  import opened Paths

  /** A request to the watcher task. */
  datatype Cmd = Watch(path: Path) | Unwatch(path: Path)

  /**
   * What the subscription reports. `Ready` hands the application its
   * `FolderWatcher`; that handle is not carried here.
   */
  datatype WatcherEvent =
    | Ready
    | Added(path: Path)
    | Removed(path: Path)
    | Create(paths: seq<Path>)
    | Modify(paths: seq<Path>)
    | Remove(paths: seq<Path>)

  // ------------------------------------------------------- notify event kinds

  datatype CreateKind = CreateAny | CreateFile | CreateFolder | CreateOther
  datatype DataChange = DataAny | DataSize | DataContent | DataOther
  /** `ModifyKind`; the payloads of `Metadata` and `Name` play no part and are dropped. */
  datatype ModifyKind = ModifyAny | Data(change: DataChange) | Metadata | Name | ModifyOther
  datatype RemoveKind = RemoveAny | RemoveFile | RemoveFolder | RemoveOther

  /** `notify::EventKind`. */
  datatype EventKind =
    | KindAny
    | KindAccess
    | KindCreate(createKind: CreateKind)
    | KindModify(modifyKind: ModifyKind)
    | KindRemove(removeKind: RemoveKind)
    | KindOther

  /** `notify::Event`, reduced to its kind and its paths. */
  datatype Event = Event(kind: EventKind, paths: seq<Path>)

  /** A notify error; it is only printed, so its contents do not matter. */
  datatype NotifyError = NotifyError

  /** The event kinds the subscription forwards: a file created, a file's data modified, a file removed. */
  predicate IsFileChange(kind: EventKind)
  {
    kind == KindCreate(CreateFile) || (kind.KindModify? && kind.modifyKind.Data?) || kind == KindRemove(RemoveFile)
  }

  function PathsOf(ev: WatcherEvent): seq<Path>
    requires ev.Create? || ev.Modify? || ev.Remove?
  {
    match ev
    case Create(ps) => ps
    case Modify(ps) => ps
    case Remove(ps) => ps
  }

  /**
   * The arm for a notification: file creation, data modification and file
   * removal are forwarded with their path list; every other kind, and every
   * error, yields nothing.
   */
  function Classify(res: Result<Event, NotifyError>): (r: Option<WatcherEvent>)
    ensures r.Some? <==> res.Ok? && IsFileChange(res.value.kind)
    ensures r.Some? ==> (r.value.Create? || r.value.Modify? || r.value.Remove?) && PathsOf(r.value) == res.value.paths
    ensures r.Some? ==> ((r.value.Create? <==> res.value.kind.KindCreate?)
      && (r.value.Modify? <==> res.value.kind.KindModify?)
      && (r.value.Remove? <==> res.value.kind.KindRemove?))
  {
    match res
    case Err(_) => None
    case Ok(Event(KindCreate(CreateFile), paths)) => Some(Create(paths))
    case Ok(Event(KindModify(Data(_)), paths)) => Some(Modify(paths))
    case Ok(Event(KindRemove(RemoveFile), paths)) => Some(Remove(paths))
    case Ok(_) => None
  }

  /** Folder-level and unspecific kinds are dropped, as are access events. */
  lemma ClassifyIgnores(paths: seq<Path>)
    ensures Classify(Ok(Event(KindCreate(CreateFolder), paths))).None?
    ensures Classify(Ok(Event(KindRemove(RemoveAny), paths))).None?
    ensures Classify(Ok(Event(KindModify(Name), paths))).None?
    ensures Classify(Ok(Event(KindModify(Data(DataAny)), paths))) == Some(Modify(paths))
    ensures Classify(Ok(Event(KindAccess, paths))).None?
    ensures Classify(Err(NotifyError)).None?
  {
  }

  /**
   * The arm for a command: `watched` is whether `watch`/`unwatch` on the
   * backend succeeded; only then is `Added`/`Removed` sent back.
   */
  function Acknowledge(cmd: Cmd, watched: bool): (r: Option<WatcherEvent>)
    ensures r.Some? <==> watched
    ensures r.Some? ==> (r.value.Added? || r.value.Removed?) && r.value.path == cmd.path
    ensures r.Some? ==> (r.value.Added? <==> cmd.Watch?)
  {
    if !watched then None
    else match cmd
      case Watch(p) => Some(Added(p))
      case Unwatch(p) => Some(Removed(p))
  }

  // ----------------------------------------------------------- command queue

  /**
   * The bounded `mpsc` command channel seen from its two ends: commands
   * wait in FIFO order, and `try_send` fails once `capacity` of them are
   * waiting. A closed receiver is not modelled.
   */
  class CommandQueue {
    var pending: seq<Cmd>
    const capacity: nat

    /** Never more than `capacity` commands wait. */
    predicate Valid()
      reads this
    {
      |pending| <= capacity
    }

    constructor (capacity: nat)
      ensures Valid()
      ensures pending == [] && this.capacity == capacity
    {
      pending := [];
      this.capacity := capacity;
    }

    /** `try_send`: appends `c` when there is room, else fails and changes nothing. */
    method TrySend(c: Cmd) returns (ok: bool)
      modifies this
      ensures old(Valid()) ==> Valid()
      ensures ok <==> |old(pending)| < capacity
      ensures pending == if ok then old(pending) + [c] else old(pending)
    {
      ok := |pending| < capacity;
      if ok {
        pending := pending + [c];
      }
    }

    /** The receiving end: takes the oldest waiting command, if any. */
    method Next() returns (c: Option<Cmd>)
      modifies this
      ensures old(Valid()) ==> Valid()
      ensures old(pending) == [] ==> c.None? && pending == []
      ensures old(pending) != [] ==> c == Some(old(pending)[0]) && pending == old(pending)[1..]
    {
      if pending == [] {
        c := None;
      } else {
        c := Some(pending[0]);
        pending := pending[1..];
      }
    }
  }

  /** The commands `unwatch_all` sends for `paths`: one `Unwatch` each, in order. */
  function UnwatchAllCmds(paths: seq<Path>): (r: seq<Cmd>)
    ensures |r| == |paths|
    ensures forall i :: 0 <= i < |paths| ==> r[i] == Unwatch(paths[i])
  {
    seq(|paths|, i requires 0 <= i < |paths| => Unwatch(paths[i]))
  }

  /** The test `removed(p)` retains by. */
  function Other(p: Path): Path -> bool
  {
    (x: Path) => x != p
  }

  /** Removing `p` drops every copy of it and nothing else; with `p` absent it changes nothing. */
  lemma RemovedDropsExactly(paths: seq<Path>, p: Path)
    ensures p !in Filter(paths, Other(p))
    ensures forall x :: x != p ==> multiset(Filter(paths, Other(p)))[x] == multiset(paths)[x]
    ensures p !in paths ==> Filter(paths, Other(p)) == paths
  {
    FilterCount(paths, Other(p));
    FilterMembers(paths, Other(p));
    if p !in paths {
      forall i | 0 <= i < |paths| ensures Other(p)(paths[i]) {
        assert paths[i] in paths;
      }
      FilterKeepsAll(paths, Other(p));
    }
  }

  /** Acknowledging the removal of a newly added folder restores the list. */
  lemma AddedThenRemoved(paths: seq<Path>, p: Path)
    requires p !in paths
    ensures Filter(paths + [p], Other(p)) == paths
  {
    FilterAppend(paths, [p], Other(p));
    RemovedDropsExactly(paths, p);
    assert [p][..0] == [];
  }

  // ----------------------------------------------------------- the watcher

  /** `FolderWatcher`: the acknowledged watched folders and the sending end of the command queue. */
  class FolderWatcher {
    var paths: seq<Path>
    const sender: CommandQueue

    /** `FolderWatcher::new(sender)`. */
    constructor (sender: CommandQueue)
      ensures paths == [] && this.sender == sender
    {
      paths := [];
      this.sender := sender;
    }

    /** `added(p)`: appends `p`, even if it is already listed. */
    method Added(p: Path)
      modifies this
      ensures paths == old(paths) + [p]
    {
      paths := paths + [p];
    }

    /** `removed(p)`: keeps the entries other than `p`, in order. */
    method Removed(p: Path)
      modifies this
      ensures paths == Filter(old(paths), Other(p))
      ensures p !in paths
    {
      var all := paths;
      var kept: seq<Path> := [];
      var i := 0;
      while i < |all|
        invariant 0 <= i <= |all|
        invariant kept == Filter(all[..i], Other(p))
      {
        assert all[..i + 1][..i] == all[..i];
        if all[i] != p {
          kept := kept + [all[i]];
        }
        i := i + 1;
      }
      assert all[..i] == all;
      paths := kept;
      RemovedDropsExactly(all, p);
    }

    /** `watch(p)`: queues `Watch(p)`; `ok` is false where `expect` panics on a full queue. */
    method Watch(p: Path) returns (ok: bool)
      modifies sender
      ensures paths == old(paths)
      ensures ok <==> |old(sender.pending)| < sender.capacity
      ensures sender.pending == old(sender.pending) + if ok then [Cmd.Watch(p)] else []
    {
      ok := sender.TrySend(Cmd.Watch(p));
    }

    /** `unwatch(p)`: queues `Unwatch(p)`; `ok` is false where `expect` panics on a full queue. */
    method Unwatch(p: Path) returns (ok: bool)
      modifies sender
      ensures paths == old(paths)
      ensures ok <==> |old(sender.pending)| < sender.capacity
      ensures sender.pending == old(sender.pending) + if ok then [Cmd.Unwatch(p)] else []
    {
      ok := sender.TrySend(Cmd.Unwatch(p));
    }

    /**
     * `unwatch_all`: drains `paths`, queueing one `Unwatch` per folder in
     * list order. It succeeds iff the queue has room for all of them;
     * otherwise `expect` panics after the commands that fitted were queued.
     */
    method UnwatchAll() returns (ok: bool)
      requires sender.Valid()
      modifies this, sender
      ensures sender.Valid()
      ensures ok <==> |old(sender.pending)| + |old(paths)| <= sender.capacity
      ensures ok ==> paths == [] && sender.pending == old(sender.pending) + UnwatchAllCmds(old(paths))
      ensures !ok ==> exists k :: (0 <= k < |old(paths)|
        && sender.pending == old(sender.pending) + UnwatchAllCmds(old(paths)[..k])
        && |sender.pending| == sender.capacity)
    {
      var all := paths;
      paths := [];
      var i := 0;
      while i < |all|
        invariant 0 <= i <= |all|
        invariant paths == []
        invariant sender.Valid()
        invariant sender.pending == old(sender.pending) + UnwatchAllCmds(all[..i])
      {
        ok := sender.TrySend(Cmd.Unwatch(all[i]));
        if !ok {
          return;
        }
        assert UnwatchAllCmds(all[..i + 1]) == UnwatchAllCmds(all[..i]) + [Cmd.Unwatch(all[i])];
        i := i + 1;
      }
      assert all[..i] == all;
      ok := true;
    }
  }
}
