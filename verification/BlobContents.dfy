/**
  What every file of the blob cache holds under every interleaving, of every key,
  also when several fetches of it run at once: the payload's bytes where it was
  written since it was last truncated, and zeros elsewhere.
 */
module BlobContents {
  import opened Common
  import opened BlobCache
  import opened BlobDisk
  import opened BlobProtocol

  ghost predicate KeyHolds(payload: string -> seq<byte>, dir: string, disk: map<string, seq<byte>>, files: Files,
                           k: string) {
    && FileHolds(payload, disk, files, FinalPath(dir, k), k)
    && FileHolds(payload, disk, files, TmpPath(dir, k), k)
  }

  ghost predicate FilesHold(payload: string -> seq<byte>, dir: string, disk: map<string, seq<byte>>, files: Files) {
    && Linked(disk, files)
    && forall k {:trigger KeyHolds(payload, dir, disk, files, k)} :: KeyHolds(payload, dir, disk, files, k)
  }

  /** The file a fetch has open is at one of the key's two paths, or at none. */
  ghost predicate WriterFits(payload: string -> seq<byte>, dir: string, disk: map<string, seq<byte>>, files: Files,
                             pc: Pc) {
    pc.AtWrite? ==>
      && pc.off <= |payload(pc.key)| && pc.inode < files.next
      && forall p :: p in disk && p in files.inode && files.inode[p] == pc.inode ==>
           p == TmpPath(dir, pc.key) || p == FinalPath(dir, pc.key)
  }

  ghost predicate WritersFit(payload: string -> seq<byte>, dir: string, disk: map<string, seq<byte>>, files: Files,
                             procs: map<nat, Pc>) {
    forall pid {:trigger WriterFits(payload, dir, disk, files, procs[pid])} ::
      pid in procs ==> WriterFits(payload, dir, disk, files, procs[pid])
  }

  /** A complete entry, and a process that has read one, name the key's own file. */
  ghost predicate Named(c: State, procs: map<nat, Pc>) {
    && (forall k :: k in c.entries && c.entries[k].Complete() ==> c.entries[k].path == FinalPath(c.dir, k))
    && (forall pid :: pid in procs && procs[pid].AtStat? ==> procs[pid].path == FinalPath(c.dir, procs[pid].key))
  }

  ghost predicate Inv(payload: string -> seq<byte>, s: Sys) {
    && FilesHold(payload, s.cache.dir, s.cache.disk, s.files)
    && WritersFit(payload, s.cache.dir, s.cache.disk, s.files, s.procs)
    && Named(s.cache, s.procs)
  }

  // ---------------------------------------------------------------------
  // What file operations do to what the files hold
  // ---------------------------------------------------------------------

  ghost predicate Shrunk(disk: map<string, seq<byte>>, disk': map<string, seq<byte>>) {
    forall p :: p in disk' ==> p in disk && disk'[p] == disk[p]
  }

  lemma ShrunkHolds(payload: string -> seq<byte>, dir: string, disk: map<string, seq<byte>>, files: Files,
                    disk': map<string, seq<byte>>)
    requires FilesHold(payload, dir, disk, files) && Shrunk(disk, disk')
    ensures FilesHold(payload, dir, disk', files)
  {
    forall k ensures KeyHolds(payload, dir, disk', files, k) {
      assert KeyHolds(payload, dir, disk, files, k);
    }
  }

  /** A new file under one of a key's paths. */
  lemma NewHolds(payload: string -> seq<byte>, dir: string, disk: map<string, seq<byte>>, files: Files,
                 key: string, path: string, data: seq<byte>, written: set<nat>)
    requires FilesHold(payload, dir, disk, files) && HoldsWritten(data, written, payload(key))
    requires path == TmpPath(dir, key) || path == FinalPath(dir, key)
    ensures FilesHold(payload, dir, disk[path := data], NewFile(files, path, written))
  {
    var disk', files' := disk[path := data], NewFile(files, path, written);
    forall k ensures KeyHolds(payload, dir, disk', files', k) {
      PathsDiffer(dir, k, key);
      PathsDiffer(dir, key, k);
      assert KeyHolds(payload, dir, disk, files, k);
    }
  }

  /** New contents for the file at one of a key's paths. */
  lemma RewrittenHolds(payload: string -> seq<byte>, dir: string, disk: map<string, seq<byte>>, files: Files,
                       key: string, path: string, data: seq<byte>, written: set<nat>)
    requires FilesHold(payload, dir, disk, files) && HoldsWritten(data, written, payload(key))
    requires path == TmpPath(dir, key) || path == FinalPath(dir, key)
    requires InodeAt(disk, files, path).Some?
    ensures FilesHold(payload, dir, disk[path := data], files.(written := files.written[files.inode[path] := written]))
  {
    var disk', files' := disk[path := data], files.(written := files.written[files.inode[path] := written]);
    forall k ensures KeyHolds(payload, dir, disk', files', k) {
      PathsDiffer(dir, k, key);
      PathsDiffer(dir, key, k);
      assert KeyHolds(payload, dir, disk, files, k);
    }
  }

  /** Writes to a file that is at no path any more. */
  lemma UnlinkedHolds(payload: string -> seq<byte>, dir: string, disk: map<string, seq<byte>>, files: Files,
                      inode: nat, written: set<nat>)
    requires FilesHold(payload, dir, disk, files)
    requires forall p :: p in disk && p in files.inode ==> files.inode[p] != inode
    ensures FilesHold(payload, dir, disk, files.(written := files.written[inode := written]))
  {
    var files' := files.(written := files.written[inode := written]);
    forall k ensures KeyHolds(payload, dir, disk, files', k) {
      assert KeyHolds(payload, dir, disk, files, k);
    }
  }

  lemma RenamedHolds(payload: string -> seq<byte>, dir: string, disk: map<string, seq<byte>>, files: Files,
                     key: string)
    requires FilesHold(payload, dir, disk, files) && InodeAt(disk, files, TmpPath(dir, key)).Some?
    ensures var tmp, final := TmpPath(dir, key), FinalPath(dir, key);
      FilesHold(payload, dir, (disk - {tmp})[final := disk[tmp]],
                files.(inode := files.inode[final := files.inode[tmp]]))
  {
    var tmp, final := TmpPath(dir, key), FinalPath(dir, key);
    var disk', files' := (disk - {tmp})[final := disk[tmp]], files.(inode := files.inode[final := files.inode[tmp]]);
    forall k ensures KeyHolds(payload, dir, disk', files', k) {
      PathsDiffer(dir, k, key);
      PathsDiffer(dir, key, k);
      assert KeyHolds(payload, dir, disk, files, k) && KeyHolds(payload, dir, disk, files, key);
    }
  }

  /** Writing the next bytes of the payload at their place. */
  lemma WriteHolds(data: seq<byte>, written: set<nat>, payload: seq<byte>, off: nat, n: nat)
    requires HoldsWritten(data, written, payload) && n > 0 && off + n <= |payload|
    ensures HoldsWritten(Overwritten(data, off, payload[off..off + n]), written + Span(off, off + n), payload)
  {
  }

  /** A process that opens nothing: files keep their paths, but some may go. */
  lemma WritersStay(payload: string -> seq<byte>, dir: string, disk: map<string, seq<byte>>, files: Files,
                    procs: map<nat, Pc>, pid: nat, pc: Pc, disk': map<string, seq<byte>>, files': Files)
    requires WritersFit(payload, dir, disk, files, procs) && files.next <= files'.next
    requires forall p :: p in disk' && p in files'.inode && files'.inode[p] < files.next ==>
               p in disk && p in files.inode && files.inode[p] == files'.inode[p]
    requires WriterFits(payload, dir, disk', files', pc)
    ensures WritersFit(payload, dir, disk', files', procs[pid := pc])
  {
    forall q | q in procs && q != pid ensures WriterFits(payload, dir, disk', files', procs[q]) {
      assert WriterFits(payload, dir, disk, files, procs[q]);
    }
  }

  lemma WritersRenamed(payload: string -> seq<byte>, dir: string, disk: map<string, seq<byte>>, files: Files,
                       procs: map<nat, Pc>, pid: nat, pc: Pc, key: string)
    requires WritersFit(payload, dir, disk, files, procs) && !pc.AtWrite?
    requires InodeAt(disk, files, TmpPath(dir, key)).Some?
    ensures var tmp, final := TmpPath(dir, key), FinalPath(dir, key);
      WritersFit(payload, dir, (disk - {tmp})[final := disk[tmp]],
                 files.(inode := files.inode[final := files.inode[tmp]]), procs[pid := pc])
  {
    var tmp, final := TmpPath(dir, key), FinalPath(dir, key);
    var disk', files' := (disk - {tmp})[final := disk[tmp]], files.(inode := files.inode[final := files.inode[tmp]]);
    forall q | q in procs && q != pid ensures WriterFits(payload, dir, disk', files', procs[q]) {
      assert WriterFits(payload, dir, disk, files, procs[q]);
      if procs[q].AtWrite? {
        PathsDiffer(dir, key, procs[q].key);
        PathsDiffer(dir, procs[q].key, key);
      }
    }
  }

  // ---------------------------------------------------------------------
  // Every step keeps it
  // ---------------------------------------------------------------------

  lemma NamedKept(c: State, procs: map<nat, Pc>, pid: nat, pc: Pc, c': State)
    requires Named(c, procs) && c'.dir == c.dir && c'.entries == c.entries
    requires pc.AtStat? ==> pc.path == FinalPath(c.dir, pc.key)
    ensures Named(c', procs[pid := pc])
  {
  }

  /** A step that opens no file, moves none into place and writes nothing. */
  lemma QuietInv(payload: string -> seq<byte>, s: Sys, s': Sys, pid: nat, pc: Pc)
    requires Inv(payload, s) && s'.procs == s.procs[pid := pc] && s'.files == s.files && s'.cache.dir == s.cache.dir
    requires Shrunk(s.cache.disk, s'.cache.disk) && Named(s'.cache, s'.procs)
    requires !pc.AtWrite?
    ensures Inv(payload, s')
  {
    ShrunkHolds(payload, s.cache.dir, s.cache.disk, s.files, s'.cache.disk);
    WritersStay(payload, s.cache.dir, s.cache.disk, s.files, s.procs, pid, pc, s'.cache.disk, s.files);
  }

  lemma LookInv(payload: string -> seq<byte>, s: Sys, s': Sys, pid: nat)
    requires Inv(payload, s) && LookStep(s, s', pid)
    ensures Inv(payload, s')
  {
    QuietInv(payload, s, s', pid, s'.procs[pid]);
  }

  lemma RecheckInv(payload: string -> seq<byte>, s: Sys, s': Sys, pid: nat)
    requires Inv(payload, s) && RecheckStep(s, s', pid)
    ensures Inv(payload, s')
  {
    QuietInv(payload, s, s', pid, s'.procs[pid]);
  }

  lemma FinishInv(payload: string -> seq<byte>, s: Sys, s': Sys, pid: nat)
    requires Inv(payload, s) && FinishStep(s, s', pid)
    ensures Inv(payload, s')
  {
    QuietInv(payload, s, s', pid, s'.procs[pid]);
  }

  lemma RecordInv(payload: string -> seq<byte>, s: Sys, s': Sys, pid: nat)
    requires Inv(payload, s) && RecordStep(s, s', pid)
    ensures Inv(payload, s')
  {
    QuietInv(payload, s, s', pid, s'.procs[pid]);
  }

  lemma {:induction false} EvictedShrinks(c: State)
    ensures Shrunk(c.disk, Evicted(c).disk)
    decreases |c.lru|
  {
    if c.curBytes > c.maxBytes && c.lru != [] {
      EvictedShrinks(EvictOne(c));
    }
  }

  lemma EvictInv(payload: string -> seq<byte>, s: Sys, s': Sys, pid: nat)
    requires Inv(payload, s) && EvictStep(s, s', pid)
    ensures Inv(payload, s')
  {
    EvictedEntries(s.cache);
    EvictedMaxBytes(s.cache);
    EvictedShrinks(s.cache);
    QuietInv(payload, s, s', pid, AtDone);
  }

  lemma RemoveInv(payload: string -> seq<byte>, s: Sys, s': Sys, pid: nat)
    requires Inv(payload, s) && (RemoveStep(s, s', pid) || FailStep(s, s', pid))
    ensures Inv(payload, s')
  {
    NamedKept(s.cache, s.procs, pid, s'.procs[pid], s'.cache);
    QuietInv(payload, s, s', pid, s'.procs[pid]);
  }

  lemma CreateInv(payload: string -> seq<byte>, s: Sys, s': Sys, pid: nat)
    requires Inv(payload, s) && CreateStep(s, s', pid)
    ensures Inv(payload, s')
  {
    var key, dir := s.procs[pid].key, s.cache.dir;
    var tmp, pc := TmpPath(dir, key), s'.procs[pid];
    NamedKept(s.cache, s.procs, pid, pc, s'.cache);
    if pc.AtFinish? {
      QuietInv(payload, s, s', pid, pc);
    } else {
      if InodeAt(s.cache.disk, s.files, tmp).Some? {
        RewrittenHolds(payload, dir, s.cache.disk, s.files, key, tmp, [], {});
      } else {
        NewHolds(payload, dir, s.cache.disk, s.files, key, tmp, [], {});
      }
      WritersStay(payload, dir, s.cache.disk, s.files, s.procs, pid, pc, s'.cache.disk, s'.files);
    }
  }

  lemma WriteInv(payload: string -> seq<byte>, s: Sys, s': Sys, pid: nat, n: nat)
    requires Inv(payload, s) && WriteStep(payload, s, s', pid, n)
    ensures Inv(payload, s')
  {
    var pc, dir := s.procs[pid], s.cache.dir;
    var path, written := PathOf(s.cache, s.files, pc.key, pc.inode), WrittenTo(s.files, pc.inode);
    assert WriterFits(payload, dir, s.cache.disk, s.files, pc);
    if path.Some? {
      assert KeyHolds(payload, dir, s.cache.disk, s.files, pc.key);
      var data := Overwritten(s.cache.disk[path.value], pc.off, payload(pc.key)[pc.off..pc.off + n]);
      WriteHolds(s.cache.disk[path.value], written, payload(pc.key), pc.off, n);
      RewrittenHolds(payload, dir, s.cache.disk, s.files, pc.key, path.value, data, written + Span(pc.off, pc.off + n));
    } else {
      UnlinkedHolds(payload, dir, s.cache.disk, s.files, pc.inode, written + Span(pc.off, pc.off + n));
    }
    WritersStay(payload, dir, s.cache.disk, s.files, s.procs, pid, s'.procs[pid], s'.cache.disk, s'.files);
    NamedKept(s.cache, s.procs, pid, s'.procs[pid], s'.cache);
  }

  lemma RenameInv(payload: string -> seq<byte>, s: Sys, s': Sys, pid: nat)
    requires Inv(payload, s) && RenameStep(s, s', pid)
    ensures Inv(payload, s')
  {
    RenamedHolds(payload, s.cache.dir, s.cache.disk, s.files, s.procs[pid].key);
    WritersRenamed(payload, s.cache.dir, s.cache.disk, s.files, s.procs, pid, s'.procs[pid], s.procs[pid].key);
    NamedKept(s.cache, s.procs, pid, s'.procs[pid], s'.cache);
  }

  lemma MoveInv(payload: string -> seq<byte>, s: Sys, s': Sys, pid: nat)
    requires Inv(payload, s) && MoveStep(payload, s, s', pid)
    ensures Inv(payload, s')
  {
    var key, dir := s.procs[pid].key, s.cache.dir;
    NamedKept(s.cache, s.procs, pid, s'.procs[pid], s'.cache);
    if s'.procs[pid].AtDone? {
      QuietInv(payload, s, s', pid, AtDone);
    } else {
      NewHolds(payload, dir, s.cache.disk, s.files, key, FinalPath(dir, key), payload(key), Span(0, |payload(key)|));
      WritersStay(payload, dir, s.cache.disk, s.files, s.procs, pid, s'.procs[pid], s'.cache.disk, s'.files);
    }
  }

  /** Calls, sizes, file checks and wake-ups touch nothing but their own process. */
  lemma MoveOnInv(payload: string -> seq<byte>, s: Sys, s': Sys, pid: nat, pc: Pc)
    requires Inv(payload, s) && s' == Go(s, pid, pc) && !pc.AtWrite? && !pc.AtStat?
    ensures Inv(payload, s')
  {
    NamedKept(s.cache, s.procs, pid, pc, s.cache);
    QuietInv(payload, s, s', pid, pc);
  }

  lemma VanishInv(payload: string -> seq<byte>, s: Sys, s': Sys, key: string)
    requires Inv(payload, s) && VanishStep(s, s', key)
    ensures Inv(payload, s')
  {
    ShrunkHolds(payload, s.cache.dir, s.cache.disk, s.files, s'.cache.disk);
    forall pid | pid in s.procs ensures WriterFits(payload, s.cache.dir, s'.cache.disk, s.files, s.procs[pid]) {
      assert WriterFits(payload, s.cache.dir, s.cache.disk, s.files, s.procs[pid]);
    }
  }

  lemma StepInv(payload: string -> seq<byte>, s: Sys, s': Sys, step: Step)
    requires Inv(payload, s) && NextBy(payload, s, s', step)
    ensures Inv(payload, s')
  {
    match step
    case Call(pid, key) => MoveOnInv(payload, s, s', pid, s'.procs[pid]);
    case Look(pid) => LookInv(payload, s, s', pid);
    case Stat(pid) => MoveOnInv(payload, s, s', pid, s'.procs[pid]);
    case Recheck(pid) => RecheckInv(payload, s, s', pid);
    case Wake(pid) => MoveOnInv(payload, s, s', pid, s'.procs[pid]);
    case Remove(pid) => RemoveInv(payload, s, s', pid);
    case Create(pid) => CreateInv(payload, s, s', pid);
    case Write(pid, n) => WriteInv(payload, s, s', pid, n);
    case Size(pid) => MoveOnInv(payload, s, s', pid, s'.procs[pid]);
    case Rename(pid) => RenameInv(payload, s, s', pid);
    case Fail(pid) => RemoveInv(payload, s, s', pid);
    case Finish(pid) => FinishInv(payload, s, s', pid);
    case Move(pid) => MoveInv(payload, s, s', pid);
    case Record(pid) => RecordInv(payload, s, s', pid);
    case Evict(pid) => EvictInv(payload, s, s', pid);
    case Vanish(key) => VanishInv(payload, s, s', key);
  }

  lemma InitInv(payload: string -> seq<byte>, s: Sys)
    requires Init(payload, s)
    ensures Inv(payload, s)
  {
    forall k ensures KeyHolds(payload, s.cache.dir, s.cache.disk, s.files, k) {
      assert FileHolds(payload, s.cache.disk, s.files, FinalPath(s.cache.dir, k), k);
    }
  }

  /** In every reachable state. */
  lemma {:induction false} RunInv(payload: string -> seq<byte>, run: seq<Sys>, steps: seq<Step>, n: nat)
    requires IsRun(payload, run, steps) && n <= |steps|
    ensures Inv(payload, run[n])
  {
    if n == 0 {
      InitInv(payload, run[0]);
    } else {
      RunInv(payload, run, steps, n - 1);
      assert StepAt(payload, run, steps, n - 1);
      StepInv(payload, run[n - 1], run[n], steps[n - 1]);
    }
  }

  // ---------------------------------------------------------------------
  // Main results
  // ---------------------------------------------------------------------

  /** Every byte of the payload was written to the file since it was last truncated, zeros aside. */
  ghost predicate Whole(data: seq<byte>, written: set<nat>) {
    forall j :: 0 <= j < |data| ==> j in written || data[j] == 0
  }

  /**
    In every run a cached file of any key, no matter how many fetches of the key
    there were at once, is no longer than the payload, and each of its bytes is the
    payload's if it was written since the file was last truncated, and zero if not.
   */
  lemma FilesHoldTheirPayload(payload: string -> seq<byte>, run: seq<Sys>, steps: seq<Step>, n: nat, key: string)
    requires IsRun(payload, run, steps) && n <= |steps|
    requires FinalPath(run[n].cache.dir, key) in run[n].cache.disk
    ensures FinalPath(run[n].cache.dir, key) in run[n].files.inode
    ensures var s := run[n];
      var file, i := s.cache.disk[FinalPath(s.cache.dir, key)], s.files.inode[FinalPath(s.cache.dir, key)];
      && |file| <= |payload(key)|
      && forall j :: 0 <= j < |file| ==> file[j] == if j in WrittenTo(s.files, i) then payload(key)[j] else 0
  {
    RunInv(payload, run, steps, n);
    assert KeyHolds(payload, run[n].cache.dir, run[n].cache.disk, run[n].files, key);
  }

  /**
    A hit that passes its file check, on any key, serves the payload exactly when
    the size is the payload's and every byte of it that is not zero was written
    since the file was last truncated.
   */
  lemma HitServesIff(payload: string -> seq<byte>, run: seq<Sys>, steps: seq<Step>, n: nat)
    requires IsRun(payload, run, steps) && n < |steps| && steps[n].Stat?
    requires var pid := steps[n].pid;
      && pid in run[n].procs && run[n].procs[pid].AtStat?
      && pid in run[n + 1].procs && run[n + 1].procs[pid].AtDone?
    ensures var s, pc := run[n], run[n].procs[steps[n].pid];
      && pc.path in s.cache.disk && pc.path in s.files.inode
      && (s.cache.disk[pc.path] == payload(pc.key) <==>
          pc.size == |payload(pc.key)| && Whole(payload(pc.key), WrittenTo(s.files, s.files.inode[pc.path])))
  {
    RunInv(payload, run, steps, n);
    assert StepAt(payload, run, steps, n);
    var s, pc := run[n], run[n].procs[steps[n].pid];
    assert KeyHolds(payload, s.cache.dir, s.cache.disk, s.files, pc.key);
  }

  // A run in which a hit serves the wrong bytes

  /** Process 0 has written all of `a`, and process 2, which began after an eviction, has taken its temporary path. */
  lemma TakenOver() returns (run: seq<Sys>, steps: seq<Step>, s: Sys, i: nat)
    ensures IsRun(TwoBytes, run, steps) && run[|run| - 1] == s
    ensures 0 in s.procs && s.procs[0] == AtWrite("a", i, 2) && 3 !in s.procs
    ensures "a" in s.cache.entries && s.cache.dir == "d"
    ensures InodeAt(s.cache.disk, s.files, TmpPath("d", "a")).Some? && s.cache.disk[TmpPath("d", "a")] == []
  {
    run, steps, s := FetchIsLost();
    i := s.files.next;
    run, steps, s := CreateAlone(TwoBytes, run, steps, s, 0, "a");
    run, steps, s := WriteAlone(TwoBytes, run, steps, s, 0, "a", i);
    run, steps, s := BeginAlone(TwoBytes, run, steps, s, 2, "a");
    run, steps, s := CreateAlone(TwoBytes, run, steps, s, 2, "a");
  }

  /** Process 0 has moved the other's empty file into place and reported it. */
  lemma EmptyFilePlaced() returns (run: seq<Sys>, steps: seq<Step>, s: Sys)
    ensures IsRun(TwoBytes, run, steps) && run[|run| - 1] == s && 3 !in s.procs
    ensures var final := FinalPath("d", "a");
      && s.cache.dir == "d" && final in s.cache.disk && s.cache.disk[final] == []
      && "a" in s.cache.entries && s.cache.entries["a"] == Entry(final, 0, false, false, {})
  {
    var i;
    run, steps, s, i := TakenOver();
    run, steps, s := PlaceAlone(TwoBytes, run, steps, s, 0, "a", i);
    run, steps, s := FinishAlone(TwoBytes, run, steps, s, 0);
  }

  /** A hit that passes its file check and serves an empty file for a blob of two bytes. */
  lemma HitServesTooLittle() returns (run: seq<Sys>, steps: seq<Step>, n: nat, pid: nat)
    ensures IsRun(TwoBytes, run, steps) && n < |steps| && steps[n] == Stat(pid)
    ensures pid in run[n].procs && run[n].procs[pid].AtStat?
    ensures pid in run[n + 1].procs && run[n + 1].procs[pid].AtDone?
    ensures var pc := run[n].procs[pid];
      pc.path in run[n].cache.disk && run[n].cache.disk[pc.path] == [] && TwoBytes(pc.key) == [0, 0]
  {
    var s;
    run, steps, s := EmptyFilePlaced();
    pid := 3;
    var s1 := Go(s, pid, AtLook("a"));
    run, steps := Extend(TwoBytes, run, steps, s, s1, Call(pid, "a"));
    var s2 := Go(s1, pid, AtStat("a", FinalPath("d", "a"), 0)).(cache := HitTouched(s1.cache, "a"));
    run, steps := Extend(TwoBytes, run, steps, s1, s2, Look(pid));
    n := |steps|;
    var s3 := Go(s2, pid, AtDone);
    run, steps := Extend(TwoBytes, run, steps, s2, s3, Stat(pid));
  }
}
