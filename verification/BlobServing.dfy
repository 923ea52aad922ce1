/**
  What the files of the blob cache hold under every interleaving. Of a key from
  which no running fetch was ever taken, every cached file is the payload. Two
  fetches of another key may disturb each other; `BlobContents` says what they
  leave.
 */
module BlobServing {
  import opened Common
  import opened BlobCache
  import opened BlobDisk
  import opened BlobProtocol
  import opened BlobFlights

  /** An entry's file, if it has one, is its own key's. */
  ghost predicate OwnPaths(c: State) {
    forall k :: k in c.entries ==> c.entries[k].path == "" || c.entries[k].path == FinalPath(c.dir, k)
  }

  /** A complete entry tells the size of its key's payload; another one has nothing on file. */
  ghost predicate EntryFits(payload: string -> seq<byte>, c: State, k: string) {
    k in c.entries ==>
      var e := c.entries[k];
      if e.Complete() then e.path == FinalPath(c.dir, k) && e.size == |payload(k)| else e.path == "" && e.size == 0
  }

  /** The file of a key, if there, is its payload. */
  ghost predicate FileFits(payload: string -> seq<byte>, c: State, k: string) {
    FinalPath(c.dir, k) in c.disk ==> c.disk[FinalPath(c.dir, k)] == payload(k)
  }

  /** What a process knows of the files it handles. */
  ghost predicate ProcFits(payload: string -> seq<byte>, s: Sys, pc: Pc) {
    var disk, dir := s.cache.disk, s.cache.dir;
    match pc
    case AtStat(key, path, size) => key !in s.orphaned ==> path == FinalPath(dir, key) && size == |payload(key)|
    case AtWrite(key, inode, off) =>
      key !in s.orphaned ==>
        && InodeAt(disk, s.files, TmpPath(dir, key)) == Some(inode)
        && off <= |payload(key)| && disk[TmpPath(dir, key)] == payload(key)[..off]
    case AtRename(key, size) =>
      key !in s.orphaned ==>
        && InodeAt(disk, s.files, TmpPath(dir, key)).Some?
        && disk[TmpPath(dir, key)] == payload(key) && size == |payload(key)|
    case AtFinish(key, size, ok) => key !in s.orphaned && ok ==> size == |payload(key)|
    case AtRecord(key, size) => size == |payload(key)|
    case _ => true
  }

  ghost predicate Served(payload: string -> seq<byte>, c: State, orphaned: set<string>) {
    && OwnPaths(c)
    && (forall k {:trigger EntryFits(payload, c, k)} :: k !in orphaned ==> EntryFits(payload, c, k))
    && (forall k {:trigger FileFits(payload, c, k)} :: k !in orphaned ==> FileFits(payload, c, k))
  }

  ghost predicate ProcsFit(payload: string -> seq<byte>, s: Sys) {
    forall pid {:trigger ProcFits(payload, s, s.procs[pid])} :: pid in s.procs ==> ProcFits(payload, s, s.procs[pid])
  }

  ghost predicate Serves(payload: string -> seq<byte>, s: Sys) {
    Served(payload, s.cache, s.orphaned) && ProcsFit(payload, s)
  }

  // ---------------------------------------------------------------------
  // How the parts survive a step
  // ---------------------------------------------------------------------

  ghost predicate FileKept(s: Sys, s': Sys, file: string) {
    && (file in s.cache.disk <==> file in s'.cache.disk)
    && (file in s.cache.disk ==>
          && s'.cache.disk[file] == s.cache.disk[file]
          && InodeAt(s'.cache.disk, s'.files, file) == InodeAt(s.cache.disk, s.files, file))
  }

  /** The files of other keys are left alone. */
  ghost predicate OthersKept(s: Sys, s': Sys, key: string) {
    && s'.cache.dir == s.cache.dir && s.orphaned <= s'.orphaned
    && forall k :: k != key ==> FileKept(s, s', FinalPath(s.cache.dir, k)) && FileKept(s, s', TmpPath(s.cache.dir, k))
  }

  /** A step that works on one key's two files leaves the others alone. */
  lemma FilesApart(s: Sys, s': Sys, key: string)
    requires s'.cache.dir == s.cache.dir && s.orphaned <= s'.orphaned
    requires forall p :: p != TmpPath(s.cache.dir, key) && p != FinalPath(s.cache.dir, key) ==> FileKept(s, s', p)
    ensures OthersKept(s, s', key) && FinalPath(s.cache.dir, key) != TmpPath(s.cache.dir, key)
  {
    forall k | k != key
      ensures FileKept(s, s', FinalPath(s.cache.dir, k)) && FileKept(s, s', TmpPath(s.cache.dir, k))
    {
      PathsDiffer(s.cache.dir, k, key);
      PathsDiffer(s.cache.dir, key, k);
    }
    PathsDiffer(s.cache.dir, key, key);
  }

  /** A step that changed one key's entry and files leaves the others served. */
  lemma ServedKept(payload: string -> seq<byte>, s: Sys, s': Sys, key: string)
    requires Served(payload, s.cache, s.orphaned) && OthersKept(s, s', key) && OwnPaths(s'.cache)
    requires forall k :: k != key ==>
               && (k in s'.cache.entries <==> k in s.cache.entries)
               && (k in s.cache.entries ==> s'.cache.entries[k] == s.cache.entries[k])
    requires key !in s'.orphaned ==> EntryFits(payload, s'.cache, key) && FileFits(payload, s'.cache, key)
    ensures Served(payload, s'.cache, s'.orphaned)
  {
    forall k | k !in s'.orphaned ensures EntryFits(payload, s'.cache, k) && FileFits(payload, s'.cache, k) {
      if k != key {
        assert EntryFits(payload, s.cache, k) && FileFits(payload, s.cache, k);
        assert FileKept(s, s', FinalPath(s.cache.dir, k));
      }
    }
  }

  /** The process works on the temporary file of its key. */
  predicate UsesTmp(pc: Pc) {
    pc.AtWrite? || pc.AtRename?
  }

  /** Other processes go on knowing what they know unless they share a temporary file with this one. */
  lemma ProcsKept(payload: string -> seq<byte>, s: Sys, s': Sys, key: string, pid: nat, pc: Pc)
    requires ProcsFit(payload, s) && OthersKept(s, s', key) && s'.procs == s.procs[pid := pc]
    requires forall p :: p in s.procs && p != pid && UsesTmp(s.procs[p]) && s.procs[p].key == key ==>
               key in s'.orphaned || FileKept(s, s', TmpPath(s.cache.dir, key))
    requires ProcFits(payload, s', pc)
    ensures ProcsFit(payload, s')
  {
    forall p | p in s'.procs && p != pid ensures ProcFits(payload, s', s'.procs[p]) {
      assert ProcFits(payload, s, s.procs[p]);
      if UsesTmp(s.procs[p]) && s.procs[p].key != key {
        assert FileKept(s, s', TmpPath(s.cache.dir, s.procs[p].key));
      }
    }
  }

  lemma SameFiles(s: Sys, s': Sys, key: string)
    requires s'.cache.dir == s.cache.dir && s.orphaned <= s'.orphaned
    requires s'.cache.disk == s.cache.disk && s'.files == s.files
    ensures OthersKept(s, s', key) && FileKept(s, s', TmpPath(s.cache.dir, key))
  {
  }

  // ---------------------------------------------------------------------
  // Steps that touch no file
  // ---------------------------------------------------------------------

  lemma LookServes(payload: string -> seq<byte>, s: Sys, s': Sys, pid: nat)
    requires Serves(payload, s) && LookStep(s, s', pid)
    ensures Serves(payload, s')
  {
    var key := s.procs[pid].key;
    SameFiles(s, s', key);
    assert key !in s.orphaned ==> EntryFits(payload, s.cache, key) && FileFits(payload, s.cache, key);
    ServedKept(payload, s, s', key);
    ProcsKept(payload, s, s', key, pid, s'.procs[pid]);
  }

  lemma RecheckServes(payload: string -> seq<byte>, s: Sys, s': Sys, pid: nat)
    requires Serves(payload, s) && RecheckStep(s, s', pid)
    ensures Serves(payload, s')
  {
    var key := s.procs[pid].key;
    SameFiles(s, s', key);
    assert key !in s.orphaned ==> EntryFits(payload, s.cache, key) && FileFits(payload, s.cache, key);
    ServedKept(payload, s, s', key);
    ProcsKept(payload, s, s', key, pid, s'.procs[pid]);
  }

  /** Steps in which a process only moves on. */
  lemma MoveOnServes(payload: string -> seq<byte>, s: Sys, s': Sys, pid: nat, pc: Pc)
    requires Serves(payload, s) && s' == Go(s, pid, pc) && ProcFits(payload, s, pc)
    ensures Serves(payload, s')
  {
    SameFiles(s, s', "");
    ProcsKept(payload, s, s', "", pid, pc);
  }

  // ---------------------------------------------------------------------
  // Steps of one fetch
  // ---------------------------------------------------------------------

  /** A fetching process changed only the files of its key. */
  lemma FetchServes(payload: string -> seq<byte>, s: Sys, s': Sys, pid: nat, key: string)
    requires Serves(payload, s) && BlobFlights.Inv(s) && pid in s.procs && pid in s'.procs
    requires s.procs[pid].FetchKey() == Some(key)
    requires s' == Go(s, pid, s'.procs[pid]).(cache := s.cache.(disk := s'.cache.disk), files := s'.files)
    requires OthersKept(s, s', key)
    requires key !in s.orphaned ==> FileFits(payload, s'.cache, key)
    requires ProcFits(payload, s', s'.procs[pid])
    ensures Serves(payload, s')
  {
    assert key !in s.orphaned ==> EntryFits(payload, s.cache, key);
    ServedKept(payload, s, s', key);
    forall p | p in s.procs && p != pid && UsesTmp(s.procs[p]) && s.procs[p].key == key ensures key in s.orphaned {
      assert s.procs[p].FetchKey() == Some(key);
    }
    ProcsKept(payload, s, s', key, pid, s'.procs[pid]);
  }

  lemma RemoveServes(payload: string -> seq<byte>, s: Sys, s': Sys, pid: nat)
    requires Serves(payload, s) && BlobFlights.Inv(s) && (RemoveStep(s, s', pid) || FailStep(s, s', pid))
    ensures Serves(payload, s')
  {
    var key := s.procs[pid].key;
    FilesApart(s, s', key);
    assert key !in s.orphaned ==> FileFits(payload, s.cache, key);
    FetchServes(payload, s, s', pid, key);
  }

  lemma CreateServes(payload: string -> seq<byte>, s: Sys, s': Sys, pid: nat)
    requires Serves(payload, s) && BlobFlights.Inv(s) && CreateStep(s, s', pid)
    ensures Serves(payload, s')
  {
    var key := s.procs[pid].key;
    FilesApart(s, s', key);
    assert key !in s.orphaned ==> FileFits(payload, s.cache, key);
    assert payload(key)[..0] == [];
    FetchServes(payload, s, s', pid, key);
  }

  /** The only fetch of a key finds what it has written so far, and adds to it. */
  lemma WriteServes(payload: string -> seq<byte>, s: Sys, s': Sys, pid: nat, n: nat)
    requires Serves(payload, s) && BlobFlights.Inv(s) && WriteStep(payload, s, s', pid, n)
    ensures Serves(payload, s')
  {
    var pc := s.procs[pid];
    var tmp := TmpPath(s.cache.dir, pc.key);
    FilesApart(s, s', pc.key);
    assert pc.key !in s.orphaned ==> FileFits(payload, s.cache, pc.key);
    assert ProcFits(payload, s, pc);
    if pc.key !in s.orphaned {
      assert s'.cache.disk[tmp] == payload(pc.key)[..pc.off + n];
    }
    FetchServes(payload, s, s', pid, pc.key);
  }

  lemma SizeServes(payload: string -> seq<byte>, s: Sys, s': Sys, pid: nat)
    requires Serves(payload, s) && SizeStep(payload, s, s', pid)
    ensures Serves(payload, s')
  {
    var pc := s.procs[pid];
    assert ProcFits(payload, s, pc);
    assert payload(pc.key)[..|payload(pc.key)|] == payload(pc.key);
    MoveOnServes(payload, s, s', pid, s'.procs[pid]);
  }

  lemma RenameServes(payload: string -> seq<byte>, s: Sys, s': Sys, pid: nat)
    requires Serves(payload, s) && BlobFlights.Inv(s) && RenameStep(s, s', pid)
    ensures Serves(payload, s')
  {
    var key := s.procs[pid].key;
    FilesApart(s, s', key);
    assert ProcFits(payload, s, s.procs[pid]);
    FetchServes(payload, s, s', pid, key);
  }

  lemma FinishServes(payload: string -> seq<byte>, s: Sys, s': Sys, pid: nat)
    requires Serves(payload, s) && BlobFlights.Inv(s) && FinishStep(s, s', pid)
    ensures Serves(payload, s')
  {
    var pc := s.procs[pid];
    SameFiles(s, s', pc.key);
    assert ProcFits(payload, s, pc) && pc.FetchKey() == Some(pc.key);
    assert pc.key !in s.orphaned ==> EntryFits(payload, s.cache, pc.key) && FileFits(payload, s.cache, pc.key);
    PathsDiffer(s.cache.dir, pc.key, pc.key);
    ServedKept(payload, s, s', pc.key);
    ProcsKept(payload, s, s', pc.key, pid, s'.procs[pid]);
  }

  // ---------------------------------------------------------------------
  // Stores, evictions, lost files
  // ---------------------------------------------------------------------

  lemma MoveServes(payload: string -> seq<byte>, s: Sys, s': Sys, pid: nat)
    requires Serves(payload, s) && MoveStep(payload, s, s', pid)
    ensures Serves(payload, s')
  {
    var key := s.procs[pid].key;
    FilesApart(s, s', key);
    assert key !in s.orphaned ==> EntryFits(payload, s.cache, key) && FileFits(payload, s.cache, key);
    ServedKept(payload, s, s', key);
    ProcsKept(payload, s, s', key, pid, s'.procs[pid]);
  }

  lemma RecordServes(payload: string -> seq<byte>, s: Sys, s': Sys, pid: nat)
    requires Serves(payload, s) && RecordStep(s, s', pid)
    ensures Serves(payload, s')
  {
    var pc := s.procs[pid];
    FilesApart(s, s', pc.key);
    assert ProcFits(payload, s, pc);
    assert pc.key !in s.orphaned ==> EntryFits(payload, s.cache, pc.key) && FileFits(payload, s.cache, pc.key);
    ServedKept(payload, s, s', pc.key);
    ProcsKept(payload, s, s', pc.key, pid, s'.procs[pid]);
  }

  /** Eviction leaves alone every file that no entry names. */
  lemma {:induction false} EvictedOther(c: State, file: string)
    requires forall k :: k in c.entries ==> c.entries[k].path != file
    ensures file in c.disk <==> file in Evicted(c).disk
    ensures file in c.disk ==> Evicted(c).disk[file] == c.disk[file]
    decreases |c.lru|
  {
    if c.curBytes > c.maxBytes && c.lru != [] {
      EvictedOther(EvictOne(c), file);
    }
  }

  lemma EvictedTmp(s: Sys, s': Sys, k: string)
    requires OwnPaths(s.cache) && s'.cache == Evicted(s.cache) && s'.files == s.files
    ensures FileKept(s, s', TmpPath(s.cache.dir, k))
  {
    forall j | j in s.cache.entries ensures s.cache.entries[j].path != TmpPath(s.cache.dir, k) {
      PathsDiffer(s.cache.dir, j, k);
    }
    EvictedOther(s.cache, TmpPath(s.cache.dir, k));
  }

  lemma EvictedServed(payload: string -> seq<byte>, c: State, orphaned: set<string>, orphaned': set<string>)
    requires Booked(c) && Served(payload, c, orphaned) && orphaned <= orphaned'
    ensures Served(payload, Evicted(c), orphaned')
  {
    EvictedEntries(c);
    EvictedMaxBytes(c);
    forall k | k !in orphaned' ensures EntryFits(payload, Evicted(c), k) && FileFits(payload, Evicted(c), k) {
      assert EntryFits(payload, c, k) && FileFits(payload, c, k);
      EvictedDisk(c, k);
    }
  }

  lemma EvictServes(payload: string -> seq<byte>, s: Sys, s': Sys, pid: nat)
    requires Serves(payload, s) && Booked(s.cache) && EvictStep(s, s', pid)
    ensures Serves(payload, s')
  {
    EvictedServed(payload, s.cache, s.orphaned, s'.orphaned);
    EvictedMaxBytes(s.cache);
    forall p | p in s'.procs ensures ProcFits(payload, s', s'.procs[p]) {
      if p != pid {
        assert ProcFits(payload, s, s.procs[p]);
        if UsesTmp(s.procs[p]) {
          EvictedTmp(s, s', s.procs[p].key);
        }
      }
    }
  }

  lemma VanishServes(payload: string -> seq<byte>, s: Sys, s': Sys, key: string)
    requires Serves(payload, s) && VanishStep(s, s', key)
    ensures Serves(payload, s')
  {
    FilesApart(s, s', key);
    assert key !in s.orphaned ==> EntryFits(payload, s.cache, key);
    ServedKept(payload, s, s', key);
    forall p | p in s.procs ensures ProcFits(payload, s', s.procs[p]) {
      assert ProcFits(payload, s, s.procs[p]);
      if UsesTmp(s.procs[p]) {
        assert FileKept(s, s', TmpPath(s.cache.dir, s.procs[p].key));
      }
    }
  }

  /** The file operations of a fetch. */
  lemma FileServes(payload: string -> seq<byte>, s: Sys, s': Sys, step: Step)
    requires Serves(payload, s) && BlobFlights.Inv(s) && NextBy(payload, s, s', step)
    requires step.Remove? || step.Create? || step.Write? || step.Size? || step.Rename? || step.Fail?
    ensures Serves(payload, s')
  {
    match step
    case Remove(pid) => RemoveServes(payload, s, s', pid);
    case Create(pid) => CreateServes(payload, s, s', pid);
    case Write(pid, n) => WriteServes(payload, s, s', pid, n);
    case Size(pid) => SizeServes(payload, s, s', pid);
    case Rename(pid) => RenameServes(payload, s, s', pid);
    case Fail(pid) => RemoveServes(payload, s, s', pid);
  }

  /** Calls, file checks and wake-ups. */
  lemma LocalServes(payload: string -> seq<byte>, s: Sys, s': Sys, step: Step)
    requires Serves(payload, s) && NextBy(payload, s, s', step) && (step.Call? || step.Stat? || step.Wake?)
    ensures Serves(payload, s')
  {
    MoveOnServes(payload, s, s', step.pid, s'.procs[step.pid]);
  }

  lemma StepServes(payload: string -> seq<byte>, s: Sys, s': Sys, step: Step)
    requires Serves(payload, s) && BlobFlights.Inv(s) && Booked(s.cache) && NextBy(payload, s, s', step)
    ensures Serves(payload, s')
  {
    match step
    case Look(pid) => LookServes(payload, s, s', pid);
    case Recheck(pid) => RecheckServes(payload, s, s', pid);
    case Finish(pid) => FinishServes(payload, s, s', pid);
    case Move(pid) => MoveServes(payload, s, s', pid);
    case Record(pid) => RecordServes(payload, s, s', pid);
    case Evict(pid) => EvictServes(payload, s, s', pid);
    case Vanish(key) => VanishServes(payload, s, s', key);
    case _ =>
      if step.Call? || step.Stat? || step.Wake? {
        LocalServes(payload, s, s', step);
      } else {
        FileServes(payload, s, s', step);
      }
  }

  /** In every reachable state. */
  lemma {:induction false} RunServes(payload: string -> seq<byte>, run: seq<Sys>, steps: seq<Step>, n: nat)
    requires IsRun(payload, run, steps) && n <= |steps|
    ensures Serves(payload, run[n])
  {
    if n == 0 {
      InitServes(payload, run[0]);
    } else {
      RunServes(payload, run, steps, n - 1);
      RunBooked(payload, run, steps, n - 1);
      BlobFlights.RunInv(payload, run, steps, n - 1);
      assert StepAt(payload, run, steps, n - 1);
      StepServes(payload, run[n - 1], run[n], steps[n - 1]);
    }
  }

  lemma InitServes(payload: string -> seq<byte>, s: Sys)
    requires BlobProtocol.Init(payload, s)
    ensures Serves(payload, s)
  {
  }

  // ---------------------------------------------------------------------
  // Main results
  // ---------------------------------------------------------------------

  /** A key from which no running fetch was ever taken: its entry and its file are right, whatever became of others. */
  lemma RunClean(payload: string -> seq<byte>, run: seq<Sys>, steps: seq<Step>, n: nat, key: string)
    requires IsRun(payload, run, steps) && n <= |steps| && key !in run[n].orphaned
    ensures EntryFits(payload, run[n].cache, key) && FileFits(payload, run[n].cache, key)
  {
    RunServes(payload, run, steps, n);
  }

  /** A hit on such a key that passes its file check serves the key's payload. */
  lemma HitServesPayload(payload: string -> seq<byte>, run: seq<Sys>, steps: seq<Step>, n: nat)
    requires IsRun(payload, run, steps) && n < |steps| && steps[n].Stat?
    requires var pid := steps[n].pid;
      && pid in run[n].procs && run[n].procs[pid].AtStat? && run[n].procs[pid].key !in run[n].orphaned
      && pid in run[n + 1].procs && run[n + 1].procs[pid].AtDone?
    ensures var pc := run[n].procs[steps[n].pid];
      && pc.path == FinalPath(run[n].cache.dir, pc.key)
      && pc.path in run[n].cache.disk && run[n].cache.disk[pc.path] == payload(pc.key)
  {
    RunServes(payload, run, steps, n);
    var s, pid := run[n], steps[n].pid;
    assert StepAt(payload, run, steps, n);
    assert ProcFits(payload, s, s.procs[pid]) && FileFits(payload, s.cache, s.procs[pid].key);
  }

  /** Only a key from which a running fetch was taken ever leaks. */
  lemma OnlyOrphansLeak(payload: string -> seq<byte>, run: seq<Sys>, steps: seq<Step>, n: nat)
    requires IsRun(payload, run, steps) && n < |steps| && LeaksAt(run[n], steps[n])
    ensures StepKey(run[n], steps[n]).Some? && StepKey(run[n], steps[n]).value in run[n].orphaned
  {
    RunServes(payload, run, steps, n);
    BlobFlights.RunInv(payload, run, steps, n);
    var key := StepKey(run[n], steps[n]).value;
    assert key !in run[n].orphaned ==> EntryFits(payload, run[n].cache, key);
    assert run[n].procs[steps[n].pid].AtFinish? ==> run[n].procs[steps[n].pid].FetchKey() == Some(key);
  }

  /** Some process writes or is about to move a temporary file of the key. */
  ghost predicate InUse(s: Sys, key: string) {
    exists pid :: pid in s.procs && UsesTmp(s.procs[pid]) && s.procs[pid].key == key
  }

  lemma StillInUse(s: Sys, s': Sys, pid: nat, key: string)
    requires InUse(s, key) && pid in s'.procs && s'.procs == s.procs[pid := s'.procs[pid]]
    requires pid in s.procs && UsesTmp(s.procs[pid]) && s.procs[pid].key == key ==>
               UsesTmp(s'.procs[pid]) && s'.procs[pid].key == key
    ensures InUse(s', key)
  {
    var q :| q in s.procs && UsesTmp(s.procs[q]) && s.procs[q].key == key;
    assert q in s'.procs && UsesTmp(s'.procs[q]) && s'.procs[q].key == key;
  }

  /** A file at a temporary path was there before the step, or is in use after it; and one in use is so or is gone. */
  lemma TmpStep(payload: string -> seq<byte>, s: Sys, s': Sys, step: Step, key: string)
    requires NextBy(payload, s, s', step) && OwnPaths(s.cache) && TmpPath(s.cache.dir, key) in s'.cache.disk
    ensures s'.cache.dir == s.cache.dir
    ensures InUse(s', key) || (TmpPath(s.cache.dir, key) in s.cache.disk && !InUse(s, key))
  {
    match step
    case Create(pid) => CreateTmp(s, s', pid, key);
    case Rename(pid) => EndTmp(s, s', pid, key);
    case Fail(pid) => EndTmp(s, s', pid, key);
    case Evict(pid) => EvictTmp(s, s', pid, key);
    case Vanish(k) =>
    case _ => QuietTmp(payload, s, s', step, key);
  }

  lemma CreateTmp(s: Sys, s': Sys, pid: nat, key: string)
    requires CreateStep(s, s', pid) && TmpPath(s.cache.dir, key) in s'.cache.disk
    ensures InUse(s', key) || (TmpPath(s.cache.dir, key) in s.cache.disk && !InUse(s, key))
  {
    PathsDiffer(s.cache.dir, key, s.procs[pid].key);
    if UsesTmp(s'.procs[pid]) && s.procs[pid].key == key {
      assert InUse(s', key);
    } else if InUse(s, key) {
      StillInUse(s, s', pid, key);
    }
  }

  /** A fetch that ends, well or badly, leaves no file at its temporary path. */
  lemma EndTmp(s: Sys, s': Sys, pid: nat, key: string)
    requires (RenameStep(s, s', pid) || FailStep(s, s', pid)) && TmpPath(s.cache.dir, key) in s'.cache.disk
    ensures InUse(s', key) || (TmpPath(s.cache.dir, key) in s.cache.disk && !InUse(s, key))
  {
    PathsDiffer(s.cache.dir, s.procs[pid].key, key);
    PathsDiffer(s.cache.dir, key, s.procs[pid].key);
    if InUse(s, key) {
      StillInUse(s, s', pid, key);
    }
  }

  lemma EvictTmp(s: Sys, s': Sys, pid: nat, key: string)
    requires EvictStep(s, s', pid) && OwnPaths(s.cache) && TmpPath(s.cache.dir, key) in s'.cache.disk
    ensures s'.cache.dir == s.cache.dir
    ensures InUse(s', key) || (TmpPath(s.cache.dir, key) in s.cache.disk && !InUse(s, key))
  {
    EvictedMaxBytes(s.cache);
    EvictedTmp(s, s', key);
    if InUse(s, key) {
      StillInUse(s, s', pid, key);
    }
  }

  lemma QuietTmp(payload: string -> seq<byte>, s: Sys, s': Sys, step: Step, key: string)
    requires NextBy(payload, s, s', step) && TmpPath(s.cache.dir, key) in s'.cache.disk
    requires !step.Create? && !step.Rename? && !step.Fail? && !step.Evict? && !step.Vanish?
    ensures s'.cache.dir == s.cache.dir
    ensures InUse(s', key) || (TmpPath(s.cache.dir, key) in s.cache.disk && !InUse(s, key))
  {
    if step.Move? {
      PathsDiffer(s.cache.dir, s.procs[step.pid].key, key);
    }
    if step.Write? {
      WriteTmp(payload, s, s', step.pid, step.n, key);
    }
    if InUse(s, key) {
      StillInUse(s, s', step.pid, key);
    }
  }

  lemma WriteTmp(payload: string -> seq<byte>, s: Sys, s': Sys, pid: nat, n: nat, key: string)
    requires WriteStep(payload, s, s', pid, n) && TmpPath(s.cache.dir, key) in s'.cache.disk
    ensures TmpPath(s.cache.dir, key) in s.cache.disk
  {
  }

  /** At any time a temporary file is being written or about to be moved, or it was there when the program began. */
  lemma {:induction false} NoTmpLeftBehind(payload: string -> seq<byte>, run: seq<Sys>, steps: seq<Step>, n: nat,
                                           key: string)
    requires IsRun(payload, run, steps) && n <= |steps|
    ensures run[n].cache.dir == run[0].cache.dir
    ensures TmpPath(run[0].cache.dir, key) in run[n].cache.disk ==>
              InUse(run[n], key) || TmpPath(run[0].cache.dir, key) in run[0].cache.disk
  {
    if n > 0 {
      NoTmpLeftBehind(payload, run, steps, n - 1, key);
      RunServes(payload, run, steps, n - 1);
      assert StepAt(payload, run, steps, n - 1);
      DirStays(payload, run[n - 1], run[n], steps[n - 1]);
      if TmpPath(run[0].cache.dir, key) in run[n].cache.disk {
        TmpStep(payload, run[n - 1], run[n], steps[n - 1], key);
      }
    }
  }

  lemma DirStays(payload: string -> seq<byte>, s: Sys, s': Sys, step: Step)
    requires NextBy(payload, s, s', step)
    ensures s'.cache.dir == s.cache.dir
  {
    if step.Evict? {
      EvictedMaxBytes(s.cache);
    }
  }

  /** Until some running fetch loses its entry the count is the sum of the entry sizes. */
  lemma RunExact(payload: string -> seq<byte>, run: seq<Sys>, steps: seq<Step>, n: nat)
    requires IsRun(payload, run, steps) && n <= |steps| && run[n].orphaned == {}
    ensures Leak(run[n].cache) == 0
  {
    forall i | 0 <= i < n ensures !LeaksAt(run[i], steps[i]) {
      LeakNeverShrinks(payload, run, steps, i, n);
      if LeaksAt(run[i], steps[i]) {
        OnlyOrphansLeak(payload, run, steps, i);
      }
    }
    ExactUnlessLeaked(payload, run, steps, n);
  }
}
