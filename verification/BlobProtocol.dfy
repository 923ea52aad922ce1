/**
  The blob cache under every interleaving of fetches, stores, evictions,
  cancelled waits and lost files. Each critical section and each file operation
  of a process is one step. A fetch writes through an open descriptor, and goes
  on writing to its file when that is renamed, removed or opened by others.

  Four pieces of history are kept, and no step depends on them: `fetcher`, which
  process fetches the entry of a key; `home`, the key for which a channel was
  made; `orphaned`, the keys from which an eviction or a store has ever taken
  away an entry whose fetch was still running; and `written`, which bytes of a
  file were written since it was last truncated. What a run can say of its
  accounting is here; `BlobFlights` says who fetches and who waits, `BlobContents`
  what every file holds and `BlobServing` which files are whole.
 */
module BlobProtocol {
  import opened Common
  import opened BlobCache
  import opened BlobDisk

  datatype Pc =
    | AtLook(key: string)
    | AtStat(key: string, path: string, size: nat)
    | AtRecheck(key: string, path: string, size: nat)
    | AtWait(key: string, channel: nat)
    | AtOpen(key: string)
    | AtCreate(key: string)
    | AtWrite(key: string, inode: nat, off: nat)
    | AtRename(key: string, size: nat)
    | AtFinish(key: string, size: nat, ok: bool)
    | AtMove(key: string)
    | AtRecord(key: string, size: nat)
    | AtEvict
    | AtDone
  {
    /** The key a process fetches, from the start of the fetch to the report of its end. */
    function FetchKey(): Option<string> {
      if AtOpen? || AtCreate? || AtWrite? || AtRename? || AtFinish? then Some(key) else None
    }
  }

  datatype Sys = Sys(
    cache: State,
    files: Files,
    procs: map<nat, Pc>,
    closed: set<nat>,
    nextChannel: nat,
    fetcher: map<string, nat>,
    home: map<nat, string>,
    orphaned: set<string>)

  function Go(s: Sys, pid: nat, pc: Pc): Sys {
    s.(procs := s.procs[pid := pc])
  }

  function WaitersOf(c: State, key: string): set<nat> {
    if key in c.entries then c.entries[key].waiters else {}
  }

  predicate IsFetching(c: State, key: string) {
    key in c.entries && c.entries[key].fetching
  }

  ghost predicate Init(payload: string -> seq<byte>, s: Sys) {
    && s.cache.lru == [] && s.cache.entries == map[] && s.cache.curBytes == 0 && LeftBehind(payload, s.cache, s.files)
    && s.procs == map[] && s.closed == {} && s.fetcher == map[] && s.home == map[] && s.orphaned == {}
  }

  // ---------------------------------------------------------------------
  // Steps
  // ---------------------------------------------------------------------

  ghost predicate CallStep(s: Sys, s': Sys, pid: nat, key: string) {
    && pid !in s.procs && key != ""
    && (s' == Go(s, pid, AtLook(key)) || s' == Go(s, pid, AtMove(key)))
  }

  /** The first critical section of `GetOrFetch`. */
  ghost predicate LookStep(s: Sys, s': Sys, pid: nat) {
    && pid in s.procs && s.procs[pid].AtLook?
    && var key := s.procs[pid].key;
       if IsHit(s.cache, key) then
         var e := s.cache.entries[key];
         s' == Go(s, pid, AtStat(key, e.path, e.size)).(cache := HitTouched(s.cache, key))
       else if IsFetching(s.cache, key) then
         var e := s.cache.entries[key];
         s' == Go(s, pid, AtWait(key, s.nextChannel)).(
           nextChannel := s.nextChannel + 1,
           home := s.home[s.nextChannel := key],
           cache := s.cache.(entries := s.cache.entries[key := e.(waiters := e.waiters + {s.nextChannel})]))
       else
         s' == Go(s, pid, AtOpen(key)).(cache := Begun(s.cache, key), fetcher := s.fetcher[key := pid])
  }

  ghost predicate StatStep(s: Sys, s': Sys, pid: nat) {
    && pid in s.procs && s.procs[pid].AtStat?
    && var pc := s.procs[pid];
       s' == Go(s, pid, if OnDisk(s.cache, pc.path, pc.size) then AtDone else AtRecheck(pc.key, pc.path, pc.size))
  }

  /** The file of a hit was gone: drop the entry if it is still the same. */
  ghost predicate RecheckStep(s: Sys, s': Sys, pid: nat) {
    && pid in s.procs && s.procs[pid].AtRecheck?
    && var pc := s.procs[pid];
       var same := IsHit(s.cache, pc.key)
                   && s.cache.entries[pc.key].path == pc.path && s.cache.entries[pc.key].size == pc.size;
       s' == Go(s, pid, AtLook(pc.key)).(cache := if same then Forgot(s.cache, pc.key) else s.cache)
  }

  ghost predicate WakeStep(s: Sys, s': Sys, pid: nat) {
    && pid in s.procs && s.procs[pid].AtWait?
    && ((s.procs[pid].channel in s.closed && s' == Go(s, pid, AtLook(s.procs[pid].key))) || s' == Go(s, pid, AtDone))
  }

  /** Removes the temporary file another fetch may have left, or fails to. */
  ghost predicate RemoveStep(s: Sys, s': Sys, pid: nat) {
    && pid in s.procs && s.procs[pid].AtOpen?
    && var key := s.procs[pid].key;
       || s' == Go(s, pid, AtCreate(key))
       || s' == Go(s, pid, AtCreate(key)).(cache := s.cache.(disk := s.cache.disk - {TmpPath(s.cache.dir, key)}))
  }

  /** Opens the temporary file for writing, new or truncated, or fails to. */
  ghost predicate CreateStep(s: Sys, s': Sys, pid: nat) {
    && pid in s.procs && s.procs[pid].AtCreate?
    && var key := s.procs[pid].key;
       var tmp := TmpPath(s.cache.dir, key);
       var there := InodeAt(s.cache.disk, s.files, tmp);
       || s' == Go(s, pid, AtFinish(key, 0, false))
       || (there.Some?
           && s' == Go(s, pid, AtWrite(key, there.value, 0)).(
                cache := s.cache.(disk := s.cache.disk[tmp := []]),
                files := s.files.(written := s.files.written[there.value := {}])))
       || (there.None?
           && s' == Go(s, pid, AtWrite(key, s.files.next, 0)).(
                cache := s.cache.(disk := s.cache.disk[tmp := []]),
                files := NewFile(s.files, tmp, {})))
  }

  /** The fetch writes the next `n` bytes of the payload, wherever its file is by now. */
  ghost predicate WriteStep(payload: string -> seq<byte>, s: Sys, s': Sys, pid: nat, n: nat) {
    && pid in s.procs && s.procs[pid].AtWrite?
    && var pc := s.procs[pid];
       var path := PathOf(s.cache, s.files, pc.key, pc.inode);
       && n > 0 && pc.off + n <= |payload(pc.key)|
       && s' == Go(s, pid, pc.(off := pc.off + n)).(
            cache := if path.None? || path.value !in s.cache.disk then s.cache else
                       s.cache.(disk := s.cache.disk[path.value := Overwritten(
                         s.cache.disk[path.value], pc.off, payload(pc.key)[pc.off..pc.off + n])]),
            files := s.files.(written := s.files.written[
                       pc.inode := WrittenTo(s.files, pc.inode) + Span(pc.off, pc.off + n)]))
  }

  /** With everything written, takes the size of whatever is at the temporary path. */
  ghost predicate SizeStep(payload: string -> seq<byte>, s: Sys, s': Sys, pid: nat) {
    && pid in s.procs && s.procs[pid].AtWrite?
    && var pc := s.procs[pid];
       var tmp := TmpPath(s.cache.dir, pc.key);
       && pc.off == |payload(pc.key)| && tmp in s.cache.disk
       && s' == Go(s, pid, AtRename(pc.key, |s.cache.disk[tmp]|))
  }

  /** Moves whatever is at the temporary path into place. */
  ghost predicate RenameStep(s: Sys, s': Sys, pid: nat) {
    && pid in s.procs && s.procs[pid].AtRename?
    && var key, dir := s.procs[pid].key, s.cache.dir;
       && InodeAt(s.cache.disk, s.files, TmpPath(dir, key)).Some?
       && s' == Go(s, pid, AtFinish(key, s.procs[pid].size, true)).(
            cache := s.cache.(disk := (s.cache.disk - {TmpPath(dir, key)})[
                       FinalPath(dir, key) := s.cache.disk[TmpPath(dir, key)]]),
            files := s.files.(inode := s.files.inode[FinalPath(dir, key) := s.files.inode[TmpPath(dir, key)]]))
  }

  /** A write, the close, or what follows them failed: whatever is at the temporary path is removed. */
  ghost predicate FailStep(s: Sys, s': Sys, pid: nat) {
    && pid in s.procs && (s.procs[pid].AtWrite? || s.procs[pid].AtRename?)
    && var key := s.procs[pid].key;
       s' == Go(s, pid, AtFinish(key, 0, false)).(
         cache := s.cache.(disk := s.cache.disk - {TmpPath(s.cache.dir, key)}))
  }

  /** `finishFetch` reports to whatever entry the key has now, and closes its waiters. */
  ghost predicate FinishStep(s: Sys, s': Sys, pid: nat) {
    && pid in s.procs && s.procs[pid].AtFinish?
    && var pc := s.procs[pid];
       s' == Go(s, pid, if pc.ok then AtEvict else AtDone).(
         cache := Finished(s.cache, pc.key, FinalPath(s.cache.dir, pc.key), pc.size, pc.ok),
         closed := s.closed + WaitersOf(s.cache, pc.key),
         fetcher := s.fetcher - {pc.key})
  }

  /** Moves a caller's file into place, or fails. */
  ghost predicate MoveStep(payload: string -> seq<byte>, s: Sys, s': Sys, pid: nat) {
    && pid in s.procs && s.procs[pid].AtMove?
    && var key := s.procs[pid].key;
       || s' == Go(s, pid, AtDone)
       || s' == Go(s, pid, AtRecord(key, |payload(key)|)).(
                  cache := s.cache.(disk := s.cache.disk[FinalPath(s.cache.dir, key) := payload(key)]),
                  files := NewFile(s.files, FinalPath(s.cache.dir, key), Span(0, |payload(key)|)))
  }

  ghost predicate RecordStep(s: Sys, s': Sys, pid: nat) {
    && pid in s.procs && s.procs[pid].AtRecord?
    && var pc := s.procs[pid];
       var lost := if IsFetching(s.cache, pc.key) then {pc.key} else {};
       s' == Go(s, pid, AtEvict).(
         cache := Recorded(s.cache, pc.key, pc.size),
         fetcher := s.fetcher - lost,
         orphaned := s.orphaned + lost)
  }

  /** The keys whose running fetch an eviction takes away. */
  function LostByEviction(c: State): set<string> {
    set k | k in c.entries && c.entries[k].fetching && k !in Evicted(c).entries
  }

  /** `evictIfNeeded` is one critical section. */
  ghost predicate EvictStep(s: Sys, s': Sys, pid: nat) {
    && pid in s.procs && s.procs[pid].AtEvict?
    && s' == Go(s, pid, AtDone).(
         cache := Evicted(s.cache),
         fetcher := s.fetcher - LostByEviction(s.cache),
         orphaned := s.orphaned + LostByEviction(s.cache))
  }

  /** Cached files may be lost at any time. */
  ghost predicate VanishStep(s: Sys, s': Sys, key: string) {
    s' == s.(cache := s.cache.(disk := s.cache.disk - {FinalPath(s.cache.dir, key)}))
  }

  datatype Step =
    | Call(pid: nat, key: string)
    | Look(pid: nat)
    | Stat(pid: nat)
    | Recheck(pid: nat)
    | Wake(pid: nat)
    | Remove(pid: nat)
    | Create(pid: nat)
    | Write(pid: nat, n: nat)
    | Size(pid: nat)
    | Rename(pid: nat)
    | Fail(pid: nat)
    | Finish(pid: nat)
    | Move(pid: nat)
    | Record(pid: nat)
    | Evict(pid: nat)
    | Vanish(key: string)

  ghost predicate NextBy(payload: string -> seq<byte>, s: Sys, s': Sys, step: Step) {
    match step
    case Call(pid, key) => CallStep(s, s', pid, key)
    case Look(pid) => LookStep(s, s', pid)
    case Stat(pid) => StatStep(s, s', pid)
    case Recheck(pid) => RecheckStep(s, s', pid)
    case Wake(pid) => WakeStep(s, s', pid)
    case Remove(pid) => RemoveStep(s, s', pid)
    case Create(pid) => CreateStep(s, s', pid)
    case Write(pid, n) => WriteStep(payload, s, s', pid, n)
    case Size(pid) => SizeStep(payload, s, s', pid)
    case Rename(pid) => RenameStep(s, s', pid)
    case Fail(pid) => FailStep(s, s', pid)
    case Finish(pid) => FinishStep(s, s', pid)
    case Move(pid) => MoveStep(payload, s, s', pid)
    case Record(pid) => RecordStep(s, s', pid)
    case Evict(pid) => EvictStep(s, s', pid)
    case Vanish(key) => VanishStep(s, s', key)
  }

  ghost predicate IsRun(payload: string -> seq<byte>, run: seq<Sys>, steps: seq<Step>) {
    && |run| == |steps| + 1
    && Init(payload, run[0])
    && forall i {:trigger StepAt(payload, run, steps, i)} :: 0 <= i < |steps| ==> StepAt(payload, run, steps, i)
  }

  ghost predicate StepAt(payload: string -> seq<byte>, run: seq<Sys>, steps: seq<Step>, i: nat)
    requires i < |steps| && |run| == |steps| + 1
  {
    NextBy(payload, run[i], run[i + 1], steps[i])
  }

  // ---------------------------------------------------------------------
  // What holds in every reachable state
  // ---------------------------------------------------------------------

  lemma EntryWaits(c: State, key: string, waiters: set<nat>)
    requires Booked(c) && key in c.entries
    ensures var c' := c.(entries := c.entries[key := c.entries[key].(waiters := waiters)]);
            Booked(c') && Leak(c') == Leak(c)
  {
    var entries' := c.entries[key := c.entries[key].(waiters := waiters)];
    TotalSame(c.lru, c.entries, entries');
  }

  /** The key a step works on, if it works on one. */
  function StepKey(s: Sys, step: Step): Option<string> {
    match step
    case Look(pid) => KeyAt(s, pid)
    case Finish(pid) => KeyAt(s, pid)
    case Record(pid) => KeyAt(s, pid)
    case _ => None
  }

  function KeyAt(s: Sys, pid: nat): Option<string> {
    if pid in s.procs && !s.procs[pid].AtEvict? && !s.procs[pid].AtDone? then Some(s.procs[pid].key) else None
  }

  /**
    The steps that leave bytes counted for no entry: a second success reported
    to an entry that has its bytes already, and a fetch or a store that replaces
    an entry which failed with its bytes still counted.
   */
  predicate LeaksAt(s: Sys, step: Step) {
    match step
    case Look(pid) =>
      && pid in s.procs && s.procs[pid].AtLook?
      && s.procs[pid].key in s.cache.entries
      && var e := s.cache.entries[s.procs[pid].key];
         !e.fetching && e.failed && e.size > 0
    case Finish(pid) =>
      && pid in s.procs && s.procs[pid].AtFinish?
      && s.procs[pid].ok && s.procs[pid].key in s.cache.entries && s.cache.entries[s.procs[pid].key].size > 0
    case Record(pid) =>
      && pid in s.procs && s.procs[pid].AtRecord?
      && s.procs[pid].key in s.cache.entries
      && var e := s.cache.entries[s.procs[pid].key];
         e.failed && e.size > 0
    case _ => false
  }

  /** How many bytes a step leaks: those of the entry it replaces or counts again. */
  function LeakedBy(s: Sys, step: Step): nat {
    if LeaksAt(s, step) && StepKey(s, step).Some? then SizeOf(s.cache.entries, StepKey(s, step).value) else 0
  }

  lemma LookLeaks(s: Sys, s': Sys, pid: nat)
    requires Booked(s.cache) && LookStep(s, s', pid)
    ensures Booked(s'.cache) && Leak(s'.cache) == Leak(s.cache) + LeakedBy(s, Look(pid))
  {
    var key := s.procs[pid].key;
    if IsHit(s.cache, key) {
      HitTouchedKeeps(s.cache, key);
    } else if IsFetching(s.cache, key) {
      EntryWaits(s.cache, key, s.cache.entries[key].waiters + {s.nextChannel});
    } else {
      BegunKeeps(s.cache, key);
    }
  }

  lemma FinishLeaks(s: Sys, s': Sys, pid: nat)
    requires Booked(s.cache) && FinishStep(s, s', pid)
    ensures Booked(s'.cache) && Leak(s'.cache) == Leak(s.cache) + LeakedBy(s, Finish(pid))
  {
    var pc := s.procs[pid];
    PathsDiffer(s.cache.dir, pc.key, pc.key);
    FinishedKeeps(s.cache, pc.key, FinalPath(s.cache.dir, pc.key), pc.size, pc.ok);
  }

  lemma RecordLeaks(s: Sys, s': Sys, pid: nat)
    requires Booked(s.cache) && RecordStep(s, s', pid)
    ensures Booked(s'.cache) && Leak(s'.cache) == Leak(s.cache) + LeakedBy(s, Record(pid))
  {
    RecordedKeeps(s.cache, s.procs[pid].key, s.procs[pid].size);
  }

  lemma RecheckLeaks(s: Sys, s': Sys, pid: nat)
    requires Booked(s.cache) && RecheckStep(s, s', pid)
    ensures Booked(s'.cache) && Leak(s'.cache) == Leak(s.cache)
  {
    if s.procs[pid].key in s.cache.entries {
      ForgotKeeps(s.cache, s.procs[pid].key);
    }
  }

  /** The other steps touch files at most. */
  lemma FileLeaks(payload: string -> seq<byte>, s: Sys, s': Sys, step: Step)
    requires NextBy(payload, s, s', step)
    requires !step.Look? && !step.Recheck? && !step.Finish? && !step.Record? && !step.Evict?
    ensures s'.cache == s.cache.(disk := s'.cache.disk)
  {
  }

  lemma StepBooked(payload: string -> seq<byte>, s: Sys, s': Sys, step: Step)
    requires Booked(s.cache) && NextBy(payload, s, s', step)
    ensures Booked(s'.cache) && Leak(s'.cache) == Leak(s.cache) + LeakedBy(s, step)
  {
    match step
    case Look(pid) => LookLeaks(s, s', pid);
    case Recheck(pid) => RecheckLeaks(s, s', pid);
    case Finish(pid) => FinishLeaks(s, s', pid);
    case Record(pid) => RecordLeaks(s, s', pid);
    case Evict(pid) => EvictedKeeps(s.cache);
    case _ => FileLeaks(payload, s, s', step);
  }

  lemma LeaksWhenGuarded(s: Sys, step: Step)
    ensures LeakedBy(s, step) == 0 <==> !LeaksAt(s, step)
  {
  }

  /** Every step keeps the books in order, and leaks exactly what its guard says. */
  lemma StepLeaks(payload: string -> seq<byte>, s: Sys, s': Sys, step: Step)
    requires Booked(s.cache) && NextBy(payload, s, s', step)
    ensures Booked(s'.cache) && Leak(s'.cache) == Leak(s.cache) + LeakedBy(s, step)
    ensures LeakedBy(s, step) == 0 <==> !LeaksAt(s, step)
  {
    StepBooked(payload, s, s', step);
    LeaksWhenGuarded(s, step);
  }

  /** In every reachable state keys and entries agree and the count covers the tracked bytes. */
  lemma {:induction false} RunBooked(payload: string -> seq<byte>, run: seq<Sys>, steps: seq<Step>, n: nat)
    requires IsRun(payload, run, steps) && n <= |steps|
    ensures Booked(run[n].cache)
  {
    if n > 0 {
      RunBooked(payload, run, steps, n - 1);
      assert StepAt(payload, run, steps, n - 1);
      StepLeaks(payload, run[n - 1], run[n], steps[n - 1]);
    }
  }

  lemma RunLeaks(payload: string -> seq<byte>, run: seq<Sys>, steps: seq<Step>, n: nat)
    requires IsRun(payload, run, steps) && n < |steps|
    ensures Leak(run[n + 1].cache) == Leak(run[n].cache) + LeakedBy(run[n], steps[n])
    ensures LeakedBy(run[n], steps[n]) == 0 <==> !LeaksAt(run[n], steps[n])
    ensures Leak(run[n].cache) >= 0
  {
    RunBooked(payload, run, steps, n);
    assert StepAt(payload, run, steps, n);
    StepLeaks(payload, run[n], run[n + 1], steps[n]);
  }

  /** After every eviction of every run the tracked bytes are within the limit. */
  lemma EvictionBoundsTracked(payload: string -> seq<byte>, run: seq<Sys>, steps: seq<Step>, n: nat)
    requires IsRun(payload, run, steps) && n < |steps| && steps[n].Evict?
    ensures var c := run[n + 1].cache; Total(c.lru, c.entries) <= c.maxBytes
  {
    RunBooked(payload, run, steps, n);
    EvictedKeeps(run[n].cache);
    EvictedMaxBytes(run[n].cache);
    assert StepAt(payload, run, steps, n);
  }

  lemma {:induction false} EvictedMaxBytes(c: State)
    ensures Evicted(c).maxBytes == c.maxBytes && Evicted(c).dir == c.dir
    decreases |c.lru|
  {
    if c.curBytes > c.maxBytes && c.lru != [] {
      EvictedMaxBytes(EvictOne(c));
    }
  }

  // ---------------------------------------------------------------------
  // Exactly when the count is exact
  // ---------------------------------------------------------------------

  function LeakedBefore(run: seq<Sys>, steps: seq<Step>, n: nat): nat
    requires n <= |steps| && |run| == |steps| + 1
  {
    if n == 0 then 0 else LeakedBefore(run, steps, n - 1) + LeakedBy(run[n - 1], steps[n - 1])
  }

  /** What is counted for no entry is exactly what the steps so far have leaked. */
  lemma {:induction false} LeakIsTheSum(payload: string -> seq<byte>, run: seq<Sys>, steps: seq<Step>, n: nat)
    requires IsRun(payload, run, steps) && n <= |steps|
    ensures Leak(run[n].cache) == LeakedBefore(run, steps, n)
  {
    if n > 0 {
      LeakIsTheSum(payload, run, steps, n - 1);
      RunLeaks(payload, run, steps, n - 1);
    }
  }

  /** None of the first `n` steps leaks. */
  ghost predicate Leakless(run: seq<Sys>, steps: seq<Step>, n: nat)
    requires n <= |steps| && |run| == |steps| + 1
  {
    forall i {:trigger LeaksAt(run[i], steps[i])} :: 0 <= i < n ==> !LeaksAt(run[i], steps[i])
  }

  lemma {:induction false} SumIsLeakless(run: seq<Sys>, steps: seq<Step>, n: nat)
    requires n <= |steps| && |run| == |steps| + 1
    requires forall i :: 0 <= i < n ==> (LeakedBy(run[i], steps[i]) == 0 <==> !LeaksAt(run[i], steps[i]))
    ensures LeakedBefore(run, steps, n) == 0 <==> Leakless(run, steps, n)
  {
    if n > 0 {
      SumIsLeakless(run, steps, n - 1);
    }
  }

  /** The count is the sum of the entry sizes exactly when no step so far has leaked. */
  lemma ExactUnlessLeaked(payload: string -> seq<byte>, run: seq<Sys>, steps: seq<Step>, n: nat)
    requires IsRun(payload, run, steps) && n <= |steps|
    ensures Leak(run[n].cache) == 0 <==> Leakless(run, steps, n)
  {
    LeakIsTheSum(payload, run, steps, n);
    forall i | 0 <= i < n ensures LeakedBy(run[i], steps[i]) == 0 <==> !LeaksAt(run[i], steps[i]) {
      RunLeaks(payload, run, steps, i);
    }
    SumIsLeakless(run, steps, n);
  }

  /** Along a run no leaked byte is recovered, and a key from which a fetch was taken stays marked. */
  lemma {:induction false} LeakNeverShrinks(payload: string -> seq<byte>, run: seq<Sys>, steps: seq<Step>,
                                            i: nat, j: nat)
    requires IsRun(payload, run, steps) && i <= j <= |steps|
    ensures run[i].orphaned <= run[j].orphaned
    ensures run[j].cache.maxBytes == run[i].cache.maxBytes
    ensures Leak(run[i].cache) <= Leak(run[j].cache)
    decreases j - i
  {
    if i < j {
      LeakNeverShrinks(payload, run, steps, i, j - 1);
      RunBooked(payload, run, steps, j - 1);
      assert StepAt(payload, run, steps, j - 1);
      StepLeaks(payload, run[j - 1], run[j], steps[j - 1]);
      EvictedMaxBytes(run[j - 1].cache);
    }
  }

  /** Two fetches of one key that both succeed are both counted. */
  lemma SecondFetchLeaks(s: Sys, mid: Sys, s': Sys, p: nat, q: nat)
    requires Booked(s.cache) && FinishStep(s, mid, p) && FinishStep(mid, s', q) && p != q
    requires s.procs[p].key in s.cache.entries && s.procs[p].ok
    requires q in s.procs && s.procs[q] == AtFinish(s.procs[p].key, s.procs[q].size, true)
    ensures Leak(s'.cache) == Leak(s.cache) + SizeOf(s.cache.entries, s.procs[p].key) + s.procs[p].size
  {
    var key, dir := s.procs[p].key, s.cache.dir;
    PathsDiffer(dir, key, key);
    FinishedKeeps(s.cache, key, FinalPath(dir, key), s.procs[p].size, true);
    FinishedKeeps(mid.cache, key, FinalPath(dir, key), s.procs[q].size, true);
  }

  /** Once more bytes are leaked than the limit allows, every later eviction empties the cache. */
  lemma OverLeakedStaysEmpty(payload: string -> seq<byte>, run: seq<Sys>, steps: seq<Step>, i: nat, j: nat)
    requires IsRun(payload, run, steps) && i <= j < |steps| && steps[j].Evict?
    requires Leak(run[i].cache) > run[i].cache.maxBytes
    ensures run[j + 1].cache.entries == map[] && run[j + 1].cache.lru == []
  {
    LeakNeverShrinks(payload, run, steps, i, j);
    RunBooked(payload, run, steps, j);
    LeakEmptiesCache(run[j].cache);
    assert StepAt(payload, run, steps, j);
  }

  /** A caller that finds the file of a hit gone drops the entry it looked at, and no entry that has replaced it. */
  lemma ReplacedEntryStays(s: Sys, s': Sys, pid: nat, k: string)
    requires RecheckStep(s, s', pid) && k in s.cache.entries
    ensures var pc, e := s.procs[pid], s.cache.entries[k];
      && (k !in s'.cache.entries <==>
            k == pc.key && !e.fetching && !e.failed && e.path == pc.path && e.size == pc.size)
      && (k in s'.cache.entries ==> s'.cache.entries[k] == e)
  {
  }

  // A run whose accounting ends up wrong for good

  lemma Extend(payload: string -> seq<byte>, run: seq<Sys>, steps: seq<Step>, s: Sys, s': Sys, step: Step)
    returns (run': seq<Sys>, steps': seq<Step>)
    requires IsRun(payload, run, steps) && run[|run| - 1] == s && NextBy(payload, s, s', step)
    ensures IsRun(payload, run', steps') && run' == run + [s'] && steps' == steps + [step]
  {
    run', steps' := run + [s'], steps + [step];
    forall i | 0 <= i < |steps'| ensures StepAt(payload, run', steps', i) {
      assert i < |steps| ==> StepAt(payload, run, steps, i);
    }
  }

  /** A fetch that opens its temporary file. */
  lemma CreateAlone(payload: string -> seq<byte>, run: seq<Sys>, steps: seq<Step>, s: Sys, pid: nat, key: string)
    returns (run': seq<Sys>, steps': seq<Step>, s': Sys)
    requires IsRun(payload, run, steps) && run[|run| - 1] == s && pid in s.procs && s.procs[pid] == AtOpen(key)
    ensures IsRun(payload, run', steps') && run'[|run'| - 1] == s'
    ensures var tmp := TmpPath(s.cache.dir, key);
      s' == Go(s, pid, AtWrite(key, s.files.next, 0)).(
              cache := s.cache.(disk := s.cache.disk[tmp := []]), files := NewFile(s.files, tmp, {}))
  {
    var tmp := TmpPath(s.cache.dir, key);
    var s1 := Go(s, pid, AtCreate(key)).(cache := s.cache.(disk := s.cache.disk - {tmp}));
    run', steps' := Extend(payload, run, steps, s, s1, Remove(pid));
    s' := Go(s1, pid, AtWrite(key, s.files.next, 0)).(
      cache := s1.cache.(disk := s1.cache.disk[tmp := []]), files := NewFile(s1.files, tmp, {}));
    run', steps' := Extend(payload, run', steps', s1, s', Create(pid));
    assert s'.cache.disk == s.cache.disk[tmp := []];
    assert s'.procs == s.procs[pid := AtWrite(key, s.files.next, 0)];
  }

  /** It writes everything at once. */
  lemma WriteAlone(payload: string -> seq<byte>, run: seq<Sys>, steps: seq<Step>, s: Sys, pid: nat, key: string, i: nat)
    returns (run': seq<Sys>, steps': seq<Step>, s': Sys)
    requires IsRun(payload, run, steps) && run[|run| - 1] == s && pid in s.procs && s.procs[pid] == AtWrite(key, i, 0)
    requires InodeAt(s.cache.disk, s.files, TmpPath(s.cache.dir, key)) == Some(i)
    requires s.cache.disk[TmpPath(s.cache.dir, key)] == [] && payload(key) != []
    ensures IsRun(payload, run', steps') && run'[|run'| - 1] == s'
    ensures s' == Go(s, pid, AtWrite(key, i, |payload(key)|)).(cache := s'.cache, files := s'.files)
    ensures s'.cache == s.cache.(disk := s.cache.disk[TmpPath(s.cache.dir, key) := payload(key)])
    ensures s'.files == s.files.(written := s'.files.written)
  {
    var data := payload(key);
    assert data[0..|data|] == data;
    assert Overwritten([], 0, data) == data;
    s' := Go(s, pid, AtWrite(key, i, |data|)).(
      cache := s.cache.(disk := s.cache.disk[TmpPath(s.cache.dir, key) := data]),
      files := s.files.(written := s.files.written[i := WrittenTo(s.files, i) + Span(0, |data|)]));
    run', steps' := Extend(payload, run, steps, s, s', Write(pid, |data|));
  }

  /** Then it moves whatever is at the temporary path into place. */
  lemma PlaceAlone(payload: string -> seq<byte>, run: seq<Sys>, steps: seq<Step>, s: Sys, pid: nat, key: string, i: nat)
    returns (run': seq<Sys>, steps': seq<Step>, s': Sys)
    requires IsRun(payload, run, steps) && run[|run| - 1] == s && pid in s.procs
    requires s.procs[pid] == AtWrite(key, i, |payload(key)|)
    requires InodeAt(s.cache.disk, s.files, TmpPath(s.cache.dir, key)).Some?
    ensures IsRun(payload, run', steps') && run'[|run'| - 1] == s'
    ensures var data := s.cache.disk[TmpPath(s.cache.dir, key)];
      && s' == Go(s, pid, AtFinish(key, |data|, true)).(cache := s'.cache, files := s'.files)
      && s'.cache == s.cache.(disk := s'.cache.disk)
      && FinalPath(s.cache.dir, key) in s'.cache.disk && s'.cache.disk[FinalPath(s.cache.dir, key)] == data
  {
    var tmp, final := TmpPath(s.cache.dir, key), FinalPath(s.cache.dir, key);
    var s1 := Go(s, pid, AtRename(key, |s.cache.disk[tmp]|));
    run', steps' := Extend(payload, run, steps, s, s1, Size(pid));
    s' := Go(s1, pid, AtFinish(key, |s.cache.disk[tmp]|, true)).(
      cache := s1.cache.(disk := (s1.cache.disk - {tmp})[final := s1.cache.disk[tmp]]),
      files := s1.files.(inode := s1.files.inode[final := s1.files.inode[tmp]]));
    run', steps' := Extend(payload, run', steps', s1, s', Rename(pid));
    assert s'.procs == s.procs[pid := AtFinish(key, |s.cache.disk[tmp]|, true)];
  }

  /** What a fetch does with its files from its start to the report of its end, when nothing disturbs it. */
  lemma FetchAlone(payload: string -> seq<byte>, run: seq<Sys>, steps: seq<Step>, s: Sys, pid: nat, key: string)
    returns (run': seq<Sys>, steps': seq<Step>, s': Sys)
    requires IsRun(payload, run, steps) && run[|run| - 1] == s && pid in s.procs && s.procs[pid] == AtOpen(key)
    requires payload(key) != []
    ensures IsRun(payload, run', steps') && run'[|run'| - 1] == s'
    ensures s' == Go(s, pid, AtFinish(key, |payload(key)|, true)).(cache := s'.cache, files := s'.files)
    ensures s'.cache == s.cache.(disk := s'.cache.disk)
  {
    run', steps', s' := CreateAlone(payload, run, steps, s, pid, key);
    run', steps', s' := WriteAlone(payload, run', steps', s', pid, key, s.files.next);
    run', steps', s' := PlaceAlone(payload, run', steps', s', pid, key, s.files.next);
    assert s'.procs == s.procs[pid := AtFinish(key, |payload(key)|, true)];
  }

  lemma BeginAlone(payload: string -> seq<byte>, run: seq<Sys>, steps: seq<Step>, s: Sys, pid: nat, key: string)
    returns (run': seq<Sys>, steps': seq<Step>, s': Sys)
    requires IsRun(payload, run, steps) && run[|run| - 1] == s
    requires pid !in s.procs && key != "" && key !in s.cache.entries
    ensures IsRun(payload, run', steps') && run'[|run'| - 1] == s'
    ensures s' == Go(s, pid, AtOpen(key)).(cache := Begun(s.cache, key), fetcher := s.fetcher[key := pid])
  {
    var s1 := Go(s, pid, AtLook(key));
    run', steps' := Extend(payload, run, steps, s, s1, Call(pid, key));
    s' := Go(s1, pid, AtOpen(key)).(cache := Begun(s1.cache, key), fetcher := s1.fetcher[key := pid]);
    run', steps' := Extend(payload, run', steps', s1, s', Look(pid));
    assert s'.procs == s.procs[pid := AtOpen(key)];
  }

  lemma FinishAlone(payload: string -> seq<byte>, run: seq<Sys>, steps: seq<Step>, s: Sys, pid: nat)
    returns (run': seq<Sys>, steps': seq<Step>, s': Sys)
    requires IsRun(payload, run, steps) && run[|run| - 1] == s
    requires pid in s.procs && s.procs[pid].AtFinish? && s.procs[pid].ok && s.procs[pid].key in s.cache.entries
    ensures IsRun(payload, run', steps') && run'[|run'| - 1] == s'
    ensures s'.procs == s.procs[pid := AtEvict]
    ensures var pc := s.procs[pid];
      var e := Entry(FinalPath(s.cache.dir, pc.key), pc.size, false, false, {});
      s'.cache == s.cache.(entries := s.cache.entries[pc.key := e], curBytes := s.cache.curBytes + pc.size)
  {
    var pc := s.procs[pid];
    s' := Go(s, pid, AtEvict).(
      cache := Finished(s.cache, pc.key, FinalPath(s.cache.dir, pc.key), pc.size, true),
      closed := s.closed + WaitersOf(s.cache, pc.key),
      fetcher := s.fetcher - {pc.key});
    run', steps' := Extend(payload, run, steps, s, s', Finish(pid));
  }

  /** `a` is being fetched while `b`, too large for the limit, arrives: eviction drops both. */
  lemma EvictsBoth(c: State, size: nat, waiters: set<nat>)
    requires c.lru == ["b", "a"] && c.curBytes == size > c.maxBytes
    requires c.entries == map["a" := Entry("", 0, true, false, waiters),
                              "b" := Entry(FinalPath(c.dir, "b"), size, false, false, {})]
    ensures Evicted(c).lru == [] && Evicted(c).entries == map[] && Evicted(c).curBytes == 0
    ensures Evicted(c).dir == c.dir && Evicted(c).maxBytes == c.maxBytes
  {
    var c1 := EvictOne(c);
    assert c1.lru == ["b"] && c1.entries == map["b" := Entry(FinalPath(c.dir, "b"), size, false, false, {})];
    PathsDiffer(c.dir, "b", "b");
    var c2 := EvictOne(c1);
    assert c2.lru == [] && c2.entries == map[];
    assert Evicted(c) == Evicted(c1) == Evicted(c2) == c2;
  }

  function TwoBytes(key: string): seq<byte> {
    [0, 0]
  }

  /** Process 0 fetches `a`, and an eviction has taken its entry away. */
  ghost predicate LostFetch(run: seq<Sys>, steps: seq<Step>, s: Sys) {
    && IsRun(TwoBytes, run, steps) && run[|run| - 1] == s
    && s.cache.lru == [] && s.cache.entries == map[] && s.cache.curBytes == 0 && s.cache.maxBytes == 1
    && s.cache.dir == "d"
    && s.procs == map[0 := AtOpen("a"), 1 := AtDone]
  }

  /** Processes 0 and 1 have begun to fetch `a` and `b` into an empty cache. */
  lemma TwoBegun() returns (run: seq<Sys>, steps: seq<Step>, s: Sys)
    ensures IsRun(TwoBytes, run, steps) && run[|run| - 1] == s
    ensures s.procs == map[0 := AtOpen("a"), 1 := AtOpen("b")]
    ensures s.cache == State("d", 1, 0, ["b", "a"], map["a" := Entry("", 0, true, false, {}),
                                                         "b" := Entry("", 0, true, false, {})], map[])
  {
    s := Sys(State("d", 1, 0, [], map[], map[]), Files(map[], 0, map[]), map[], {}, 0, map[], map[], {});
    run, steps := [s], [];
    run, steps, s := BeginAlone(TwoBytes, run, steps, s, 0, "a");
    run, steps, s := BeginAlone(TwoBytes, run, steps, s, 1, "b");
    assert s.cache.lru == ["b", "a"];
  }

  /** Process 0 fetches `a`, and process 1 has fetched `b` and is about to evict. */
  lemma TwoFetched() returns (run: seq<Sys>, steps: seq<Step>, s: Sys)
    ensures IsRun(TwoBytes, run, steps) && run[|run| - 1] == s
    ensures s.procs == map[0 := AtOpen("a"), 1 := AtEvict] && s.cache.dir == "d"
    ensures s.cache.lru == ["b", "a"] && s.cache.curBytes == 2 && s.cache.maxBytes == 1
    ensures s.cache.entries == map["a" := Entry("", 0, true, false, {}),
                                   "b" := Entry(FinalPath(s.cache.dir, "b"), 2, false, false, {})]
  {
    run, steps, s := TwoBegun();
    run, steps, s := FetchAlone(TwoBytes, run, steps, s, 1, "b");
    run, steps, s := FinishAlone(TwoBytes, run, steps, s, 1);
  }

  lemma FetchIsLost() returns (run: seq<Sys>, steps: seq<Step>, s: Sys)
    ensures LostFetch(run, steps, s)
  {
    run, steps, s := TwoFetched();
    EvictsBoth(s.cache, 2, {});
    var lost := Go(s, 1, AtDone).(
      cache := Evicted(s.cache),
      fetcher := s.fetcher - LostByEviction(s.cache),
      orphaned := s.orphaned + LostByEviction(s.cache));
    run, steps := Extend(TwoBytes, run, steps, s, lost, Step.Evict(1));
    s := lost;
  }

  lemma CountedTwice(run: seq<Sys>, steps: seq<Step>, s: Sys) returns (run': seq<Sys>, steps': seq<Step>, s': Sys)
    requires LostFetch(run, steps, s)
    ensures IsRun(TwoBytes, run', steps') && run'[|run'| - 1] == s'
    ensures s'.cache.maxBytes == 1 && s'.cache.curBytes == 4
    ensures s'.cache.lru == ["a"] && SizeOf(s'.cache.entries, "a") == 2
  {
    run', steps', s' := BeginAlone(TwoBytes, run, steps, s, 2, "a");
    assert s'.cache.lru == ["a"];
    run', steps', s' := FetchAlone(TwoBytes, run', steps', s', 0, "a");
    run', steps', s' := FinishAlone(TwoBytes, run', steps', s', 0);
    run', steps', s' := FetchAlone(TwoBytes, run', steps', s', 2, "a");
    run', steps', s' := FinishAlone(TwoBytes, run', steps', s', 2);
  }

  /** A run of three fetches that ends with more bytes leaked than the limit allows. */
  lemma LeakIsReachable()
    ensures exists payload: string -> seq<byte>, run: seq<Sys>, steps: seq<Step> ::
              IsRun(payload, run, steps) && Leak(run[|steps|].cache) > run[|steps|].cache.maxBytes
  {
    var run, steps, s := FetchIsLost();
    run, steps, s := CountedTwice(run, steps, s);
    assert Total(["a"], s.cache.entries) == 2;
    assert run[|steps|] == s && IsRun(TwoBytes, run, steps);
  }
}
