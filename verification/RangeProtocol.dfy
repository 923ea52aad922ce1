/**
  The same chunk cache under every interleaving of readers, background
  prefetches, failed fetches, cancelled waits and the closing of the file.

  A process runs one `Read` or one background goroutine; every critical section
  of the source is one step. `owner` and `wins` are history: which process
  fetches a start, and how many windows arrived for a start since its entry
  was last removed. Nothing in a step depends on them.
 */
module RangeProtocol {
  import opened Common
  import opened ChunkCache

  datatype Job =
    | ReadJob(off: nat, len: nat, pos: nat, got: seq<byte>)
    | PrefetchJob(targets: seq<Target>)
  {
    function End(size: int): int {
      if ReadJob? then Min(off + len, size) else 0
    }
  }

  datatype Pc =
    | AtPlan
    | AtPick
    | AtEnsure(start: nat, needEnd: int)
    | AtWait(start: nat, needEnd: int, channel: nat)
    | AtFetch(start: nat, length: nat)
    | AtCopy
    | AtDone(ok: bool)

  datatype Proc = Proc(job: Job, pc: Pc)

  datatype State = State(
    chunks: ChunkMap,
    useSeq: nat,
    registered: map<nat, nat>,
    closed: set<nat>,
    nextChannel: nat,
    procs: map<nat, Proc>,
    firstRead: bool,
    released: bool,
    owner: map<nat, nat>,
    wins: map<nat, nat>)

  ghost predicate Init(s: State) {
    && s.chunks == map[] && s.useSeq == 0 && s.registered == map[] && s.closed == {} && s.nextChannel == 0
    && s.procs == map[] && !s.firstRead && !s.released && s.owner == map[] && s.wins == map[]
  }

  // ---------------------------------------------------------------------
  // Steps
  // ---------------------------------------------------------------------

  /** Where a process goes once its chunk is there. */
  function Onward(job: Job): Pc {
    if job.ReadJob? then AtCopy else AtPick
  }

  /** Where a process goes once its request failed. */
  function Failed(job: Job): Pc {
    if job.ReadJob? then AtDone(false) else AtPick
  }

  function Go(s: State, pid: nat, pc: Pc): map<nat, Proc>
    requires pid in s.procs
  {
    s.procs[pid := s.procs[pid].(pc := pc)]
  }

  function Spawn(procs: map<nat, Proc>, pid: nat, targets: seq<Target>): map<nat, Proc> {
    if targets == [] then procs else procs[pid := Proc(PrefetchJob(targets), AtPick)]
  }

  /** The channels of the processes that wait for the entry at `start`. */
  function Waiters(registered: map<nat, nat>, start: nat): set<nat> {
    set c | c in registered && registered[c] == start
  }

  function Without(registered: map<nat, nat>, start: nat): map<nat, nat> {
    map c | c in registered && registered[c] != start :: registered[c]
  }

  function TailTargets(s: State, off: nat, size: int): seq<Target> {
    if !s.firstRead && off == 0 && size > 2 * CHUNK_SIZE then [Target(TailProbeStart(size), size)] else []
  }

  ghost predicate StartRead(size: int, s: State, s': State, pid: nat, child: nat, off: nat, len: nat) {
    && pid !in s.procs && child !in s.procs && child != pid
    && len > 0 && off < size
    && s' == s.(firstRead := true,
                procs := Spawn(s.procs[pid := Proc(ReadJob(off, len, off, []), AtPlan)], child,
                               TailTargets(s, off, size)))
  }

  ghost predicate PlanStep(size: int, s: State, s': State, pid: nat) {
    && pid in s.procs && s.procs[pid].pc.AtPlan? && s.procs[pid].job.ReadJob?
    && var job := s.procs[pid].job;
       var hit := HitOf(s.chunks, job.pos);
       && (hit.Some? ==> hit.value in s.chunks)
       && var plan := PlanFetch(s.chunks, size, job.pos, job.End(size), hit);
       && 0 <= plan.0
       && s' == s.(procs := Go(s, pid, AtEnsure(plan.0, plan.1)))
  }

  ghost predicate PickStep(s: State, s': State, pid: nat) {
    && pid in s.procs && s.procs[pid].pc.AtPick? && s.procs[pid].job.PrefetchJob?
    && var targets := s.procs[pid].job.targets;
       if targets == [] then
         s' == s.(procs := Go(s, pid, AtDone(true)))
       else
         var t := targets[0];
         var skip := t.start in s.chunks && (s.chunks[t.start].fetching || s.chunks[t.start].End() >= t.needEnd);
         var pc := if skip then AtPick else AtEnsure(t.start, t.needEnd);
         s' == s.(procs := s.procs[pid := Proc(PrefetchJob(targets[1..]), pc)])
  }

  ghost predicate EnsureWait(s: State, s': State, pid: nat) {
    && pid in s.procs && s.procs[pid].pc.AtEnsure?
    && var start := s.procs[pid].pc.start;
       && start in s.chunks && s.chunks[start].fetching
       && s' == s.(nextChannel := s.nextChannel + 1,
                   registered := s.registered[s.nextChannel := start],
                   procs := Go(s, pid, AtWait(start, s.procs[pid].pc.needEnd, s.nextChannel)))
  }

  ghost predicate EnsureHit(s: State, s': State, pid: nat) {
    && pid in s.procs && s.procs[pid].pc.AtEnsure?
    && var start := s.procs[pid].pc.start;
       && start in s.chunks && !s.chunks[start].fetching && s.chunks[start].End() >= s.procs[pid].pc.needEnd
       && s' == s.(useSeq := s.useSeq + 1,
                   chunks := Touched(s.chunks, start, s.useSeq + 1),
                   procs := Go(s, pid, Onward(s.procs[pid].job)))
  }

  ghost predicate EnsureFetch(size: int, s: State, s': State, pid: nat) {
    && pid in s.procs && s.procs[pid].pc.AtEnsure?
    && var start, needEnd := s.procs[pid].pc.start, s.procs[pid].pc.needEnd;
       && (start in s.chunks ==> !s.chunks[start].fetching && s.chunks[start].End() < needEnd)
       && var length := EnsuredLength(s.chunks, size, start, needEnd);
       && 0 <= length
       && s' == s.(useSeq := s.useSeq + 1,
                   chunks := s.chunks[start := Placeholder(start, size, s.useSeq + 1)],
                   registered := Without(s.registered, start),
                   owner := s.owner[start := pid],
                   wins := if start in s.wins then s.wins else s.wins[start := 0],
                   procs := Go(s, pid, AtFetch(start, length)))
  }

  ghost predicate WakeStep(s: State, s': State, pid: nat) {
    && pid in s.procs && s.procs[pid].pc.AtWait? && s.procs[pid].pc.channel in s.closed
    && s' == s.(procs := Go(s, pid, AtEnsure(s.procs[pid].pc.start, s.procs[pid].pc.needEnd)))
  }

  ghost predicate CancelStep(s: State, s': State, pid: nat) {
    && pid in s.procs && s.procs[pid].pc.AtWait?
    && s' == s.(procs := Go(s, pid, Failed(s.procs[pid].job)))
  }

  /** The window for `start` arrived: fill the entry, evict, close its waiters' channels. */
  ghost predicate Arrived(payload: seq<byte>, s: State, s': State, start: nat, length: nat)
    requires start + length <= |payload| && start in s.chunks
  {
    && s'.useSeq == s.useSeq + 1
    && EvictedTo(s.chunks[start := Filled(s.chunks[start], payload[start..start + length], s'.useSeq)], s'.chunks)
    && s'.closed == s.closed + Waiters(s.registered, start)
    && s'.registered == Without(s.registered, start)
    && s'.owner == s.owner - {start}
    && s'.wins == map k | k in s'.chunks && k in s.wins :: if k == start then s.wins[k] + 1 else s.wins[k]
  }

  /** A fetch that outlived a `Release` may find no entry, and then changes nothing. */
  ghost predicate FinishOk(payload: seq<byte>, s: State, s': State, pid: nat, child: nat) {
    && pid in s.procs && s.procs[pid].pc.AtFetch? && child !in s.procs
    && var start, length := s.procs[pid].pc.start, s.procs[pid].pc.length;
       var job := s.procs[pid].job;
       var procs := Spawn(Go(s, pid, Onward(job)), child,
                          if job.ReadJob? then Lookahead(start, length, |payload|) else []);
       && start + length <= |payload|
       && (start in s.chunks ==> Arrived(payload, s, s', start, length))
       && s' == if start in s.chunks then
                  State(s'.chunks, s'.useSeq, s'.registered, s'.closed, s.nextChannel, procs,
                        s.firstRead, s.released, s'.owner, s'.wins)
                else
                  s.(procs := procs)
  }

  ghost predicate FinishErr(s: State, s': State, pid: nat) {
    && pid in s.procs && s.procs[pid].pc.AtFetch?
    && var start := s.procs[pid].pc.start;
       var procs := Go(s, pid, Failed(s.procs[pid].job));
       if start in s.chunks then
         s' == s.(chunks := s.chunks - {start},
                  closed := s.closed + Waiters(s.registered, start),
                  registered := Without(s.registered, start),
                  owner := s.owner - {start},
                  wins := s.wins - {start},
                  procs := procs)
       else
         s' == s.(procs := procs)
  }

  ghost predicate CopyStep(size: int, s: State, s': State, pid: nat) {
    && pid in s.procs && s.procs[pid].pc.AtCopy? && s.procs[pid].job.ReadJob?
    && CopyFrom(size, s, s', pid, HitOf(s.chunks, s.procs[pid].job.pos))
  }

  ghost predicate CopyFrom(size: int, s: State, s': State, pid: nat, hit: Option<nat>)
    requires pid in s.procs && s.procs[pid].job.ReadJob?
  {
    var job := s.procs[pid].job;
    if hit.None? then
      s' == s.(procs := Go(s, pid, AtPlan))
    else
      && hit.value in s.chunks && s.chunks[hit.value].Covers(job.pos)
      && var ch := s.chunks[hit.value];
         var next := Min(ch.End(), job.End(size));
         && job.pos <= next
         && s' == s.(useSeq := s.useSeq + 1,
                     chunks := Touched(s.chunks, hit.value, s.useSeq + 1),
                     procs := s.procs[pid := Proc(
                         job.(pos := next, got := job.got + ch.data[job.pos - ch.start..next - ch.start]),
                         if next < job.End(size) then AtPlan else AtDone(true))])
  }

  /** Closing the file forgets every chunk, and every waiter with it. */
  ghost predicate ReleaseStep(s: State, s': State) {
    s' == s.(chunks := map[], useSeq := 0, registered := map[], owner := map[], wins := map[], released := true)
  }

  /** Steps that change neither what is in flight nor who waits for it. */
  datatype LocalStep =
    | DoStartRead(pid: nat, child: nat, off: nat, len: nat)
    | DoPlan(pid: nat)
    | DoPick(pid: nat)
    | DoHit(pid: nat)
    | DoWake(pid: nat)
    | DoCancel(pid: nat)
    | DoCopy(pid: nat)

  datatype FlightStep =
    | DoWait(pid: nat)
    | DoFetch(pid: nat)
    | DoFinishOk(pid: nat, child: nat)
    | DoFinishErr(pid: nat)

  datatype Step = Local(local: LocalStep) | Flight(flight: FlightStep) | DoRelease

  ghost predicate NextLocal(payload: seq<byte>, s: State, s': State, step: LocalStep) {
    match step
    case DoStartRead(pid, child, off, len) => StartRead(|payload|, s, s', pid, child, off, len)
    case DoPlan(pid) => PlanStep(|payload|, s, s', pid)
    case DoPick(pid) => PickStep(s, s', pid)
    case DoHit(pid) => EnsureHit(s, s', pid)
    case DoWake(pid) => WakeStep(s, s', pid)
    case DoCancel(pid) => CancelStep(s, s', pid)
    case DoCopy(pid) => CopyStep(|payload|, s, s', pid)
  }

  ghost predicate NextFlight(payload: seq<byte>, s: State, s': State, step: FlightStep) {
    match step
    case DoWait(pid) => EnsureWait(s, s', pid)
    case DoFetch(pid) => EnsureFetch(|payload|, s, s', pid)
    case DoFinishOk(pid, child) => FinishOk(payload, s, s', pid, child)
    case DoFinishErr(pid) => FinishErr(s, s', pid)
  }

  ghost predicate NextBy(payload: seq<byte>, s: State, s': State, step: Step) {
    match step
    case Local(local) => NextLocal(payload, s, s', local)
    case Flight(flight) => NextFlight(payload, s, s', flight)
    case DoRelease => ReleaseStep(s, s')
  }

  ghost predicate Next(payload: seq<byte>, s: State, s': State) {
    exists step :: NextBy(payload, s, s', step)
  }

  ghost predicate IsRun(payload: seq<byte>, run: seq<State>) {
    && |run| > 0
    && Init(run[0])
    && forall i {:trigger StepAt(payload, run, i)} :: 0 <= i < |run| - 1 ==> StepAt(payload, run, i)
  }

  ghost predicate StepAt(payload: seq<byte>, run: seq<State>, i: nat)
    requires i + 1 < |run|
  {
    Next(payload, run[i], run[i + 1])
  }

  // ---------------------------------------------------------------------
  // What holds in every reachable state, before and after Release
  // ---------------------------------------------------------------------

  ghost predicate ValidJob(payload: seq<byte>, job: Job) {
    match job
    case ReadJob(off, len, pos, got) =>
      && len > 0 && off < |payload|
      && off <= pos <= Min(off + len, |payload|)
      && got == payload[off..pos]
    case PrefetchJob(targets) => ValidTargets(targets, |payload|)
  }

  predicate Unfinished(job: Job, size: int) {
    job.ReadJob? ==> job.pos < job.End(size)
  }

  ghost predicate ValidPc(job: Job, pc: Pc, size: int) {
    match pc
    case AtPlan => job.ReadJob? && Unfinished(job, size)
    case AtPick => job.PrefetchJob?
    case AtEnsure(start, needEnd) => ValidTarget(start, needEnd, size) && Unfinished(job, size)
    case AtWait(start, needEnd, _) => ValidTarget(start, needEnd, size) && Unfinished(job, size)
    case AtFetch(start, length) => ValidStart(start, size) && ValidLength(start, length, size) && Unfinished(job, size)
    case AtCopy => job.ReadJob? && Unfinished(job, size)
    case AtDone(ok) => ok && job.ReadJob? ==> job.pos == job.End(size)
  }

  ghost predicate ValidProc(payload: seq<byte>, p: Proc) {
    ValidJob(payload, p.job) && ValidPc(p.job, p.pc, |payload|)
  }

  ghost predicate ValidProcs(payload: seq<byte>, procs: map<nat, Proc>) {
    forall pid {:trigger ValidProc(payload, procs[pid])} :: pid in procs ==> ValidProc(payload, procs[pid])
  }

  ghost predicate Inv(payload: seq<byte>, s: State) {
    && CacheInv(payload, s.chunks, s.useSeq)
    && ValidProcs(payload, s.procs)
    && s.wins.Keys == s.chunks.Keys
  }

  lemma InitInv(payload: seq<byte>, s: State)
    requires Init(s)
    ensures Inv(payload, s)
  {
    EmptyQuiet(payload);
    QuietIsInv(payload, s.chunks, s.useSeq);
  }

  lemma ProcUpdate(payload: seq<byte>, procs: map<nat, Proc>, pid: nat, p: Proc)
    requires ValidProcs(payload, procs) && ValidProc(payload, p)
    ensures ValidProcs(payload, procs[pid := p])
  {
  }

  lemma SpawnValid(payload: seq<byte>, procs: map<nat, Proc>, pid: nat, targets: seq<Target>)
    requires ValidProcs(payload, procs) && ValidTargets(targets, |payload|)
    ensures ValidProcs(payload, Spawn(procs, pid, targets))
  {
  }

  lemma TouchedInv(payload: seq<byte>, m: ChunkMap, useSeq: nat, k: nat)
    requires CacheInv(payload, m, useSeq) && k in m
    ensures CacheInv(payload, Touched(m, k, useSeq + 1), useSeq + 1)
    ensures Touched(m, k, useSeq + 1).Keys == m.Keys
  {
    var m' := Touched(m, k, useSeq + 1);
    assert ValidChunk(payload, k, m[k]);
    UpdateValid(payload, m, useSeq, k, m'[k]);
    assert Resident(m') == Resident(m);
  }

  lemma PlanInv(payload: seq<byte>, s: State, s': State, pid: nat)
    requires Inv(payload, s) && PlanStep(|payload|, s, s', pid)
    ensures Inv(payload, s')
  {
    var job := s.procs[pid].job;
    assert ValidProc(payload, s.procs[pid]);
    PlanIsValid(payload, s.chunks, s.useSeq, job.pos, job.End(|payload|));
    ProcUpdate(payload, s.procs, pid, s'.procs[pid]);
  }

  lemma PickInv(payload: seq<byte>, s: State, s': State, pid: nat)
    requires Inv(payload, s) && PickStep(s, s', pid)
    ensures Inv(payload, s')
  {
    assert ValidProc(payload, s.procs[pid]);
    var targets := s.procs[pid].job.targets;
    if targets != [] {
      assert ValidTarget(targets[0].start, targets[0].needEnd, |payload|);
      assert ValidTargets(targets[1..], |payload|);
    }
    ProcUpdate(payload, s.procs, pid, s'.procs[pid]);
  }

  lemma EnsureFetchInv(payload: seq<byte>, s: State, s': State, pid: nat)
    requires Inv(payload, s) && EnsureFetch(|payload|, s, s', pid)
    ensures Inv(payload, s')
  {
    var start, needEnd := s.procs[pid].pc.start, s.procs[pid].pc.needEnd;
    assert ValidProc(payload, s.procs[pid]);
    FetchLengthFits(start, needEnd, |payload|);
    if start in s.chunks {
      assert ValidChunk(payload, start, s.chunks[start]);
      RefetchGrows(payload, s.chunks[start], needEnd);
    }
    UpdateValid(payload, s.chunks, s.useSeq, start, s'.chunks[start]);
    SubsetCard(Resident(s'.chunks), Resident(s.chunks));
    ProcUpdate(payload, s.procs, pid, s'.procs[pid]);
  }

  lemma FinishProcs(payload: seq<byte>, s: State, pid: nat, child: nat)
    requires ValidProcs(payload, s.procs)
    requires pid in s.procs && s.procs[pid].pc.AtFetch?
    ensures var start, length, job := s.procs[pid].pc.start, s.procs[pid].pc.length, s.procs[pid].job;
            ValidProcs(payload, Spawn(Go(s, pid, Onward(job)), child,
                                      if job.ReadJob? then Lookahead(start, length, |payload|) else []))
  {
    var start, length, job := s.procs[pid].pc.start, s.procs[pid].pc.length, s.procs[pid].job;
    assert ValidProc(payload, s.procs[pid]);
    LookaheadValid(start, length, |payload|);
    ProcUpdate(payload, s.procs, pid, s.procs[pid].(pc := Onward(job)));
    SpawnValid(payload, Go(s, pid, Onward(job)), child,
               if job.ReadJob? then Lookahead(start, length, |payload|) else []);
  }

  lemma FinishChunks(payload: seq<byte>, m: ChunkMap, useSeq: nat, start: nat, length: nat, r: ChunkMap)
    requires ValidMap(payload, m, useSeq) && start in m
    requires ValidLength(start, length, |payload|) && start + length <= |payload|
    requires EvictedTo(m[start := Filled(m[start], payload[start..start + length], useSeq + 1)], r)
    ensures CacheInv(payload, r, useSeq + 1)
    ensures r.Keys <= m.Keys
  {
    var filled := Filled(m[start], payload[start..start + length], useSeq + 1);
    assert ValidChunk(payload, start, m[start]);
    UpdateValid(payload, m, useSeq, start, filled);
    EvictBoundsResident(payload, m[start := filled], useSeq + 1, r);
  }

  lemma ArrivedCache(payload: seq<byte>, s: State, s': State, start: nat, length: nat)
    requires ValidMap(payload, s.chunks, s.useSeq) && s.wins.Keys == s.chunks.Keys && start in s.chunks
    requires ValidLength(start, length, |payload|) && start + length <= |payload|
    requires Arrived(payload, s, s', start, length)
    ensures CacheInv(payload, s'.chunks, s'.useSeq) && s'.wins.Keys == s'.chunks.Keys
  {
    FinishChunks(payload, s.chunks, s.useSeq, start, length, s'.chunks);
  }

  lemma FinishOkProcs(payload: seq<byte>, s: State, s': State, pid: nat, child: nat)
    requires ValidProcs(payload, s.procs) && FinishOk(payload, s, s', pid, child)
    ensures ValidProcs(payload, s'.procs)
  {
    FinishProcs(payload, s, pid, child);
  }

  lemma FinishOkInv(payload: seq<byte>, s: State, s': State, pid: nat, child: nat)
    requires Inv(payload, s) && FinishOk(payload, s, s', pid, child)
    ensures Inv(payload, s')
  {
    assert ValidProc(payload, s.procs[pid]);
    if s.procs[pid].pc.start in s.chunks {
      ArrivedCache(payload, s, s', s.procs[pid].pc.start, s.procs[pid].pc.length);
    }
    FinishOkProcs(payload, s, s', pid, child);
  }

  lemma FinishErrInv(payload: seq<byte>, s: State, s': State, pid: nat)
    requires Inv(payload, s) && FinishErr(s, s', pid)
    ensures Inv(payload, s')
  {
    assert ValidProc(payload, s.procs[pid]);
    ProcUpdate(payload, s.procs, pid, s'.procs[pid]);
    SubMapValid(payload, s.chunks, s.useSeq, s'.chunks);
    SubsetCard(Resident(s'.chunks), Resident(s.chunks));
  }

  /** What a reader has after it copied from a chunk that covers its position. */
  lemma CopiedJob(payload: seq<byte>, job: Job, ch: Chunk)
    requires ValidJob(payload, job) && job.ReadJob? && Unfinished(job, |payload|)
    requires ValidChunk(payload, ch.start, ch) && ch.Covers(job.pos)
    ensures var next := Min(ch.End(), job.End(|payload|));
            && job.pos < next
            && ValidJob(payload, job.(pos := next, got := job.got + ch.data[job.pos - ch.start..next - ch.start]))
  {
    var next := Min(ch.End(), job.End(|payload|));
    ChunkSlice(payload, ch, job.pos, next - job.pos);
    assert payload[job.off..job.pos] + payload[job.pos..next] == payload[job.off..next];
  }

  lemma CopyProcs(payload: seq<byte>, s: State, s': State, pid: nat, hit: Option<nat>)
    requires ValidProcs(payload, s.procs)
    requires pid in s.procs && s.procs[pid].pc.AtCopy? && s.procs[pid].job.ReadJob?
    requires CopyFrom(|payload|, s, s', pid, hit)
    requires hit.Some? ==> ValidChunk(payload, hit.value, s.chunks[hit.value])
    ensures ValidProcs(payload, s'.procs)
  {
    assert ValidProc(payload, s.procs[pid]);
    if hit.Some? {
      CopiedJob(payload, s.procs[pid].job, s.chunks[hit.value]);
    }
    ProcUpdate(payload, s.procs, pid, s'.procs[pid]);
  }

  lemma CopyTouches(size: int, s: State, s': State, pid: nat, hit: Option<nat>)
    requires pid in s.procs && s.procs[pid].job.ReadJob? && CopyFrom(size, s, s', pid, hit) && hit.Some?
    ensures hit.value in s.chunks && s'.chunks == Touched(s.chunks, hit.value, s.useSeq + 1)
    ensures s'.useSeq == s.useSeq + 1
  {
  }

  lemma CopyCache(payload: seq<byte>, s: State, s': State, pid: nat, hit: Option<nat>)
    requires CacheInv(payload, s.chunks, s.useSeq)
    requires pid in s.procs && s.procs[pid].job.ReadJob? && CopyFrom(|payload|, s, s', pid, hit)
    ensures CacheInv(payload, s'.chunks, s'.useSeq) && s'.chunks.Keys == s.chunks.Keys
  {
    if hit.Some? {
      TouchedInv(payload, s.chunks, s.useSeq, hit.value);
      CopyTouches(|payload|, s, s', pid, hit);
    }
  }

  lemma CopyInv(payload: seq<byte>, s: State, s': State, pid: nat)
    requires Inv(payload, s) && CopyStep(|payload|, s, s', pid)
    ensures Inv(payload, s')
  {
    var hit := HitOf(s.chunks, s.procs[pid].job.pos);
    CopyCache(payload, s, s', pid, hit);
    CopyProcs(payload, s, s', pid, hit);
  }

  lemma StartInv(payload: seq<byte>, s: State, s': State, pid: nat, child: nat, off: nat, len: nat)
    requires Inv(payload, s) && StartRead(|payload|, s, s', pid, child, off, len)
    ensures Inv(payload, s')
  {
    var p := Proc(ReadJob(off, len, off, []), AtPlan);
    ProcUpdate(payload, s.procs, pid, p);
    ProbeStartBounds(|payload| - 1);
    SpawnValid(payload, s.procs[pid := p], child, TailTargets(s, off, |payload|));
  }

  lemma HitInv(payload: seq<byte>, s: State, s': State, pid: nat)
    requires Inv(payload, s) && EnsureHit(s, s', pid)
    ensures Inv(payload, s')
  {
    TouchedInv(payload, s.chunks, s.useSeq, s.procs[pid].pc.start);
    assert ValidProc(payload, s.procs[pid]);
    ProcUpdate(payload, s.procs, pid, s'.procs[pid]);
  }

  lemma MoveInv(payload: seq<byte>, s: State, s': State, pid: nat)
    requires Inv(payload, s) && (EnsureWait(s, s', pid) || WakeStep(s, s', pid) || CancelStep(s, s', pid))
    ensures Inv(payload, s')
  {
    assert ValidProc(payload, s.procs[pid]);
    ProcUpdate(payload, s.procs, pid, s'.procs[pid]);
  }

  lemma ReleaseInv(payload: seq<byte>, s: State, s': State)
    requires Inv(payload, s) && ReleaseStep(s, s')
    ensures Inv(payload, s')
  {
    EmptyQuiet(payload);
    QuietIsInv(payload, s'.chunks, s'.useSeq);
  }

  lemma LocalInv(payload: seq<byte>, s: State, s': State, step: LocalStep)
    requires Inv(payload, s) && NextLocal(payload, s, s', step)
    ensures Inv(payload, s')
  {
    match step
    case DoStartRead(pid, child, off, len) => StartInv(payload, s, s', pid, child, off, len);
    case DoPlan(pid) => PlanInv(payload, s, s', pid);
    case DoPick(pid) => PickInv(payload, s, s', pid);
    case DoHit(pid) => HitInv(payload, s, s', pid);
    case DoWake(pid) => MoveInv(payload, s, s', pid);
    case DoCancel(pid) => MoveInv(payload, s, s', pid);
    case DoCopy(pid) => CopyInv(payload, s, s', pid);
  }

  lemma StepInv(payload: seq<byte>, s: State, s': State, step: Step)
    requires Inv(payload, s) && NextBy(payload, s, s', step)
    ensures Inv(payload, s')
  {
    match step
    case Local(local) => LocalInv(payload, s, s', local);
    case Flight(flight) =>
      match flight {
        case DoWait(pid) => MoveInv(payload, s, s', pid);
        case DoFetch(pid) => EnsureFetchInv(payload, s, s', pid);
        case DoFinishOk(pid, child) => FinishOkInv(payload, s, s', pid, child);
        case DoFinishErr(pid) => FinishErrInv(payload, s, s', pid);
      }
    case DoRelease => ReleaseInv(payload, s, s');
  }

  lemma RunStep(payload: seq<byte>, run: seq<State>, i: nat)
    requires IsRun(payload, run) && 0 < i < |run|
    ensures Next(payload, run[i - 1], run[i])
  {
    assert StepAt(payload, run, i - 1);
  }

  /** Every state of every run satisfies the invariant. */
  lemma {:induction false} RunInv(payload: seq<byte>, run: seq<State>, i: nat)
    requires IsRun(payload, run) && i < |run|
    ensures Inv(payload, run[i])
  {
    if i == 0 {
      InitInv(payload, run[0]);
    } else {
      RunInv(payload, run, i - 1);
      RunStep(payload, run, i);
      var step :| NextBy(payload, run[i - 1], run[i], step);
      StepInv(payload, run[i - 1], run[i], step);
    }
  }

  // ---------------------------------------------------------------------
  // Single flight and wake-up, before Release
  // ---------------------------------------------------------------------

  /** An entry is marked as fetching exactly while one process fetches it. */
  ghost predicate OwnerInv(s: State) {
    && (forall k :: k in s.owner ==> k in s.chunks && s.chunks[k].fetching)
    && (forall k :: k in s.chunks && s.chunks[k].fetching ==> k in s.owner)
    && (forall k :: k in s.owner ==>
          s.owner[k] in s.procs && s.procs[s.owner[k]].pc.AtFetch? && s.procs[s.owner[k]].pc.start == k)
    && (forall pid :: pid in s.procs && s.procs[pid].pc.AtFetch? ==>
          s.procs[pid].pc.start in s.owner && s.owner[s.procs[pid].pc.start] == pid)
  }

  /** A waiter's channel is closed, or registered on an entry being fetched. */
  ghost predicate WaitInv(s: State) {
    && (forall c :: c in s.closed ==> c < s.nextChannel)
    && (forall c :: c in s.registered ==> c < s.nextChannel && c !in s.closed && s.registered[c] in s.owner)
    && (forall pid :: pid in s.procs && s.procs[pid].pc.AtWait? ==>
          || s.procs[pid].pc.channel in s.closed
          || (s.procs[pid].pc.channel in s.registered
              && s.registered[s.procs[pid].pc.channel] == s.procs[pid].pc.start))
  }

  /** The step changed neither who fetches, nor who waits, nor what is in flight. */
  ghost predicate Aside(s: State, s': State) {
    && s'.owner == s.owner && s'.registered == s.registered && s'.closed == s.closed && s'.nextChannel == s.nextChannel
    && s'.released == s.released && s'.chunks.Keys == s.chunks.Keys
    && (forall k :: k in s.chunks ==>
          s'.chunks[k].fetching == s.chunks[k].fetching && s'.chunks[k].data == s.chunks[k].data)
    && s'.wins == s.wins
    && (forall pid :: pid in s.procs && s.procs[pid].pc.AtFetch? ==> pid in s'.procs && s'.procs[pid] == s.procs[pid])
    && (forall pid :: pid in s'.procs && (s'.procs[pid].pc.AtFetch? || s'.procs[pid].pc.AtWait?) ==>
          pid in s.procs && s'.procs[pid] == s.procs[pid])
  }

  lemma AsideKeeps(s: State, s': State)
    requires Aside(s, s') && OwnerInv(s) && WaitInv(s)
    ensures OwnerInv(s') && WaitInv(s')
  {
    forall pid | pid in s'.procs && s'.procs[pid].pc.AtFetch? ensures
      s'.procs[pid].pc.start in s'.owner && s'.owner[s'.procs[pid].pc.start] == pid
    {
      assert s'.procs[pid] == s.procs[pid];
    }
  }

  lemma IsAside(payload: seq<byte>, s: State, s': State, step: LocalStep)
    requires NextLocal(payload, s, s', step)
    ensures Aside(s, s')
  {
    match step
    case DoStartRead(pid, child, off, len) => StartAside(|payload|, s, s', pid, child, off, len);
    case DoHit(pid) => HitAside(s, s', pid);
    case DoPlan(pid) => PlanAside(|payload|, s, s', pid);
    case DoCopy(pid) => CopyAside(|payload|, s, s', pid, HitOf(s.chunks, s.procs[pid].job.pos));
    case DoPick(pid) => PickAside(s, s', pid);
    case DoWake(pid) => MoveAside(s, s', pid);
    case DoCancel(pid) => MoveAside(s, s', pid);
  }

  lemma PickAside(s: State, s': State, pid: nat)
    requires PickStep(s, s', pid)
    ensures Aside(s, s')
  {
    AloneAside(s, s', pid, s'.procs[pid]);
  }

  lemma MoveAside(s: State, s': State, pid: nat)
    requires WakeStep(s, s', pid) || CancelStep(s, s', pid)
    ensures Aside(s, s')
  {
    AloneAside(s, s', pid, s'.procs[pid]);
  }

  lemma StartAside(size: int, s: State, s': State, pid: nat, child: nat, off: nat, len: nat)
    requires StartRead(size, s, s', pid, child, off, len)
    ensures Aside(s, s')
  {
  }

  lemma HitAside(s: State, s': State, pid: nat)
    requires EnsureHit(s, s', pid)
    ensures Aside(s, s')
  {
  }

  /** A process that neither fetched nor does, and does not begin to wait, moved on its own. */
  lemma AloneAside(s: State, s': State, pid: nat, p: Proc)
    requires pid in s.procs && s' == s.(procs := s.procs[pid := p])
    requires !s.procs[pid].pc.AtFetch? && !p.pc.AtFetch? && !p.pc.AtWait?
    ensures Aside(s, s')
  {
  }

  lemma PlanAside(size: int, s: State, s': State, pid: nat)
    requires PlanStep(size, s, s', pid)
    ensures Aside(s, s')
  {
    AloneAside(s, s', pid, s'.procs[pid]);
  }

  lemma CopyAside(size: int, s: State, s': State, pid: nat, hit: Option<nat>)
    requires pid in s.procs && s.procs[pid].pc.AtCopy? && s.procs[pid].job.ReadJob?
    requires CopyFrom(size, s, s', pid, hit)
    ensures Aside(s, s')
  {
  }

  lemma WaitFlight(payload: seq<byte>, s: State, s': State, pid: nat)
    requires OwnerInv(s) && WaitInv(s) && EnsureWait(s, s', pid)
    ensures OwnerInv(s') && WaitInv(s')
  {
    assert forall q :: q in s'.procs && q != pid ==> q in s.procs && s'.procs[q] == s.procs[q];
  }

  lemma FetchFlight(payload: seq<byte>, s: State, s': State, pid: nat)
    requires OwnerInv(s) && WaitInv(s) && EnsureFetch(|payload|, s, s', pid)
    ensures OwnerInv(s') && WaitInv(s')
  {
    var start := s.procs[pid].pc.start;
    assert start !in s.owner;
    assert forall q :: q in s'.procs && q != pid ==> q in s.procs && s'.procs[q] == s.procs[q];
  }

  /** Eviction after a finish spares every entry still in flight. */
  lemma FinishKeeps(m: ChunkMap, filled: Chunk, start: nat, r: ChunkMap)
    requires start in m && EvictedTo(m[start := filled], r)
    ensures forall k :: k in m && m[k].fetching && k != start ==> k in r && r[k] == m[k]
    ensures forall k :: k in r ==> k in m && r[k] == if k == start then filled else m[k]
  {
  }

  /** What a finished fetch leaves alone. */
  ghost predicate Finished(m: ChunkMap, r: ChunkMap, start: nat, length: nat) {
    && (forall k :: k in m && m[k].fetching && k != start ==> k in r)
    && (forall k :: k in r ==> k in m && r[k].fetching == (k != start && m[k].fetching))
    && (forall k :: k in r ==> |r[k].data| == if k == start then length else |m[k].data|)
  }

  /** Only `pid` and a new process `child` moved, to places where nobody fetches or waits. */
  ghost predicate MovedOn(procs: map<nat, Proc>, procs': map<nat, Proc>, pid: nat, child: nat) {
    && (forall q :: q in procs && q != pid ==> q in procs' && procs'[q] == procs[q])
    && (forall q :: q in procs' && q != pid && q != child ==> q in procs)
    && (forall q :: q in procs' && (q == pid || q == child) ==> !procs'[q].pc.AtFetch? && !procs'[q].pc.AtWait?)
  }

  lemma ArrivedFrame(payload: seq<byte>, s: State, s': State, start: nat, length: nat)
    requires start + length <= |payload| && start in s.chunks && Arrived(payload, s, s', start, length)
    ensures Finished(s.chunks, s'.chunks, start, length)
  {
    FinishKeeps(s.chunks, Filled(s.chunks[start], payload[start..start + length], s.useSeq + 1), start, s'.chunks);
  }

  lemma SpawnMoved(procs: map<nat, Proc>, pid: nat, child: nat, p: Proc, targets: seq<Target>)
    requires pid in procs && child !in procs && !p.pc.AtFetch? && !p.pc.AtWait?
    ensures MovedOn(procs, Spawn(procs[pid := p], child, targets), pid, child)
  {
  }

  lemma FinishOkMoved(payload: seq<byte>, s: State, s': State, pid: nat, child: nat)
    requires FinishOk(payload, s, s', pid, child)
    ensures MovedOn(s.procs, s'.procs, pid, child)
  {
    var start, length, job := s.procs[pid].pc.start, s.procs[pid].pc.length, s.procs[pid].job;
    SpawnMoved(s.procs, pid, child, s.procs[pid].(pc := Onward(job)),
               if job.ReadJob? then Lookahead(start, length, |payload|) else []);
  }

  lemma FinishedFlight(s: State, s': State, pid: nat, child: nat, start: nat, length: nat)
    requires pid in s.procs && s.procs[pid].pc.AtFetch? && s.procs[pid].pc.start == start
    requires child == pid || child !in s.procs
    requires OwnerInv(s) && WaitInv(s)
    requires Finished(s.chunks, s'.chunks, start, length) && MovedOn(s.procs, s'.procs, pid, child)
    requires s'.owner == s.owner - {start} && s'.nextChannel == s.nextChannel
    requires s'.registered == Without(s.registered, start)
    requires s'.closed == s.closed + Waiters(s.registered, start)
    ensures OwnerInv(s') && WaitInv(s')
  {
  }

  lemma FinishOkFlight(payload: seq<byte>, s: State, s': State, pid: nat, child: nat)
    requires s.wins.Keys == s.chunks.Keys && OwnerInv(s) && WaitInv(s)
    requires FinishOk(payload, s, s', pid, child)
    ensures OwnerInv(s') && WaitInv(s')
  {
    var start, length := s.procs[pid].pc.start, s.procs[pid].pc.length;
    assert start in s.owner && s.owner[start] == pid;
    ArrivedFrame(payload, s, s', start, length);
    FinishOkMoved(payload, s, s', pid, child);
    FinishedFlight(s, s', pid, child, start, length);
  }

  lemma FinishErrFlight(payload: seq<byte>, s: State, s': State, pid: nat)
    requires OwnerInv(s) && WaitInv(s) && FinishErr(s, s', pid)
    ensures OwnerInv(s') && WaitInv(s')
  {
    var start := s.procs[pid].pc.start;
    assert start in s.owner && s.owner[start] == pid;
    ErrFrame(s, s', pid);
    FinishedFlight(s, s', pid, pid, start, 0);
  }

  /** A failed fetch leaves the other entries and processes alone. */
  lemma ErrFrame(s: State, s': State, pid: nat)
    requires FinishErr(s, s', pid) && s.procs[pid].pc.start in s.chunks
    ensures Finished(s.chunks, s'.chunks, s.procs[pid].pc.start, 0) && MovedOn(s.procs, s'.procs, pid, pid)
  {
  }

  // ---------------------------------------------------------------------
  // A start costs at most four windows between removals of its entry
  // ---------------------------------------------------------------------

  const MAX_WINS: nat := 4

  /** The least length of a chunk after `n` windows arrived for it, unless it cannot grow. */
  function Floor(n: nat): int {
    if n <= 1 then PROBE_SIZE else if n == 2 then 2 * PROBE_SIZE else if n == 3 then 4 * PROBE_SIZE else CHUNK_SIZE
  }

  predicate LongEnough(k: nat, length: int, wins: nat, size: int) {
    1 <= wins <= MAX_WINS && Min(Floor(wins), MaxEnd(k, size) - k) <= length
  }

  ghost predicate WinsInv(s: State, size: int) {
    && (forall k :: k in s.chunks && !s.chunks[k].fetching ==>
          k in s.wins && LongEnough(k, |s.chunks[k].data|, s.wins[k], size))
    && (forall pid :: pid in s.procs && s.procs[pid].pc.AtFetch? ==>
          && s.procs[pid].pc.start in s.wins
          && LongEnough(s.procs[pid].pc.start, s.procs[pid].pc.length, s.wins[s.procs[pid].pc.start] + 1, size))
  }

  /** Only a chunk that three windows or fewer built can still fall short of a request. */
  lemma RefetchLongEnough(payload: seq<byte>, ch: Chunk, needEnd: int, wins: nat)
    requires ValidChunk(payload, ch.start, ch) && !ch.fetching
    requires ValidTarget(ch.start, needEnd, |payload|) && ch.End() < needEnd
    requires LongEnough(ch.start, |ch.data|, wins, |payload|)
    ensures var length := FetchLength(ch.start, NextFetchEnd(ch, needEnd, |payload|), |payload|);
            LongEnough(ch.start, length, wins + 1, |payload|)
  {
    RefetchGrows(payload, ch, needEnd);
  }

  lemma AsideWins(s: State, s': State, size: int)
    requires Aside(s, s') && WinsInv(s, size)
    ensures WinsInv(s', size)
  {
  }

  lemma FetchMoved(s: State, s': State, pid: nat, size: int)
    requires OwnerInv(s) && EnsureFetch(size, s, s', pid)
    ensures forall q :: q in s'.procs && q != pid && s'.procs[q].pc.AtFetch? ==>
              q in s.procs && s'.procs[q] == s.procs[q] && s.procs[q].pc.start != s.procs[pid].pc.start
  {
  }

  /** The window a process starts to fetch is long enough for one more arrival. */
  lemma RequestLongEnough(payload: seq<byte>, s: State, start: nat, needEnd: int)
    requires s.wins.Keys == s.chunks.Keys && WinsInv(s, |payload|)
    requires ValidTarget(start, needEnd, |payload|)
    requires start in s.chunks ==>
               && s.chunks[start].start == start && ValidChunk(payload, start, s.chunks[start])
               && !s.chunks[start].fetching && s.chunks[start].End() < needEnd
    ensures LongEnough(start, EnsuredLength(s.chunks, |payload|, start, needEnd),
                       if start in s.wins then s.wins[start] + 1 else 1, |payload|)
  {
    if start in s.chunks {
      RefetchLongEnough(payload, s.chunks[start], needEnd, s.wins[start]);
    } else {
      FetchLengthFits(start, needEnd, |payload|);
    }
  }

  lemma FetchWinsChunks(payload: seq<byte>, s: State, s': State, pid: nat, k: nat)
    requires s.wins.Keys == s.chunks.Keys && WinsInv(s, |payload|) && EnsureFetch(|payload|, s, s', pid)
    requires k in s'.chunks && !s'.chunks[k].fetching
    ensures k in s'.wins && LongEnough(k, |s'.chunks[k].data|, s'.wins[k], |payload|)
  {
    assert k != s.procs[pid].pc.start && k in s.chunks && s.chunks[k] == s'.chunks[k];
  }

  lemma FetchWinsOther(payload: seq<byte>, s: State, s': State, pid: nat, q: nat)
    requires OwnerInv(s) && WinsInv(s, |payload|) && EnsureFetch(|payload|, s, s', pid)
    requires q in s'.procs && s'.procs[q].pc.AtFetch? && q != pid
    ensures s'.procs[q].pc.start in s'.wins
    ensures LongEnough(s'.procs[q].pc.start, s'.procs[q].pc.length, s'.wins[s'.procs[q].pc.start] + 1, |payload|)
  {
    FetchMoved(s, s', pid, |payload|);
    assert s'.procs[q] == s.procs[q];
  }

  lemma FetchWinsOwn(payload: seq<byte>, s: State, s': State, pid: nat)
    requires s.wins.Keys == s.chunks.Keys && EnsureFetch(|payload|, s, s', pid)
    requires var start, needEnd := s.procs[pid].pc.start, s.procs[pid].pc.needEnd;
             LongEnough(start, EnsuredLength(s.chunks, |payload|, start, needEnd),
                        if start in s.wins then s.wins[start] + 1 else 1, |payload|)
    ensures s'.procs[pid].pc.AtFetch? && s'.procs[pid].pc.start in s'.wins
    ensures LongEnough(s'.procs[pid].pc.start, s'.procs[pid].pc.length, s'.wins[s'.procs[pid].pc.start] + 1, |payload|)
  {
  }

  lemma FetchWins(payload: seq<byte>, s: State, s': State, pid: nat)
    requires s.wins.Keys == s.chunks.Keys && OwnerInv(s) && WinsInv(s, |payload|)
    requires EnsureFetch(|payload|, s, s', pid)
    requires var start, needEnd := s.procs[pid].pc.start, s.procs[pid].pc.needEnd;
             LongEnough(start, EnsuredLength(s.chunks, |payload|, start, needEnd),
                        if start in s.wins then s.wins[start] + 1 else 1, |payload|)
    ensures WinsInv(s', |payload|)
  {
    forall k | k in s'.chunks && !s'.chunks[k].fetching
      ensures k in s'.wins && LongEnough(k, |s'.chunks[k].data|, s'.wins[k], |payload|)
    {
      FetchWinsChunks(payload, s, s', pid, k);
    }
    forall q | q in s'.procs && s'.procs[q].pc.AtFetch?
      ensures s'.procs[q].pc.start in s'.wins
      ensures LongEnough(s'.procs[q].pc.start, s'.procs[q].pc.length, s'.wins[s'.procs[q].pc.start] + 1, |payload|)
    {
      if q == pid {
        FetchWinsOwn(payload, s, s', pid);
      } else {
        FetchWinsOther(payload, s, s', pid, q);
      }
    }
  }

  lemma FinishedWins(s: State, s': State, pid: nat, child: nat, start: nat, length: nat, size: int)
    requires pid in s.procs && s.procs[pid].pc == AtFetch(start, length) && child !in s.procs
    requires OwnerInv(s) && WinsInv(s, size)
    requires Finished(s.chunks, s'.chunks, start, length) && MovedOn(s.procs, s'.procs, pid, child)
    requires forall k :: k in s'.chunks ==>
               k in s'.wins && k in s.wins && s'.wins[k] == if k == start then s.wins[k] + 1 else s.wins[k]
    ensures WinsInv(s', size)
  {
    assert s.owner[start] == pid;
    forall q | q in s'.procs && s'.procs[q].pc.AtFetch?
      ensures q in s.procs && s.procs[q] == s'.procs[q]
      ensures s.procs[q].pc.start in s.owner && s.procs[q].pc.start != start
    {
    }
  }

  lemma FinishWins(payload: seq<byte>, s: State, s': State, pid: nat, child: nat)
    requires s.wins.Keys == s.chunks.Keys && OwnerInv(s) && WinsInv(s, |payload|)
    requires FinishOk(payload, s, s', pid, child)
    ensures WinsInv(s', |payload|)
  {
    var start, length := s.procs[pid].pc.start, s.procs[pid].pc.length;
    assert s.owner[start] == pid;
    ArrivedFrame(payload, s, s', start, length);
    FinishOkMoved(payload, s, s', pid, child);
    FinishedWins(s, s', pid, child, start, length, |payload|);
  }

  lemma FinishErrWins(s: State, s': State, pid: nat, size: int)
    requires s.wins.Keys == s.chunks.Keys && OwnerInv(s) && WinsInv(s, size) && FinishErr(s, s', pid)
    ensures WinsInv(s', size)
  {
    assert s.owner[s.procs[pid].pc.start] == pid;
    forall q | q in s'.procs && s'.procs[q].pc.AtFetch?
      ensures s'.procs[q].pc.start in s'.wins
      ensures LongEnough(s'.procs[q].pc.start, s'.procs[q].pc.length, s'.wins[s'.procs[q].pc.start] + 1, size)
    {
      assert q != pid && s'.procs[q] == s.procs[q];
      assert s.procs[q].pc.start != s.procs[pid].pc.start;
    }
  }

  ghost predicate FlightInv(payload: seq<byte>, s: State) {
    Inv(payload, s) && OwnerInv(s) && WaitInv(s) && WinsInv(s, |payload|)
  }

  lemma StepFlight(payload: seq<byte>, s: State, s': State, step: Step)
    requires FlightInv(payload, s) && NextBy(payload, s, s', step) && !step.DoRelease?
    ensures FlightInv(payload, s')
  {
    StepInv(payload, s, s', step);
    match step
    case Local(local) =>
      IsAside(payload, s, s', local);
      AsideKeeps(s, s');
      AsideWins(s, s', |payload|);
    case Flight(flight) => FetchingStep(payload, s, s', flight);
  }

  lemma FetchStepFlight(payload: seq<byte>, s: State, s': State, pid: nat)
    requires FlightInv(payload, s) && EnsureFetch(|payload|, s, s', pid)
    ensures OwnerInv(s') && WaitInv(s') && WinsInv(s', |payload|)
  {
    FetchFlight(payload, s, s', pid);
    assert ValidProc(payload, s.procs[pid]);
    var start := s.procs[pid].pc.start;
    assert start in s.chunks ==> ValidChunk(payload, start, s.chunks[start]);
    RequestLongEnough(payload, s, start, s.procs[pid].pc.needEnd);
    FetchWins(payload, s, s', pid);
  }

  lemma FinishOkStepFlight(payload: seq<byte>, s: State, s': State, pid: nat, child: nat)
    requires FlightInv(payload, s) && FinishOk(payload, s, s', pid, child)
    ensures OwnerInv(s') && WaitInv(s') && WinsInv(s', |payload|)
  {
    FinishOkFlight(payload, s, s', pid, child);
    FinishWins(payload, s, s', pid, child);
  }

  lemma FinishErrStepFlight(payload: seq<byte>, s: State, s': State, pid: nat)
    requires FlightInv(payload, s) && FinishErr(s, s', pid)
    ensures OwnerInv(s') && WaitInv(s') && WinsInv(s', |payload|)
  {
    FinishErrFlight(payload, s, s', pid);
    FinishErrWins(s, s', pid, |payload|);
  }

  lemma WaitStepFlight(payload: seq<byte>, s: State, s': State, pid: nat)
    requires FlightInv(payload, s) && EnsureWait(s, s', pid)
    ensures OwnerInv(s') && WaitInv(s') && WinsInv(s', |payload|)
  {
    WaitFlight(payload, s, s', pid);
  }

  lemma FetchingStep(payload: seq<byte>, s: State, s': State, step: FlightStep)
    requires FlightInv(payload, s) && NextFlight(payload, s, s', step)
    ensures OwnerInv(s') && WaitInv(s') && WinsInv(s', |payload|)
  {
    match step
    case DoWait(pid) => WaitStepFlight(payload, s, s', pid);
    case DoFetch(pid) => FetchStepFlight(payload, s, s', pid);
    case DoFinishOk(pid, child) => FinishOkStepFlight(payload, s, s', pid, child);
    case DoFinishErr(pid) => FinishErrStepFlight(payload, s, s', pid);
  }

  lemma InitFlight(payload: seq<byte>, s: State)
    requires Init(s)
    ensures FlightInv(payload, s)
  {
    InitInv(payload, s);
  }

  lemma NextKeepsFlight(payload: seq<byte>, s: State, s': State)
    requires Next(payload, s, s') && FlightInv(payload, s) && !s'.released
    ensures FlightInv(payload, s')
  {
    var step :| NextBy(payload, s, s', step);
    StepReleased(payload, s, s', step);
    StepFlight(payload, s, s', step);
  }

  lemma NextReleased(payload: seq<byte>, s: State, s': State)
    requires Next(payload, s, s') && !s'.released
    ensures !s.released
  {
    var step :| NextBy(payload, s, s', step);
    StepReleased(payload, s, s', step);
  }

  /** Every state of every run before `Release` satisfies the flight invariant. */
  lemma {:induction false} RunFlight(payload: seq<byte>, run: seq<State>, i: nat)
    requires IsRun(payload, run) && i < |run| && !run[i].released
    ensures FlightInv(payload, run[i])
  {
    if i == 0 {
      InitFlight(payload, run[0]);
    } else {
      RunStep(payload, run, i);
      NextReleased(payload, run[i - 1], run[i]);
      RunFlight(payload, run, i - 1);
      NextKeepsFlight(payload, run[i - 1], run[i]);
    }
  }

  lemma StepReleased(payload: seq<byte>, s: State, s': State, step: Step)
    requires NextBy(payload, s, s', step) && !s'.released
    ensures !s.released && !step.DoRelease?
  {
    if step.Local? {
      IsAside(payload, s, s', step.local);
    }
  }

  // ---------------------------------------------------------------------
  // Main results
  // ---------------------------------------------------------------------

  /** Every `Read` that succeeds, in any interleaving, returned exactly the payload bytes it asked for. */
  lemma ReadsAreExact(payload: seq<byte>, run: seq<State>, i: nat, pid: nat)
    requires IsRun(payload, run) && i < |run|
    requires pid in run[i].procs && run[i].procs[pid].job.ReadJob? && run[i].procs[pid].pc == AtDone(true)
    ensures var job := run[i].procs[pid].job;
            job.off < |payload| && job.got == payload[job.off..Min(job.off + job.len, |payload|)]
  {
    RunInv(payload, run, i);
    assert ValidProc(payload, run[i].procs[pid]);
  }

  /** Every resident chunk, in any interleaving, is an aligned window of the payload. */
  lemma ChunksAreExact(payload: seq<byte>, run: seq<State>, i: nat, k: nat)
    requires IsRun(payload, run) && i < |run|
    requires k in run[i].chunks && !run[i].chunks[k].fetching
    ensures k % 0x8_0000 == 0 && k < |payload|
    ensures var data := run[i].chunks[k].data;
            && Min(PROBE_SIZE, |payload| - k) <= |data| <= Min(CHUNK_SIZE, |payload| - k)
            && data == payload[k..k + |data|]
  {
    RunInv(payload, run, i);
    assert ValidChunk(payload, k, run[i].chunks[k]);
  }

  /** At most 8 chunks and 32 MiB are resident, in any interleaving. */
  lemma MemoryIsBounded(payload: seq<byte>, run: seq<State>, i: nat)
    requires IsRun(payload, run) && i < |run|
    ensures |Resident(run[i].chunks)| <= 8
    ensures ResidentBytes(run[i].chunks, Resident(run[i].chunks)) <= 32 * 1024 * 1024
  {
    RunInv(payload, run, i);
    ResidentBytesBound(payload, run[i].chunks, run[i].useSeq, Resident(run[i].chunks));
  }

  /** No two entries were touched at once, so lookup and eviction never have to break a tie. */
  lemma TouchesAreDistinct(payload: seq<byte>, run: seq<State>, i: nat, j: nat, k: nat)
    requires IsRun(payload, run) && i < |run|
    requires j in run[i].chunks && k in run[i].chunks && j != k
    ensures run[i].chunks[j].useSeq != run[i].chunks[k].useSeq
  {
    RunInv(payload, run, i);
    if run[i].chunks[j].useSeq == run[i].chunks[k].useSeq {
      DistinctMeans(run[i].chunks, j, k);
    }
  }

  /** Before `Release`, two processes never fetch the same start at once. */
  lemma OneFetchPerStart(payload: seq<byte>, run: seq<State>, i: nat, p: nat, q: nat)
    requires IsRun(payload, run) && i < |run| && !run[i].released
    requires p in run[i].procs && run[i].procs[p].pc.AtFetch?
    requires q in run[i].procs && run[i].procs[q].pc.AtFetch?
    requires run[i].procs[p].pc.start == run[i].procs[q].pc.start
    ensures p == q
  {
    RunFlight(payload, run, i);
  }

  /** Before `Release`, at most four windows arrive for one start between removals of its entry. */
  lemma AtMostFourWindows(payload: seq<byte>, run: seq<State>, i: nat, k: nat)
    requires IsRun(payload, run) && i < |run| && !run[i].released
    requires k in run[i].chunks && !run[i].chunks[k].fetching
    ensures k in run[i].wins && 1 <= run[i].wins[k] <= MAX_WINS
    ensures run[i].wins[k] == MAX_WINS ==> run[i].chunks[k].End() == MaxEnd(k, |payload|)
  {
    RunFlight(payload, run, i);
    assert ValidChunk(payload, k, run[i].chunks[k]);
  }

  lemma ArrivedKeepsPinned(payload: seq<byte>, s: State, s': State, start: nat, length: nat, k: nat)
    requires start + length <= |payload| && start in s.chunks && Arrived(payload, s, s', start, length)
    requires k in s.chunks && s.chunks[k].pinned
    ensures k in s'.chunks
  {
  }

  lemma FinishKeepsPinned(payload: seq<byte>, s: State, s': State, pid: nat, child: nat, k: nat)
    requires FinishOk(payload, s, s', pid, child) && k in s.chunks && s.chunks[k].pinned
    ensures k in s'.chunks
  {
    if s.procs[pid].pc.start in s.chunks {
      ArrivedKeepsPinned(payload, s, s', s.procs[pid].pc.start, s.procs[pid].pc.length, k);
    }
  }

  /**
    Only a failed fetch of its own, or `Release`, ever removes the chunk at the
    head of the file or the one at the block that holds its last byte.
   */
  lemma PinnedChunksStay(payload: seq<byte>, s: State, s': State, step: Step, k: nat)
    requires Inv(payload, s) && NextBy(payload, s, s', step)
    requires k % 0x8_0000 == 0 && (k == 0 || k < |payload| <= k + 0x8_0000)
    requires k in s.chunks && k !in s'.chunks
    ensures step.DoRelease? || (step.Flight? && step.flight.DoFinishErr? && s.procs[step.flight.pid].pc.start == k)
  {
    assert ValidChunk(payload, k, s.chunks[k]);
    PinnedAreEnds(k, |payload|);
    match step
    case Local(local) => IsAside(payload, s, s', local);
    case Flight(flight) =>
      if flight.DoFinishOk? {
        FinishKeepsPinned(payload, s, s', flight.pid, flight.child, k);
      }
    case DoRelease =>
  }

  /** No other chunk is kept from eviction. */
  lemma OnlyEndsArePinned(payload: seq<byte>, run: seq<State>, i: nat, k: nat)
    requires IsRun(payload, run) && i < |run| && k in run[i].chunks
    ensures run[i].chunks[k].pinned <==> k == 0 || k < |payload| <= k + 0x8_0000
  {
    RunInv(payload, run, i);
    assert ValidChunk(payload, k, run[i].chunks[k]);
    PinnedAreEnds(k, |payload|);
  }
}
