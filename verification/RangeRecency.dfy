/**
  What the sequence numbers of chunks are for: whatever eviction keeps was used
  later than everything it drops, under every interleaving.
 */
module RangeRecency {
  import opened Common
  import opened ChunkCache
  import opened RangeProtocol

  ghost predicate Newer(m: ChunkMap, x: nat, y: nat) {
    x in m && y in m && m[y].useSeq < m[x].useSeq
  }

  /** The chunk a step uses: one that is asked for, copied from, requested or filled. */
  ghost function UsedBy(s: State, step: Step): Option<nat> {
    match step
    case Local(DoHit(pid)) => if pid in s.procs && s.procs[pid].pc.AtEnsure? then Some(s.procs[pid].pc.start) else None
    case Local(DoCopy(pid)) =>
      if pid in s.procs && s.procs[pid].job.ReadJob? then HitOf(s.chunks, s.procs[pid].job.pos) else None
    case Flight(DoFetch(pid)) =>
      if pid in s.procs && s.procs[pid].pc.AtEnsure? then Some(s.procs[pid].pc.start) else None
    case Flight(DoFinishOk(pid, child)) =>
      if pid in s.procs && s.procs[pid].pc.AtFetch? && s.procs[pid].pc.start in s.chunks then
        Some(s.procs[pid].pc.start)
      else None
    case _ => None
  }

  /** The chunk that is used becomes the newest one; the others keep their order. */
  ghost predicate Ages(m: ChunkMap, used: Option<nat>, m': ChunkMap) {
    forall x: nat, y: nat {:trigger Newer(m', x, y)} :: Newer(m', x, y) ==>
      used == Some(x) || (Newer(m, x, y) && used != Some(y))
  }

  lemma TouchAges(m: ChunkMap, useSeq: nat, k: nat)
    requires k in m && forall j {:trigger m[j].useSeq} :: j in m ==> m[j].useSeq <= useSeq
    ensures Ages(m, Some(k), Touched(m, k, useSeq + 1))
  {
  }

  lemma ReplacedAges(m: ChunkMap, useSeq: nat, k: nat, ch: Chunk)
    requires forall j {:trigger m[j].useSeq} :: j in m ==> m[j].useSeq <= useSeq
    requires ch.useSeq == useSeq + 1
    ensures Ages(m, Some(k), m[k := ch])
  {
  }

  lemma EvictedAges(m: ChunkMap, used: Option<nat>, full: ChunkMap, r: ChunkMap)
    requires Ages(m, used, full) && EvictedTo(full, r)
    ensures Ages(m, used, r)
  {
    forall x, y | Newer(r, x, y) ensures Newer(full, x, y) {
    }
  }

  lemma LocalAges(payload: seq<byte>, s: State, s': State, step: LocalStep)
    requires Inv(payload, s) && NextLocal(payload, s, s', step)
    ensures Ages(s.chunks, UsedBy(s, Local(step)), s'.chunks)
  {
    match step
    case DoHit(pid) => TouchAges(s.chunks, s.useSeq, s.procs[pid].pc.start);
    case DoCopy(pid) =>
      var hit := HitOf(s.chunks, s.procs[pid].job.pos);
      if hit.Some? {
        CopyTouches(|payload|, s, s', pid, hit);
        TouchAges(s.chunks, s.useSeq, hit.value);
      } else {
        CopyMisses(|payload|, s, s', pid);
      }
    case _ =>
  }

  lemma CopyTouches(size: int, s: State, s': State, pid: nat, hit: Option<nat>)
    requires pid in s.procs && s.procs[pid].job.ReadJob? && hit.Some? && CopyFrom(size, s, s', pid, hit)
    ensures hit.value in s.chunks && s'.chunks == Touched(s.chunks, hit.value, s.useSeq + 1)
  {
  }

  lemma CopyMisses(size: int, s: State, s': State, pid: nat)
    requires pid in s.procs && s.procs[pid].job.ReadJob? && CopyFrom(size, s, s', pid, None)
    ensures s'.chunks == s.chunks
  {
  }

  lemma FinishOkAges(payload: seq<byte>, s: State, s': State, pid: nat, child: nat)
    requires Inv(payload, s) && FinishOk(payload, s, s', pid, child)
    ensures Ages(s.chunks, UsedBy(s, Flight(DoFinishOk(pid, child))), s'.chunks)
  {
    var start, length := s.procs[pid].pc.start, s.procs[pid].pc.length;
    if start in s.chunks {
      ArrivedMap(payload, s, s', start, length);
      var filled := Filled(s.chunks[start], payload[start..start + length], s.useSeq + 1);
      ReplacedAges(s.chunks, s.useSeq, start, filled);
      EvictedAges(s.chunks, Some(start), s.chunks[start := filled], s'.chunks);
    }
  }

  lemma ArrivedMap(payload: seq<byte>, s: State, s': State, start: nat, length: nat)
    requires start + length <= |payload| && start in s.chunks && Arrived(payload, s, s', start, length)
    ensures EvictedTo(s.chunks[start := Filled(s.chunks[start], payload[start..start + length], s.useSeq + 1)],
                      s'.chunks)
  {
  }

  lemma StepAges(payload: seq<byte>, s: State, s': State, step: Step)
    requires Inv(payload, s) && NextBy(payload, s, s', step)
    ensures Ages(s.chunks, UsedBy(s, step), s'.chunks)
  {
    match step
    case Local(local) => LocalAges(payload, s, s', local);
    case Flight(flight) =>
      match flight {
        case DoWait(pid) =>
        case DoFetch(pid) =>
          ReplacedAges(s.chunks, s.useSeq, s.procs[pid].pc.start,
                       Placeholder(s.procs[pid].pc.start, |payload|, s.useSeq + 1));
        case DoFinishOk(pid, child) => FinishOkAges(payload, s, s', pid, child);
        case DoFinishErr(pid) =>
      }
    case DoRelease =>
  }

  // ---------------------------------------------------------------------
  // Over runs
  // ---------------------------------------------------------------------

  /** A run with the steps it takes. */
  ghost predicate Steps(payload: seq<byte>, run: seq<State>, steps: seq<Step>) {
    && IsRun(payload, run) && |run| == |steps| + 1
    && forall i {:trigger TakesStep(payload, run, steps, i)} :: 0 <= i < |steps| ==> TakesStep(payload, run, steps, i)
  }

  ghost predicate TakesStep(payload: seq<byte>, run: seq<State>, steps: seq<Step>, i: nat)
    requires i < |steps| < |run|
  {
    NextBy(payload, run[i], run[i + 1], steps[i])
  }

  /** Among the first `n` steps, one uses `x` and no later one uses `y`, nor does it. */
  ghost predicate UsedLater(run: seq<State>, steps: seq<Step>, n: nat, x: nat, y: nat)
    requires n <= |steps| < |run|
  {
    exists i :: 0 <= i < n && UsedBy(run[i], steps[i]) == Some(x)
                && forall j :: i <= j < n ==> UsedBy(run[j], steps[j]) != Some(y)
  }

  /** In every reachable state the chunk with the higher number was used after the other was for the last time. */
  lemma {:induction false} NewerWasUsedLater(payload: seq<byte>, run: seq<State>, steps: seq<Step>, n: nat,
                                             x: nat, y: nat)
    requires Steps(payload, run, steps) && n <= |steps| && Newer(run[n].chunks, x, y)
    ensures UsedLater(run, steps, n, x, y)
  {
    if n > 0 {
      RunInv(payload, run, n - 1);
      assert TakesStep(payload, run, steps, n - 1);
      StepAges(payload, run[n - 1], run[n], steps[n - 1]);
      if UsedBy(run[n - 1], steps[n - 1]) == Some(x) {
        assert x != y;
      } else {
        NewerWasUsedLater(payload, run, steps, n - 1, x, y);
        StillLater(run, steps, n - 1, x, y);
      }
    }
  }

  /** What the end of a fetch drops was used before everything it could have dropped instead. */
  lemma DroppedIsOlder(payload: seq<byte>, s: State, s': State, pid: nat, child: nat, kept: nat, dropped: nat)
    requires Inv(payload, s) && FinishOk(payload, s, s', pid, child)
    requires dropped in s.chunks && dropped !in s'.chunks
    requires kept in s'.chunks && !s'.chunks[kept].pinned && !s'.chunks[kept].fetching
    ensures UsedBy(s, Flight(DoFinishOk(pid, child))) != Some(dropped)
    ensures UsedBy(s, Flight(DoFinishOk(pid, child))) == Some(kept) || Newer(s.chunks, kept, dropped)
  {
    var start, length := s.procs[pid].pc.start, s.procs[pid].pc.length;
    ArrivedMap(payload, s, s', start, length);
    var filled := Filled(s.chunks[start], payload[start..start + length], s.useSeq + 1);
    var full := s.chunks[start := filled];
    assert full[dropped].useSeq <= s'.chunks[kept].useSeq == full[kept].useSeq;
    if dropped != start && kept != start && full[dropped].useSeq == full[kept].useSeq {
      DistinctMeans(s.chunks, dropped, kept);
    }
  }

  /**
    Whenever a chunk is evicted, each chunk that is kept, though it could have
    gone, was used after the evicted one was for the last time.
   */
  lemma EvictionDropsLeastRecent(payload: seq<byte>, run: seq<State>, steps: seq<Step>, n: nat, kept: nat, dropped: nat)
    requires Steps(payload, run, steps) && n < |steps| && steps[n].Flight? && steps[n].flight.DoFinishOk?
    requires dropped in run[n].chunks && dropped !in run[n + 1].chunks
    requires kept in run[n + 1].chunks && !run[n + 1].chunks[kept].pinned && !run[n + 1].chunks[kept].fetching
    ensures UsedLater(run, steps, n + 1, kept, dropped)
  {
    RunInv(payload, run, n);
    assert TakesStep(payload, run, steps, n);
    DroppedIsOlder(payload, run[n], run[n + 1], steps[n].flight.pid, steps[n].flight.child, kept, dropped);
    if UsedBy(run[n], steps[n]) != Some(kept) {
      NewerWasUsedLater(payload, run, steps, n, kept, dropped);
      StillLater(run, steps, n, kept, dropped);
    }
  }

  lemma StillLater(run: seq<State>, steps: seq<Step>, n: nat, x: nat, y: nat)
    requires n < |steps| < |run| && UsedLater(run, steps, n, x, y) && UsedBy(run[n], steps[n]) != Some(y)
    ensures UsedLater(run, steps, n + 1, x, y)
  {
    var i :| 0 <= i < n && UsedBy(run[i], steps[i]) == Some(x)
             && forall j :: i <= j < n ==> UsedBy(run[j], steps[j]) != Some(y);
    assert UsedBy(run[i], steps[i]) == Some(x);
  }
}
