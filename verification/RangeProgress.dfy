/**
  No process of a ranged file is ever stuck: in every reachable state it is done,
  or can take a step, or waits on a channel that is still open. A fetch can end
  well as well as badly.
 */
module RangeProgress {
  import opened Common
  import opened ChunkCache
  import opened RangeProtocol
  import opened RangeOutcomes

  /** The process can take a step of its own, other than giving up. */
  ghost predicate CanStep(payload: seq<byte>, s: State, pid: nat) {
    exists s', step :: NextBy(payload, s, s', step) && Actor(step) == Some(pid)
                       && step != Local(DoCancel(pid)) && step != Flight(DoFinishErr(pid))
  }

  lemma Steps(payload: seq<byte>, s: State, s': State, step: Step, pid: nat)
    requires NextBy(payload, s, s', step) && Actor(step) == Some(pid)
    requires step != Local(DoCancel(pid)) && step != Flight(DoFinishErr(pid))
    ensures CanStep(payload, s, pid)
  {
  }

  // ---------------------------------------------------------------------
  // Eviction always has an outcome
  // ---------------------------------------------------------------------

  lemma {:induction false} OldestAmong(m: ChunkMap, ks: set<nat>) returns (k: nat)
    requires ks != {} && ks <= m.Keys
    ensures k in ks && forall j :: j in ks ==> m[k].useSeq <= m[j].useSeq
  {
    var x :| x in ks;
    k := x;
    if ks != {x} {
      var y := OldestAmong(m, ks - {x});
      k := if m[x].useSeq < m[y].useSeq then x else y;
      forall j | j in ks ensures m[k].useSeq <= m[j].useSeq {
        assert j != x ==> j in ks - {x};
      }
    }
  }

  lemma {:induction false} EvictFrom(m: ChunkMap, left: ChunkMap) returns (r: ChunkMap)
    requires Dropped(m, left)
    ensures EvictedTo(m, r)
    decreases |left.Keys|
  {
    var ks := set k | k in left && Evictable(left[k]);
    if |left.Keys| <= MAX_CHUNKS || ks == {} {
      forall k | k in left && ks == {} ensures !Evictable(left[k]) {
        assert k !in ks;
      }
      r := left;
    } else {
      var victim := OldestAmong(left, ks);
      forall j | j in left && Evictable(left[j]) ensures left[victim].useSeq <= left[j].useSeq {
        assert j in ks;
      }
      DropVictim(m, left, victim);
      assert (left - {victim}).Keys == left.Keys - {victim};
      r := EvictFrom(m, left - {victim});
    }
  }

  lemma {:induction false} Above(ks: set<nat>) returns (n: nat)
    ensures forall k :: k in ks ==> k < n
  {
    if ks == {} {
      n := 0;
    } else {
      var k :| k in ks;
      var m := Above(ks - {k});
      n := if m > k then m else k + 1;
      forall j | j in ks ensures j < n {
        assert j != k ==> j in ks - {k};
      }
    }
  }

  // ---------------------------------------------------------------------
  // What can be done at each point
  // ---------------------------------------------------------------------

  lemma PlanCanStep(payload: seq<byte>, s: State, pid: nat)
    requires Inv(payload, s) && pid in s.procs && s.procs[pid].pc.AtPlan?
    ensures CanStep(payload, s, pid)
  {
    assert ValidProc(payload, s.procs[pid]);
    var job := s.procs[pid].job;
    PlanIsValid(payload, s.chunks, s.useSeq, job.pos, job.End(|payload|));
    var plan := PlanFetch(s.chunks, |payload|, job.pos, job.End(|payload|), HitOf(s.chunks, job.pos));
    Steps(payload, s, s.(procs := Go(s, pid, AtEnsure(plan.0, plan.1))), Local(DoPlan(pid)), pid);
  }

  lemma PickCanStep(payload: seq<byte>, s: State, pid: nat)
    requires Inv(payload, s) && pid in s.procs && s.procs[pid].pc.AtPick?
    ensures CanStep(payload, s, pid)
  {
    assert ValidProc(payload, s.procs[pid]);
    var targets := s.procs[pid].job.targets;
    if targets == [] {
      Steps(payload, s, s.(procs := Go(s, pid, AtDone(true))), Local(DoPick(pid)), pid);
    } else {
      var t := targets[0];
      var skip := t.start in s.chunks && (s.chunks[t.start].fetching || s.chunks[t.start].End() >= t.needEnd);
      var pc := if skip then AtPick else AtEnsure(t.start, t.needEnd);
      Steps(payload, s, s.(procs := s.procs[pid := Proc(PrefetchJob(targets[1..]), pc)]), Local(DoPick(pid)), pid);
    }
  }

  lemma MissLength(payload: seq<byte>, m: ChunkMap, useSeq: nat, start: nat, needEnd: int)
    requires ValidMap(payload, m, useSeq) && ValidTarget(start, needEnd, |payload|)
    requires start in m ==> !m[start].fetching && m[start].End() < needEnd
    ensures EnsuredLength(m, |payload|, start, needEnd) >= 0
  {
    if start in m {
      assert ValidChunk(payload, start, m[start]);
      RefetchGrows(payload, m[start], needEnd);
    } else {
      FetchLengthFits(start, needEnd, |payload|);
    }
  }

  lemma EnsureCanStep(payload: seq<byte>, s: State, pid: nat)
    requires Inv(payload, s) && pid in s.procs && s.procs[pid].pc.AtEnsure?
    ensures CanStep(payload, s, pid)
  {
    assert ValidProc(payload, s.procs[pid]);
    var start, needEnd := s.procs[pid].pc.start, s.procs[pid].pc.needEnd;
    if start in s.chunks && s.chunks[start].fetching {
      Steps(payload, s, s.(nextChannel := s.nextChannel + 1,
                           registered := s.registered[s.nextChannel := start],
                           procs := Go(s, pid, AtWait(start, needEnd, s.nextChannel))), Flight(DoWait(pid)), pid);
    } else if start in s.chunks && s.chunks[start].End() >= needEnd {
      Steps(payload, s, s.(useSeq := s.useSeq + 1,
                           chunks := Touched(s.chunks, start, s.useSeq + 1),
                           procs := Go(s, pid, Onward(s.procs[pid].job))), Local(DoHit(pid)), pid);
    } else {
      FetchCanStart(payload, s, pid);
    }
  }

  lemma FetchCanStart(payload: seq<byte>, s: State, pid: nat)
    requires Inv(payload, s) && pid in s.procs && s.procs[pid].pc.AtEnsure?
    requires var start := s.procs[pid].pc.start;
      start in s.chunks ==> !s.chunks[start].fetching && s.chunks[start].End() < s.procs[pid].pc.needEnd
    ensures CanStep(payload, s, pid)
  {
    assert ValidProc(payload, s.procs[pid]);
    var start, needEnd := s.procs[pid].pc.start, s.procs[pid].pc.needEnd;
    MissLength(payload, s.chunks, s.useSeq, start, needEnd);
    var length := EnsuredLength(s.chunks, |payload|, start, needEnd);
    Steps(payload, s, s.(useSeq := s.useSeq + 1,
                         chunks := s.chunks[start := Placeholder(start, |payload|, s.useSeq + 1)],
                         registered := Without(s.registered, start),
                         owner := s.owner[start := pid],
                         wins := if start in s.wins then s.wins else s.wins[start := 0],
                         procs := Go(s, pid, AtFetch(start, length))), Flight(DoFetch(pid)), pid);
  }

  lemma WaitCanStep(payload: seq<byte>, s: State, pid: nat)
    requires pid in s.procs && s.procs[pid].pc.AtWait? && s.procs[pid].pc.channel in s.closed
    ensures CanStep(payload, s, pid)
  {
    Steps(payload, s, s.(procs := Go(s, pid, AtEnsure(s.procs[pid].pc.start, s.procs[pid].pc.needEnd))),
          Local(DoWake(pid)), pid);
  }

  /** A window may arrive. */
  lemma FetchCanStep(payload: seq<byte>, s: State, pid: nat)
    requires Inv(payload, s) && pid in s.procs && s.procs[pid].pc.AtFetch?
    ensures CanStep(payload, s, pid)
  {
    assert ValidProc(payload, s.procs[pid]);
    var start, length, job := s.procs[pid].pc.start, s.procs[pid].pc.length, s.procs[pid].job;
    var child := Above(s.procs.Keys);
    var targets := if job.ReadJob? then Lookahead(start, length, |payload|) else [];
    var procs := Spawn(Go(s, pid, Onward(job)), child, targets);
    if start in s.chunks {
      var full := s.chunks[start := Filled(s.chunks[start], payload[start..start + length], s.useSeq + 1)];
      var r := EvictFrom(full, full);
      var s' := State(r, s.useSeq + 1, Without(s.registered, start), s.closed + Waiters(s.registered, start),
                      s.nextChannel, procs, s.firstRead, s.released, s.owner - {start},
                      map k | k in r && k in s.wins :: if k == start then s.wins[k] + 1 else s.wins[k]);
      assert Arrived(payload, s, s', start, length);
      Steps(payload, s, s', Flight(DoFinishOk(pid, child)), pid);
    } else {
      Steps(payload, s, s.(procs := procs), Flight(DoFinishOk(pid, child)), pid);
    }
  }

  lemma CopyCanStep(payload: seq<byte>, s: State, pid: nat)
    requires Inv(payload, s) && pid in s.procs && s.procs[pid].pc.AtCopy?
    ensures CanStep(payload, s, pid)
  {
    assert ValidProc(payload, s.procs[pid]);
    var job, size := s.procs[pid].job, |payload|;
    var hit := HitOf(s.chunks, job.pos);
    if hit.None? {
      Steps(payload, s, s.(procs := Go(s, pid, AtPlan)), Local(DoCopy(pid)), pid);
    } else {
      HitFound(s.chunks, job.pos);
      assert ValidChunk(payload, hit.value, s.chunks[hit.value]);
      var ch := s.chunks[hit.value];
      var next := Min(ch.End(), job.End(size));
      var s' := s.(useSeq := s.useSeq + 1,
                   chunks := Touched(s.chunks, hit.value, s.useSeq + 1),
                   procs := s.procs[pid := Proc(
                       job.(pos := next, got := job.got + ch.data[job.pos - ch.start..next - ch.start]),
                       if next < job.End(size) then AtPlan else AtDone(true))]);
      assert CopyFrom(size, s, s', pid, hit);
      Steps(payload, s, s', Local(DoCopy(pid)), pid);
    }
  }

  /**
    In every reachable state a process is done, or can go on without giving up,
    or waits on a channel that is not closed yet.
   */
  lemma NeverStuck(payload: seq<byte>, run: seq<State>, i: nat, pid: nat)
    requires IsRun(payload, run) && i < |run| && pid in run[i].procs
    ensures var pc := run[i].procs[pid].pc;
      pc.AtDone? || CanStep(payload, run[i], pid) || (pc.AtWait? && pc.channel !in run[i].closed)
  {
    RunInv(payload, run, i);
    var s := run[i];
    match s.procs[pid].pc
    case AtPlan => PlanCanStep(payload, s, pid);
    case AtPick => PickCanStep(payload, s, pid);
    case AtEnsure(_, _) => EnsureCanStep(payload, s, pid);
    case AtWait(_, _, channel) =>
      if channel in s.closed {
        WaitCanStep(payload, s, pid);
      }
    case AtFetch(_, _) => FetchCanStep(payload, s, pid);
    case AtCopy => CopyCanStep(payload, s, pid);
    case AtDone(_) =>
  }
}
