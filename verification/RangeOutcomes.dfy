/** How the reads and the background fetches of a ranged file end, step by step. */
module RangeOutcomes {
  import opened Common
  import opened ChunkCache
  import opened RangeProtocol
  import RangeWaiters

  /** The process that takes a step, unless the step closes the file or begins a read. */
  function Actor(step: Step): Option<nat> {
    match step
    case Local(local) => if local.DoStartRead? then None else Some(local.pid)
    case Flight(flight) => Some(flight.pid)
    case DoRelease => None
  }

  lemma OthersStay(payload: seq<byte>, s: State, s': State, step: Step, q: nat)
    requires NextBy(payload, s, s', step) && q in s.procs && Actor(step) != Some(q)
    ensures q in s'.procs && s'.procs[q] == s.procs[q]
  {
    match step
    case Local(local) => RangeWaiters.LocalMoves(payload, s, s', local, q);
    case Flight(flight) =>
      if flight.DoFinishOk? {
        FinishOkMoved(payload, s, s', flight.pid, flight.child);
      }
    case DoRelease =>
  }

  lemma FinishOkMoves(payload: seq<byte>, s: State, s': State, pid: nat, child: nat)
    requires FinishOk(payload, s, s', pid, child)
    ensures pid in s'.procs
    ensures s'.procs[pid] == Proc(s.procs[pid].job, if s.procs[pid].job.ReadJob? then AtCopy else AtPick)
  {
  }

  lemma CopyMoves(size: int, s: State, s': State, pid: nat, hit: Option<nat>)
    requires pid in s.procs && s.procs[pid].job.ReadJob? && CopyFrom(size, s, s', pid, hit)
    ensures pid in s'.procs && s'.procs[pid].job.ReadJob?
    ensures s'.procs[pid].pc.AtPlan? || s'.procs[pid].pc == AtDone(true)
  {
  }

  /** What a process that takes a step on its own does next. */
  lemma LocalNext(payload: seq<byte>, s: State, s': State, step: LocalStep, pid: nat)
    requires NextLocal(payload, s, s', step) && !step.DoStartRead? && step.pid == pid
    ensures pid in s.procs && pid in s'.procs && (s'.procs[pid].job.ReadJob? <==> s.procs[pid].job.ReadJob?)
    ensures !s.procs[pid].pc.AtDone?
    ensures s'.procs[pid].pc == AtDone(false) ==> step.DoCancel?
    ensures step.DoCancel? ==> s'.procs[pid].pc == if s.procs[pid].job.ReadJob? then AtDone(false) else AtPick
    ensures step.DoWake? ==>
              s'.procs[pid].pc == AtEnsure(s.procs[pid].pc.start, s.procs[pid].pc.needEnd)
    ensures s.procs[pid].job.PrefetchJob? && s'.procs[pid].pc.AtDone? ==>
              step.DoPick? && s.procs[pid].job.targets == []
    ensures s.procs[pid].job.PrefetchJob? && !step.DoPick? ==> s'.procs[pid].job == s.procs[pid].job
  {
    match step
    case DoCopy(p) => CopyMoves(|payload|, s, s', p, HitOf(s.chunks, s.procs[p].job.pos));
    case _ =>
  }

  lemma FlightNext(payload: seq<byte>, s: State, s': State, step: FlightStep, pid: nat)
    requires NextFlight(payload, s, s', step) && step.pid == pid
    ensures pid in s.procs && pid in s'.procs && s'.procs[pid].job == s.procs[pid].job && !s.procs[pid].pc.AtDone?
    ensures s'.procs[pid].pc == AtDone(false) <==> step.DoFinishErr? && s.procs[pid].job.ReadJob?
    ensures s'.procs[pid].pc != AtDone(true)
  {
    match step
    case DoFinishOk(p, child) => FinishOkMoves(payload, s, s', p, child);
    case _ =>
  }

  /** A read fails exactly when the request it made itself fails or it is cancelled while it waits for another's. */
  lemma ReadFails(payload: seq<byte>, s: State, s': State, step: Step, pid: nat)
    requires NextBy(payload, s, s', step) && pid in s.procs && s.procs[pid].job.ReadJob?
    ensures pid in s'.procs
    ensures s'.procs[pid].pc == AtDone(false) <==>
            s.procs[pid].pc == AtDone(false) || step == Flight(DoFinishErr(pid)) || step == Local(DoCancel(pid))
  {
    if Actor(step) == Some(pid) {
      match step
      case Local(local) => LocalNext(payload, s, s', local, pid);
      case Flight(flight) => FlightNext(payload, s, s', flight, pid);
    } else {
      OthersStay(payload, s, s', step, pid);
    }
  }

  lemma BackgroundActs(payload: seq<byte>, s: State, s': State, step: Step, pid: nat)
    requires NextBy(payload, s, s', step) && pid in s.procs && s.procs[pid].job.PrefetchJob?
    requires Actor(step) == Some(pid)
    ensures pid in s'.procs && s'.procs[pid].job.PrefetchJob?
    ensures s'.procs[pid].pc.AtDone? ==> step == Local(DoPick(pid)) && s.procs[pid].job.targets == []
    ensures step != Local(DoPick(pid)) ==> s'.procs[pid].job == s.procs[pid].job
  {
    match step
    case Local(local) => LocalNext(payload, s, s', local, pid);
    case Flight(flight) => FlightNext(payload, s, s', flight, pid);
  }

  /**
    A background fetch ends only once it has seen to all its targets, whatever
    fails meanwhile, and it gives up none of them except by taking the next one.
   */
  lemma BackgroundGoesOn(payload: seq<byte>, s: State, s': State, step: Step, pid: nat)
    requires NextBy(payload, s, s', step) && pid in s.procs && s.procs[pid].job.PrefetchJob?
    ensures pid in s'.procs && s'.procs[pid].job.PrefetchJob?
    ensures s'.procs[pid].pc.AtDone? ==>
              s.procs[pid].pc.AtDone? || (step == Local(DoPick(pid)) && s.procs[pid].job.targets == [])
    ensures step != Local(DoPick(pid)) ==> s'.procs[pid].job == s.procs[pid].job
  {
    if Actor(step) == Some(pid) {
      BackgroundActs(payload, s, s', step, pid);
    } else {
      OthersStay(payload, s, s', step, pid);
    }
  }

  /** It takes its targets in order, and passes over one just if its entry is being fetched or reaches far enough. */
  lemma TargetsInOrder(s: State, s': State, pid: nat)
    requires PickStep(s, s', pid) && s.procs[pid].job.targets != []
    ensures var targets, t := s.procs[pid].job.targets, s.procs[pid].job.targets[0];
      && pid in s'.procs && s'.procs[pid].job == PrefetchJob(targets[1..])
      && s'.procs[pid].pc ==
         if t.start in s.chunks
            && (s.chunks[t.start].fetching || s.chunks[t.start].start + |s.chunks[t.start].data| >= t.needEnd)
         then AtPick else AtEnsure(t.start, t.needEnd)
  {
  }

  /** A process that is woken asks again for what it waited for. */
  lemma WokenAsksAgain(payload: seq<byte>, s: State, s': State, pid: nat)
    requires NextBy(payload, s, s', Local(DoWake(pid)))
    ensures s'.procs[pid].pc == AtEnsure(s.procs[pid].pc.start, s.procs[pid].pc.needEnd)
  {
    LocalNext(payload, s, s', DoWake(pid), pid);
  }
}
