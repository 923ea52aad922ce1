/**
  Who waits in the chunk cache, in every reachable state, before and after the
  file is closed: a waiter is woken by the end of a fetch that is running, and
  it is stranded exactly when the file was closed while it waited.
 */
module RangeWaiters {
  import opened Common
  import opened ChunkCache
  import opened RangeProtocol

  /** An entry being fetched has a process that will report to it. */
  ghost predicate Fetched(s: State) {
    forall k :: k in s.chunks && s.chunks[k].fetching ==>
      k in s.owner && s.owner[k] in s.procs && s.procs[s.owner[k]].pc.AtFetch? && s.procs[s.owner[k]].pc.start == k
  }

  /** A registered channel is open and its entry is being fetched. */
  ghost predicate Registered(s: State) {
    && (forall c :: c in s.closed ==> c < s.nextChannel)
    && (forall c :: c in s.registered ==>
          c < s.nextChannel && c !in s.closed
          && s.registered[c] in s.chunks && s.chunks[s.registered[c]].fetching)
  }

  /** A waiter's channel was made for the start it waits for. */
  ghost predicate Waiting(s: State) {
    forall pid :: pid in s.procs && s.procs[pid].pc.AtWait? ==>
      && s.procs[pid].pc.channel < s.nextChannel
      && (s.procs[pid].pc.channel in s.registered ==> s.registered[s.procs[pid].pc.channel] == s.procs[pid].pc.start)
  }

  ghost predicate Awaited(s: State) {
    Fetched(s) && Registered(s) && Waiting(s)
  }

  // ---------------------------------------------------------------------
  // Every step keeps it
  // ---------------------------------------------------------------------

  lemma AsideAwaited(s: State, s': State)
    requires Aside(s, s') && Awaited(s)
    ensures Awaited(s')
  {
  }

  lemma WaitAwaited(s: State, s': State, pid: nat)
    requires Awaited(s) && EnsureWait(s, s', pid)
    ensures Awaited(s')
  {
    assert forall q :: q in s'.procs && q != pid ==> q in s.procs && s'.procs[q] == s.procs[q];
  }

  lemma FetchAwaited(size: int, s: State, s': State, pid: nat)
    requires Awaited(s) && EnsureFetch(size, s, s', pid)
    ensures Awaited(s')
  {
    assert forall q :: q in s'.procs && q != pid ==> q in s.procs && s'.procs[q] == s.procs[q];
  }

  /** What the end of a fetch at `start` leaves: nothing is fetched or awaited there, and the rest is as it was. */
  lemma FinishedAwaited(s: State, s': State, pid: nat, child: nat, start: nat, length: nat)
    requires Awaited(s) && (child == pid || child !in s.procs)
    requires pid in s.procs && s.procs[pid].pc.AtFetch? && s.procs[pid].pc.start == start
    requires Finished(s.chunks, s'.chunks, start, length) && MovedOn(s.procs, s'.procs, pid, child)
    requires s'.owner == s.owner - {start} && s'.nextChannel == s.nextChannel
    requires s'.registered == Without(s.registered, start)
    requires s'.closed == s.closed + Waiters(s.registered, start)
    ensures Awaited(s')
  {
  }

  /** A fetch that outlived the closing of the file finds nothing to report to. */
  lemma LostAwaited(s: State, s': State, pid: nat, child: nat)
    requires Awaited(s) && pid in s.procs && s.procs[pid].pc.AtFetch? && (child == pid || child !in s.procs)
    requires s.procs[pid].pc.start !in s.chunks && MovedOn(s.procs, s'.procs, pid, child)
    requires s' == s.(procs := s'.procs)
    ensures Awaited(s')
  {
  }

  lemma FinishOkAwaited(payload: seq<byte>, s: State, s': State, pid: nat, child: nat)
    requires Awaited(s) && FinishOk(payload, s, s', pid, child)
    ensures Awaited(s')
  {
    var start, length := s.procs[pid].pc.start, s.procs[pid].pc.length;
    FinishOkMoved(payload, s, s', pid, child);
    if start in s.chunks {
      ArrivedFrame(payload, s, s', start, length);
      FinishedAwaited(s, s', pid, child, start, length);
    } else {
      LostAwaited(s, s', pid, child);
    }
  }

  lemma FinishErrAwaited(s: State, s': State, pid: nat)
    requires Awaited(s) && FinishErr(s, s', pid)
    ensures Awaited(s')
  {
    if s.procs[pid].pc.start in s.chunks {
      ErrFrame(s, s', pid);
      FinishedAwaited(s, s', pid, pid, s.procs[pid].pc.start, 0);
    } else {
      LostAwaited(s, s', pid, pid);
    }
  }

  lemma StepAwaited(payload: seq<byte>, s: State, s': State, step: Step)
    requires Awaited(s) && NextBy(payload, s, s', step)
    ensures Awaited(s')
  {
    match step
    case Local(local) =>
      IsAside(payload, s, s', local);
      AsideAwaited(s, s');
    case Flight(flight) =>
      match flight {
        case DoWait(pid) => WaitAwaited(s, s', pid);
        case DoFetch(pid) => FetchAwaited(|payload|, s, s', pid);
        case DoFinishOk(pid, child) => FinishOkAwaited(payload, s, s', pid, child);
        case DoFinishErr(pid) => FinishErrAwaited(s, s', pid);
      }
    case DoRelease =>
  }

  lemma NextAwaited(payload: seq<byte>, s: State, s': State)
    requires Awaited(s) && Next(payload, s, s')
    ensures Awaited(s')
  {
    var step :| NextBy(payload, s, s', step);
    StepAwaited(payload, s, s', step);
  }

  /** In every reachable state, before and after `Release`. */
  lemma {:induction false} RunAwaited(payload: seq<byte>, run: seq<State>, i: nat)
    requires IsRun(payload, run) && i < |run|
    ensures Awaited(run[i])
  {
    if i > 0 {
      RunAwaited(payload, run, i - 1);
      RunStep(payload, run, i);
      NextAwaited(payload, run[i - 1], run[i]);
    }
  }

  // ---------------------------------------------------------------------
  // Main results
  // ---------------------------------------------------------------------

  /** A process that waits on a channel nobody will ever close. */
  ghost predicate Stranded(s: State, pid: nat) {
    && pid in s.procs && s.procs[pid].pc.AtWait?
    && s.procs[pid].pc.channel !in s.closed
    && s.procs[pid].pc.channel !in s.registered
  }

  /**
    A process that waits has been woken, or a running fetch of its start will
    wake it when it ends, well or badly, or it is stranded.
   */
  lemma WaitersAreWoken(payload: seq<byte>, run: seq<State>, i: nat, pid: nat)
    requires IsRun(payload, run) && i < |run|
    requires pid in run[i].procs && run[i].procs[pid].pc.AtWait? && !Stranded(run[i], pid)
    ensures var s, start, channel := run[i], run[i].procs[pid].pc.start, run[i].procs[pid].pc.channel;
      || channel in s.closed
      || (start in s.owner && s.owner[start] in s.procs
          && s.procs[s.owner[start]].pc.AtFetch? && s.procs[s.owner[start]].pc.start == start
          && (forall s', child :: FinishOk(payload, s, s', s.owner[start], child) ==> channel in s'.closed)
          && (forall s' :: FinishErr(s, s', s.owner[start]) ==> channel in s'.closed))
  {
    RunAwaited(payload, run, i);
  }

  /** Where a channel goes in a step: it stays, it is closed, or the file is closed under it. */
  ghost predicate Goes(s: State, s': State, ch: nat) {
    && s.closed <= s'.closed && s.nextChannel <= s'.nextChannel
    && (ch in s.registered ==> (ReleaseStep(s, s') <==> ch !in s'.registered && ch !in s'.closed))
    && (ch !in s.registered ==> ch !in s'.registered && (ch in s'.closed <==> ch in s.closed))
  }

  lemma FinishOkGoes(payload: seq<byte>, s: State, s': State, pid: nat, child: nat, ch: nat)
    requires Awaited(s) && FinishOk(payload, s, s', pid, child) && ch < s.nextChannel
    ensures Goes(s, s', ch)
  {
  }

  lemma FlightGoes(payload: seq<byte>, s: State, s': State, flight: FlightStep, ch: nat)
    requires Awaited(s) && NextFlight(payload, s, s', flight) && ch < s.nextChannel
    ensures Goes(s, s', ch)
  {
    match flight
    case DoFinishOk(pid, child) => FinishOkGoes(payload, s, s', pid, child, ch);
    case _ =>
  }

  lemma StepGoes(payload: seq<byte>, s: State, s': State, step: Step, ch: nat)
    requires Awaited(s) && NextBy(payload, s, s', step) && ch < s.nextChannel
    ensures Goes(s, s', ch)
  {
    match step
    case Local(local) => IsAside(payload, s, s', local);
    case Flight(flight) => FlightGoes(payload, s, s', flight, ch);
    case DoRelease =>
  }

  lemma NextGoes(payload: seq<byte>, s: State, s': State, ch: nat)
    requires Awaited(s) && Next(payload, s, s') && ch < s.nextChannel
    ensures Goes(s, s', ch)
  {
    var step :| NextBy(payload, s, s', step);
    StepGoes(payload, s, s', step, ch);
  }

  /**
    A process that goes on waiting is stranded after a step exactly when it was
    before, or when the step closes the file while it waits.
   */
  lemma StrandedBy(payload: seq<byte>, s: State, s': State, pid: nat)
    requires Awaited(s) && Next(payload, s, s')
    requires pid in s.procs && s.procs[pid].pc.AtWait? && pid in s'.procs && s'.procs[pid] == s.procs[pid]
    ensures Stranded(s', pid) <==>
            Stranded(s, pid) || (ReleaseStep(s, s') && s.procs[pid].pc.channel in s.registered)
  {
    NextGoes(payload, s, s', s.procs[pid].pc.channel);
  }

  /** One step makes at most one channel, and registers it. */
  ghost predicate Makes(s: State, s': State) {
    || s'.nextChannel == s.nextChannel
    || (s'.nextChannel == s.nextChannel + 1 && s.nextChannel in s'.registered)
  }

  lemma StepMakes(payload: seq<byte>, s: State, s': State, step: Step)
    requires NextBy(payload, s, s', step)
    ensures Makes(s, s')
  {
    match step
    case Local(local) => IsAside(payload, s, s', local);
    case Flight(flight) =>
      if flight.DoFinishOk? {
        FinishOkMakes(payload, s, s', flight.pid, flight.child);
      }
    case DoRelease =>
  }

  lemma FinishOkMakes(payload: seq<byte>, s: State, s': State, pid: nat, child: nat)
    requires FinishOk(payload, s, s', pid, child)
    ensures s'.nextChannel == s.nextChannel
  {
  }

  lemma NextMakes(payload: seq<byte>, s: State, s': State)
    requires Next(payload, s, s')
    ensures Makes(s, s')
  {
    var step :| NextBy(payload, s, s', step);
    StepMakes(payload, s, s', step);
  }

  /** The file was closed between states `i` and `i + 1` while `ch` was registered. */
  ghost predicate ClosedUnder(run: seq<State>, i: nat, ch: nat)
    requires i + 1 < |run|
  {
    ReleaseStep(run[i], run[i + 1]) && ch in run[i].registered
  }

  ghost predicate ClosedBefore(run: seq<State>, n: nat, ch: nat)
    requires n < |run|
  {
    exists i {:trigger ClosedUnder(run, i, ch)} :: 0 <= i < n && ClosedUnder(run, i, ch)
  }

  lemma ClosedOneMore(run: seq<State>, n: nat, ch: nat)
    requires n + 1 < |run|
    ensures ClosedBefore(run, n + 1, ch) <==> ClosedBefore(run, n, ch) || ClosedUnder(run, n, ch)
  {
  }

  lemma RunMakes(payload: seq<byte>, run: seq<State>, i: nat)
    requires IsRun(payload, run) && i + 1 < |run|
    ensures Makes(run[i], run[i + 1])
  {
    RunStep(payload, run, i + 1);
    NextMakes(payload, run[i], run[i + 1]);
  }

  /** What the i-th step of a run does with the channel `ch`. */
  lemma RunGoes(payload: seq<byte>, run: seq<State>, i: nat, ch: nat)
    requires IsRun(payload, run) && i + 1 < |run|
    ensures run[i].nextChannel <= run[i + 1].nextChannel
    ensures ch in run[i].registered ==> ch < run[i].nextChannel
    ensures ch < run[i].nextChannel ==> Goes(run[i], run[i + 1], ch)
    ensures run[i].nextChannel <= ch < run[i + 1].nextChannel ==> ch in run[i + 1].registered
  {
    RunAwaited(payload, run, i);
    RunMakes(payload, run, i);
    RunStep(payload, run, i + 1);
    if ch < run[i].nextChannel {
      NextGoes(payload, run[i], run[i + 1], ch);
    }
  }

  ghost predicate Grows(run: seq<State>, i: nat)
    requires i + 1 < |run|
  {
    run[i].nextChannel <= run[i + 1].nextChannel
  }

  lemma {:induction false} ChannelsGrow(run: seq<State>, i: nat, n: nat)
    requires i <= n < |run| && forall m :: i <= m < n ==> Grows(run, m)
    ensures run[i].nextChannel <= run[n].nextChannel
    decreases n - i
  {
    if i < n {
      ChannelsGrow(run, i, n - 1);
      assert Grows(run, n - 1);
    }
  }

  lemma NewNotClosed(payload: seq<byte>, run: seq<State>, n: nat, ch: nat)
    requires IsRun(payload, run) && n + 1 < |run| && run[n].nextChannel <= ch
    ensures !ClosedBefore(run, n + 1, ch)
  {
    forall i | 0 <= i <= n ensures !ClosedUnder(run, i, ch) {
      forall m | i <= m < n ensures Grows(run, m) {
        RunGoes(payload, run, m, ch);
      }
      ChannelsGrow(run, i, n);
      RunGoes(payload, run, i, ch);
    }
  }

  lemma {:induction false} ChannelLost(payload: seq<byte>, run: seq<State>, n: nat, ch: nat)
    requires IsRun(payload, run) && n < |run| && ch < run[n].nextChannel
    ensures ch !in run[n].closed && ch !in run[n].registered <==> ClosedBefore(run, n, ch)
  {
    if n > 0 {
      RunGoes(payload, run, n - 1, ch);
      ClosedOneMore(run, n - 1, ch);
      if ch < run[n - 1].nextChannel {
        ChannelLost(payload, run, n - 1, ch);
      } else {
        NewNotClosed(payload, run, n - 1, ch);
      }
    }
  }

  /**
    In every run a waiting process is stranded exactly when the file was closed
    while it waited.
   */
  lemma StrandedIff(payload: seq<byte>, run: seq<State>, n: nat, pid: nat)
    requires IsRun(payload, run) && n < |run| && pid in run[n].procs && run[n].procs[pid].pc.AtWait?
    ensures Stranded(run[n], pid) <==> ClosedBefore(run, n, run[n].procs[pid].pc.channel)
  {
    RunAwaited(payload, run, n);
    ChannelLost(payload, run, n, run[n].procs[pid].pc.channel);
  }

  /** Closing the file strands every waiter that has not been woken. */
  lemma ReleaseStrandsWaiters(payload: seq<byte>, run: seq<State>, i: nat, s': State, pid: nat)
    requires IsRun(payload, run) && i < |run| && ReleaseStep(run[i], s')
    requires pid in run[i].procs && run[i].procs[pid].pc.AtWait? && run[i].procs[pid].pc.channel !in run[i].closed
    ensures Stranded(s', pid)
  {
  }

  // A run that strands a reader

  lemma Extend(payload: seq<byte>, run: seq<State>, s: State, s': State, step: Step) returns (run': seq<State>)
    requires IsRun(payload, run) && run[|run| - 1] == s && NextBy(payload, s, s', step)
    ensures IsRun(payload, run') && run'[|run'| - 1] == s'
  {
    run' := run + [s'];
    forall i | 0 <= i < |run'| - 1 ensures StepAt(payload, run', i) {
      assert i < |run| - 1 ==> StepAt(payload, run, i);
    }
  }

  /** A reader of a one-byte file comes to ask for its only chunk, which is not there yet. */
  lemma ReaderAsks(run: seq<State>, s: State, pid: nat) returns (run': seq<State>, s': State)
    requires IsRun([0], run) && run[|run| - 1] == s && pid !in s.procs && pid + 1 !in s.procs
    requires forall k :: k in s.chunks ==> s.chunks[k].fetching
    ensures IsRun([0], run') && run'[|run'| - 1] == s'
    ensures s' == s.(firstRead := true, procs := s.procs[pid := Proc(ReadJob(0, 1, 0, []), AtEnsure(0, 1))])
  {
    var payload: seq<byte> := [0];
    var s1 := s.(firstRead := true, procs := s.procs[pid := Proc(ReadJob(0, 1, 0, []), AtPlan)]);
    run' := Extend(payload, run, s, s1, Local(DoStartRead(pid, pid + 1, 0, 1)));
    assert HitOf(s1.chunks, 0).None?;
    assert PlanFetch(s1.chunks, 1, 0, 1, None) == (0, 1);
    s' := s1.(procs := Go(s1, pid, AtEnsure(0, 1)));
    run' := Extend(payload, run', s1, s', Local(DoPlan(pid)));
  }

  /** One reader fetches, another waits for it, and the file is closed: the second one waits for nothing. */
  lemma StrandedIsReachable() returns (payload: seq<byte>, run: seq<State>, pid: nat)
    ensures IsRun(payload, run) && Stranded(run[|run| - 1], pid)
  {
    var s := State(map[], 0, map[], {}, 0, map[], false, false, map[], map[]);
    payload, run, pid := [0], [s], 2;
    run, s := ReaderAsks(run, s, 0);
    var s1 := s.(useSeq := 1, chunks := map[0 := Placeholder(0, 1, 1)], registered := Without(s.registered, 0),
                 owner := s.owner[0 := 0], wins := s.wins[0 := 0], procs := Go(s, 0, AtFetch(0, 1)));
    run := Extend(payload, run, s, s1, Flight(DoFetch(0)));
    run, s := ReaderAsks(run, s1, 2);
    var s2 := s.(nextChannel := 1, registered := s.registered[0 := 0], procs := Go(s, 2, AtWait(0, 1, 0)));
    run := Extend(payload, run, s, s2, Flight(DoWait(2)));
    var s3 := s2.(chunks := map[], useSeq := 0, registered := map[], owner := map[], wins := map[], released := true);
    run := Extend(payload, run, s2, s3, DoRelease);
  }

  /** No step but its own cancellation moves a stranded process. */
  lemma StrandedStays(payload: seq<byte>, s: State, s': State, step: Step, pid: nat)
    requires Awaited(s) && Stranded(s, pid) && NextBy(payload, s, s', step) && step != Local(DoCancel(pid))
    ensures Stranded(s', pid)
  {
    StepGoes(payload, s, s', step, s.procs[pid].pc.channel);
    match step
    case Local(local) => LocalMoves(payload, s, s', local, pid);
    case Flight(flight) => FlightMoves(payload, s, s', flight, pid);
    case DoRelease =>
  }

  lemma FlightMoves(payload: seq<byte>, s: State, s': State, flight: FlightStep, pid: nat)
    requires NextFlight(payload, s, s', flight) && pid in s.procs && s.procs[pid].pc.AtWait?
    ensures pid in s'.procs && s'.procs[pid] == s.procs[pid]
  {
    if flight.DoFinishOk? {
      FinishOkMoved(payload, s, s', flight.pid, flight.child);
    }
  }

  lemma CopyMoves(size: int, s: State, s': State, p: nat, hit: Option<nat>, pid: nat)
    requires p in s.procs && s.procs[p].job.ReadJob? && CopyFrom(size, s, s', p, hit)
    requires pid in s.procs && p != pid
    ensures pid in s'.procs && s'.procs[pid] == s.procs[pid]
  {
  }

  lemma PlanMoves(size: int, s: State, s': State, p: nat, pid: nat)
    requires PlanStep(size, s, s', p) && pid in s.procs && p != pid
    ensures pid in s'.procs && s'.procs[pid] == s.procs[pid]
  {
  }

  lemma LocalMoves(payload: seq<byte>, s: State, s': State, step: LocalStep, pid: nat)
    requires NextLocal(payload, s, s', step) && pid in s.procs
    requires step.DoStartRead? || step.pid != pid
    ensures pid in s'.procs && s'.procs[pid] == s.procs[pid]
  {
    match step
    case DoPlan(p) => PlanMoves(|payload|, s, s', p, pid);
    case DoCopy(p) => CopyMoves(|payload|, s, s', p, HitOf(s.chunks, s.procs[p].job.pos), pid);
    case _ =>
  }
}
