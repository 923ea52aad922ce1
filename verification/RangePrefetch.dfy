/** Which steps start a background fetch of a ranged file, and of what. */
module RangePrefetch {
  import opened Common
  import opened ChunkCache
  import opened RangeProtocol
  import opened RangeWindows

  /** The process is a new one that fetches in the background. */
  ghost predicate Starts(s: State, s': State, q: nat) {
    q !in s.procs && q in s'.procs && s'.procs[q].job.PrefetchJob?
  }

  /** The first read of a file of more than 8 MiB, from its beginning, starts a fetch of its last 512 KiB block. */
  lemma FirstReadWarmsTail(size: nat, s: State, s': State, pid: nat, child: nat, off: nat, len: nat, q: nat)
    requires StartRead(size, s, s', pid, child, off, len)
    ensures s'.procs[pid].job.ReadJob? && s'.firstRead
    ensures Starts(s, s', q) <==> q == child && !s.firstRead && off == 0 && size > 0x80_0000
    ensures Starts(s, s', q) ==>
              var targets := s'.procs[q].job.targets;
              && |targets| == 1 && targets[0].needEnd == size
              && targets[0].start % 0x8_0000 == 0 && targets[0].start < size <= targets[0].start + 0x8_0000
  {
    TailIsLastBlock(size);
  }

  /** Of the fetches that end well, just a reader's of 4 MiB is followed by one of the next 8 MiB of the file. */
  lemma FullWindowIsFollowed(payload: seq<byte>, s: State, s': State, pid: nat, child: nat, q: nat, x: int)
    requires FinishOk(payload, s, s', pid, child)
    ensures var pc, size := s.procs[pid].pc, |payload|;
      && (Starts(s, s', q) <==>
            q == child && s.procs[pid].job.ReadJob? && pc.length == 0x40_0000 && pc.start + 0x40_0000 < size)
      && (Starts(s, s', q) ==>
            (Within(s'.procs[q].job.targets, x) <==> pc.start + 0x40_0000 <= x < pc.start + 0xC0_0000 && x < size))
  {
    LookaheadCovers(s.procs[pid].pc.start, s.procs[pid].pc.length, |payload|, x);
    FinishOkProcesses(payload, s, s', pid, child);
  }

  lemma FinishOkProcesses(payload: seq<byte>, s: State, s': State, pid: nat, child: nat)
    requires FinishOk(payload, s, s', pid, child)
    ensures var pc, job := s.procs[pid].pc, s.procs[pid].job;
      s'.procs == Spawn(Go(s, pid, Onward(job)), child,
                        if job.ReadJob? then Lookahead(pc.start, pc.length, |payload|) else [])
  {
  }

  /** No other step starts one; in particular background fetches start none. */
  lemma OthersStartNone(payload: seq<byte>, s: State, s': State, step: Step, q: nat)
    requires NextBy(payload, s, s', step)
    requires !(step.Local? && step.local.DoStartRead?) && !(step.Flight? && step.flight.DoFinishOk?)
    ensures !Starts(s, s', q)
  {
    match step
    case Local(local) => LocalStartsNone(payload, s, s', local, q);
    case Flight(flight) =>
    case DoRelease =>
  }

  lemma LocalStartsNone(payload: seq<byte>, s: State, s': State, step: LocalStep, q: nat)
    requires NextLocal(payload, s, s', step) && !step.DoStartRead?
    ensures !Starts(s, s', q)
  {
    match step
    case DoCopy(pid) => CopyStartsNone(|payload|, s, s', pid, HitOf(s.chunks, s.procs[pid].job.pos), q);
    case _ =>
  }

  lemma CopyStartsNone(size: int, s: State, s': State, pid: nat, hit: Option<nat>, q: nat)
    requires pid in s.procs && s.procs[pid].job.ReadJob? && CopyFrom(size, s, s', pid, hit)
    ensures !Starts(s, s', q)
  {
  }
}
