/**
  The scan cache under every interleaving of scans, listings, invalidations and
  the passing of time. One caller at a time scans a container; the others wait
  for it and then read the cache. Every critical section is one step.

  `from`, `leader`, `started`, `dropped` and the entries of a successful flight
  are history: no step depends on them.
 */
module ScanProtocol {
  import opened Common
  import opened Paths
  import opened Listing
  import opened ListingIndex

  datatype Outcome = Ok(entries: seq<SearchEntry>, at: nat) | Err(message: string)

  datatype Cached = Cached(at: nat, entries: seq<SearchEntry>, trie: Index, from: nat)

  datatype Flight = Flight(
    key: string,
    done: bool,
    outcome: Option<Outcome>,
    leader: nat,
    started: nat,
    dropped: bool)
  {
    predicate Succeeded() {
      outcome.Some? && outcome.value.Ok?
    }
  }

  datatype Answer =
    | Entries(entries: seq<SearchEntry>, from: nat)
    | Nothing(from: nat)
    | ScanFailed(message: string, from: nat)
    | Listed(out: seq<DirEntry>, from: nat)

  datatype Job = ScanJob(key: string) | ListJob(key: string, prefix: string, again: bool)

  datatype Pc =
    | AtPeek(now: nat)
    | AtEnter(now: nat)
    | AtWait(flight: nat)
    | AtReload(flight: nat)
    | AtScan(flight: nat)
    | AtClose(flight: nat)
    | AtReread
    | AtDone(answer: Answer)

  datatype Proc = Proc(job: Job, pc: Pc)

  datatype Sys = Sys(
    cache: map<string, Cached>,
    inflight: map<string, nat>,
    flights: map<nat, Flight>,
    procs: map<nat, Proc>,
    clock: nat)

  ghost predicate Init(s: Sys) {
    s.cache == map[] && s.inflight == map[] && s.flights == map[] && s.procs == map[]
  }

  function Go(s: Sys, pid: nat, pc: Pc): map<nat, Proc>
    requires pid in s.procs
  {
    s.procs[pid := s.procs[pid].(pc := pc)]
  }

  predicate Fresh(s: Sys, key: string, now: nat) {
    key in s.cache && now - s.cache[key].at < SCAN_TTL
  }

  /** What a cached scan lists under a prefix: the trie's answer, else the linear scan's if that is not empty. */
  function CachedListing(ent: Cached, prefix: string): seq<DirEntry> {
    var norm := NormalizePrefix(prefix);
    WithFallback(ListIndex(ent.trie, PrefixSegments(norm)), ent.entries, norm)
  }

  /** Where a caller goes on once its scan has answered. */
  function Return(job: Job, answer: Answer): Pc {
    if job.ScanJob? || answer.ScanFailed? then AtDone(answer)
    else if !job.again then AtReread
    else
      var entries := if answer.Entries? then answer.entries else [];
      AtDone(Listed(LinearListing(entries, NormalizePrefix(job.prefix)), answer.from))
  }

  // ---------------------------------------------------------------------
  // Steps
  // ---------------------------------------------------------------------

  ghost predicate Tick(s: Sys, s': Sys) {
    s.clock <= s'.clock && s' == s.(clock := s'.clock)
  }

  ghost predicate Start(s: Sys, s': Sys, pid: nat, job: Job) {
    && pid !in s.procs && (job.ListJob? ==> !job.again)
    && s' == s.(procs := s.procs[pid := Proc(job, if job.ListJob? then AtPeek(s.clock) else AtEnter(s.clock))])
  }

  ghost predicate Peek(s: Sys, s': Sys, pid: nat) {
    && pid in s.procs && s.procs[pid].pc.AtPeek? && s.procs[pid].job.ListJob?
    && var job := s.procs[pid].job;
       s' == s.(procs := Go(s, pid,
         if Fresh(s, job.key, s.procs[pid].pc.now) then
           AtDone(Listed(CachedListing(s.cache[job.key], job.prefix), s.cache[job.key].from))
         else AtEnter(s.clock)))
  }

  /** A fresh cache entry answers; else a running scan is joined; else a new one is led. */
  ghost predicate Enter(s: Sys, s': Sys, pid: nat, flight: nat) {
    && pid in s.procs && s.procs[pid].pc.AtEnter?
    && var job := s.procs[pid].job;
       var key := job.key;
       if Fresh(s, key, s.procs[pid].pc.now) then
         s' == s.(procs := Go(s, pid, Return(job, Entries(s.cache[key].entries, s.cache[key].from))))
       else if key in s.inflight then
         s' == s.(procs := Go(s, pid, AtWait(s.inflight[key])))
       else
         && flight !in s.flights
         && s' == s.(inflight := s.inflight[key := flight],
                     flights := s.flights[flight := Flight(key, false, None, pid, s.clock, false)],
                     procs := Go(s, pid, AtScan(flight)))
  }

  ghost predicate Wake(s: Sys, s': Sys, pid: nat) {
    && pid in s.procs && s.procs[pid].pc.AtWait?
    && var f := s.procs[pid].pc.flight;
       && f in s.flights && s.flights[f].done
       && s' == s.(procs := Go(s, pid, AtReload(f)))
  }

  /** A follower reads whatever is cached by now; with nothing cached it returns the flight's error, if any. */
  ghost predicate Reload(s: Sys, s': Sys, pid: nat) {
    && pid in s.procs && s.procs[pid].pc.AtReload? && s.procs[pid].pc.flight in s.flights
    && s' == s.(procs := Go(s, pid, Return(s.procs[pid].job, FollowerAnswer(s, pid))))
  }

  function FollowerAnswer(s: Sys, pid: nat): Answer
    requires pid in s.procs && s.procs[pid].pc.AtReload? && s.procs[pid].pc.flight in s.flights
  {
    var f := s.procs[pid].pc.flight;
    var key := s.procs[pid].job.key;
    if key in s.cache then Entries(s.cache[key].entries, s.cache[key].from)
    else if s.flights[f].outcome.Some? && s.flights[f].outcome.value.Err? then
      ScanFailed(s.flights[f].outcome.value.message, f)
    else Nothing(f)
  }

  /** The leader's scan ended: publish it, or set the error; the record goes away. */
  ghost predicate Publish(s: Sys, s': Sys, pid: nat, outcome: Outcome, trie: Index) {
    && pid in s.procs && s.procs[pid].pc.AtScan? && s.procs[pid].pc.flight in s.flights
    && var f := s.procs[pid].pc.flight;
       var key := s.procs[pid].job.key;
       && (outcome.Ok? ==> outcome.at == s.clock && trie == IndexOf(Items(outcome.entries)))
       && s' == s.(cache := if outcome.Ok? then s.cache[key := Cached(s.clock, outcome.entries, trie, f)] else s.cache,
                   inflight := s.inflight - {key},
                   flights := s.flights[f := s.flights[f].(outcome := Some(outcome))],
                   procs := Go(s, pid, AtClose(f)))
  }

  /** Outside the lock the leader closes `done` and returns its own result. */
  ghost predicate Close(s: Sys, s': Sys, pid: nat) {
    && pid in s.procs && s.procs[pid].pc.AtClose? && s.procs[pid].pc.flight in s.flights
    && var f := s.procs[pid].pc.flight;
       && s.flights[f].outcome.Some?
       && var outcome := s.flights[f].outcome.value;
          var answer := if outcome.Ok? then Entries(outcome.entries, f) else ScanFailed(outcome.message, f);
          s' == s.(flights := s.flights[f := s.flights[f].(done := true)],
                   procs := Go(s, pid, Return(s.procs[pid].job, answer)))
  }

  /** A listing whose scan returned reads the cache, or scans once more when it is empty. */
  ghost predicate Reread(s: Sys, s': Sys, pid: nat) {
    && pid in s.procs && s.procs[pid].pc.AtReread? && s.procs[pid].job.ListJob?
    && var job := s.procs[pid].job;
       s' == s.(procs := s.procs[pid :=
         if job.key in s.cache then
           Proc(job, AtDone(Listed(CachedListing(s.cache[job.key], job.prefix), s.cache[job.key].from)))
         else
           Proc(job.(again := true), AtEnter(s.clock))])
  }

  function Drop(flights: map<nat, Flight>, key: string): map<nat, Flight> {
    map f | f in flights ::
      if flights[f].key == key && flights[f].Succeeded() then flights[f].(dropped := true) else flights[f]
  }

  ghost predicate Invalidate(s: Sys, s': Sys, key: string) {
    s' == s.(cache := s.cache - {key}, flights := Drop(s.flights, key))
  }

  datatype Step =
    | DoTick
    | DoStart(pid: nat, job: Job)
    | DoPeek(pid: nat)
    | DoEnter(pid: nat, flight: nat)
    | DoWake(pid: nat)
    | DoReload(pid: nat)
    | DoPublish(pid: nat, outcome: Outcome, trie: Index)
    | DoClose(pid: nat)
    | DoReread(pid: nat)
    | DoInvalidate(key: string)

  ghost predicate NextBy(s: Sys, s': Sys, step: Step) {
    match step
    case DoTick => Tick(s, s')
    case DoStart(pid, job) => Start(s, s', pid, job)
    case DoPeek(pid) => Peek(s, s', pid)
    case DoEnter(pid, flight) => Enter(s, s', pid, flight)
    case DoWake(pid) => Wake(s, s', pid)
    case DoReload(pid) => Reload(s, s', pid)
    case DoPublish(pid, outcome, trie) => Publish(s, s', pid, outcome, trie)
    case DoClose(pid) => Close(s, s', pid)
    case DoReread(pid) => Reread(s, s', pid)
    case DoInvalidate(key) => Invalidate(s, s', key)
  }

  ghost predicate IsRun(run: seq<Sys>, steps: seq<Step>) {
    && |run| == |steps| + 1 && Init(run[0])
    && forall i {:trigger StepAt(run, steps, i)} :: 0 <= i < |steps| ==> StepAt(run, steps, i)
  }

  ghost predicate StepAt(run: seq<Sys>, steps: seq<Step>, i: nat)
    requires i < |steps| && |run| == |steps| + 1
  {
    NextBy(run[i], run[i + 1], steps[i])
  }

  // ---------------------------------------------------------------------
  // What holds in every reachable state
  // ---------------------------------------------------------------------

  /** The entries of flight `from`, which scanned `key`. */
  ghost predicate Scanned(s: Sys, key: string, entries: seq<SearchEntry>, from: nat) {
    && from in s.flights && s.flights[from].key == key
    && s.flights[from].Succeeded() && s.flights[from].outcome.value.entries == entries
  }

  ghost predicate LedBy(s: Sys, f: nat, fl: Flight) {
    && fl.leader in s.procs && s.procs[fl.leader].job.key == fl.key
    && s.procs[fl.leader].pc == (if fl.outcome.None? then AtScan(f) else AtClose(f))
  }

  /** What a successful flight published is still cached, replaced by something later, or dropped. */
  ghost predicate CachedSince(s: Sys, fl: Flight)
    requires fl.Succeeded()
  {
    && fl.started <= fl.outcome.value.at <= s.clock
    && (if fl.key in s.cache then fl.outcome.value.at <= s.cache[fl.key].at else fl.dropped)
  }

  /** A flight is either led by a scanning caller and recorded, or published, and then closed once. */
  ghost predicate FlightInv(s: Sys, f: nat)
    requires f in s.flights
  {
    var fl := s.flights[f];
    && fl.started <= s.clock
    && (fl.outcome.None? <==> fl.key in s.inflight && s.inflight[fl.key] == f)
    && (!fl.done ==> LedBy(s, f, fl))
    && (fl.done ==> fl.outcome.Some?)
    && (fl.Succeeded() ==> CachedSince(s, fl))
    && (fl.key in s.cache ==> s.cache[fl.key].at >= fl.started || s.cache[fl.key].at + SCAN_TTL <= fl.started)
  }

  ghost predicate CachedInv(s: Sys, key: string)
    requires key in s.cache
  {
    var ent := s.cache[key];
    && ent.trie == IndexOf(Items(ent.entries))
    && Scanned(s, key, ent.entries, ent.from) && s.flights[ent.from].outcome.value.at == ent.at
  }

  /** An answer is a whole scan, the listing of one, the error of one, or empty-handed after an invalidation. */
  ghost predicate Honest(s: Sys, job: Job, answer: Answer) {
    && answer.from in s.flights && s.flights[answer.from].key == job.key
    && var fl := s.flights[answer.from];
       match answer
       case Entries(entries, from) => Scanned(s, job.key, entries, from)
       case Nothing(from) => fl.Succeeded() && fl.dropped
       case ScanFailed(message, from) => fl.outcome == Some(Err(message))
       case Listed(out, from) =>
         && job.ListJob? && fl.Succeeded()
         && (|| out == TrieListing(Items(fl.outcome.value.entries), PrefixSegments(job.prefix))
             || (job.again && out == LinearListing(fl.outcome.value.entries, NormalizePrefix(job.prefix)))
             || (job.again && out == [] && fl.dropped))
  }

  ghost predicate ProcInv(s: Sys, pid: nat)
    requires pid in s.procs
  {
    var job := s.procs[pid].job;
    match s.procs[pid].pc
    case AtPeek(now) => now <= s.clock && job.ListJob?
    case AtEnter(now) => now <= s.clock
    case AtWait(f) => f in s.flights && s.flights[f].key == job.key
    case AtReload(f) => f in s.flights && s.flights[f].key == job.key && s.flights[f].done
    case AtScan(f) => f in s.flights && s.flights[f].leader == pid && s.flights[f].outcome.None?
    case AtClose(f) => f in s.flights && s.flights[f].leader == pid && s.flights[f].outcome.Some? && !s.flights[f].done
    case AtReread => job.ListJob? && !job.again
    case AtDone(answer) => Honest(s, job, answer)
  }

  ghost predicate Inv(s: Sys) {
    && (forall k :: k in s.inflight ==> s.inflight[k] in s.flights && s.flights[s.inflight[k]].key == k)
    && (forall f :: f in s.flights ==> FlightInv(s, f))
    && (forall k :: k in s.cache ==> CachedInv(s, k))
    && (forall pid :: pid in s.procs ==> ProcInv(s, pid))
  }

  /** What a step may do to a flight that is there already. */
  ghost predicate Grows(fl: Flight, fl': Flight) {
    && fl'.key == fl.key && fl'.leader == fl.leader && fl'.started == fl.started
    && (fl.outcome.Some? ==> fl'.outcome == fl.outcome)
    && (fl.dropped ==> fl'.dropped) && (fl.done ==> fl'.done)
  }

  ghost predicate AllGrow(s: Sys, s': Sys) {
    forall f :: f in s.flights ==> f in s'.flights && Grows(s.flights[f], s'.flights[f])
  }

  lemma HonestKept(s: Sys, s': Sys, job: Job, answer: Answer)
    requires AllGrow(s, s') && Honest(s, job, answer)
    ensures Honest(s', job, answer)
  {
    assert Grows(s.flights[answer.from], s'.flights[answer.from]);
  }

  /** A process that is neither leading a flight nor has just published keeps its standing. */
  lemma ProcKept(s: Sys, s': Sys, pid: nat)
    requires pid in s.procs && pid in s'.procs && s.procs[pid] == s'.procs[pid] && ProcInv(s, pid)
    requires AllGrow(s, s') && s.clock <= s'.clock
    requires var pc := s.procs[pid].pc;
      (pc.AtScan? ==> s'.flights[pc.flight].outcome.None?) && (pc.AtClose? ==> !s'.flights[pc.flight].done)
    ensures ProcInv(s', pid)
  {
    var pc := s.procs[pid].pc;
    if pc.AtDone? {
      HonestKept(s, s', s.procs[pid].job, pc.answer);
    } else if pc.AtWait? || pc.AtReload? || pc.AtScan? || pc.AtClose? {
      assert Grows(s.flights[pc.flight], s'.flights[pc.flight]);
    }
  }

  predicate Leads(pc: Pc) {
    pc.AtScan? || pc.AtClose?
  }

  /** A step of a process that leads no flight, before or after. */
  lemma ProcStep(s: Sys, s': Sys, pid: nat)
    requires Inv(s) && pid in s'.procs && s' == s.(procs := s.procs[pid := s'.procs[pid]])
    requires pid in s.procs ==> !Leads(s.procs[pid].pc)
    requires ProcInv(s', pid)
    ensures Inv(s')
  {
    forall f | f in s'.flights ensures FlightInv(s', f) {
      assert FlightInv(s, f);
    }
    forall k | k in s'.cache ensures CachedInv(s', k) {
      CachedKept(s, s', k);
    }
    forall p | p in s'.procs ensures ProcInv(s', p) {
      if p != pid {
        ProcKept(s, s', p);
      }
    }
  }

  /** A cached scan lists exactly what its trie lists. */
  lemma CachedLists(s: Sys, key: string, prefix: string)
    requires key in s.cache && CachedInv(s, key)
    ensures CachedListing(s.cache[key], prefix) == TrieListing(Items(s.cache[key].entries), PrefixSegments(prefix))
  {
    var ent := s.cache[key];
    NormalizeIdempotent(prefix);
    IndexListsTheTrie(ent.entries, PrefixSegments(NormalizePrefix(prefix)));
    FallbackNeverUsed(ent.entries, prefix);
  }

  /** A returning scan hands over an honest answer. */
  lemma ReturnsHonest(s: Sys, s': Sys, pid: nat, answer: Answer)
    requires pid in s.procs && pid in s'.procs
    requires s'.procs[pid] == Proc(s.procs[pid].job, Return(s.procs[pid].job, answer))
    requires !answer.Listed? && Honest(s', s.procs[pid].job, answer)
    ensures ProcInv(s', pid) && !Leads(s'.procs[pid].pc)
  {
  }

  lemma StartInv(s: Sys, s': Sys, pid: nat, job: Job)
    requires Inv(s) && Start(s, s', pid, job)
    ensures Inv(s')
  {
    ProcStep(s, s', pid);
  }

  lemma PeekInv(s: Sys, s': Sys, pid: nat)
    requires Inv(s) && Peek(s, s', pid)
    ensures Inv(s')
  {
    var job := s.procs[pid].job;
    if job.key in s.cache {
      assert CachedInv(s, job.key);
      CachedLists(s, job.key, job.prefix);
    }
    ProcStep(s, s', pid);
  }

  lemma RereadInv(s: Sys, s': Sys, pid: nat)
    requires Inv(s) && Reread(s, s', pid)
    ensures Inv(s')
  {
    var job := s.procs[pid].job;
    if job.key in s.cache {
      assert CachedInv(s, job.key);
      CachedLists(s, job.key, job.prefix);
    }
    ProcStep(s, s', pid);
  }

  lemma WakeInv(s: Sys, s': Sys, pid: nat)
    requires Inv(s) && Wake(s, s', pid)
    ensures Inv(s')
  {
    assert ProcInv(s, pid);
    ProcStep(s, s', pid);
  }

  /** What a follower reads is honest: its flight succeeded and was invalidated if there is nothing to read. */
  lemma FollowerHonest(s: Sys, pid: nat)
    requires Inv(s) && pid in s.procs && s.procs[pid].pc.AtReload?
    ensures s.procs[pid].pc.flight in s.flights
    ensures Honest(s, s.procs[pid].job, FollowerAnswer(s, pid))
  {
    assert ProcInv(s, pid);
    assert FlightInv(s, s.procs[pid].pc.flight);
    var key := s.procs[pid].job.key;
    if key in s.cache {
      assert CachedInv(s, key);
    }
  }

  lemma ReloadInv(s: Sys, s': Sys, pid: nat)
    requires Inv(s) && Reload(s, s', pid)
    ensures Inv(s')
  {
    FollowerHonest(s, pid);
    ReturnsHonest(s, s', pid, FollowerAnswer(s, pid));
    ProcStep(s, s', pid);
  }

  lemma EnterInv(s: Sys, s': Sys, pid: nat, flight: nat)
    requires Inv(s) && Enter(s, s', pid, flight)
    ensures Inv(s')
  {
    var key, now := s.procs[pid].job.key, s.procs[pid].pc.now;
    assert ProcInv(s, pid);
    if Fresh(s, key, now) {
      assert CachedInv(s, key);
      ReturnsHonest(s, s', pid, Entries(s.cache[key].entries, s.cache[key].from));
      ProcStep(s, s', pid);
    } else if key in s.inflight {
      ProcStep(s, s', pid);
    } else {
      LeadInv(s, s', pid, flight);
    }
  }

  /** A cached scan stays what it is while flights only grow. */
  lemma CachedKept(s: Sys, s': Sys, key: string)
    requires key in s.cache && key in s'.cache && s'.cache[key] == s.cache[key] && CachedInv(s, key)
    requires AllGrow(s, s')
    ensures CachedInv(s', key)
  {
    assert Grows(s.flights[s.cache[key].from], s'.flights[s.cache[key].from]);
  }

  lemma LeadFlights(s: Sys, s': Sys, pid: nat, flight: nat, f: nat)
    requires Inv(s) && Enter(s, s', pid, flight)
    requires !Fresh(s, s.procs[pid].job.key, s.procs[pid].pc.now) && s.procs[pid].job.key !in s.inflight
    requires f in s'.flights
    ensures FlightInv(s', f)
  {
    assert ProcInv(s, pid);
    if f != flight {
      assert FlightInv(s, f);
    }
  }

  lemma LeadInv(s: Sys, s': Sys, pid: nat, flight: nat)
    requires Inv(s) && Enter(s, s', pid, flight)
    requires !Fresh(s, s.procs[pid].job.key, s.procs[pid].pc.now) && s.procs[pid].job.key !in s.inflight
    ensures Inv(s')
  {
    forall f | f in s'.flights ensures FlightInv(s', f) {
      LeadFlights(s, s', pid, flight, f);
    }
    forall k | k in s'.cache ensures CachedInv(s', k) {
      CachedKept(s, s', k);
    }
    forall p | p in s'.procs ensures ProcInv(s', p) {
      if p != pid {
        ProcKept(s, s', p);
      }
    }
  }

  lemma TickInv(s: Sys, s': Sys)
    requires Inv(s) && Tick(s, s')
    ensures Inv(s')
  {
    forall f | f in s'.flights ensures FlightInv(s', f) {
      assert FlightInv(s, f);
    }
    forall k | k in s'.cache ensures CachedInv(s', k) {
      CachedKept(s, s', k);
    }
    forall p | p in s'.procs ensures ProcInv(s', p) {
      ProcKept(s, s', p);
    }
  }

  lemma PublishFlights(s: Sys, s': Sys, pid: nat, outcome: Outcome, trie: Index, g: nat)
    requires Inv(s) && Publish(s, s', pid, outcome, trie) && g in s'.flights
    ensures FlightInv(s', g)
  {
    var f := s.procs[pid].pc.flight;
    assert ProcInv(s, pid) && FlightInv(s, f) && FlightInv(s, g);
    if g != f && !s.flights[g].done {
      assert s.flights[g].leader != pid;
    }
  }

  lemma PublishProcs(s: Sys, s': Sys, pid: nat, outcome: Outcome, trie: Index, p: nat)
    requires Inv(s) && Publish(s, s', pid, outcome, trie) && p in s'.procs
    ensures ProcInv(s', p)
  {
    assert ProcInv(s, pid) && ProcInv(s, p);
    assert FlightInv(s, s.procs[pid].pc.flight);
    if p != pid {
      ProcKept(s, s', p);
    }
  }

  lemma PublishCache(s: Sys, s': Sys, pid: nat, outcome: Outcome, trie: Index, k: string)
    requires Inv(s) && Publish(s, s', pid, outcome, trie) && k in s'.cache
    ensures CachedInv(s', k)
  {
    assert ProcInv(s, pid) && FlightInv(s, s.procs[pid].pc.flight);
    if !(outcome.Ok? && k == s.procs[pid].job.key) {
      CachedKept(s, s', k);
    }
  }

  lemma PublishInv(s: Sys, s': Sys, pid: nat, outcome: Outcome, trie: Index)
    requires Inv(s) && Publish(s, s', pid, outcome, trie)
    ensures Inv(s')
  {
    forall g | g in s'.flights ensures FlightInv(s', g) {
      PublishFlights(s, s', pid, outcome, trie, g);
    }
    forall k | k in s'.cache ensures CachedInv(s', k) {
      PublishCache(s, s', pid, outcome, trie, k);
    }
    forall p | p in s'.procs ensures ProcInv(s', p) {
      PublishProcs(s, s', pid, outcome, trie, p);
    }
  }

  lemma CloseFlights(s: Sys, s': Sys, pid: nat, g: nat)
    requires Inv(s) && Close(s, s', pid) && g in s'.flights
    ensures FlightInv(s', g)
  {
    assert ProcInv(s, pid) && FlightInv(s, s.procs[pid].pc.flight) && FlightInv(s, g);
  }

  lemma CloseProcs(s: Sys, s': Sys, pid: nat, p: nat)
    requires Inv(s) && Close(s, s', pid) && p in s'.procs
    ensures ProcInv(s', p)
  {
    var f := s.procs[pid].pc.flight;
    assert ProcInv(s, pid) && FlightInv(s, f);
    if p == pid {
      var outcome := s.flights[f].outcome.value;
      ReturnsHonest(s, s', pid, if outcome.Ok? then Entries(outcome.entries, f) else ScanFailed(outcome.message, f));
    } else {
      assert ProcInv(s, p);
      ProcKept(s, s', p);
    }
  }

  lemma CloseInv(s: Sys, s': Sys, pid: nat)
    requires Inv(s) && Close(s, s', pid)
    ensures Inv(s')
  {
    forall g | g in s'.flights ensures FlightInv(s', g) {
      CloseFlights(s, s', pid, g);
    }
    forall k | k in s'.cache ensures CachedInv(s', k) {
      CachedKept(s, s', k);
    }
    forall p | p in s'.procs ensures ProcInv(s', p) {
      CloseProcs(s, s', pid, p);
    }
  }

  lemma InvalidateInv(s: Sys, s': Sys, key: string)
    requires Inv(s) && Invalidate(s, s', key)
    ensures Inv(s')
  {
    forall f | f in s'.flights ensures FlightInv(s', f) {
      assert FlightInv(s, f);
    }
    forall k | k in s'.cache ensures CachedInv(s', k) {
      CachedKept(s, s', k);
    }
    forall p | p in s'.procs ensures ProcInv(s', p) {
      ProcKept(s, s', p);
    }
  }

  lemma StepInv(s: Sys, s': Sys, step: Step)
    requires Inv(s) && NextBy(s, s', step)
    ensures Inv(s')
  {
    match step
    case DoTick => TickInv(s, s');
    case DoStart(pid, job) => StartInv(s, s', pid, job);
    case DoPeek(pid) => PeekInv(s, s', pid);
    case DoEnter(pid, flight) => EnterInv(s, s', pid, flight);
    case DoWake(pid) => WakeInv(s, s', pid);
    case DoReload(pid) => ReloadInv(s, s', pid);
    case DoPublish(pid, outcome, trie) => PublishInv(s, s', pid, outcome, trie);
    case DoClose(pid) => CloseInv(s, s', pid);
    case DoReread(pid) => RereadInv(s, s', pid);
    case DoInvalidate(key) => InvalidateInv(s, s', key);
  }

  lemma {:induction false} RunInv(run: seq<Sys>, steps: seq<Step>, n: nat)
    requires IsRun(run, steps) && n <= |steps|
    ensures Inv(run[n])
  {
    if n > 0 {
      RunInv(run, steps, n - 1);
      assert StepAt(run, steps, n - 1);
      StepInv(run[n - 1], run[n], steps[n - 1]);
    }
  }

  // ---------------------------------------------------------------------
  // Main results
  // ---------------------------------------------------------------------

  predicate Scans(s: Sys, pid: nat, key: string) {
    pid in s.procs && s.procs[pid].pc.AtScan? && s.procs[pid].job.key == key
  }

  /** At most one caller scans a container, and it is recorded exactly while it does. */
  lemma OneLeader(run: seq<Sys>, steps: seq<Step>, n: nat, key: string)
    requires IsRun(run, steps) && n <= |steps|
    ensures var s := run[n];
      && (key in s.inflight <==>
            exists pid :: Scans(s, pid, key))
      && forall p, q :: Scans(s, p, key) && Scans(s, q, key) ==> p == q
  {
    RunInv(run, steps, n);
    var s := run[n];
    if key in s.inflight {
      assert FlightInv(s, s.inflight[key]);
      var leader := s.flights[s.inflight[key]].leader;
      assert Scans(s, leader, key);
    }
    forall p | Scans(s, p, key)
      ensures key in s.inflight && s.flights[s.inflight[key]].leader == p
    {
      assert ProcInv(s, p);
      assert FlightInv(s, s.procs[p].pc.flight);
    }
  }

  /**
    A caller is answered from the cache exactly while what is cached is less than
    300 seconds old, by the clock as the caller read it; otherwise it scans, or
    waits for the caller that does.
   */
  lemma AnsweredWhileFresh(s: Sys, s': Sys, step: Step)
    requires NextBy(s, s', step) && (step.DoEnter? || step.DoPeek?)
    ensures var job, pc, pc' := s.procs[step.pid].job, s.procs[step.pid].pc, s'.procs[step.pid].pc;
      var answered := job.key in s.cache && pc.now < s.cache[job.key].at + 300;
      if step.DoPeek? then
        if answered then pc'.AtDone? && pc'.answer.Listed? else pc' == AtEnter(s.clock)
      else
        && (answered <==> !pc'.AtWait? && !pc'.AtScan?)
        && (pc'.AtWait? ==> job.key in s.inflight && pc'.flight == s.inflight[job.key])
        && (pc'.AtScan? ==> job.key !in s.inflight && pc'.flight !in s.flights)
  {
  }

  /** A flight is closed once, after its result is published and its record is gone. */
  lemma ClosedOnceAfterPublishing(run: seq<Sys>, steps: seq<Step>, n: nat)
    requires IsRun(run, steps) && n < |steps| && steps[n].DoClose?
    ensures var s := run[n];
      && steps[n].pid in s.procs && s.procs[steps[n].pid].pc.AtClose? && s.procs[steps[n].pid].pc.flight in s.flights
      && var f := s.procs[steps[n].pid].pc.flight;
         && !s.flights[f].done && s.flights[f].outcome.Some?
         && (forall k :: k in s.inflight ==> s.inflight[k] != f)
         && f in run[n + 1].flights && run[n + 1].flights[f].done
  {
    RunInv(run, steps, n);
    var s := run[n];
    assert StepAt(run, steps, n);
    assert ProcInv(s, steps[n].pid);
    var f := s.procs[steps[n].pid].pc.flight;
    assert FlightInv(s, f);
  }

  /** Nobody waits in vain: a waiter's flight is closed or its leader has yet to close it. */
  lemma WaitersAreWoken(run: seq<Sys>, steps: seq<Step>, n: nat, pid: nat)
    requires IsRun(run, steps) && n <= |steps| && pid in run[n].procs && run[n].procs[pid].pc.AtWait?
    ensures var s, f := run[n], run[n].procs[pid].pc.flight;
      && f in s.flights
      && (s.flights[f].done
          || (s.flights[f].leader in s.procs && s.procs[s.flights[f].leader].pc in {AtScan(f), AtClose(f)}))
  {
    RunInv(run, steps, n);
    assert ProcInv(run[n], pid);
    assert FlightInv(run[n], run[n].procs[pid].pc.flight);
  }

  /**
    Exactly what a follower gets. With something cached: if its flight
    succeeded, that scan or a later one; if its flight failed, a scan published
    since the flight began or one that had expired by then. With nothing cached:
    the flight's error, or neither entries nor error when the flight's own
    result has been invalidated.
   */
  lemma FollowerOutcome(run: seq<Sys>, steps: seq<Step>, n: nat)
    requires IsRun(run, steps) && n < |steps| && steps[n].DoReload?
    ensures var s, pid := run[n], steps[n].pid;
      && pid in s.procs && s.procs[pid].pc.AtReload? && s.procs[pid].pc.flight in s.flights
      && var fl, key := s.flights[s.procs[pid].pc.flight], s.procs[pid].job.key;
         && fl.outcome.Some? && fl.key == key
         && match FollowerAnswer(s, pid)
            case Entries(entries, from) =>
              && key in s.cache && entries == s.cache[key].entries && Scanned(s, key, entries, from)
              && (if fl.outcome.value.Ok? then fl.outcome.value.at <= s.cache[key].at
                  else s.cache[key].at >= fl.started || s.cache[key].at + SCAN_TTL <= fl.started)
            case Nothing(from) => key !in s.cache && fl.outcome.value.Ok? && fl.dropped
            case ScanFailed(message, from) => key !in s.cache && fl.outcome.value == Err(message)
            case Listed(out, from) => false
  {
    RunInv(run, steps, n);
    var s, pid := run[n], steps[n].pid;
    assert StepAt(run, steps, n);
    assert ProcInv(s, pid);
    assert FlightInv(s, s.procs[pid].pc.flight);
    if s.procs[pid].job.key in s.cache {
      assert CachedInv(s, s.procs[pid].job.key);
    }
  }

  /** Every cached trie is the trie of its cached entries, and these are one whole scan of the container. */
  lemma CachedTriesAreTheirs(run: seq<Sys>, steps: seq<Step>, n: nat, key: string)
    requires IsRun(run, steps) && n <= |steps| && key in run[n].cache
    ensures var ent := run[n].cache[key];
      && ent.trie == IndexOf(Items(ent.entries)) && Scanned(run[n], key, ent.entries, ent.from)
      && forall prefix :: CachedListing(ent, prefix) == TrieListing(Items(ent.entries), PrefixSegments(prefix))
  {
    RunInv(run, steps, n);
    assert CachedInv(run[n], key);
    forall prefix ensures CachedListing(run[n].cache[key], prefix) ==
                          TrieListing(Items(run[n].cache[key].entries), PrefixSegments(prefix)) {
      CachedLists(run[n], key, prefix);
    }
  }

  /** Whatever a call returns comes from one scan of its container. */
  lemma AnswersAreScans(run: seq<Sys>, steps: seq<Step>, n: nat, pid: nat)
    requires IsRun(run, steps) && n <= |steps| && pid in run[n].procs && run[n].procs[pid].pc.AtDone?
    ensures Honest(run[n], run[n].procs[pid].job, run[n].procs[pid].pc.answer)
  {
    RunInv(run, steps, n);
    assert ProcInv(run[n], pid);
  }

  /** A listing whose scan returned is answered from the cache, or scans once more and then is done with. */
  lemma ListingScansAtMostTwice(run: seq<Sys>, steps: seq<Step>, n: nat, pid: nat)
    requires IsRun(run, steps) && n < |steps| && steps[n] == DoReread(pid)
    ensures var s, s' := run[n], run[n + 1];
      && pid in s.procs && s.procs[pid].job.ListJob? && !s.procs[pid].job.again && pid in s'.procs
      && (if s.procs[pid].job.key in s.cache then s'.procs[pid].pc.AtDone?
          else s'.procs[pid] == Proc(ListJob(s.procs[pid].job.key, s.procs[pid].job.prefix, true), AtEnter(s.clock)))
  {
    RunInv(run, steps, n);
    assert StepAt(run, steps, n);
    assert ProcInv(run[n], pid);
  }

  /** Whether a scan is fresh is asked by the clock at the time: when a call begins, has peeked, or scans again. */
  lemma AsksByTheClock(s: Sys, s': Sys, step: Step, pid: nat)
    requires NextBy(s, s', step) && pid in s'.procs && (s'.procs[pid].pc.AtPeek? || s'.procs[pid].pc.AtEnter?)
    ensures (pid in s.procs && s'.procs[pid] == s.procs[pid]) || s'.procs[pid].pc.now == s.clock
  {
  }

  /** The process can take a step of its own. */
  ghost predicate CanStep(s: Sys, pid: nat) {
    exists s', step :: NextBy(s, s', step) && !step.DoTick? && !step.DoInvalidate? && step.pid == pid
  }

  lemma Steps(s: Sys, s': Sys, step: Step)
    requires NextBy(s, s', step) && !step.DoTick? && !step.DoInvalidate?
    ensures CanStep(s, step.pid)
  {
  }

  lemma NewFlight(fs: set<nat>) returns (f: nat)
    ensures f !in fs
  {
    f := Above(fs);
  }

  lemma {:induction false} Above(fs: set<nat>) returns (f: nat)
    ensures forall g :: g in fs ==> g < f
  {
    if fs == {} {
      f := 0;
    } else {
      var g :| g in fs;
      var h := Above(fs - {g});
      f := if h > g then h else g + 1;
      forall x | x in fs ensures x < f {
        assert x != g ==> x in fs - {g};
      }
    }
  }

  lemma EnterCanStep(s: Sys, pid: nat)
    requires Inv(s) && pid in s.procs && s.procs[pid].pc.AtEnter?
    ensures CanStep(s, pid)
  {
    var job, now := s.procs[pid].job, s.procs[pid].pc.now;
    var f := NewFlight(s.flights.Keys);
    var s' := if Fresh(s, job.key, now) then
        s.(procs := Go(s, pid, Return(job, Entries(s.cache[job.key].entries, s.cache[job.key].from))))
      else if job.key in s.inflight then
        s.(procs := Go(s, pid, AtWait(s.inflight[job.key])))
      else
        s.(inflight := s.inflight[job.key := f],
           flights := s.flights[f := Flight(job.key, false, None, pid, s.clock, false)],
           procs := Go(s, pid, AtScan(f)));
    Steps(s, s', DoEnter(pid, f));
  }

  lemma ScanCanStep(s: Sys, pid: nat)
    requires Inv(s) && pid in s.procs && s.procs[pid].pc.AtScan?
    ensures CanStep(s, pid)
  {
    assert ProcInv(s, pid);
    var f, outcome := s.procs[pid].pc.flight, Err("");
    Steps(s, s.(inflight := s.inflight - {s.procs[pid].job.key},
                flights := s.flights[f := s.flights[f].(outcome := Some(outcome))],
                procs := Go(s, pid, AtClose(f))), DoPublish(pid, outcome, EMPTY_INDEX));
  }

  lemma CloseCanStep(s: Sys, pid: nat)
    requires Inv(s) && pid in s.procs && s.procs[pid].pc.AtClose?
    ensures CanStep(s, pid)
  {
    assert ProcInv(s, pid);
    var f := s.procs[pid].pc.flight;
    var outcome := s.flights[f].outcome.value;
    var answer := if outcome.Ok? then Entries(outcome.entries, f) else ScanFailed(outcome.message, f);
    Steps(s, s.(flights := s.flights[f := s.flights[f].(done := true)],
                procs := Go(s, pid, Return(s.procs[pid].job, answer))), DoClose(pid));
  }

  lemma OthersCanStep(s: Sys, pid: nat)
    requires Inv(s) && pid in s.procs
    requires var pc := s.procs[pid].pc;
      pc.AtPeek? || pc.AtReload? || pc.AtReread? || (pc.AtWait? && pc.flight in s.flights && s.flights[pc.flight].done)
    ensures CanStep(s, pid)
  {
    assert ProcInv(s, pid);
    var job, pc := s.procs[pid].job, s.procs[pid].pc;
    if pc.AtPeek? {
      Steps(s, s.(procs := Go(s, pid,
        if Fresh(s, job.key, pc.now) then
          AtDone(Listed(CachedListing(s.cache[job.key], job.prefix), s.cache[job.key].from))
        else AtEnter(s.clock))), DoPeek(pid));
    } else if pc.AtReload? {
      Steps(s, s.(procs := Go(s, pid, Return(job, FollowerAnswer(s, pid)))), DoReload(pid));
    } else if pc.AtWait? {
      Steps(s, s.(procs := Go(s, pid, AtReload(pc.flight))), DoWake(pid));
    } else {
      Steps(s, s.(procs := s.procs[pid :=
        if job.key in s.cache then
          Proc(job, AtDone(Listed(CachedListing(s.cache[job.key], job.prefix), s.cache[job.key].from)))
        else Proc(job.(again := true), AtEnter(s.clock))]), DoReread(pid));
    }
  }

  /** Nobody is ever stuck: a caller can go on, or has its answer, or waits for a leader that can go on. */
  lemma NeverStuck(run: seq<Sys>, steps: seq<Step>, n: nat, pid: nat)
    requires IsRun(run, steps) && n <= |steps| && pid in run[n].procs && !run[n].procs[pid].pc.AtDone?
    ensures var s := run[n];
      || CanStep(s, pid)
      || (s.procs[pid].pc.AtWait? && s.procs[pid].pc.flight in s.flights
          && CanStep(s, s.flights[s.procs[pid].pc.flight].leader))
  {
    RunInv(run, steps, n);
    var s, pc := run[n], run[n].procs[pid].pc;
    assert ProcInv(s, pid);
    if pc.AtEnter? {
      EnterCanStep(s, pid);
    } else if pc.AtScan? {
      ScanCanStep(s, pid);
    } else if pc.AtClose? {
      CloseCanStep(s, pid);
    } else if pc.AtWait? && !s.flights[pc.flight].done {
      assert FlightInv(s, pc.flight);
      var leader := s.flights[pc.flight].leader;
      if s.procs[leader].pc.AtScan? {
        ScanCanStep(s, leader);
      } else {
        CloseCanStep(s, leader);
      }
    } else {
      OthersCanStep(s, pid);
    }
  }

  // Runs in which a follower does not get its leader's result

  lemma Extend(run: seq<Sys>, steps: seq<Step>, s: Sys, s': Sys, step: Step) returns (run': seq<Sys>, steps': seq<Step>)
    requires IsRun(run, steps) && run[|run| - 1] == s && NextBy(s, s', step)
    ensures IsRun(run', steps') && run'[|run'| - 1] == s'
  {
    run', steps' := run + [s'], steps + [step];
    forall i | 0 <= i < |steps'| ensures StepAt(run', steps', i) {
      assert i < |steps| ==> StepAt(run, steps, i);
    }
  }

  /** Caller `lead` scans and caller `follow` waits for it. */
  lemma TwoCallers(run: seq<Sys>, steps: seq<Step>, s: Sys, key: string, lead: nat, follow: nat, f: nat)
    returns (run': seq<Sys>, steps': seq<Step>, s': Sys)
    requires IsRun(run, steps) && run[|run| - 1] == s
    requires lead !in s.procs && follow !in s.procs && lead != follow
    requires !Fresh(s, key, s.clock) && key !in s.inflight && f !in s.flights
    ensures IsRun(run', steps') && run'[|run'| - 1] == s'
    ensures s' == s.(inflight := s.inflight[key := f],
                     flights := s.flights[f := Flight(key, false, None, lead, s.clock, false)],
                     procs := s.procs[lead := Proc(ScanJob(key), AtScan(f))][follow := Proc(ScanJob(key), AtWait(f))])
  {
    var s1 := s.(procs := s.procs[lead := Proc(ScanJob(key), AtEnter(s.clock))]);
    run', steps' := Extend(run, steps, s, s1, DoStart(lead, ScanJob(key)));
    var s2 := s1.(inflight := s1.inflight[key := f],
                  flights := s1.flights[f := Flight(key, false, None, lead, s1.clock, false)],
                  procs := Go(s1, lead, AtScan(f)));
    run', steps' := Extend(run', steps', s1, s2, DoEnter(lead, f));
    var s3 := s2.(procs := s2.procs[follow := Proc(ScanJob(key), AtEnter(s2.clock))]);
    run', steps' := Extend(run', steps', s2, s3, DoStart(follow, ScanJob(key)));
    s' := s3.(procs := Go(s3, follow, AtWait(f)));
    run', steps' := Extend(run', steps', s3, s', DoEnter(follow, f));
    assert s'.procs == s.procs[lead := Proc(ScanJob(key), AtScan(f))][follow := Proc(ScanJob(key), AtWait(f))];
  }

  /** The leader publishes and closes its flight. */
  lemma LeaderEnds(run: seq<Sys>, steps: seq<Step>, s: Sys, key: string, lead: nat, f: nat, outcome: Outcome)
    returns (run': seq<Sys>, steps': seq<Step>, s': Sys)
    requires IsRun(run, steps) && run[|run| - 1] == s
    requires lead in s.procs && s.procs[lead] == Proc(ScanJob(key), AtScan(f)) && f in s.flights
    requires outcome.Ok? ==> outcome.at == s.clock && outcome.entries == []
    ensures IsRun(run', steps') && run'[|run'| - 1] == s'
    ensures s'.cache == if outcome.Ok? then s.cache[key := Cached(s.clock, [], EMPTY_INDEX, f)] else s.cache
    ensures s'.inflight == s.inflight - {key} && s'.clock == s.clock
    ensures s'.flights == s.flights[f := s.flights[f].(outcome := Some(outcome), done := true)]
    ensures lead in s'.procs && s'.procs == s.procs[lead := s'.procs[lead]]
  {
    assert IndexOf([]) == EMPTY_INDEX;
    assert Items([]) == [];
    var s1 := s.(cache := if outcome.Ok? then s.cache[key := Cached(s.clock, [], EMPTY_INDEX, f)] else s.cache,
                 inflight := s.inflight - {key},
                 flights := s.flights[f := s.flights[f].(outcome := Some(outcome))],
                 procs := Go(s, lead, AtClose(f)));
    run', steps' := Extend(run, steps, s, s1, DoPublish(lead, outcome, EMPTY_INDEX));
    var answer := if outcome.Ok? then Entries(outcome.entries, f) else ScanFailed(outcome.message, f);
    s' := s1.(flights := s1.flights[f := s1.flights[f].(done := true)],
              procs := Go(s1, lead, Return(ScanJob(key), answer)));
    run', steps' := Extend(run', steps', s1, s', DoClose(lead));
  }

  /** The follower wakes and reads. */
  lemma FollowerEnds(run: seq<Sys>, steps: seq<Step>, s: Sys, key: string, follow: nat, f: nat)
    returns (run': seq<Sys>, steps': seq<Step>, s': Sys, answer: Answer)
    requires IsRun(run, steps) && run[|run| - 1] == s
    requires follow in s.procs && s.procs[follow] == Proc(ScanJob(key), AtWait(f))
    requires f in s.flights && s.flights[f].done
    ensures IsRun(run', steps') && run'[|run'| - 1] == s'
    ensures s' == s.(procs := s.procs[follow := Proc(ScanJob(key), AtDone(answer))])
    ensures key in s.cache ==> answer == Entries(s.cache[key].entries, s.cache[key].from)
    ensures key !in s.cache && s.flights[f].Succeeded() ==> answer == Nothing(f)
  {
    var s1 := s.(procs := Go(s, follow, AtReload(f)));
    run', steps' := Extend(run, steps, s, s1, DoWake(follow));
    answer := FollowerAnswer(s1, follow);
    s' := s1.(procs := Go(s1, follow, AtDone(answer)));
    run', steps' := Extend(run', steps', s1, s', DoReload(follow));
    assert s'.procs == s.procs[follow := Proc(ScanJob(key), AtDone(answer))];
  }

  const EMPTY: Sys := Sys(map[], map[], map[], map[], 0)

  /** Some run ends in `s`. */
  ghost predicate Reachable(s: Sys) {
    exists run: seq<Sys>, steps: seq<Step> :: IsRun(run, steps) && run[|run| - 1] == s
  }

  /** A follower may return neither entries nor an error although its leader succeeded. */
  lemma EmptyHandedFollower()
    ensures exists s: Sys :: Reachable(s) && 1 in s.procs && s.procs[1] == Proc(ScanJob("c"), AtDone(Nothing(0)))
  {
    var s := EMPTY;
    var run, steps: seq<Step> := [EMPTY], [];
    run, steps, s := TwoCallers(run, steps, s, "c", 0, 1, 0);
    run, steps, s := LeaderEnds(run, steps, s, "c", 0, 0, Ok([], 0));
    var s' := s.(cache := s.cache - {"c"}, flights := Drop(s.flights, "c"));
    run, steps := Extend(run, steps, s, s', DoInvalidate("c"));
    var answer;
    run, steps, s, answer := FollowerEnds(run, steps, s', "c", 1, 0);
    assert Reachable(s);
  }

  /** A follower may return entries that had expired before its leader began. */
  lemma ExpiredFollower()
    ensures exists s: Sys ::
      && Reachable(s) && 3 in s.procs && s.procs[3] == Proc(ScanJob("c"), AtDone(Entries([], 0)))
      && 0 in s.flights && s.flights[0].outcome == Some(Ok([], 0))
      && 1 in s.flights && s.flights[1].started == SCAN_TTL
  {
    var s := EMPTY;
    var run, steps: seq<Step> := [EMPTY], [];
    run, steps, s := TwoCallers(run, steps, s, "c", 0, 1, 0);
    run, steps, s := LeaderEnds(run, steps, s, "c", 0, 0, Ok([], 0));
    var s' := s.(clock := SCAN_TTL);
    run, steps := Extend(run, steps, s, s', DoTick);
    run, steps, s := TwoCallers(run, steps, s', "c", 2, 3, 1);
    run, steps, s := LeaderEnds(run, steps, s, "c", 2, 1, Err("scan failed"));
    var answer;
    run, steps, s, answer := FollowerEnds(run, steps, s, "c", 3, 1);
    assert Reachable(s);
  }
}
