/**
  Who fetches and who waits in the blob cache, in every reachable state: an
  entry is being fetched by a process that has yet to report, a waiter is woken
  by that report, and it loses its wake-up exactly when an eviction or a store
  takes the entry away from the running fetch.
 */
module BlobFlights {
  import opened Common
  import opened BlobCache
  import opened BlobProtocol

  /** Fetching entries and fetching processes; one process a key unless the key ever lost a fetch. */
  ghost predicate Flights(procs: map<nat, Pc>, fetcher: map<string, nat>, orphaned: set<string>, c: State) {
    && (forall k :: k in fetcher <==> IsFetching(c, k))
    && (forall k :: k in fetcher ==> fetcher[k] in procs && procs[fetcher[k]].FetchKey() == Some(k))
    && (forall pid :: pid in procs && procs[pid].FetchKey().Some? && procs[pid].key !in orphaned ==>
          procs[pid].key in fetcher && fetcher[procs[pid].key] == pid)
  }

  /** Channels wait at the entry they were made for, and only while it is being fetched. */
  ghost predicate Channels(s: Sys) {
    && (forall ch :: ch in s.home ==> ch < s.nextChannel)
    && (forall ch :: ch in s.closed ==> ch in s.home)
    && (forall k, ch {:trigger ch in WaitersOf(s.cache, k)} :: ch in WaitersOf(s.cache, k) ==>
          ch in s.home && s.home[ch] == k && ch !in s.closed && IsFetching(s.cache, k))
    && (forall pid :: pid in s.procs && s.procs[pid].AtWait? ==>
          s.procs[pid].channel in s.home && s.home[s.procs[pid].channel] == s.procs[pid].key)
  }

  ghost predicate Inv(s: Sys) {
    Flights(s.procs, s.fetcher, s.orphaned, s.cache) && Channels(s)
  }

  // ---------------------------------------------------------------------
  // How the parts survive a step
  // ---------------------------------------------------------------------

  /** A step that neither begins nor ends a fetch. */
  lemma FlightsSame(procs: map<nat, Pc>, fetcher: map<string, nat>, orphaned: set<string>, c: State,
                    pid: nat, pc: Pc, c': State)
    requires Flights(procs, fetcher, orphaned, c)
    requires pc.FetchKey() == if pid in procs then procs[pid].FetchKey() else None
    requires forall k :: IsFetching(c', k) <==> IsFetching(c, k)
    ensures Flights(procs[pid := pc], fetcher, orphaned, c')
  {
    forall k | k in fetcher ensures procs[pid := pc][fetcher[k]].FetchKey() == Some(k) {
      assert procs[fetcher[k]].FetchKey() == Some(k);
    }
  }

  lemma FlightsBegin(procs: map<nat, Pc>, fetcher: map<string, nat>, orphaned: set<string>, c: State,
                     pid: nat, key: string, c': State)
    requires Flights(procs, fetcher, orphaned, c)
    requires pid in procs && procs[pid].FetchKey() == None && !IsFetching(c, key)
    requires forall k :: IsFetching(c', k) <==> IsFetching(c, k) || k == key
    ensures Flights(procs[pid := AtOpen(key)], fetcher[key := pid], orphaned, c')
  {
    forall k | k in fetcher ensures procs[pid := AtOpen(key)][fetcher[k]].FetchKey() == Some(k) {
      assert procs[fetcher[k]].FetchKey() == Some(k);
    }
  }

  /** The report of a fetch ends the key's entry's fetch, whichever process it belonged to. */
  lemma FlightsEnd(procs: map<nat, Pc>, fetcher: map<string, nat>, orphaned: set<string>, c: State,
                   pid: nat, key: string, pc: Pc, c': State)
    requires Flights(procs, fetcher, orphaned, c)
    requires pid in procs && procs[pid].FetchKey() == Some(key) && pc.FetchKey() == None
    requires forall k :: IsFetching(c', k) <==> IsFetching(c, k) && k != key
    ensures Flights(procs[pid := pc], fetcher - {key}, orphaned, c')
  {
    forall k | k in fetcher - {key} ensures procs[pid := pc][fetcher[k]].FetchKey() == Some(k) {
      assert procs[fetcher[k]].FetchKey() == Some(k);
    }
  }

  /** Running fetches lose their entries. */
  lemma FlightsLose(procs: map<nat, Pc>, fetcher: map<string, nat>, orphaned: set<string>, c: State,
                    pid: nat, pc: Pc, lost: set<string>, c': State)
    requires Flights(procs, fetcher, orphaned, c)
    requires pid in procs && procs[pid].FetchKey() == None == pc.FetchKey()
    requires forall k :: IsFetching(c', k) <==> IsFetching(c, k) && k !in lost
    ensures Flights(procs[pid := pc], fetcher - lost, orphaned + lost, c')
  {
    forall k | k in fetcher - lost ensures procs[pid := pc][fetcher[k]].FetchKey() == Some(k) {
      assert procs[fetcher[k]].FetchKey() == Some(k);
    }
  }

  /** What waits at `k` in `c'` waited there in `c`, is not in `gone`, and waits for a running fetch. */
  ghost predicate Within(c: State, c': State, k: string, gone: set<nat>) {
    forall ch :: ch in WaitersOf(c', k) ==> ch in WaitersOf(c, k) && ch !in gone && IsFetching(c', k)
  }

  /** No channel is added to an entry; those in `gone`, which wait nowhere any more, are closed. */
  lemma ChannelsKept(s: Sys, s': Sys, pid: nat, pc: Pc, gone: set<nat>)
    requires Channels(s) && s'.procs == s.procs[pid := pc] && !pc.AtWait?
    requires s'.home == s.home && s'.nextChannel == s.nextChannel && s'.closed == s.closed + gone
    requires forall ch :: ch in gone ==> ch in s.home
    requires forall k :: Within(s.cache, s'.cache, k, gone)
    ensures Channels(s')
  {
    forall k, ch | ch in WaitersOf(s'.cache, k)
      ensures ch in s'.home && s'.home[ch] == k && ch !in s'.closed && IsFetching(s'.cache, k)
    {
      assert Within(s.cache, s'.cache, k, gone);
      assert ch in WaitersOf(s.cache, k);
    }
  }

  // ---------------------------------------------------------------------
  // Every step keeps them
  // ---------------------------------------------------------------------

  /** Entries that are not being fetched may change or go, as long as none is there to wait at. */
  lemma QuietStep(s: Sys, s': Sys, pid: nat, pc: Pc)
    requires Inv(s) && s' == s.(cache := s'.cache, files := s'.files, procs := s.procs[pid := pc])
    requires !pc.AtWait? && pc.FetchKey() == if pid in s.procs then s.procs[pid].FetchKey() else None
    requires forall k :: IsFetching(s'.cache, k) <==> IsFetching(s.cache, k)
    requires forall k :: WaitersOf(s'.cache, k) == WaitersOf(s.cache, k)
    ensures Inv(s')
  {
    FlightsSame(s.procs, s.fetcher, s.orphaned, s.cache, pid, pc, s'.cache);
    forall k ensures Within(s.cache, s'.cache, k, {}) {
      assert forall ch :: ch in WaitersOf(s'.cache, k) ==> ch in WaitersOf(s.cache, k);
    }
    ChannelsKept(s, s', pid, pc, {});
  }

  lemma LookHit(s: Sys, s': Sys, pid: nat)
    requires Inv(s) && LookStep(s, s', pid) && IsHit(s.cache, s.procs[pid].key)
    ensures Inv(s')
  {
    QuietStep(s, s', pid, s'.procs[pid]);
  }

  lemma LookWaits(s: Sys, s': Sys, pid: nat)
    requires Inv(s) && LookStep(s, s', pid) && IsFetching(s.cache, s.procs[pid].key)
    ensures Inv(s')
  {
    FlightsSame(s.procs, s.fetcher, s.orphaned, s.cache, pid, s'.procs[pid], s'.cache);
    forall k, ch | ch in WaitersOf(s'.cache, k)
      ensures ch in s'.home && s'.home[ch] == k && ch !in s'.closed && IsFetching(s'.cache, k)
    {
      if k != s.procs[pid].key || ch != s.nextChannel {
        assert ch in WaitersOf(s.cache, k);
      }
    }
  }

  lemma LookBegins(s: Sys, s': Sys, pid: nat)
    requires Inv(s) && LookStep(s, s', pid)
    requires !IsHit(s.cache, s.procs[pid].key) && !IsFetching(s.cache, s.procs[pid].key)
    ensures Inv(s')
  {
    FlightsBegin(s.procs, s.fetcher, s.orphaned, s.cache, pid, s.procs[pid].key, s'.cache);
    forall k, ch | ch in WaitersOf(s'.cache, k)
      ensures ch in s'.home && s'.home[ch] == k && ch !in s'.closed && IsFetching(s'.cache, k)
    {
      assert ch in WaitersOf(s.cache, k);
    }
  }

  lemma NoWaiters(s: Sys, k: string)
    requires Channels(s) && !IsFetching(s.cache, k)
    ensures WaitersOf(s.cache, k) == {}
  {
    if ch :| ch in WaitersOf(s.cache, k) {
    }
  }

  lemma RecheckInv(s: Sys, s': Sys, pid: nat)
    requires Inv(s) && RecheckStep(s, s', pid)
    ensures Inv(s')
  {
    if s'.cache != s.cache {
      NoWaiters(s, s.procs[pid].key);
    }
    QuietStep(s, s', pid, s'.procs[pid]);
  }

  /** A report closes the channels of its key's entry; the others wait at other entries. */
  lemma FinishInv(s: Sys, s': Sys, pid: nat)
    requires Inv(s) && FinishStep(s, s', pid)
    ensures Inv(s')
  {
    var key := s.procs[pid].key;
    var pc := if s.procs[pid].ok then AtEvict else AtDone;
    FlightsEnd(s.procs, s.fetcher, s.orphaned, s.cache, pid, key, pc, s'.cache);
    forall k ensures Within(s.cache, s'.cache, k, WaitersOf(s.cache, key)) {
      forall ch | ch in WaitersOf(s'.cache, k)
        ensures ch in WaitersOf(s.cache, k) && ch !in WaitersOf(s.cache, key) && IsFetching(s'.cache, k)
      {
        assert k != key && ch in WaitersOf(s.cache, k) && s.home[ch] == k;
      }
    }
    forall ch | ch in WaitersOf(s.cache, key) ensures ch in s.home {
    }
    ChannelsKept(s, s', pid, pc, WaitersOf(s.cache, key));
  }

  lemma RecordInv(s: Sys, s': Sys, pid: nat)
    requires Inv(s) && RecordStep(s, s', pid)
    ensures Inv(s')
  {
    var key := s.procs[pid].key;
    var lost := if IsFetching(s.cache, key) then {key} else {};
    FlightsLose(s.procs, s.fetcher, s.orphaned, s.cache, pid, s'.procs[pid], lost, s'.cache);
    forall k ensures Within(s.cache, s'.cache, k, {}) {
      forall ch | ch in WaitersOf(s'.cache, k) ensures ch in WaitersOf(s.cache, k) && IsFetching(s'.cache, k) {
        assert ch in WaitersOf(s.cache, k);
      }
    }
    ChannelsKept(s, s', pid, s'.procs[pid], {});
  }

  lemma EvictInv(s: Sys, s': Sys, pid: nat)
    requires Inv(s) && EvictStep(s, s', pid)
    ensures Inv(s')
  {
    EvictedEntries(s.cache);
    FlightsLose(s.procs, s.fetcher, s.orphaned, s.cache, pid, s'.procs[pid], LostByEviction(s.cache), s'.cache);
    forall k ensures Within(s.cache, s'.cache, k, {}) {
      forall ch | ch in WaitersOf(s'.cache, k) ensures ch in WaitersOf(s.cache, k) && IsFetching(s'.cache, k) {
        assert ch in WaitersOf(s.cache, k);
      }
    }
    ChannelsKept(s, s', pid, s'.procs[pid], {});
  }

  /** The other steps change files and their own process only. */
  lemma FileInv(payload: string -> seq<byte>, s: Sys, s': Sys, step: Step)
    requires Inv(s) && NextBy(payload, s, s', step)
    requires !step.Look? && !step.Recheck? && !step.Finish? && !step.Record? && !step.Evict? && !step.Vanish?
    ensures Inv(s')
  {
    FileLeaks(payload, s, s', step);
    QuietStep(s, s', step.pid, s'.procs[step.pid]);
  }

  lemma VanishInv(s: Sys, s': Sys, key: string)
    requires Inv(s) && VanishStep(s, s', key)
    ensures Inv(s')
  {
    forall k, ch | ch in WaitersOf(s'.cache, k)
      ensures ch in s'.home && s'.home[ch] == k && ch !in s'.closed && IsFetching(s'.cache, k)
    {
      assert ch in WaitersOf(s.cache, k);
    }
  }

  lemma StepInv(payload: string -> seq<byte>, s: Sys, s': Sys, step: Step)
    requires Inv(s) && NextBy(payload, s, s', step)
    ensures Inv(s')
  {
    match step
    case Look(pid) =>
      if IsHit(s.cache, s.procs[pid].key) {
        LookHit(s, s', pid);
      } else if IsFetching(s.cache, s.procs[pid].key) {
        LookWaits(s, s', pid);
      } else {
        LookBegins(s, s', pid);
      }
    case Recheck(pid) => RecheckInv(s, s', pid);
    case Finish(pid) => FinishInv(s, s', pid);
    case Record(pid) => RecordInv(s, s', pid);
    case Evict(pid) => EvictInv(s, s', pid);
    case Vanish(key) => VanishInv(s, s', key);
    case _ => FileInv(payload, s, s', step);
  }

  /** In every reachable state. */
  lemma {:induction false} RunInv(payload: string -> seq<byte>, run: seq<Sys>, steps: seq<Step>, n: nat)
    requires IsRun(payload, run, steps) && n <= |steps|
    ensures Inv(run[n])
  {
    if n > 0 {
      RunInv(payload, run, steps, n - 1);
      assert StepAt(payload, run, steps, n - 1);
      StepInv(payload, run[n - 1], run[n], steps[n - 1]);
    }
  }

  // ---------------------------------------------------------------------
  // Main results
  // ---------------------------------------------------------------------

  /** A key from which no running fetch was ever taken is fetched by one process at a time. */
  lemma OneFetchPerKey(payload: string -> seq<byte>, run: seq<Sys>, steps: seq<Step>, n: nat, p: nat, q: nat)
    requires IsRun(payload, run, steps) && n <= |steps| && p in run[n].procs && q in run[n].procs
    requires run[n].procs[p].FetchKey().Some? && run[n].procs[p].FetchKey() == run[n].procs[q].FetchKey()
    requires run[n].procs[p].key !in run[n].orphaned
    ensures p == q
  {
    RunInv(payload, run, steps, n);
  }

  /** A process whose channel nobody will close. */
  ghost predicate Stranded(s: Sys, pid: nat) {
    && pid in s.procs && s.procs[pid].AtWait?
    && s.procs[pid].channel !in s.closed
    && s.procs[pid].channel !in WaitersOf(s.cache, s.procs[pid].key)
  }

  /** The step takes the entry of `key` away from a fetch that is still running. */
  ghost predicate TakesAway(s: Sys, step: Step, key: string) {
    && IsFetching(s.cache, key)
    && match step
       case Record(pid) => pid in s.procs && s.procs[pid].AtRecord? && s.procs[pid].key == key
       case Evict(pid) => key !in Evicted(s.cache).entries
       case _ => false
  }

  /**
    A process that waits has been woken, or a running fetch of its key will wake
    it when it ends, well or badly, or it is stranded.
   */
  lemma WaitersAreWoken(payload: string -> seq<byte>, run: seq<Sys>, steps: seq<Step>, n: nat, pid: nat)
    requires IsRun(payload, run, steps) && n <= |steps|
    requires pid in run[n].procs && run[n].procs[pid].AtWait? && !Stranded(run[n], pid)
    ensures var s, key, channel := run[n], run[n].procs[pid].key, run[n].procs[pid].channel;
      || channel in s.closed
      || (key in s.fetcher && s.fetcher[key] in s.procs && s.procs[s.fetcher[key]].FetchKey() == Some(key)
          && forall s' :: FinishStep(s, s', s.fetcher[key]) ==> channel in s'.closed)
  {
    RunInv(payload, run, steps, n);
    var s := run[n];
    if s.procs[pid].channel in WaitersOf(s.cache, s.procs[pid].key) {
      assert IsFetching(s.cache, s.procs[pid].key);
    }
  }

  /** Where the channel `ch` of `key` goes in a step: it stays, it is closed, or its entry is taken away. */
  ghost predicate Goes(s: Sys, s': Sys, step: Step, key: string, ch: nat) {
    && s.closed <= s'.closed
    && (ch in WaitersOf(s.cache, key) ==>
          (TakesAway(s, step, key) <==> ch !in WaitersOf(s'.cache, key) && ch !in s'.closed))
    && (ch !in WaitersOf(s.cache, key) ==>
          ch !in WaitersOf(s'.cache, key) && (ch in s'.closed <==> ch in s.closed))
  }

  lemma LookGoes(s: Sys, s': Sys, pid: nat, key: string, ch: nat)
    requires Inv(s) && LookStep(s, s', pid) && ch in s.home && s.home[ch] == key
    ensures Goes(s, s', Look(pid), key, ch)
  {
    if !IsFetching(s.cache, key) {
      NoWaiters(s, key);
    }
  }

  lemma RecheckGoes(s: Sys, s': Sys, pid: nat, key: string, ch: nat)
    requires Inv(s) && RecheckStep(s, s', pid) && ch in s.home && s.home[ch] == key
    ensures Goes(s, s', Recheck(pid), key, ch)
  {
    if !IsFetching(s.cache, key) {
      NoWaiters(s, key);
    }
  }

  lemma FinishGoes(s: Sys, s': Sys, pid: nat, key: string, ch: nat)
    requires Inv(s) && FinishStep(s, s', pid) && ch in s.home && s.home[ch] == key
    ensures Goes(s, s', Finish(pid), key, ch)
  {
    if ch in WaitersOf(s.cache, s.procs[pid].key) {
      assert s.procs[pid].key == key;
    }
  }

  lemma RecordGoes(s: Sys, s': Sys, pid: nat, key: string, ch: nat)
    requires Inv(s) && RecordStep(s, s', pid) && ch in s.home && s.home[ch] == key
    ensures Goes(s, s', Record(pid), key, ch)
  {
    if ch in WaitersOf(s.cache, key) {
      assert IsFetching(s.cache, key) && ch !in s.closed;
    }
  }

  lemma EvictGoes(s: Sys, s': Sys, pid: nat, key: string, ch: nat)
    requires Inv(s) && EvictStep(s, s', pid) && ch in s.home && s.home[ch] == key
    ensures Goes(s, s', Step.Evict(pid), key, ch)
  {
    EvictedEntries(s.cache);
    if ch in WaitersOf(s.cache, key) {
      assert IsFetching(s.cache, key) && ch !in s.closed;
    }
  }

  lemma StepGoes(payload: string -> seq<byte>, s: Sys, s': Sys, step: Step, key: string, ch: nat)
    requires Inv(s) && NextBy(payload, s, s', step) && ch in s.home && s.home[ch] == key
    ensures Goes(s, s', step, key, ch)
  {
    match step
    case Look(pid) => LookGoes(s, s', pid, key, ch);
    case Recheck(pid) => RecheckGoes(s, s', pid, key, ch);
    case Finish(pid) => FinishGoes(s, s', pid, key, ch);
    case Record(pid) => RecordGoes(s, s', pid, key, ch);
    case Evict(pid) => EvictGoes(s, s', pid, key, ch);
    case _ => FileLeaks(payload, s, s', step);
  }

  /**
    A process that goes on waiting is stranded after a step exactly when it was
    before, or when the step takes its key's running fetch away while it waits.
   */
  lemma StrandedBy(payload: string -> seq<byte>, s: Sys, s': Sys, step: Step, pid: nat)
    requires Inv(s) && NextBy(payload, s, s', step)
    requires pid in s.procs && s.procs[pid].AtWait? && pid in s'.procs && s'.procs[pid] == s.procs[pid]
    ensures Stranded(s', pid) <==>
            Stranded(s, pid)
            || (TakesAway(s, step, s.procs[pid].key)
                && s.procs[pid].channel in WaitersOf(s.cache, s.procs[pid].key))
  {
    StepGoes(payload, s, s', step, s.procs[pid].key, s.procs[pid].channel);
  }

  /** Channels keep the key they were made for, and are new when they are made. */
  lemma HomeGrows(payload: string -> seq<byte>, s: Sys, s': Sys, step: Step, ch: nat)
    requires Inv(s) && NextBy(payload, s, s', step)
    ensures ch in s.home ==> ch in s'.home && s'.home[ch] == s.home[ch]
    ensures ch !in s.home && ch in s'.home ==> ch in WaitersOf(s'.cache, s'.home[ch])
  {
    if step.Look? {
      LookHome(s, s', step.pid, ch);
    }
  }

  lemma LookHome(s: Sys, s': Sys, pid: nat, ch: nat)
    requires Inv(s) && LookStep(s, s', pid)
    ensures ch in s.home ==> ch in s'.home && s'.home[ch] == s.home[ch]
    ensures ch !in s.home && ch in s'.home ==> ch in WaitersOf(s'.cache, s'.home[ch])
  {
  }

  /** The i-th step took the entry of `key` away from its running fetch while `ch` waited there. */
  ghost predicate LostAt(run: seq<Sys>, steps: seq<Step>, i: nat, key: string, ch: nat)
    requires i < |steps| < |run|
  {
    TakesAway(run[i], steps[i], key) && ch in WaitersOf(run[i].cache, key)
  }

  ghost predicate LostBefore(run: seq<Sys>, steps: seq<Step>, n: nat, key: string, ch: nat)
    requires n <= |steps| < |run|
  {
    exists i {:trigger LostAt(run, steps, i, key, ch)} :: 0 <= i < n && LostAt(run, steps, i, key, ch)
  }

  lemma MadeOnce(payload: string -> seq<byte>, run: seq<Sys>, steps: seq<Step>, n: nat, ch: nat)
    requires IsRun(payload, run, steps) && n < |steps|
    ensures ch in run[n].home ==> ch in run[n + 1].home && run[n + 1].home[ch] == run[n].home[ch]
    ensures ch !in run[n].home && ch in run[n + 1].home ==> ch in WaitersOf(run[n + 1].cache, run[n + 1].home[ch])
  {
    RunInv(payload, run, steps, n);
    assert StepAt(payload, run, steps, n);
    HomeGrows(payload, run[n], run[n + 1], steps[n], ch);
  }

  ghost predicate StaysMade(run: seq<Sys>, m: nat, ch: nat)
    requires m + 1 < |run|
  {
    ch in run[m].home ==> ch in run[m + 1].home
  }

  lemma {:induction false} MadeBefore(run: seq<Sys>, i: nat, n: nat, ch: nat)
    requires i <= n < |run| && ch in run[i].home
    requires forall m :: i <= m < n ==> StaysMade(run, m, ch)
    ensures ch in run[n].home
    decreases n - i
  {
    if i < n {
      MadeBefore(run, i, n - 1, ch);
      assert StaysMade(run, n - 1, ch);
    }
  }

  lemma NotYetMade(payload: string -> seq<byte>, run: seq<Sys>, steps: seq<Step>, i: nat, n: nat, ch: nat)
    requires IsRun(payload, run, steps) && i <= n <= |steps| && ch !in run[n].home
    ensures ch !in run[i].home
  {
    if ch in run[i].home {
      forall m | i <= m < n ensures StaysMade(run, m, ch) {
        MadeOnce(payload, run, steps, m, ch);
      }
      MadeBefore(run, i, n, ch);
    }
  }

  lemma {:induction false} ChannelLost(payload: string -> seq<byte>, run: seq<Sys>, steps: seq<Step>, n: nat,
                                       key: string, ch: nat)
    requires IsRun(payload, run, steps) && n <= |steps| && ch in run[n].home && run[n].home[ch] == key
    ensures ch !in run[n].closed && ch !in WaitersOf(run[n].cache, key) <==> LostBefore(run, steps, n, key, ch)
  {
    if n > 0 {
      var s, s', step := run[n - 1], run[n], steps[n - 1];
      RunInv(payload, run, steps, n - 1);
      MadeOnce(payload, run, steps, n - 1, ch);
      if ch in s.home {
        ChannelLost(payload, run, steps, n - 1, key, ch);
        assert StepAt(payload, run, steps, n - 1);
        StepGoes(payload, s, s', step, key, ch);
        LostOneMore(run, steps, n - 1, key, ch);
      } else {
        NewNotLost(payload, run, steps, n - 1, key, ch);
      }
    }
  }

  lemma NewNotLost(payload: string -> seq<byte>, run: seq<Sys>, steps: seq<Step>, n: nat, key: string, ch: nat)
    requires IsRun(payload, run, steps) && n < |steps| && ch !in run[n].home
    ensures !LostBefore(run, steps, n + 1, key, ch)
  {
    forall i | 0 <= i <= n ensures !LostAt(run, steps, i, key, ch) {
      NotYetMade(payload, run, steps, i, n, ch);
      RunInv(payload, run, steps, i);
    }
  }

  lemma LostOneMore(run: seq<Sys>, steps: seq<Step>, n: nat, key: string, ch: nat)
    requires n < |steps| < |run|
    ensures LostBefore(run, steps, n + 1, key, ch) <==>
            LostBefore(run, steps, n, key, ch) || LostAt(run, steps, n, key, ch)
  {
  }

  /**
    In every run a waiting process is stranded exactly when some step took its
    key's entry away from the running fetch while it waited. So once stranded it
    stays so until its own context is cancelled.
   */
  lemma StrandedIff(payload: string -> seq<byte>, run: seq<Sys>, steps: seq<Step>, n: nat, pid: nat)
    requires IsRun(payload, run, steps) && n <= |steps|
    requires pid in run[n].procs && run[n].procs[pid].AtWait?
    ensures Stranded(run[n], pid) <==>
            LostBefore(run, steps, n, run[n].procs[pid].key, run[n].procs[pid].channel)
  {
    RunInv(payload, run, steps, n);
    ChannelLost(payload, run, steps, n, run[n].procs[pid].key, run[n].procs[pid].channel);
  }

  // A run that strands a waiter

  /** A caller finds its key being fetched, and waits. */
  lemma WaitAlone(payload: string -> seq<byte>, run: seq<Sys>, steps: seq<Step>, s: Sys, pid: nat, key: string)
    returns (run': seq<Sys>, steps': seq<Step>, s': Sys)
    requires IsRun(payload, run, steps) && run[|run| - 1] == s
    requires pid !in s.procs && key != "" && IsFetching(s.cache, key)
    ensures IsRun(payload, run', steps') && run'[|run'| - 1] == s'
    ensures s'.procs == s.procs[pid := AtWait(key, s.nextChannel)] && s.nextChannel !in s'.closed
    ensures var waiters := s.cache.entries[key].waiters + {s.nextChannel};
      s'.cache == s.cache.(entries := s.cache.entries[key := s.cache.entries[key].(waiters := waiters)])
  {
    var s1 := Go(s, pid, AtLook(key));
    run', steps' := Extend(payload, run, steps, s, s1, Call(pid, key));
    var e := s1.cache.entries[key];
    s' := Go(s1, pid, AtWait(key, s.nextChannel)).(
      nextChannel := s.nextChannel + 1,
      home := s.home[s.nextChannel := key],
      cache := s1.cache.(entries := s1.cache.entries[key := e.(waiters := e.waiters + {s.nextChannel})]));
    run', steps' := Extend(payload, run', steps', s1, s', Look(pid));
    RunInv(payload, run', steps', |steps'|);
    assert s.nextChannel in WaitersOf(s'.cache, key);
    assert s'.procs == s.procs[pid := AtWait(key, s.nextChannel)];
  }

  /** Process 2 waits for the fetch of `a` while process 1 is about to evict. */
  lemma WaitsForA() returns (run: seq<Sys>, steps: seq<Step>, s: Sys)
    ensures IsRun(TwoBytes, run, steps) && run[|run| - 1] == s
    ensures 1 in s.procs && s.procs[1] == AtEvict && 2 in s.procs && s.procs[2].AtWait?
    ensures s.procs[2].key == "a" && s.procs[2].channel !in s.closed
    ensures s.cache.lru == ["b", "a"] && s.cache.curBytes == 2 && s.cache.maxBytes == 1
    ensures s.cache.entries == map["a" := Entry("", 0, true, false, {s.procs[2].channel}),
                                   "b" := Entry(FinalPath(s.cache.dir, "b"), 2, false, false, {})]
  {
    run, steps, s := TwoFetched();
    assert {} + {s.nextChannel} == {s.nextChannel};
    run, steps, s := WaitAlone(TwoBytes, run, steps, s, 2, "a");
  }

  /** The other blob's arrival evicts the entry for whose fetch it waits. */
  lemma StrandedIsReachable() returns (run: seq<Sys>, steps: seq<Step>, pid: nat)
    ensures IsRun(TwoBytes, run, steps) && Stranded(run[|run| - 1], pid)
  {
    var s;
    run, steps, s := WaitsForA();
    pid := 2;
    EvictsBoth(s.cache, 2, {s.procs[2].channel});
    var s' := Go(s, 1, AtDone).(
      cache := Evicted(s.cache),
      fetcher := s.fetcher - LostByEviction(s.cache),
      orphaned := s.orphaned + LostByEviction(s.cache));
    run, steps := Extend(TwoBytes, run, steps, s, s', Step.Evict(1));
  }

  /** No step but its own cancellation moves a stranded process. */
  lemma StrandedStays(payload: string -> seq<byte>, s: Sys, s': Sys, step: Step, pid: nat)
    requires Inv(s) && Stranded(s, pid) && NextBy(payload, s, s', step)
    ensures Stranded(s', pid) || (step == Wake(pid) && s'.procs[pid] == AtDone)
  {
    StepGoes(payload, s, s', step, s.procs[pid].key, s.procs[pid].channel);
  }
}
