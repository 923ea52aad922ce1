/**
  What the list of keys of the blob cache is for: whatever eviction keeps was
  asked for later than everything it drops, over any calls and any interleaving.
 */
module BlobOrder {
  import opened Common
  import opened BlobCache
  import BlobProtocol

  /** `x` stands somewhere ahead of `y`. */
  ghost predicate Before(keys: seq<string>, x: string, y: string) {
    exists i, j :: 0 <= i < j < |keys| && keys[i] == x && keys[j] == y
  }

  /** A key that is asked for comes to the front if it stays; the others keep their order, and some may go. */
  ghost predicate Moves(keys: seq<string>, asked: Option<string>, keys': seq<string>) {
    && (forall x, y {:trigger Before(keys', x, y)} :: Before(keys', x, y) && x != y ==>
          asked == Some(x) || (Before(keys, x, y) && asked != Some(y)))
    && (forall x :: x in keys' ==> x in keys || asked == Some(x))
    && (asked.Some? && asked.value in keys' ==> keys'[0] == asked.value)
  }

  /** `x` was asked for after `y` was for the last time. */
  ghost predicate AskedLater(asked: seq<Option<string>>, x: string, y: string) {
    exists i :: 0 <= i < |asked| && asked[i] == Some(x) && forall j :: i <= j < |asked| ==> asked[j] != Some(y)
  }

  ghost predicate Moved(lists: seq<seq<string>>, asked: seq<Option<string>>, i: nat)
    requires i < |asked| < |lists|
  {
    Moves(lists[i], asked[i], lists[i + 1])
  }

  lemma {:induction false} BeforeIsLater(lists: seq<seq<string>>, asked: seq<Option<string>>, x: string, y: string)
    requires |lists| == |asked| + 1 && lists[0] == []
    requires forall i {:trigger Moved(lists, asked, i)} :: 0 <= i < |asked| ==> Moved(lists, asked, i)
    requires x != y && Before(lists[|asked|], x, y)
    ensures AskedLater(asked, x, y)
  {
    var n := |asked| - 1;
    if n >= 0 {
      assert Moved(lists, asked, n);
      if asked[n] == Some(x) {
        assert asked[n] == Some(x) && forall j :: n <= j < |asked| ==> asked[j] != Some(y);
      } else {
        var lists', asked' := lists[..n + 1], asked[..n];
        forall i | 0 <= i < n ensures Moved(lists', asked', i) {
          assert Moved(lists, asked, i);
        }
        BeforeIsLater(lists', asked', x, y);
        var i :| 0 <= i < n && asked'[i] == Some(x) && forall j :: i <= j < n ==> asked'[j] != Some(y);
        assert asked[i] == Some(x);
        forall j | i <= j < |asked| ensures asked[j] != Some(y) {
          assert j < n ==> asked'[j] == asked[j];
        }
      }
    }
  }

  // ---------------------------------------------------------------------
  // How the list moves
  // ---------------------------------------------------------------------

  lemma HeadFirst(keys: seq<string>, y: string)
    requires keys != [] && y in keys[1..]
    ensures Before(keys, keys[0], y)
  {
    var k :| 0 <= k < |keys[1..]| && keys[1..][k] == y;
    assert keys[k + 1] == y;
  }

  lemma TailOrder(keys: seq<string>, x: string, y: string)
    requires keys != [] && Before(keys[1..], x, y)
    ensures Before(keys, x, y)
  {
    var a, b :| 0 <= a < b < |keys[1..]| && keys[1..][a] == x && keys[1..][b] == y;
    assert keys[a + 1] == x && keys[b + 1] == y;
  }

  lemma {:induction false} RemovedOrder(keys: seq<string>, key: string, i: nat, j: nat)
    requires NoDup(keys) && i < j < |RemoveFirst(keys, key)|
    ensures Before(keys, RemoveFirst(keys, key)[i], RemoveFirst(keys, key)[j])
  {
    var r := RemoveFirst(keys, key);
    if keys[0] == key {
      assert keys[i + 1] == r[i] && keys[j + 1] == r[j];
    } else {
      var rest := RemoveFirst(keys[1..], key);
      assert r[j] == rest[j - 1];
      if i == 0 {
        RemoveFirstKeeps(keys[1..], key, map[]);
        assert rest[j - 1] in rest;
        HeadFirst(keys, r[j]);
      } else {
        RemovedOrder(keys[1..], key, i - 1, j - 1);
        assert r[i] == rest[i - 1];
        TailOrder(keys, r[i], r[j]);
      }
    }
  }

  lemma RemovedMoves(keys: seq<string>, key: string)
    requires NoDup(keys)
    ensures Moves(keys, None, RemoveFirst(keys, key))
  {
    RemoveFirstKeeps(keys, key, map[]);
    var r := RemoveFirst(keys, key);
    forall x, y | Before(r, x, y) ensures Before(keys, x, y) {
      var i, j :| 0 <= i < j < |r| && r[i] == x && r[j] == y;
      RemovedOrder(keys, key, i, j);
    }
  }

  lemma BumpedMoves(keys: seq<string>, key: string)
    requires NoDup(keys)
    ensures Moves(keys, Some(key), Bumped(keys, key))
  {
    RemoveFirstKeeps(keys, key, map[]);
    RemovedMoves(keys, key);
    var r, b := RemoveFirst(keys, key), Bumped(keys, key);
    forall x, y | Before(b, x, y) && x != y && x != key ensures Before(keys, x, y) && y != key {
      var i, j :| 0 <= i < j < |b| && b[i] == x && b[j] == y;
      assert i > 0 && r[i - 1] == x && r[j - 1] == y;
      assert Before(r, x, y) && y in r;
    }
  }

  /** What stays at the front of the list moved with it. */
  lemma FrontMoves(keys: seq<string>, asked: Option<string>, keys': seq<string>, n: nat)
    requires Moves(keys, asked, keys') && n <= |keys'|
    ensures Moves(keys, asked, keys'[..n])
  {
    var r := keys'[..n];
    forall x, y | Before(r, x, y) ensures Before(keys', x, y) {
      var i, j :| 0 <= i < j < |r| && r[i] == x && r[j] == y;
      assert keys'[i] == x && keys'[j] == y;
    }
  }

  lemma MovesNowhere(keys: seq<string>)
    ensures Moves(keys, None, keys)
  {
  }

  lemma {:induction false} EvictedFront(s: State)
    ensures |Evicted(s).lru| <= |s.lru| && Evicted(s).lru == s.lru[..|Evicted(s).lru|]
    decreases |s.lru|
  {
    if s.curBytes > s.maxBytes && s.lru != [] {
      EvictedFront(EvictOne(s));
    }
  }

  lemma EvictedMoves(keys: seq<string>, asked: Option<string>, s: State)
    requires Moves(keys, asked, s.lru)
    ensures Moves(keys, asked, Evicted(s).lru)
  {
    EvictedFront(s);
    FrontMoves(keys, asked, s.lru, |Evicted(s).lru|);
  }

  lemma FrontHas(keys: seq<string>, n: nat, j: nat)
    requires n <= |keys| && j < |keys|
    ensures j < n ==> keys[j] in keys[..n]
  {
    assert j < n ==> keys[..n][j] == keys[j];
  }

  /** What eviction keeps stood ahead of what it drops. */
  lemma KeptBeforeDropped(s: State, kept: string, dropped: string)
    requires kept in Evicted(s).lru && dropped in s.lru && dropped !in Evicted(s).lru
    ensures Before(s.lru, kept, dropped) && kept != dropped
  {
    EvictedFront(s);
    var n := |Evicted(s).lru|;
    var i :| 0 <= i < n && Evicted(s).lru[i] == kept;
    var j :| 0 <= j < |s.lru| && s.lru[j] == dropped;
    assert s.lru[i] == kept;
    FrontHas(s.lru, n, j);
  }

  // ---------------------------------------------------------------------
  // One call at a time
  // ---------------------------------------------------------------------

  /** The key a call asks for: any request does, and a store that succeeds. */
  function AskedBy(s: State, call: Call): Option<string> {
    match call
    case Get(key, data) => if key == "" then None else Some(key)
    case Store(key, src, renames) =>
      if key != "" && src != "" && src in s.disk && renames then Some(key) else None
    case _ => None
  }

  /** The state of a call just before the eviction it makes, if it makes one. */
  function BeforeEviction(s: State, call: Call): State {
    match call
    case Get(key, data) =>
      if key == "" || (IsHit(s, key) && OnDisk(s, s.entries[key].path, s.entries[key].size)) || data.None? then
        Apply(s, call)
      else
        Arrived(if IsHit(s, key) then Forgot(HitTouched(s, key), key) else s, key, data.value)
    case Evict => s
    case _ => Apply(s, call)
  }

  lemma GetMoves(payload: string -> seq<byte>, s: State, key: string, data: Option<seq<byte>>)
    requires Sound(payload, s) && key != "" && Legal(payload, s, Get(key, data))
    ensures Moves(s.lru, Some(key), BeforeEviction(s, Get(key, data)).lru)
    ensures GetState(s, key, data) == BeforeEviction(s, Get(key, data))
            || GetState(s, key, data) == Evicted(BeforeEviction(s, Get(key, data)))
  {
    BumpedMoves(s.lru, key);
    if IsHit(s, key) && !OnDisk(s, s.entries[key].path, s.entries[key].size) {
      HitTouchedKeeps(s, key);
      ForgottenMoves(s, key);
    }
  }

  /** Forgetting a key and beginning to fetch it puts it first all the same. */
  lemma ForgottenMoves(s: State, key: string)
    requires Booked(s) && key in s.entries
    ensures Moves(s.lru, Some(key), Bumped(Forgot(HitTouched(s, key), key).lru, key))
  {
    BumpedMoves(s.lru, key);
    ForgottenKeys(s, key);
  }

  lemma CallMoves(payload: string -> seq<byte>, s: State, call: Call)
    requires Sound(payload, s) && Legal(payload, s, call)
    ensures Moves(s.lru, AskedBy(s, call), BeforeEviction(s, call).lru)
    ensures Apply(s, call) == BeforeEviction(s, call) || Apply(s, call) == Evicted(BeforeEviction(s, call))
    ensures Moves(s.lru, AskedBy(s, call), Apply(s, call).lru)
  {
    MovesNowhere(s.lru);
    match call {
      case Get(key, data) =>
        if key != "" {
          GetMoves(payload, s, key, data);
        }
      case Store(key, src, renames) => BumpedMoves(s.lru, key);
      case Evict =>
      case Outside(disk) =>
    }
    EvictedMoves(s.lru, AskedBy(s, call), BeforeEviction(s, call));
  }

  /** The keys that the first `n` calls asked for. */
  function AskedFirst(run: seq<State>, calls: seq<Call>, n: nat): seq<Option<string>>
    requires n <= |calls| && |run| == |calls| + 1
  {
    seq(n, i requires 0 <= i < n => AskedBy(run[i], calls[i]))
  }

  lemma RunMoves(payload: string -> seq<byte>, run: seq<State>, calls: seq<Call>, n: nat)
    requires IsCallRun(payload, run, calls) && n < |calls|
    ensures CallMovesAt(run, calls, n)
  {
    RunSound(payload, run, calls, n);
    assert Legal(payload, run[n], calls[n]);
    CallMoves(payload, run[n], calls[n]);
  }

  ghost predicate CallMovesAt(run: seq<State>, calls: seq<Call>, n: nat)
    requires n < |calls| && |run| == |calls| + 1
  {
    var s, call := run[n], calls[n];
    && Moves(s.lru, AskedBy(s, call), run[n + 1].lru)
    && Moves(s.lru, AskedBy(s, call), BeforeEviction(s, call).lru)
    && (run[n + 1] == BeforeEviction(s, call) || run[n + 1] == Evicted(BeforeEviction(s, call)))
  }

  /** Every key was asked for later than those behind it, in any list that the n-th call may leave. */
  lemma OrderIsRecency(payload: string -> seq<byte>, run: seq<State>, calls: seq<Call>, n: nat,
                       last: seq<string>, x: string, y: string)
    requires IsCallRun(payload, run, calls) && n < |calls|
    requires Moves(run[n].lru, AskedBy(run[n], calls[n]), last) && x != y && Before(last, x, y)
    ensures AskedLater(AskedFirst(run, calls, n + 1), x, y)
  {
    var lists := seq(n + 2, i requires 0 <= i < n + 2 => if i <= n then run[i].lru else last);
    var asked := AskedFirst(run, calls, n + 1);
    forall i | 0 <= i < |asked| ensures Moved(lists, asked, i) {
      if i < n {
        RunMoves(payload, run, calls, i);
        assert CallMovesAt(run, calls, i);
      }
    }
    BeforeIsLater(lists, asked, x, y);
  }

  /**
    Whenever a call drops a key, by the eviction it makes, each key it keeps was
    asked for after the dropped one was for the last time.
   */
  lemma EvictionDropsLeastRecent(payload: string -> seq<byte>, run: seq<State>, calls: seq<Call>, n: nat,
                                 kept: string, dropped: string)
    requires IsCallRun(payload, run, calls) && n < |calls|
    requires kept in run[n + 1].entries && dropped !in run[n + 1].entries
    requires dropped in run[n].entries || AskedBy(run[n], calls[n]) == Some(dropped)
    ensures AskedLater(AskedFirst(run, calls, n + 1), kept, dropped)
  {
    RunSound(payload, run, calls, n);
    RunSound(payload, run, calls, n + 1);
    RunMoves(payload, run, calls, n);
    var pre := BeforeEviction(run[n], calls[n]);
    StillListed(payload, run[n], calls[n], dropped);
    KeptBeforeDropped(pre, kept, dropped);
    OrderIsRecency(payload, run, calls, n, pre.lru, kept, dropped);
  }

  /** Up to its eviction a call drops no key, and lists the one it asks for. */
  lemma StillListed(payload: string -> seq<byte>, s: State, call: Call, key: string)
    requires Sound(payload, s) && Legal(payload, s, call)
    requires key in s.entries || AskedBy(s, call) == Some(key)
    ensures key in BeforeEviction(s, call).lru
  {
    match call
    case Get(k, data) =>
      if k != "" {
        BumpKeeps(s.lru, k, s.entries);
        if IsHit(s, k) {
          ForgottenKeys(s, k);
        }
      }
    case Store(k, src, renames) => BumpKeeps(s.lru, k, s.entries);
    case Evict =>
    case Outside(disk) =>
  }

  lemma ForgottenKeys(s: State, key: string)
    requires Booked(s) && key in s.entries
    ensures Bumped(Forgot(HitTouched(s, key), key).lru, key) == Bumped(s.lru, key)
  {
    var b := Bumped(s.lru, key);
    assert b[1..] == RemoveFirst(b, key);
    RemoveFirstKeeps(s.lru, key, s.entries);
    RemoveFirstAbsent(RemoveFirst(s.lru, key), key);
  }

  // ---------------------------------------------------------------------
  // Under every interleaving
  // ---------------------------------------------------------------------

  /** The key a step asks for: a call that does not have to wait for it, or a store. */
  function AskedAt(s: BlobProtocol.Sys, step: BlobProtocol.Step): Option<string> {
    match step
    case Look(pid) =>
      if pid in s.procs && s.procs[pid].AtLook? && !BlobProtocol.IsFetching(s.cache, s.procs[pid].key) then
        Some(s.procs[pid].key)
      else None
    case Record(pid) => if pid in s.procs && s.procs[pid].AtRecord? then Some(s.procs[pid].key) else None
    case _ => None
  }

  lemma StepMoves(payload: string -> seq<byte>, s: BlobProtocol.Sys, s': BlobProtocol.Sys, step: BlobProtocol.Step)
    requires Booked(s.cache) && BlobProtocol.NextBy(payload, s, s', step)
    ensures Moves(s.cache.lru, AskedAt(s, step), s'.cache.lru)
  {
    MovesNowhere(s.cache.lru);
    match step
    case Look(pid) => BumpedMoves(s.cache.lru, s.procs[pid].key);
    case Recheck(pid) => RemovedMoves(s.cache.lru, s.procs[pid].key);
    case Finish(pid) =>
    case Record(pid) => BumpedMoves(s.cache.lru, s.procs[pid].key);
    case Evict(pid) => EvictedMoves(s.cache.lru, None, s.cache);
    case _ => BlobProtocol.FileLeaks(payload, s, s', step);
  }

  /** The keys that the first `n` steps asked for. */
  function AskedUpTo(run: seq<BlobProtocol.Sys>, steps: seq<BlobProtocol.Step>, n: nat): seq<Option<string>>
    requires n <= |steps| < |run|
  {
    seq(n, i requires 0 <= i < n => AskedAt(run[i], steps[i]))
  }

  /** In every reachable state each key was asked for later than those behind it. */
  lemma RunOrderIsRecency(payload: string -> seq<byte>, run: seq<BlobProtocol.Sys>, steps: seq<BlobProtocol.Step>,
                          n: nat, x: string, y: string)
    requires BlobProtocol.IsRun(payload, run, steps) && n <= |steps| && x != y && Before(run[n].cache.lru, x, y)
    ensures AskedLater(AskedUpTo(run, steps, n), x, y)
  {
    var lists := seq(n + 1, i requires 0 <= i < n + 1 => run[i].cache.lru);
    var asked := AskedUpTo(run, steps, n);
    forall i | 0 <= i < |asked| ensures Moved(lists, asked, i) {
      BlobProtocol.RunBooked(payload, run, steps, i);
      assert BlobProtocol.StepAt(payload, run, steps, i);
      StepMoves(payload, run[i], run[i + 1], steps[i]);
    }
    BeforeIsLater(lists, asked, x, y);
  }

  /** So every key an eviction keeps was asked for after each key it drops was for the last time. */
  lemma RunDropsLeastRecent(payload: string -> seq<byte>, run: seq<BlobProtocol.Sys>, steps: seq<BlobProtocol.Step>,
                            n: nat, kept: string, dropped: string)
    requires BlobProtocol.IsRun(payload, run, steps) && n < |steps| && steps[n].Evict?
    requires kept in run[n + 1].cache.entries
    requires dropped in run[n].cache.entries && dropped !in run[n + 1].cache.entries
    ensures AskedLater(AskedUpTo(run, steps, n), kept, dropped)
  {
    BlobProtocol.RunBooked(payload, run, steps, n);
    BlobProtocol.RunBooked(payload, run, steps, n + 1);
    assert BlobProtocol.StepAt(payload, run, steps, n);
    KeptBeforeDropped(run[n].cache, kept, dropped);
    RunOrderIsRecency(payload, run, steps, n, kept, dropped);
  }
}
