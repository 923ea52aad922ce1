/**
  The bounded in-memory chunk cache behind one ranged file handle, as values.

  The chunk map, the rules that plan and size a fetch, the lookup rule and the
  eviction rule are stated here once. `RangeFileHandle` runs them from a class
  with a looping `Read`; `RangeProtocol` runs them under every interleaving.
 */
module ChunkCache {
  import opened Common

  const CHUNK_SIZE: int := 0x40_0000
  const PROBE_SIZE: int := 0x8_0000
  const MAX_CHUNKS: nat := 8
  const LOOKAHEAD_FULL: int := 2

  /** One cached window. While `fetching` holds there is no data yet. */
  datatype Chunk = Chunk(
    start: nat,
    data: seq<byte>,
    useSeq: nat,
    pinned: bool,
    fetching: bool)
  {
    function End(): int {
      start + |data|
    }

    predicate Covers(off: int) {
      !fetching && start <= off < End()
    }
  }

  type ChunkMap = map<nat, Chunk>

  // ---------------------------------------------------------------------
  // Window arithmetic
  // ---------------------------------------------------------------------

  function ChunkStart(off: int): int {
    off / 0x40_0000 * 0x40_0000
  }

  function ProbeStart(off: int): int {
    if off <= 0 then 0 else off / 0x8_0000 * 0x8_0000
  }

  function TailProbeStart(size: int): int {
    if size <= 0 then 0 else ProbeStart(size - 1)
  }

  /** The furthest end a chunk that starts at `start` may ever reach. */
  function MaxEnd(start: int, size: int): int {
    Min(start + CHUNK_SIZE, size)
  }

  predicate Pinned(start: int, size: int) {
    start == 0 || start == TailProbeStart(size)
  }

  /** Nothing but the head of the file and the 512 KiB block that holds its last byte is pinned. */
  lemma PinnedAreEnds(k: int, size: int)
    requires 0 <= k < size && k % 0x8_0000 == 0
    ensures Pinned(k, size) <==> k == 0 || size <= k + 0x8_0000
  {
  }

  function NextFetchEnd(ch: Chunk, needEnd: int, size: int): int {
    Min(Max(needEnd, ch.start + |ch.data| * 2), MaxEnd(ch.start, size))
  }

  function FetchLength(start: int, needEnd: int, size: int): int {
    var needEnd' := if needEnd <= start then start + 1 else needEnd;
    var length := Min(Max(needEnd' - start, PROBE_SIZE), CHUNK_SIZE);
    if start + length > size then size - start else length
  }

  // ---------------------------------------------------------------------
  // Lookup: the covering resident chunk touched last
  // ---------------------------------------------------------------------

  ghost predicate IsHit(m: ChunkMap, off: int, k: nat) {
    && k in m
    && m[k].Covers(off)
    && forall j :: j in m && m[j].Covers(off) ==> m[j].useSeq <= m[k].useSeq
  }

  ghost function HitOf(m: ChunkMap, off: int): Option<nat> {
    if exists k :: IsHit(m, off, k) then
      var k :| IsHit(m, off, k);
      Some(k)
    else
      None
  }

  /** The window a read at `off` asks for next, given the lookup's answer. */
  function PlanFetch(m: ChunkMap, size: int, off: int, readEnd: int, hit: Option<nat>): (plan: (int, int))
    requires hit.Some? ==> hit.value in m
  {
    var fullStart := ChunkStart(off);
    if hit.Some? then
      (m[hit.value].start, Min(readEnd, MaxEnd(m[hit.value].start, size)))
    else if fullStart in m && !m[fullStart].fetching && off >= m[fullStart].End() then
      (fullStart, MaxEnd(fullStart, size))
    else
      (ProbeStart(off), Min(readEnd, Min(ProbeStart(off) + PROBE_SIZE, size)))
  }

  // ---------------------------------------------------------------------
  // Eviction: drop the least recently touched chunk that is neither pinned
  // nor being fetched, until at most MAX_CHUNKS entries are left
  // ---------------------------------------------------------------------

  predicate Evictable(ch: Chunk) {
    !ch.pinned && !ch.fetching
  }

  ghost predicate IsVictim(m: ChunkMap, k: nat) {
    && k in m
    && Evictable(m[k])
    && forall j :: j in m && Evictable(m[j]) ==> m[k].useSeq <= m[j].useSeq
  }

  /**
    What eviction leaves of `m`: a sub-map in which no pinned or in-flight
    entry is missing, every dropped chunk was touched no later than every
    evictable chunk that stays, at most MAX_CHUNKS entries are left unless
    nothing evictable is left, and never fewer if anything was dropped.
   */
  ghost predicate EvictedTo(m: ChunkMap, r: ChunkMap) {
    && Dropped(m, r)
    && (|r.Keys| <= MAX_CHUNKS || forall k :: k in r ==> !Evictable(r[k]))
  }

  /** `m` after some rounds of eviction. */
  ghost predicate Dropped(m: ChunkMap, r: ChunkMap) {
    && r.Keys <= m.Keys
    && (forall k :: k in r ==> r[k] == m[k])
    && (forall k :: k in m && k !in r ==> Evictable(m[k]))
    && (forall j, k {:trigger m[j].useSeq, r[k].useSeq} ::
          j in m && j !in r && k in r && Evictable(r[k]) ==> m[j].useSeq <= r[k].useSeq)
    && (r != m ==> |r.Keys| >= MAX_CHUNKS)
  }

  /** `m` with the chunk at `k` touched at sequence number `n`. */
  function Touched(m: ChunkMap, k: nat, n: nat): ChunkMap
    requires k in m
  {
    m[k := m[k].(useSeq := n)]
  }

  /** `r` is `m` after its chunk at `k` was touched at sequence number `n`. */
  ghost predicate TouchedTo(m: ChunkMap, k: nat, n: nat, r: ChunkMap) {
    k in m && r == Touched(m, k, n)
  }

  /** A chunk whose window has arrived. */
  function Filled(ch: Chunk, buf: seq<byte>, seqNo: nat): Chunk {
    Chunk(ch.start, buf, seqNo, ch.pinned, false)
  }

  /** The entry that marks a window as being fetched. */
  function Placeholder(start: nat, size: int, seqNo: nat): Chunk {
    Chunk(start, [], seqNo, Pinned(start, size), true)
  }

  // ---------------------------------------------------------------------
  // The cache invariant
  // ---------------------------------------------------------------------

  /** `inv` names, for every sequence number in use, the one chunk that has it. */
  ghost predicate Indexes(inv: map<nat, nat>, m: ChunkMap) {
    forall k :: k in m ==> m[k].useSeq in inv && inv[m[k].useSeq] == k
  }

  /** No two chunks were touched at the same sequence number. */
  ghost predicate DistinctSeqs(m: ChunkMap) {
    exists inv :: Indexes(inv, m)
  }

  lemma DistinctMeans(m: ChunkMap, j: nat, k: nat)
    requires DistinctSeqs(m) && j in m && k in m && m[j].useSeq == m[k].useSeq
    ensures j == k
  {
    var inv :| Indexes(inv, m);
  }

  /** The start of a chunk, or of a window a caller asks for. */
  predicate ValidStart(start: int, size: int) {
    0 <= start < size && start % 0x8_0000 == 0
  }

  predicate ValidLength(start: int, length: int, size: int) {
    Min(PROBE_SIZE, size - start) <= length <= MaxEnd(start, size) - start
  }

  predicate ValidTarget(start: int, needEnd: int, size: int) {
    ValidStart(start, size) && start < needEnd <= MaxEnd(start, size)
  }

  /** A resident chunk holds exactly the payload bytes of its window. */
  ghost predicate ValidChunk(payload: seq<byte>, k: nat, ch: Chunk) {
    && ValidStart(k, |payload|)
    && ch.start == k
    && ch.pinned == Pinned(k, |payload|)
    && (ch.fetching ==> ch.data == [])
    && (!ch.fetching ==>
          && ValidLength(k, |ch.data|, |payload|)
          && ch.data == payload[k..k + |ch.data|])
  }

  function Resident(m: ChunkMap): set<nat> {
    set k | k in m && !m[k].fetching
  }

  function PinnedKeys(m: ChunkMap): set<nat> {
    set k | k in m && m[k].pinned
  }

  ghost predicate ValidMap(payload: seq<byte>, m: ChunkMap, useSeq: nat) {
    && (forall k {:trigger ValidChunk(payload, k, m[k])} :: k in m ==> ValidChunk(payload, k, m[k]))
    && (forall k {:trigger m[k].useSeq} :: k in m ==> m[k].useSeq <= useSeq)
    && DistinctSeqs(m)
  }

  /** Between critical sections: additionally at most MAX_CHUNKS resident chunks. */
  ghost predicate CacheInv(payload: seq<byte>, m: ChunkMap, useSeq: nat) {
    ValidMap(payload, m, useSeq) && |Resident(m)| <= MAX_CHUNKS
  }

  function ResidentBytes(m: ChunkMap, ks: set<nat>): nat
    requires ks <= m.Keys
  {
    if ks == {} then 0
    else
      var k := Least(ks);
      |m[k].data| + ResidentBytes(m, ks - {k})
  }

  function Least(ks: set<nat>): (k: nat)
    requires ks != {}
    ensures k in ks && forall j :: j in ks ==> k <= j
  {
    LeastExists(ks);
    var k :| k in ks && forall j :: j in ks ==> k <= j;
    k
  }

  lemma LeastExists(ks: set<nat>)
    requires ks != {}
    ensures exists k :: k in ks && forall j :: j in ks ==> k <= j
  {
    var x :| x in ks;
    if ks != {x} {
      LeastExists(ks - {x});
      var y :| y in ks - {x} && forall j :: j in ks - {x} ==> y <= j;
      assert forall j :: j in ks ==> j == x || j in ks - {x};
      assert Min(x, y) in ks && forall j :: j in ks ==> Min(x, y) <= j;
    }
  }

  /** A window some caller asks for. */
  datatype Target = Target(start: nat, needEnd: int)

  ghost predicate ValidTargets(ts: seq<Target>, size: int) {
    forall i :: 0 <= i < |ts| ==> ValidTarget(ts[i].start, ts[i].needEnd, size)
  }

  /** The background windows a full-size fetch queues. */
  function Lookahead(start: nat, fetchedLen: int, size: int): seq<Target> {
    if fetchedLen != CHUNK_SIZE || start + fetchedLen >= size then []
    else
      var first := Target(start + fetchedLen, Min(start + 2 * fetchedLen, size));
      if start + 2 * fetchedLen >= size then [first]
      else [first, Target(start + 2 * fetchedLen, Min(start + 3 * fetchedLen, size))]
  }

  /** Lookahead asks for at most two windows, each one a chunk may hold. */
  lemma LookaheadValid(start: nat, fetchedLen: int, size: int)
    requires ValidStart(start, size)
    ensures |Lookahead(start, fetchedLen, size)| <= LOOKAHEAD_FULL
    ensures ValidTargets(Lookahead(start, fetchedLen, size), size)
  {
  }

  // ---------------------------------------------------------------------
  // Lookup and victim are found, and found uniquely
  // ---------------------------------------------------------------------

  lemma {:induction false} LatestAmong(m: ChunkMap, ks: set<nat>)
    requires ks != {} && ks <= m.Keys
    ensures exists k :: k in ks && forall j :: j in ks ==> m[j].useSeq <= m[k].useSeq
  {
    var x :| x in ks;
    if ks != {x} {
      LatestAmong(m, ks - {x});
      var y :| y in ks - {x} && forall j :: j in ks - {x} ==> m[j].useSeq <= m[y].useSeq;
      assert forall j :: j in ks ==> j == x || j in ks - {x};
      var z := if m[x].useSeq > m[y].useSeq then x else y;
      assert z in ks && forall j :: j in ks ==> m[j].useSeq <= m[z].useSeq;
    }
  }

  lemma HitExists(m: ChunkMap, off: int, j: nat)
    requires j in m && m[j].Covers(off)
    ensures exists k :: IsHit(m, off, k)
  {
    var ks := set k | k in m && m[k].Covers(off);
    assert j in ks;
    LatestAmong(m, ks);
    var k :| k in ks && forall i :: i in ks ==> m[i].useSeq <= m[k].useSeq;
    assert IsHit(m, off, k);
  }

  lemma EmptyQuiet(payload: seq<byte>)
    ensures Quiet(payload, map[], 0)
  {
    assert Indexes(map[], map[]);
  }

  /** A lookup finds a chunk exactly when some resident chunk covers the offset. */
  lemma HitFound(m: ChunkMap, off: int)
    ensures HitOf(m, off).Some? <==> exists k :: k in m && m[k].Covers(off)
    ensures HitOf(m, off).Some? ==> IsHit(m, off, HitOf(m, off).value)
  {
    if k :| k in m && m[k].Covers(off) {
      HitExists(m, off, k);
    }
  }

  /** The answer of a lookup does not depend on the order the map is walked in. */
  lemma HitUnique(m: ChunkMap, off: int, k: nat)
    requires DistinctSeqs(m) && IsHit(m, off, k)
    ensures HitOf(m, off) == Some(k)
  {
    HitFound(m, off);
  }

  lemma DropVictim(m: ChunkMap, r: ChunkMap, k: nat)
    requires Dropped(m, r) && IsVictim(r, k) && |r.Keys| > MAX_CHUNKS
    ensures Dropped(m, r - {k})
  {
    assert (r - {k}).Keys == r.Keys - {k};
  }

  /** The outcome of eviction does not depend on the order the map is walked in. */
  lemma EvictedToUnique(m: ChunkMap, r1: ChunkMap, r2: ChunkMap)
    requires DistinctSeqs(m) && EvictedTo(m, r1) && EvictedTo(m, r2)
    ensures r1 == r2
  {
    EvictedToWithin(m, r1, r2);
    EvictedToWithin(m, r2, r1);
  }

  lemma EvictedToWithin(m: ChunkMap, r1: ChunkMap, r2: ChunkMap)
    requires DistinctSeqs(m) && EvictedTo(m, r1) && EvictedTo(m, r2)
    ensures r1.Keys <= r2.Keys
  {
    forall k | k in r1 ensures k in r2 {
      if k !in r2 {
        KeptOfDropped(m, r1, r2, k);
        SubsetCard(r2.Keys + {k}, r1.Keys);
      }
    }
  }

  lemma KeptOfDropped(m: ChunkMap, r1: ChunkMap, r2: ChunkMap, k: nat)
    requires DistinctSeqs(m) && Dropped(m, r1) && Dropped(m, r2)
    requires k in r1 && k !in r2
    ensures r2.Keys + {k} <= r1.Keys
  {
    forall j | j in r2 ensures j in r1 {
      if j !in r1 {
        DistinctMeans(m, j, k);
      }
    }
  }

  lemma SubsetCard<T>(a: set<T>, b: set<T>)
    requires a <= b
    ensures |a| <= |b|
  {
    assert b == a + (b - a);
  }

  lemma PinnedAtMostTwo(payload: seq<byte>, m: ChunkMap, useSeq: nat)
    requires ValidMap(payload, m, useSeq)
    ensures |PinnedKeys(m)| <= 2
  {
    forall k | k in PinnedKeys(m) ensures k == 0 || k == TailProbeStart(|payload|) {
      assert ValidChunk(payload, k, m[k]);
    }
    SubsetCard(PinnedKeys(m), {0, TailProbeStart(|payload|)});
  }

  lemma AllPinnedIsFew(payload: seq<byte>, m: ChunkMap, useSeq: nat, ks: set<nat>)
    requires ValidMap(payload, m, useSeq)
    requires forall k :: k in ks ==> k in m && m[k].pinned
    ensures |ks| <= 2
  {
    SubsetCard(ks, PinnedKeys(m));
    PinnedAtMostTwo(payload, m, useSeq);
  }

  lemma SubMapValid(payload: seq<byte>, m: ChunkMap, useSeq: nat, r: ChunkMap)
    requires ValidMap(payload, m, useSeq)
    requires r.Keys <= m.Keys && forall k :: k in r ==> r[k] == m[k]
    ensures ValidMap(payload, r, useSeq)
  {
    var inv :| Indexes(inv, m);
    assert Indexes(inv, r);
  }

  /** After eviction at most MAX_CHUNKS chunks are resident, whatever was in flight. */
  lemma EvictBoundsResident(payload: seq<byte>, m: ChunkMap, useSeq: nat, r: ChunkMap)
    requires ValidMap(payload, m, useSeq) && EvictedTo(m, r)
    ensures CacheInv(payload, r, useSeq)
  {
    SubMapValid(payload, m, useSeq, r);
    if |r.Keys| <= MAX_CHUNKS {
      SubsetCard(Resident(r), r.Keys);
    } else {
      AllPinnedIsFew(payload, r, useSeq, Resident(r));
    }
  }

  /** The chunk touched last outlives eviction when nothing else is in flight. */
  lemma NewestSurvives(payload: seq<byte>, m: ChunkMap, useSeq: nat, k: nat, r: ChunkMap)
    requires ValidMap(payload, m, useSeq) && EvictedTo(m, r)
    requires forall j :: j in m ==> !m[j].fetching
    requires k in m && m[k].useSeq == useSeq
    ensures k in r && |r.Keys| <= MAX_CHUNKS
  {
    SubMapValid(payload, m, useSeq, r);
    if k !in r || |r.Keys| > MAX_CHUNKS {
      AllPinnedIsFew(payload, r, useSeq, r.Keys);
    }
  }

  /** At most 32 MiB are resident. */
  lemma {:induction false} ResidentBytesBound(payload: seq<byte>, m: ChunkMap, useSeq: nat, ks: set<nat>)
    requires ValidMap(payload, m, useSeq) && ks <= m.Keys
    ensures ResidentBytes(m, ks) <= |ks| * CHUNK_SIZE
  {
    if ks != {} {
      var k := Least(ks);
      assert ValidChunk(payload, k, m[k]);
      ResidentBytesBound(payload, m, useSeq, ks - {k});
    }
  }

  // ---------------------------------------------------------------------
  // What each update of one entry keeps
  // ---------------------------------------------------------------------

  lemma FreshSeqDistinct(m: ChunkMap, useSeq: nat, start: nat, ch: Chunk)
    requires DistinctSeqs(m) && forall k :: k in m ==> m[k].useSeq <= useSeq
    requires ch.useSeq > useSeq
    ensures DistinctSeqs(m[start := ch])
  {
    var inv :| Indexes(inv, m);
    assert Indexes(inv[ch.useSeq := start], m[start := ch]);
  }

  lemma UpdateValid(payload: seq<byte>, m: ChunkMap, useSeq: nat, start: nat, ch: Chunk)
    requires ValidMap(payload, m, useSeq)
    requires ValidChunk(payload, start, ch) && ch.useSeq == useSeq + 1
    ensures ValidMap(payload, m[start := ch], useSeq + 1)
  {
    FreshSeqDistinct(m, useSeq, start, ch);
    assert ch.useSeq > useSeq;
  }

  /** The cache between operations when no fetch is in flight. */
  ghost predicate Quiet(payload: seq<byte>, m: ChunkMap, useSeq: nat) {
    && ValidMap(payload, m, useSeq)
    && |m.Keys| <= MAX_CHUNKS
    && forall k :: k in m ==> !m[k].fetching
  }

  /** The chunk one request of `length` bytes yields. */
  function FetchedChunk(payload: seq<byte>, start: nat, length: nat, seqNo: nat): Chunk
    requires start + length <= |payload|
  {
    Chunk(start, payload[start..start + length], seqNo, Pinned(start, |payload|), false)
  }

  /** `r` is `m` after one window arrived for `start` and eviction ran. */
  ghost predicate FetchedTo(payload: seq<byte>, m: ChunkMap, start: nat, length: nat, seqNo: nat, r: ChunkMap)
    requires start + length <= |payload|
  {
    EvictedTo(m[start := FetchedChunk(payload, start, length, seqNo)], r)
  }

  /** Nothing in flight: replacing one entry by a filled chunk and evicting. */
  lemma FetchedKeeps(payload: seq<byte>, m: ChunkMap, useSeq: nat, start: nat, length: nat, r: ChunkMap)
    requires Quiet(payload, m, useSeq)
    requires ValidStart(start, |payload|) && ValidLength(start, length, |payload|)
    requires FetchedTo(payload, m, start, length, useSeq + 2, r)
    ensures Quiet(payload, r, useSeq + 2)
    ensures start in r && r[start] == FetchedChunk(payload, start, length, useSeq + 2)
  {
    RefillValid(payload, m, useSeq, start, FetchedChunk(payload, start, length, useSeq + 2));
    var m' := m[start := FetchedChunk(payload, start, length, useSeq + 2)];
    SubMapValid(payload, m', useSeq + 2, r);
    NewestSurvives(payload, m', useSeq + 2, start, r);
  }

  lemma RefillValid(payload: seq<byte>, m: ChunkMap, useSeq: nat, start: nat, ch: Chunk)
    requires ValidMap(payload, m, useSeq)
    requires ValidChunk(payload, start, ch) && ch.useSeq == useSeq + 2
    ensures ValidMap(payload, m[start := ch], useSeq + 2)
  {
    FreshSeqDistinct(m, useSeq, start, ch);
  }

  lemma QuietIsInv(payload: seq<byte>, m: ChunkMap, useSeq: nat)
    requires Quiet(payload, m, useSeq)
    ensures CacheInv(payload, m, useSeq)
  {
    assert Resident(m) == m.Keys;
  }

  /** `r` is `m` without its entry at `start`. */
  ghost predicate Forgotten(m: ChunkMap, start: nat, r: ChunkMap) {
    r == m - {start}
  }

  /** Nothing in flight: a failed fetch drops its entry. */
  lemma DropKeeps(payload: seq<byte>, m: ChunkMap, useSeq: nat, start: nat, r: ChunkMap)
    requires Quiet(payload, m, useSeq) && Forgotten(m, start, r)
    ensures Quiet(payload, r, useSeq + 1)
  {
    SubMapValid(payload, m, useSeq, r);
    SubsetCard(r.Keys, m.Keys);
  }

  /** Nothing in flight: touching a chunk. */
  lemma TouchKeeps(payload: seq<byte>, m: ChunkMap, useSeq: nat, start: nat)
    requires Quiet(payload, m, useSeq) && start in m
    ensures Quiet(payload, Touched(m, start, useSeq + 1), useSeq + 1)
  {
    var m' := Touched(m, start, useSeq + 1);
    assert ValidChunk(payload, start, m[start]);
    UpdateValid(payload, m, useSeq, start, m'[start]);
    assert m'.Keys == m.Keys;
  }

  // ---------------------------------------------------------------------
  // Planning and sizing
  // ---------------------------------------------------------------------

  lemma ProbeStartBounds(off: int)
    requires 0 <= off
    ensures ProbeStart(off) % 0x8_0000 == 0
    ensures 0 <= ProbeStart(off) <= off < ProbeStart(off) + PROBE_SIZE
  {
  }

  lemma ChunkStartBounds(off: int)
    requires 0 <= off
    ensures ChunkStart(off) % 0x8_0000 == 0
    ensures 0 <= ChunkStart(off) <= off < ChunkStart(off) + CHUNK_SIZE
  {
    BlockMultiple(off / 0x40_0000 * 8);
  }

  lemma BlockMultiple(n: nat)
    ensures n * 0x8_0000 % 0x8_0000 == 0
  {
  }

  /** Every plan asks for a window a chunk may hold, from an aligned start. */
  lemma PlanIsValid(payload: seq<byte>, m: ChunkMap, useSeq: nat, off: int, readEnd: int)
    requires ValidMap(payload, m, useSeq)
    requires 0 <= off < readEnd <= |payload|
    ensures HitOf(m, off).Some? ==> HitOf(m, off).value in m
    ensures var plan := PlanFetch(m, |payload|, off, readEnd, HitOf(m, off));
            ValidTarget(plan.0, plan.1, |payload|) && plan.0 <= off
  {
    HitFound(m, off);
    if HitOf(m, off).Some? {
      assert ValidChunk(payload, HitOf(m, off).value, m[HitOf(m, off).value]);
    }
    if ChunkStart(off) in m {
      assert ValidChunk(payload, ChunkStart(off), m[ChunkStart(off)]);
    }
    ProbeStartBounds(off);
    ChunkStartBounds(off);
  }

  /** How long the chunk at `start` is once a caller's request up to `needEnd` is met. */
  function EnsuredLength(m: ChunkMap, size: int, start: nat, needEnd: int): int {
    if start in m then
      if m[start].End() >= needEnd then |m[start].data|
      else FetchLength(start, NextFetchEnd(m[start], needEnd, size), size)
    else FetchLength(start, needEnd, size)
  }

  /**
    With nothing in flight, meeting the planned request yields a chunk that
    covers `off` and reaches either the end of the read or a probe boundary.
   */
  lemma PlanAdvances(payload: seq<byte>, m: ChunkMap, useSeq: nat, off: int, readEnd: int,
                     start: nat, needEnd: int)
    requires ValidMap(payload, m, useSeq)
    requires forall k :: k in m ==> !m[k].fetching
    requires 0 <= off < readEnd <= |payload|
    requires HitOf(m, off).Some? ==> HitOf(m, off).value in m
    requires (start, needEnd) == PlanFetch(m, |payload|, off, readEnd, HitOf(m, off))
    ensures ValidTarget(start, needEnd, |payload|)
    ensures var chunkEnd := start + EnsuredLength(m, |payload|, start, needEnd);
            && start <= off < chunkEnd
            && (chunkEnd >= readEnd || chunkEnd % 0x8_0000 == 0)
  {
    var size := |payload|;
    PlanIsValid(payload, m, useSeq, off, readEnd);
    HitFound(m, off);
    if HitOf(m, off).Some? {
      assert ValidChunk(payload, HitOf(m, off).value, m[HitOf(m, off).value]);
    }
    if start in m {
      assert ValidChunk(payload, start, m[start]);
      ExtendedEnd(payload, m[start], needEnd);
      if HitOf(m, off).None? {
        ProbeStartBounds(off);
        ChunkStartBounds(off);
        assert start == ChunkStart(off);
      }
      WindowEndAligned(start, size, readEnd, start + EnsuredLength(m, size, start, needEnd));
    } else {
      ProbeEndAligned(off, size, readEnd);
    }
  }

  lemma WindowEndAligned(start: nat, size: int, readEnd: int, chunkEnd: int)
    requires start % 0x8_0000 == 0 && readEnd <= size
    requires Min(readEnd, MaxEnd(start, size)) <= chunkEnd <= MaxEnd(start, size)
    ensures chunkEnd >= readEnd || chunkEnd % 0x8_0000 == 0
  {
  }

  lemma ProbeEndAligned(off: int, size: int, readEnd: int)
    requires 0 <= off < readEnd <= size
    ensures var start := ProbeStart(off);
            var chunkEnd := start + FetchLength(start, Min(readEnd, Min(start + PROBE_SIZE, size)), size);
            off < chunkEnd && (chunkEnd >= readEnd || chunkEnd % 0x8_0000 == 0)
  {
    ProbeStartBounds(off);
  }

  predicate Satisfied(m: ChunkMap, start: nat, needEnd: int) {
    start in m && m[start].End() >= needEnd
  }

  /**
    Nothing in flight: `r` is `m` after one met request. A chunk that reaches
    `needEnd` already is only touched; otherwise one window arrived for it.
   */
  ghost predicate Ensured(payload: seq<byte>, m: ChunkMap, useSeq: nat, start: nat, needEnd: int,
                          r: ChunkMap, useSeq': nat)
  {
    if Satisfied(m, start, needEnd) then
      useSeq' == useSeq + 1 && r == Touched(m, start, useSeq')
    else
      var length := EnsuredLength(m, |payload|, start, needEnd);
      && useSeq' == useSeq + 2
      && 0 <= length
      && ValidLength(start, length, |payload|)
      && FetchedTo(payload, m, start, length, useSeq', r)
  }

  /** A met request leaves the cache quiet, its chunk touched last and long enough. */
  lemma EnsuredKeeps(payload: seq<byte>, m: ChunkMap, useSeq: nat, start: nat, needEnd: int,
                     r: ChunkMap, useSeq': nat)
    requires Quiet(payload, m, useSeq) && ValidTarget(start, needEnd, |payload|)
    requires Ensured(payload, m, useSeq, start, needEnd, r, useSeq')
    ensures Quiet(payload, r, useSeq')
    ensures start in r && r[start].useSeq == useSeq'
    ensures r[start].End() == start + EnsuredLength(m, |payload|, start, needEnd)
  {
    if Satisfied(m, start, needEnd) {
      assert ValidChunk(payload, start, m[start]);
      TouchKeeps(payload, m, useSeq, start);
    } else {
      FetchedKeeps(payload, m, useSeq, start, EnsuredLength(m, |payload|, start, needEnd), r);
    }
  }

  /** The chunks at the head of the file and at the block that holds its last byte are still there. */
  ghost predicate EndsStay(m: ChunkMap, r: ChunkMap, size: int) {
    forall k :: k in m && k % 0x8_0000 == 0 && (k == 0 || k < size <= k + 0x8_0000) ==> k in r
  }

  lemma EnsuredKeepsEnds(payload: seq<byte>, m: ChunkMap, useSeq: nat, start: nat, needEnd: int,
                         r: ChunkMap, useSeq': nat)
    requires ValidMap(payload, m, useSeq) && Ensured(payload, m, useSeq, start, needEnd, r, useSeq')
    ensures EndsStay(m, r, |payload|)
  {
    forall k | k in m && k % 0x8_0000 == 0 && (k == 0 || k < |payload| <= k + 0x8_0000) ensures k in r {
      assert ValidChunk(payload, k, m[k]);
      PinnedAreEnds(k, |payload|);
    }
  }

  /** The length of a window requested on a miss is one a chunk may have. */
  lemma EnsuredLengthValid(payload: seq<byte>, m: ChunkMap, useSeq: nat, start: nat, needEnd: int)
    requires Quiet(payload, m, useSeq) && ValidTarget(start, needEnd, |payload|)
    ensures ValidLength(start, EnsuredLength(m, |payload|, start, needEnd), |payload|)
  {
    FetchLengthFits(start, needEnd, |payload|);
    if start in m {
      assert ValidChunk(payload, start, m[start]);
    }
    if start in m && m[start].End() < needEnd {
      RefetchGrows(payload, m[start], needEnd);
    }
  }

  /** A chunk asked to reach `needEnd` ends there, further out, or at its largest window. */
  lemma ExtendedEnd(payload: seq<byte>, ch: Chunk, needEnd: int)
    requires ValidChunk(payload, ch.start, ch) && !ch.fetching
    requires ValidTarget(ch.start, needEnd, |payload|)
    ensures var length := if ch.End() >= needEnd then |ch.data|
                          else FetchLength(ch.start, NextFetchEnd(ch, needEnd, |payload|), |payload|);
            && needEnd <= ch.start + length <= MaxEnd(ch.start, |payload|)
  {
  }

  lemma ChunkSlice(payload: seq<byte>, ch: Chunk, pos: nat, take: nat)
    requires ch.start <= pos && pos + take <= ch.End() <= |payload|
    requires ch.data == payload[ch.start..ch.start + |ch.data|]
    ensures ch.data[pos - ch.start..pos - ch.start + take] == payload[pos..pos + take]
  {
    var a := ch.data[pos - ch.start..pos - ch.start + take];
    assert |a| == take;
    forall i | 0 <= i < take ensures a[i] == payload[pos..pos + take][i] {
      assert a[i] == ch.data[pos - ch.start + i];
    }
  }

  /** What one demand fetch brings: a legal length that reaches `needEnd`. */
  lemma FetchLengthFits(start: int, needEnd: int, size: int)
    requires ValidTarget(start, needEnd, size)
    ensures ValidLength(start, FetchLength(start, needEnd, size), size)
    ensures needEnd <= start + FetchLength(start, needEnd, size)
  {
  }

  /** A refetch strictly lengthens a chunk and doubles it up to its largest window. */
  lemma RefetchGrows(payload: seq<byte>, ch: Chunk, needEnd: int)
    requires ValidChunk(payload, ch.start, ch) && !ch.fetching
    requires ValidTarget(ch.start, needEnd, |payload|) && ch.End() < needEnd
    ensures var length := FetchLength(ch.start, NextFetchEnd(ch, needEnd, |payload|), |payload|);
            && ValidLength(ch.start, length, |payload|)
            && needEnd <= ch.start + length
            && |ch.data| < length
            && Min(2 * |ch.data|, MaxEnd(ch.start, |payload|) - ch.start) <= length
  {
  }

  /** After the planned request at `off` is met, lookup at `off` finds just that chunk. */
  lemma EnsuredIsHit(payload: seq<byte>, m: ChunkMap, useSeq: nat, off: int, readEnd: int,
                     start: nat, needEnd: int, r: ChunkMap, useSeq': nat)
    requires Quiet(payload, m, useSeq) && 0 <= off < readEnd <= |payload|
    requires HitOf(m, off).Some? ==> HitOf(m, off).value in m
    requires (start, needEnd) == PlanFetch(m, |payload|, off, readEnd, HitOf(m, off))
    requires Ensured(payload, m, useSeq, start, needEnd, r, useSeq')
    ensures Quiet(payload, r, useSeq')
    ensures HitOf(r, off) == Some(start) && start in r && r[start].Covers(off)
    ensures r[start].End() >= readEnd || r[start].End() % 0x8_0000 == 0
  {
    PlanAdvances(payload, m, useSeq, off, readEnd, start, needEnd);
    EnsuredKeeps(payload, m, useSeq, start, needEnd, r, useSeq');
    NewestIsHit(r, off, useSeq', start);
  }

  lemma NewestIsHit(m: ChunkMap, off: int, useSeq: nat, k: nat)
    requires DistinctSeqs(m) && forall j :: j in m ==> m[j].useSeq <= useSeq
    requires k in m && m[k].Covers(off) && m[k].useSeq == useSeq
    ensures HitOf(m, off) == Some(k)
  {
    assert IsHit(m, off, k);
    HitUnique(m, off, k);
  }

  // ---------------------------------------------------------------------
  // Reads that need no request
  // ---------------------------------------------------------------------

  /** The chunk that lookup finds at `pos` reaches as far as a read up to `end` could ask it to. */
  ghost predicate Reaches(m: ChunkMap, size: int, pos: int, end: int) {
    && HitOf(m, pos).Some?
    && HitOf(m, pos).value in m
    && var ch := m[HitOf(m, pos).value];
       pos < ch.End() && Min(end, MaxEnd(ch.start, size)) <= ch.End()
  }

  /** So it does at every position that a read of [pos, end) comes to. */
  ghost predicate Warm(m: ChunkMap, size: int, pos: int, end: int)
    decreases end - pos
  {
    pos >= end || (Reaches(m, size, pos, end) && Warm(m, size, m[HitOf(m, pos).value].End(), end))
  }

  /** The planned request is met already exactly when lookup finds a chunk that reaches far enough. */
  lemma PlanSatisfied(payload: seq<byte>, m: ChunkMap, useSeq: nat, pos: int, end: int, start: nat, needEnd: int)
    requires Quiet(payload, m, useSeq) && 0 <= pos < end <= |payload|
    requires HitOf(m, pos).Some? ==> HitOf(m, pos).value in m
    requires (start, needEnd) == PlanFetch(m, |payload|, pos, end, HitOf(m, pos))
    ensures Satisfied(m, start, needEnd) <==> Reaches(m, |payload|, pos, end)
    ensures HitOf(m, pos).Some? ==> start == HitOf(m, pos).value && m[start].start == start && pos < m[start].End()
  {
    HitFound(m, pos);
    if HitOf(m, pos).Some? {
      assert ValidChunk(payload, HitOf(m, pos).value, m[HitOf(m, pos).value]);
    } else if start in m {
      assert ValidChunk(payload, start, m[start]);
      ProbeStartBounds(pos);
      ChunkStartBounds(pos);
      assert !m[start].Covers(pos);
    }
  }

  /** Touching a chunk changes no lookup where it does not reach. */
  lemma HitElsewhere(m: ChunkMap, k: nat, n: nat, pos: int)
    requires k in m && !m[k].Covers(pos) && DistinctSeqs(Touched(m, k, n))
    ensures HitOf(Touched(m, k, n), pos) == HitOf(m, pos)
  {
    var m' := Touched(m, k, n);
    HitFound(m, pos);
    HitFound(m', pos);
    if HitOf(m, pos).Some? {
      assert IsHit(m', pos, HitOf(m, pos).value);
      HitUnique(m', pos, HitOf(m, pos).value);
    }
  }

  lemma {:induction false} WarmElsewhere(m: ChunkMap, size: int, k: nat, n: nat, pos: int, end: int)
    requires k in m && m[k].End() <= pos && DistinctSeqs(Touched(m, k, n))
    ensures Warm(Touched(m, k, n), size, pos, end) <==> Warm(m, size, pos, end)
    decreases end - pos
  {
    if pos < end {
      HitElsewhere(m, k, n, pos);
      if HitOf(m, pos).Some? && HitOf(m, pos).value in m && pos < m[HitOf(m, pos).value].End() {
        WarmElsewhere(m, size, k, n, m[HitOf(m, pos).value].End(), end);
      }
    }
  }

  /** A round at `pos` that made no request touched the chunk it found twice and went on to `next`. */
  ghost predicate Unasked(m: ChunkMap, size: int, useSeq: nat, pos: int, end: int, r: ChunkMap, next: int) {
    && Reaches(m, size, pos, end)
    && var k := HitOf(m, pos).value;
       r == Touched(Touched(m, k, useSeq + 1), k, useSeq + 2) && next == Min(m[k].End(), end)
  }

  lemma TouchedTwice(m: ChunkMap, size: int, useSeq: nat, pos: int, end: int,
                     k: nat, once: ChunkMap, v: nat, r: ChunkMap, w: nat, next: int)
    requires Reaches(m, size, pos, end) && HitOf(m, pos) == Some(k)
    requires TouchedTo(m, k, v, once) && v == useSeq + 1
    requires TouchedTo(once, k, w, r) && w == v + 1
    requires k in once && next == Min(once[k].End(), end)
    ensures Unasked(m, size, useSeq, pos, end, r, next)
  {
  }

  /** Such a round leaves the rest of the read as warm as it was. */
  lemma UnaskedKeepsWarm(payload: seq<byte>, m: ChunkMap, useSeq: nat, pos: int, end: int, r: ChunkMap, next: int)
    requires Quiet(payload, m, useSeq) && 0 <= pos < end
    requires Unasked(m, |payload|, useSeq, pos, end, r, next)
    ensures Warm(m, |payload|, pos, end) <==> Warm(r, |payload|, next, end)
  {
    var k := HitOf(m, pos).value;
    var once := Touched(m, k, useSeq + 1);
    TouchKeeps(payload, m, useSeq, k);
    TouchKeeps(payload, once, useSeq + 1, k);
    if m[k].End() < end {
      WarmElsewhere(m, |payload|, k, useSeq + 1, next, end);
      WarmElsewhere(once, |payload|, k, useSeq + 2, next, end);
    }
  }
}
