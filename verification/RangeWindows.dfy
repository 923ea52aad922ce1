/**
  What the window rules of a ranged file come to, in bytes: which window a read
  asks for next, how long the one request for it is, and what is fetched ahead.
 */
module RangeWindows {
  import opened Common
  import opened ChunkCache

  /**
    The window a read of [off, readEnd) asks for next. A chunk that covers `off`
    is extended as far as the read needs; a resident one that falls short of
    `off` in its own 4 MiB is extended as far as it can get; and otherwise the
    512 KiB block of `off` is asked for, as far as the read needs it.
   */
  lemma PlanMeans(payload: seq<byte>, m: ChunkMap, useSeq: nat, off: int, readEnd: int, k: nat)
    requires ValidMap(payload, m, useSeq) && 0 <= off < readEnd <= |payload|
    requires HitOf(m, off).Some? ==> HitOf(m, off).value in m
    ensures var plan, size := PlanFetch(m, |payload|, off, readEnd, HitOf(m, off)), |payload|;
      && (IsHit(m, off, k) ==> plan == (k, Min(readEnd, Min(k + 0x40_0000, size))))
      && (k % 0x40_0000 == 0 && k <= off < k + 0x40_0000 && !(exists j :: IsHit(m, off, j)) ==>
            if k in m && !m[k].fetching then plan == (k, Min(k + 0x40_0000, size))
            else plan.0 % 0x8_0000 == 0 && plan.0 <= off < plan.0 + 0x8_0000
                 && plan.1 == Min(readEnd, plan.0 + 0x8_0000))
  {
    if IsHit(m, off, k) {
      HitUnique(m, off, k);
      assert ValidChunk(payload, k, m[k]);
    } else if k % 0x40_0000 == 0 && k <= off < k + 0x40_0000 && !(exists j :: IsHit(m, off, j)) {
      HitFound(m, off);
      SameChunkStart(off, k);
      ProbeStartBounds(off);
      if k in m && !m[k].fetching {
        assert ValidChunk(payload, k, m[k]);
        assert !m[k].Covers(off) by {
          if m[k].Covers(off) {
            HitExists(m, off, k);
          }
        }
      }
    }
  }

  lemma SameChunkStart(off: int, k: nat)
    requires k % 0x40_0000 == 0 && k <= off < k + 0x40_0000
    ensures ChunkStart(off) == k
  {
  }

  /** One request is no longer than a legal window that reaches what is needed has to be. */
  lemma FetchLengthLeast(start: int, needEnd: int, size: int, length: int)
    requires ValidTarget(start, needEnd, size)
    requires Min(0x8_0000, size - start) <= length <= 0x40_0000 && needEnd <= start + length
    ensures FetchLength(start, needEnd, size) <= length
  {
  }

  /** A refetch is no longer than it takes to reach what is needed, and to double the chunk or fill its 4 MiB. */
  lemma RefetchLeast(payload: seq<byte>, ch: Chunk, needEnd: int, length: int)
    requires ValidChunk(payload, ch.start, ch) && !ch.fetching
    requires ValidTarget(ch.start, needEnd, |payload|) && ch.End() < needEnd
    requires needEnd <= ch.start + length && 0x8_0000 <= length <= 0x40_0000
    requires length >= Min(2 * |ch.data|, 0x40_0000)
    ensures FetchLength(ch.start, NextFetchEnd(ch, needEnd, |payload|), |payload|) <= length
  {
  }

  /** One of the windows has the byte at `x`. */
  ghost predicate Within(ts: seq<Target>, x: int) {
    exists i {:trigger ts[i]} :: 0 <= i < |ts| && ts[i].start <= x < ts[i].needEnd
  }

  /** Only a window of 4 MiB is followed up, by windows that cover exactly the next 8 MiB of the file. */
  lemma LookaheadCovers(start: nat, fetchedLen: int, size: int, x: int)
    ensures Within(Lookahead(start, fetchedLen, size), x) <==>
            fetchedLen == 0x40_0000 && start + 0x40_0000 <= x < start + 0xC0_0000 && x < size
  {
    var ts := Lookahead(start, fetchedLen, size);
    if fetchedLen == 0x40_0000 && start + 0x40_0000 <= x < start + 0xC0_0000 && x < size {
      var i := if x < start + 0x80_0000 then 0 else 1;
      assert ts[i].start <= x < ts[i].needEnd;
    }
  }

  /** The tail window begins at the 512 KiB block that holds the last byte of the file. */
  lemma TailIsLastBlock(size: int)
    requires size > 0
    ensures TailProbeStart(size) % 0x8_0000 == 0 && TailProbeStart(size) < size <= TailProbeStart(size) + 0x8_0000
  {
    ProbeStartBounds(size - 1);
  }

  /** Eviction goes on while more than eight entries are there and one can go, and no longer. */
  lemma EvictionLeavesEight(m: ChunkMap, r: ChunkMap)
    requires EvictedTo(m, r)
    ensures r != m ==> |r.Keys| >= 8
    ensures |r.Keys| > 8 ==> forall k :: k in r ==> r[k].pinned || r[k].fetching
  {
  }
}
