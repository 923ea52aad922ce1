/**
  Filling in a placeholder's bytes: a requested range is widened to 4 KiB
  boundaries, clipped to the file, and transferred write by write; a validated
  range is acknowledged the same way.
 */
module Hydration {
  import opened Common

  const CHUNK_MAX: int := 0x40_0000

  datatype Interval = Interval(lo: int, hi: int)

  datatype Write = Write(data: seq<byte>, off: nat)
  {
    function End(): int {
      off + |data|
    }
  }

  function RoundDown(x: int): int {
    x / 4096 * 4096
  }

  function RoundUp(x: int): int {
    (x + 4095) / 4096 * 4096
  }

  /** The requested bytes that the file has, if any; a negative length asks for everything to the end. */
  function Requested(reqOff: int, reqLen: int, fileSize: nat): Option<Interval> {
    var start := Max(reqOff, 0);
    var end := Min(if reqLen < 0 then fileSize else reqOff + reqLen, fileSize);
    if start >= end then None else Some(Interval(start, end))
  }

  /** A byte is requested exactly when the file has it and the request reaches it. */
  lemma RequestedBytes(reqOff: int, reqLen: int, fileSize: nat, x: int)
    ensures var r := Requested(reqOff, reqLen, fileSize);
      r.Some? && r.value.lo <= x < r.value.hi <==>
      0 <= x < fileSize && reqOff <= x && (reqLen < 0 || x < reqOff + reqLen)
    ensures Requested(reqOff, reqLen, fileSize).Some? ==>
              var r := Requested(reqOff, reqLen, fileSize).value; 0 <= r.lo < r.hi <= fileSize
  {
  }

  /** The least interval of whole 4 KiB pages, clipped to the file, around some of its bytes. */
  ghost predicate IsCover(c: Interval, r: Interval, fileSize: nat) {
    && c.lo % 4096 == 0 && 0 <= c.lo <= r.lo < c.lo + 4096
    && r.hi <= c.hi <= fileSize && c.hi < r.hi + 4096
    && (c.hi % 4096 == 0 || c.hi == fileSize)
  }

  function Cover(r: Interval, fileSize: nat): Interval {
    Interval(RoundDown(r.lo), Min(RoundUp(r.hi), fileSize))
  }

  lemma CoverIsLeast(r: Interval, fileSize: nat, lo: int, hi: int)
    requires 0 <= r.lo < r.hi <= fileSize
    ensures IsCover(Cover(r, fileSize), r, fileSize)
    ensures lo % 4096 == 0 && lo <= r.lo && r.hi <= hi && (hi % 4096 == 0 || hi == fileSize) ==>
              lo <= Cover(r, fileSize).lo && Cover(r, fileSize).hi <= hi
  {
  }

  /**
    The writes so far: contiguous from `lo`, each of its own file bytes,
    starting on a page; whole pages of at most 4 MiB except one that ends the file.
   */
  predicate Transfers(writes: seq<Write>, payload: seq<byte>, lo: int, hi: int)
    requires 0 <= lo
  {
    if writes == [] then lo == hi
    else
      var w := writes[|writes| - 1];
      && w.End() == hi <= |payload|
      && w.data == payload[w.off..hi] && |w.data| > 0
      && w.off % 4096 == 0
      && (hi == |payload| || (|w.data| % 4096 == 0 && |w.data| <= CHUNK_MAX))
      && Transfers(writes[..|writes| - 1], payload, lo, w.off)
  }

  function Joined(writes: seq<Write>): seq<byte> {
    if writes == [] then [] else Joined(writes[..|writes| - 1]) + writes[|writes| - 1].data
  }

  /** The transferred bytes are those of the interval, each once. */
  lemma {:induction false} TransferredBytes(writes: seq<Write>, payload: seq<byte>, lo: int, hi: int)
    requires 0 <= lo <= |payload| && Transfers(writes, payload, lo, hi)
    ensures lo <= hi <= |payload| && Joined(writes) == payload[lo..hi]
  {
    if writes != [] {
      var w := writes[|writes| - 1];
      TransferredBytes(writes[..|writes| - 1], payload, lo, w.off);
      assert payload[lo..hi] == payload[lo..w.off] + payload[w.off..hi];
    }
  }

  /** How many writes fill an interval: one if it ends the file, else one for every 4 MiB begun. */
  function WriteCount(c: Interval, fileSize: nat): int {
    if c.hi >= fileSize then 1 else (c.hi - c.lo + 0x3F_FFFF) / 0x40_0000
  }

  /** How many writes it has taken to get from `a0` to `off`. */
  ghost predicate Counted(a0: int, a1: int, off: int, n: nat, fileSize: nat) {
    if off == a1 then n == WriteCount(Interval(a0, a1), fileSize)
    else if a1 >= fileSize then off == a0 && n == 0
    else a1 % 4096 == 0 && off - a0 == n * 0x40_0000
  }

  /** How many bytes the next write transfers. */
  function Take(off: int, a1: int, fileSize: nat): int {
    if a1 >= fileSize then a1 - off else Min(CHUNK_MAX, a1 - off) / 4096 * 4096
  }

  /** Every write makes progress, in whole pages unless it ends the file, and is counted. */
  lemma TakeAdvances(a0: int, a1: int, off: int, n: nat, fileSize: nat)
    requires 0 <= a0 <= off < a1 <= fileSize && off % 4096 == 0 && Counted(a0, a1, off, n, fileSize)
    requires a1 % 4096 == 0 || a1 == fileSize
    ensures var take := Take(off, a1, fileSize);
      && 0 < take <= a1 - off
      && (off + take == fileSize || (take % 4096 == 0 && take <= CHUNK_MAX))
      && (off + take < a1 ==> (off + take) % 4096 == 0)
      && Counted(a0, a1, off + take, n + 1, fileSize)
  {
  }

  lemma Transferred(writes: seq<Write>, w: Write, payload: seq<byte>, lo: int, hi: int)
    requires 0 <= lo && Transfers(writes, payload, lo, hi) && w.off == hi
    requires w.End() <= |payload| && w.data == payload[hi..w.End()] && w.data != [] && hi % 4096 == 0
    requires w.End() == |payload| || (|w.data| % 4096 == 0 && |w.data| <= CHUNK_MAX)
    ensures Transfers(writes + [w], payload, lo, w.End())
  {
    assert (writes + [w])[..|writes|] == writes;
  }

  /** The writes of an interval up to the first read that fails; `arrives(k)` says whether the k-th succeeds. */
  ghost predicate Filled(writes: seq<Write>, ok: bool, payload: seq<byte>, c: Interval, arrives: nat -> bool)
    requires 0 <= c.lo
  {
    && (forall k :: 0 <= k < |writes| ==> arrives(k))
    && (ok ==> Transfers(writes, payload, c.lo, c.hi) && |writes| == WriteCount(c, |payload|))
    && (!ok ==> !arrives(|writes|))
    && (!ok ==> exists hi :: c.lo <= hi < c.hi && hi % 4096 == 0 && Transfers(writes, payload, c.lo, hi))
  }

  /** The hydration loop; a successful read brings exactly the bytes asked for. */
  method FillPages(payload: seq<byte>, a0: nat, a1: nat, arrives: nat -> bool) returns (writes: seq<Write>, ok: bool)
    requires a0 < a1 <= |payload| && a0 % 4096 == 0 && (a1 % 4096 == 0 || a1 == |payload|)
    ensures Filled(writes, ok, payload, Interval(a0, a1), arrives)
  {
    var fileSize := |payload|;
    writes, ok := [], true;
    var off := a0;
    while off < a1
      invariant a0 <= off <= a1
      invariant off < a1 ==> off % 4096 == 0
      invariant Transfers(writes, payload, a0, off)
      invariant Counted(a0, a1, off, |writes|, fileSize)
      invariant forall k :: 0 <= k < |writes| ==> arrives(k)
      decreases a1 - off
    {
      TakeAdvances(a0, a1, off, |writes|, fileSize);
      var remain := a1 - off;
      var take;
      if off + remain >= fileSize {
        take := remain;
      } else {
        var n := CHUNK_MAX;
        if n > remain {
          n := remain;
        }
        take := n / 4096 * 4096;
        if take == 0 {
          assert false;
        }
      }
      if !arrives(|writes|) {
        return writes, false;
      }
      var w := Write(payload[off..off + take], off);
      Transferred(writes, w, payload, a0, off);
      writes := writes + [w];
      off := off + take;
    }
  }

  /** Clamps a request to the file and fills the pages around it. */
  method FetchData(payload: seq<byte>, reqOff: int, reqLen: int, arrives: nat -> bool)
    returns (writes: seq<Write>, ok: bool)
    ensures match Requested(reqOff, reqLen, |payload|)
            case None => writes == [] && ok
            case Some(r) => Filled(writes, ok, payload, Cover(r, |payload|), arrives)
  {
    var fileSize := |payload|;
    var start := reqOff;
    var end := start + reqLen;
    if reqLen < 0 {
      end := fileSize;
    }
    if start < 0 {
      start := 0;
    }
    if end > fileSize {
      end := fileSize;
    }
    if start >= end {
      return [], true;
    }
    var a0 := start / 4096 * 4096;
    var a1 := (end + 4095) / 4096 * 4096;
    if a1 > fileSize {
      a1 := fileSize;
    }
    writes, ok := FillPages(payload, a0, a1, arrives);
  }

  // ---------------------------------------------------------------------
  // Acknowledging a validated range
  // ---------------------------------------------------------------------

  /** What hydration fills for a request, if anything. */
  function Hydrated(reqOff: int, reqLen: int, fileSize: nat): Option<Interval> {
    var r := Requested(reqOff, reqLen, fileSize);
    if r.None? then None else Some(Cover(r.value, fileSize))
  }

  /** 64-bit division as the program performs it: towards zero. */
  function TruncDiv(a: int, b: int): int
    requires b > 0
  {
    if a >= 0 then a / b else -((-a) / b)
  }

  datatype Ack = Acked(range: Interval) | NothingToAck | AckError

  function AckOf(reqOff: int, reqLen: int, fileSize: int): Ack {
    var end := if reqLen < 0 then fileSize else reqOff + reqLen;
    var a0 := TruncDiv(reqOff, 4096) * 4096;
    var up := TruncDiv(end + 4095, 4096) * 4096;
    var a1 := if fileSize > 0 then Min(up, fileSize) else up;
    if reqLen < 0 && fileSize <= 0 then AckError
    else if end <= reqOff || a1 <= a0 then NothingToAck
    else Acked(Interval(a0, a1))
  }

  /**
    For a file of known size the acknowledgement covers exactly the bytes that
    hydration would fill, unless the request starts a page or more before the
    file, or past its end within its last page.
   */
  method AckRange(reqOff: int, reqLen: int, fileSize: int) returns (ack: Ack)
    ensures ack == AckOf(reqOff, reqLen, fileSize)
    ensures fileSize > 0 ==>
              (SameRange(reqOff, reqLen, fileSize) <==>
               ack == match Hydrated(reqOff, reqLen, fileSize) case Some(c) => Acked(c) case None => NothingToAck)
  {
    var end := reqOff + reqLen;
    if reqLen < 0 {
      if fileSize <= 0 {
        return AckError;
      }
      end := fileSize;
    }
    if end <= reqOff {
      return NothingToAck;
    }
    var a0 := TruncDiv(reqOff, 4096) * 4096;
    var a1 := TruncDiv(end + 4095, 4096) * 4096;
    if fileSize > 0 && a1 > fileSize {
      a1 := fileSize;
    }
    var ln := a1 - a0;
    if ln <= 0 {
      return NothingToAck;
    }
    return Acked(Interval(a0, a0 + ln));
  }

  /** The requests on which acknowledging and hydrating mean the same bytes. */
  predicate SameRange(reqOff: int, reqLen: int, fileSize: nat) {
    || reqLen == 0
    || (reqOff > -4096 && (reqLen < 0 || reqOff < fileSize || RoundDown(reqOff) >= fileSize))
  }

  /** A request for bytes the file has is acknowledged and hydrated alike. */
  lemma InRangeAckMatches(reqOff: int, reqLen: int, fileSize: nat)
    requires 0 <= reqOff < fileSize && reqLen != 0
    ensures Hydrated(reqOff, reqLen, fileSize).Some?
    ensures AckOf(reqOff, reqLen, fileSize) == Acked(Hydrated(reqOff, reqLen, fileSize).value)
  {
  }

  /** An acknowledgement past the end of the file reaches back into its last page. */
  lemma AckPastTheEnd(fileSize: nat, reqOff: int, reqLen: int)
    requires fileSize > 0 && reqOff >= fileSize > RoundDown(reqOff) && reqLen > 0
    ensures Hydrated(reqOff, reqLen, fileSize).None?
    ensures AckOf(reqOff, reqLen, fileSize) == Acked(Interval(RoundDown(reqOff), fileSize))
  {
  }

  /**
    For a file of unknown size a request to the end cannot be acknowledged, and
    any other one is acknowledged by the least whole pages around it.
   */
  lemma AckWithoutSize(reqOff: nat, reqLen: int, fileSize: int)
    requires fileSize <= 0
    ensures reqLen < 0 ==> AckOf(reqOff, reqLen, fileSize) == AckError
    ensures reqLen == 0 ==> AckOf(reqOff, reqLen, fileSize) == NothingToAck
    ensures reqLen > 0 ==>
              match AckOf(reqOff, reqLen, fileSize)
              case Acked(c) =>
                && c.lo % 4096 == 0 && c.lo <= reqOff < c.lo + 4096
                && c.hi % 4096 == 0 && reqOff + reqLen <= c.hi < reqOff + reqLen + 4096
              case _ => false
  {
  }
}
