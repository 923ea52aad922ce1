/**
  One open ranged file: the object that owns the chunk cache, with the looping
  `Read`. Here no other fetch is in flight while an operation runs (background
  prefetches queue up and run between operations); `RangeProtocol` drops that.
 */
module RangeFileHandle {
  import opened Common
  import opened ChunkCache

  const MAX_INT64: int := 0x7fff_ffff_ffff_ffff

  /** A canceled read is reported as interrupted. */
  function ReadErrno(err: RequestError): Errno {
    if err == Canceled then EINTR else ErrnoOf(err)
  }

  /** Of the requests numbered from..to, the last one failed with `err` and no other did; or none did. */
  ghost predicate EndsWith(remote: nat -> Option<RequestError>, from: nat, to: nat, err: Option<RequestError>) {
    && from <= to
    && (err == None ==> forall k :: from <= k < to ==> remote(k) == None)
    && (err != None ==> from < to && remote(to - 1) == err && forall k :: from <= k < to - 1 ==> remote(k) == None)
  }

  lemma EndsLater(remote: nat -> Option<RequestError>, from: nat, mid: nat, to: nat, err: Option<RequestError>)
    requires EndsWith(remote, from, mid, None) && EndsWith(remote, mid, to, err)
    ensures EndsWith(remote, from, to, err)
  {
  }

  lemma EndsOnce(remote: nat -> Option<RequestError>, from: nat, to: nat, err: Option<RequestError>)
    requires from <= to <= from + 1 && err == if to == from then None else remote(from)
    ensures EndsWith(remote, from, to, err)
  {
  }

  /** How many PROBE_SIZE blocks [from, to) touches. */
  function BlocksTouched(from: int, to: int): int
    requires 0 <= from
  {
    if to <= from then 0 else (to - 1) / 0x8_0000 - from / 0x8_0000 + 1
  }

  /** `s` with `bytes` written over it from index `at` on. */
  function Overwritten(s: seq<byte>, at: nat, bytes: seq<byte>): seq<byte>
    requires at + |bytes| <= |s|
  {
    s[..at] + bytes + s[at + |bytes|..]
  }

  lemma OverwriteMore(s: seq<byte>, payload: seq<byte>, off: nat, pos: nat, next: nat, mid: seq<byte>, after: seq<byte>)
    requires off <= pos <= next <= |payload| && next - off <= |s|
    requires mid == Overwritten(s, 0, payload[off..pos])
    requires after == Overwritten(mid, pos - off, payload[pos..next])
    ensures after == Overwritten(s, 0, payload[off..next])
  {
    var a, b := payload[off..pos], payload[pos..next];
    assert a + b == payload[off..next];
    assert mid[..pos - off] == a;
    assert mid[next - off..] == s[next - off..];
  }

  /** Lookup at `pos` finds the chunk at `k`, which serves [pos, end) up to `reach`. */
  ghost predicate HitReaches(m: ChunkMap, pos: int, end: int, k: nat, reach: int) {
    && HitOf(m, pos) == Some(k)
    && k in m && m[k].Covers(pos)
    && reach == Min(m[k].End(), end)
  }

  class Handle {
    const payload: seq<byte>
    const size: int
    /** How the k-th request for a window of this file ends; None brings its bytes. */
    const remote: nat -> Option<RequestError>

    var chunks: ChunkMap
    var useSeq: nat
    var firstRead: bool
    var background: seq<Target>
    /** How many requests have been made. */
    var requests: nat

    ghost predicate Valid()
      reads this
    {
      && size == |payload|
      && Quiet(payload, chunks, useSeq)
      && ValidTargets(background, size)
    }

    constructor (contents: seq<byte>, outcomes: nat -> Option<RequestError>)
      ensures Valid() && payload == contents && remote == outcomes
      ensures chunks == map[] && useSeq == 0 && !firstRead && background == [] && requests == 0
    {
      payload := contents;
      remote := outcomes;
      requests := 0;
      size := |contents|;
      chunks := map[];
      useSeq := 0;
      firstRead := false;
      background := [];
      EmptyQuiet(contents);
    }

    /** One request to the remote object: the exact bytes of the window, or its failure. */
    method Fetch(off: nat, length: nat) returns (buf: seq<byte>, err: Option<RequestError>)
      requires off + length <= |payload|
      modifies this`requests
      ensures requests == old(requests) + 1 && err == remote(old(requests))
      ensures err.None? ==> buf == payload[off..off + length]
    {
      err := remote(requests);
      requests := requests + 1;
      buf := if err.None? then payload[off..off + length] else [];
    }

    method LookupChunk(off: int) returns (hit: Option<nat>)
      requires DistinctSeqs(chunks)
      ensures hit == HitOf(chunks, off)
    {
      hit := None;
      var rest := chunks.Keys;
      while rest != {}
        invariant rest <= chunks.Keys
        invariant hit.Some? ==> hit.value in chunks && chunks[hit.value].Covers(off)
        invariant forall k :: k in chunks && k !in rest && chunks[k].Covers(off) ==>
                    hit.Some? && chunks[k].useSeq <= chunks[hit.value].useSeq
        decreases rest
      {
        var k :| k in rest;
        rest := rest - {k};
        if chunks[k].Covers(off) && (hit.None? || chunks[k].useSeq > chunks[hit.value].useSeq) {
          hit := Some(k);
        }
      }
      if hit.Some? {
        HitUnique(chunks, off, hit.value);
      } else {
        HitFound(chunks, off);
      }
    }

    method TouchChunk(k: nat)
      requires k in chunks
      modifies this`chunks, this`useSeq
      ensures useSeq == old(useSeq) + 1
      ensures TouchedTo(old(chunks), k, useSeq, chunks)
    {
      useSeq := useSeq + 1;
      chunks := chunks[k := chunks[k].(useSeq := useSeq)];
    }

    method EvictChunks()
      modifies this`chunks
      ensures EvictedTo(old(chunks), chunks)
    {
      while |chunks.Keys| > MAX_CHUNKS
        invariant Dropped(old(chunks), chunks)
        decreases |chunks.Keys|
      {
        var victim: Option<nat> := None;
        var rest := chunks.Keys;
        while rest != {}
          invariant rest <= chunks.Keys
          invariant victim.Some? ==> victim.value in chunks && Evictable(chunks[victim.value])
          invariant forall k :: k in chunks && k !in rest && Evictable(chunks[k]) ==>
                      victim.Some? && chunks[victim.value].useSeq <= chunks[k].useSeq
          decreases rest
        {
          var k :| k in rest;
          rest := rest - {k};
          if Evictable(chunks[k]) && (victim.None? || chunks[k].useSeq < chunks[victim.value].useSeq) {
            victim := Some(k);
          }
        }
        if victim.None? {
          return;
        }
        DropVictim(old(chunks), chunks, victim.value);
        assert (chunks - {victim.value}).Keys == chunks.Keys - {victim.value};
        chunks := chunks - {victim.value};
      }
    }

    method PlanFetch(off: int, readEnd: int) returns (plan: Target)
      requires Valid() && 0 <= off < readEnd <= size
      ensures HitOf(chunks, off).Some? ==> HitOf(chunks, off).value in chunks
      ensures (plan.start, plan.needEnd) == ChunkCache.PlanFetch(chunks, size, off, readEnd, HitOf(chunks, off))
    {
      PlanIsValid(payload, chunks, useSeq, off, readEnd);
      var hit := LookupChunk(off);
      var p := ChunkCache.PlanFetch(chunks, size, off, readEnd, hit);
      plan := Target(p.0, p.1);
    }

    method FinishChunkFetch(start: nat, buf: seq<byte>, err: Option<RequestError>)
      modifies this`chunks, this`useSeq
      ensures start !in old(chunks) ==> chunks == old(chunks) && useSeq == old(useSeq)
      ensures start in old(chunks) && err.Some? ==>
                chunks == old(chunks) - {start} && useSeq == old(useSeq)
      ensures start in old(chunks) && err.None? ==>
                && useSeq == old(useSeq) + 1
                && EvictedTo(old(chunks)[start := Filled(old(chunks)[start], buf, useSeq)], chunks)
    {
      if start !in chunks {
        return;
      }
      if err.Some? {
        chunks := chunks - {start};
        return;
      }
      chunks := chunks[start := chunks[start].(data := buf, fetching := false)];
      TouchChunk(start);
      assert chunks == old(chunks)[start := Filled(old(chunks)[start], buf, useSeq)];
      EvictChunks();
    }

    /** One request: a placeholder goes in, the window is fetched, the fetch finishes. */
    method FetchChunk(start: nat, length: nat) returns (err: Option<RequestError>)
      requires size == |payload| && start + length <= size
      modifies this`chunks, this`useSeq, this`requests
      ensures requests == old(requests) + 1 && err == remote(old(requests))
      ensures err.None? ==>
                && useSeq == old(useSeq) + 2
                && FetchedTo(payload, old(chunks), start, length, useSeq, chunks)
      ensures err.Some? ==>
                && useSeq == old(useSeq) + 1
                && Forgotten(old(chunks), start, chunks)
    {
      chunks := chunks[start := Chunk(start, [], useSeq, Pinned(start, size), true)];
      TouchChunk(start);
      ghost var placeholder := chunks[start];
      assert chunks == old(chunks)[start := placeholder];
      var buf;
      buf, err := Fetch(start, length);
      FinishChunkFetch(start, buf, err);
      ghost var filled := Filled(placeholder, buf, useSeq);
      assert old(chunks)[start := placeholder][start := filled] == old(chunks)[start := filled];
      assert old(chunks)[start := placeholder] - {start} == old(chunks) - {start};
    }

    /** The miss path of `EnsureChunk`: sizes the one request it needs. */
    method RequestChunk(start: nat, needEnd: int) returns (err: Option<RequestError>, ghost length: nat)
      requires size == |payload| && Quiet(payload, chunks, useSeq)
      requires ValidTarget(start, needEnd, size) && !Satisfied(chunks, start, needEnd)
      modifies this`chunks, this`useSeq, this`requests
      ensures requests == old(requests) + 1 && err == remote(old(requests))
      ensures length == EnsuredLength(old(chunks), size, start, needEnd)
      ensures Quiet(payload, chunks, useSeq)
      ensures err == None ==>
                && Ensured(payload, old(chunks), old(useSeq), start, needEnd, chunks, useSeq)
                && start in chunks && |chunks[start].data| == length
      ensures err != None ==> Forgotten(old(chunks), start, chunks) && useSeq == old(useSeq) + 1
    {
      EnsuredLengthValid(payload, chunks, useSeq, start, needEnd);
      length := EnsuredLength(chunks, size, start, needEnd);
      var fetchEnd := needEnd;
      if start in chunks {
        fetchEnd := NextFetchEnd(chunks[start], needEnd, size);
      }
      err := FetchChunk(start, FetchLength(start, fetchEnd, size));
      if err != None {
        DropKeeps(payload, old(chunks), old(useSeq), start, chunks);
      } else {
        EnsuredKeeps(payload, old(chunks), old(useSeq), start, needEnd, chunks, useSeq);
      }
    }

    /**
      Makes the chunk at `start` reach `needEnd`. A chunk that already does is
      only touched. Otherwise exactly one window is requested: it replaces the
      chunk and the least recently touched chunk may go, or, on failure, the
      chunk at `start` is gone and nothing else changed.
     */
    method EnsureChunk(start: nat, needEnd: int, allowPrefetch: bool) returns (err: Option<RequestError>)
      requires Valid() && ValidTarget(start, needEnd, size)
      modifies this`chunks, this`useSeq, this`background, this`requests
      ensures Valid()
      ensures Satisfied(old(chunks), start, needEnd) ==> err == None && requests == old(requests)
      ensures !Satisfied(old(chunks), start, needEnd) ==> err == remote(old(requests)) && requests == old(requests) + 1
      ensures err == None ==> Ensured(payload, old(chunks), old(useSeq), start, needEnd, chunks, useSeq)
      ensures err == None ==>
                start in chunks && forall k :: k in chunks && k != start ==> chunks[k].useSeq < chunks[start].useSeq
      ensures err == None ==>
                forall k :: k in old(chunks) && k % 0x8_0000 == 0 && (k == 0 || k < size <= k + 0x8_0000) ==>
                  k in chunks
      ensures err != None ==> Forgotten(old(chunks), start, chunks) && useSeq == old(useSeq) + 1
      ensures background == old(background) +
                if err == None && allowPrefetch && !Satisfied(old(chunks), start, needEnd) then
                  Lookahead(start, EnsuredLength(old(chunks), size, start, needEnd), size)
                else []
    {
      if start in chunks && chunks[start].End() >= needEnd {
        TouchKeeps(payload, chunks, useSeq, start);
        TouchChunk(start);
        return None;
      }
      ghost var length;
      err, length := RequestChunk(start, needEnd);
      if err == None {
        EnsuredKeepsEnds(payload, old(chunks), old(useSeq), start, needEnd, chunks, useSeq);
      }
      if err == None && allowPrefetch {
        QueueLookahead(start, |chunks[start].data|);
      }
    }

    method QueueLookahead(start: nat, fetchedLen: int)
      requires ValidStart(start, size) && ValidTargets(background, size)
      modifies this`background
      ensures background == old(background) + Lookahead(start, fetchedLen, size)
      ensures ValidTargets(background, size)
    {
      LookaheadValid(start, fetchedLen, size);
      background := background + Lookahead(start, fetchedLen, size);
    }

    /** The first read of a file, if at its head, warms the tail of a large one. */
    method NoteRead(off: int)
      requires Valid()
      modifies this`firstRead, this`background
      ensures Valid() && firstRead
      ensures old(firstRead) || off != 0 || size <= 0x80_0000 ==> background == old(background)
      ensures !old(firstRead) && off == 0 && size > 0x80_0000 ==>
                && |background| == |old(background)| + 1 && background[..|old(background)|] == old(background)
                && var t := background[|old(background)|];
                   t.start % 0x8_0000 == 0 && t.start < size <= t.start + 0x8_0000 && t.needEnd == size
    {
      var first := !firstRead;
      firstRead := true;
      if first && off == 0 && size > 2 * CHUNK_SIZE {
        ProbeStartBounds(size - 1);
        var tail := TailProbeStart(size);
        if tail <= 0 {
          return;
        }
        background := background + [Target(tail, size)];
      }
    }

    /** One queued background window; a failure is forgotten. */
    method RunPrefetch()
      requires Valid() && background != []
      modifies this`chunks, this`useSeq, this`background, this`requests
      ensures Valid() && background == old(background)[1..]
      ensures var t := old(background)[0];
        if Satisfied(old(chunks), t.start, t.needEnd) then
          chunks == old(chunks) && useSeq == old(useSeq) && requests == old(requests)
        else
          && requests == old(requests) + 1
          && (if remote(old(requests)) == None then
                Ensured(payload, old(chunks), old(useSeq), t.start, t.needEnd, chunks, useSeq)
              else Forgotten(old(chunks), t.start, chunks) && useSeq == old(useSeq) + 1)
    {
      var t := background[0];
      background := background[1..];
      if t.start in chunks && chunks[t.start].End() >= t.needEnd {
        return;
      }
      var err := EnsureChunk(t.start, t.needEnd, false);
    }

    /**
      Plans and meets the next request of a read that has reached `pos`. Nothing
      is requested if the planned chunk reaches far enough already, and nothing
      fails but a request that was made.
     */
    method MeetPlan(pos: nat, end: nat) returns (err: Option<RequestError>, ghost plan: (nat, int))
      requires Valid() && pos < end <= size
      modifies this`chunks, this`useSeq, this`background, this`requests
      ensures Valid() && ValidTarget(plan.0, plan.1, size)
      ensures HitOf(old(chunks), pos).Some? ==> HitOf(old(chunks), pos).value in old(chunks)
      ensures plan == ChunkCache.PlanFetch(old(chunks), size, pos, end, HitOf(old(chunks), pos))
      ensures requests == old(requests) + (if Satisfied(old(chunks), plan.0, plan.1) then 0 else 1)
      ensures err == if Satisfied(old(chunks), plan.0, plan.1) then None else remote(old(requests))
      ensures err == None ==> Ensured(payload, old(chunks), old(useSeq), plan.0, plan.1, chunks, useSeq)
      ensures err == None ==> EndsStay(old(chunks), chunks, size)
      ensures err != None ==> Forgotten(old(chunks), plan.0, chunks) && useSeq == old(useSeq) + 1
    {
      var p := PlanFetch(pos, end);
      PlanIsValid(payload, chunks, useSeq, pos, end);
      plan := (p.start, p.needEnd);
      err := EnsureChunk(p.start, p.needEnd, true);
    }

    /** A met plan leaves a chunk for `pos` to be found, and makes no request where the read was warm. */
    method EnsureAt(pos: nat, end: nat) returns (err: Option<RequestError>, ghost k: nat, ghost reach: nat)
      requires Valid() && pos < end <= size
      modifies this`chunks, this`useSeq, this`background, this`requests
      ensures Valid()
      ensures requests <= old(requests) + 1
      ensures EndsWith(remote, old(requests), requests, err)
      ensures requests == old(requests) <==> Reaches(old(chunks), size, pos, end)
      ensures requests == old(requests) ==>
                && HitOf(old(chunks), pos) == Some(k)
                && useSeq == old(useSeq) + 1 && TouchedTo(old(chunks), k, useSeq, chunks)
      ensures err == None ==> EndsStay(old(chunks), chunks, size)
      ensures err == None ==>
                && HitReaches(chunks, pos, end, k, reach)
                && pos < reach <= end && (reach == end || reach % 0x8_0000 == 0)
    {
      ghost var plan;
      err, plan := MeetPlan(pos, end);
      k, reach := plan.0, 0;
      PlanSatisfied(payload, old(chunks), old(useSeq), pos, end, plan.0, plan.1);
      EndsOnce(remote, old(requests), requests, err);
      if err == None {
        EnsuredIsHit(payload, old(chunks), old(useSeq), pos, end, plan.0, plan.1, chunks, useSeq);
        reach := Min(chunks[plan.0].End(), end);
      }
    }

    /** Copies what the chunk at `pos` holds of [pos, end) to `dest` from `written` on. */
    method CopyAt(dest: array<byte>, written: nat, pos: nat, end: nat, ghost k: nat, ghost reach: nat)
      returns (take: nat)
      requires Valid() && pos < end <= size && written + (end - pos) <= dest.Length
      requires HitReaches(chunks, pos, end, k, reach) && pos <= reach <= size
      modifies this`chunks, this`useSeq, dest
      ensures Valid()
      ensures take == reach - pos
      ensures dest[..] == Overwritten(old(dest[..]), written, payload[pos..pos + take])
      ensures useSeq == old(useSeq) + 1 && TouchedTo(old(chunks), k, useSeq, chunks)
    {
      var hit := LookupChunk(pos);
      var ch := chunks[hit.value];
      assert ValidChunk(payload, hit.value, ch);
      TouchKeeps(payload, chunks, useSeq, hit.value);
      TouchChunk(hit.value);
      take := Min(ch.End(), end) - pos;
      ChunkSlice(payload, ch, pos, take);
      CopyOut(dest, written, ch.data[pos - ch.start..pos - ch.start + take]);
    }

    static method CopyOut(dest: array<byte>, at: nat, bytes: seq<byte>)
      requires at + |bytes| <= dest.Length
      modifies dest
      ensures dest[..] == Overwritten(old(dest[..]), at, bytes)
    {
      forall i | 0 <= i < |bytes| {
        dest[at + i] := bytes[i];
      }
    }

    /** The second half of a round: `dest` held payload[off..pos] over `before`, and then payload[off..reach]. */
    method CopyRound(dest: array<byte>, ghost before: seq<byte>, off: nat, pos: nat, end: nat,
                     ghost k: nat, ghost reach: nat)
      returns (next: nat)
      requires Valid() && off <= pos < end <= size && end - off <= dest.Length == |before|
      requires dest[..] == Overwritten(before, 0, payload[off..pos])
      requires HitReaches(chunks, pos, end, k, reach) && pos <= reach <= end
      modifies this`chunks, this`useSeq, dest
      ensures Valid() && next == reach
      ensures dest[..] == Overwritten(before, 0, payload[off..reach])
      ensures useSeq == old(useSeq) + 1 && TouchedTo(old(chunks), k, useSeq, chunks)
    {
      ghost var mid := dest[..];
      var take := CopyAt(dest, pos - off, pos, end, k, reach);
      next := pos + take;
      OverwriteMore(before, payload, off, pos, next, mid, dest[..]);
    }

    /**
      The loop of `Read` over [off, end): it fails exactly when a request it
      made failed, and makes none exactly when the chunks reach far enough.
     */
    method Fill(dest: array<byte>, off: nat, end: nat) returns (err: Option<RequestError>, ghost rounds: nat)
      requires Valid() && off < end <= size && end - off <= dest.Length
      modifies this`chunks, this`useSeq, this`background, this`requests, dest
      ensures Valid()
      ensures EndsWith(remote, old(requests), requests, err)
      ensures requests == old(requests) <==> Warm(old(chunks), size, off, end)
      ensures err == None ==> EndsStay(old(chunks), chunks, size)
      ensures err == None ==> dest[..] == Overwritten(old(dest[..]), 0, payload[off..end])
      ensures requests - old(requests) <= rounds <= BlocksTouched(off, end)
    {
      ghost var before := dest[..];
      var pos := off;
      rounds := 0;
      err := None;
      while pos < end
        invariant EndsStay(old(chunks), chunks, size)
        invariant Valid() && off <= pos <= end && err == None
        invariant dest[..] == Overwritten(before, 0, payload[off..pos])
        invariant requests - old(requests) <= rounds <= BlocksTouched(off, pos) <= BlocksTouched(off, end)
        invariant pos == off || pos == end || pos % 0x8_0000 == 0
        invariant EndsWith(remote, old(requests), requests, None)
        invariant if requests > old(requests) then !Warm(old(chunks), size, off, end)
                  else Warm(old(chunks), size, off, end) <==> Warm(chunks, size, pos, end)
        decreases end - pos
      {
        ghost var made, m, u, from := requests, chunks, useSeq, pos;
        ghost var k, reach;
        err, k, reach := EnsureAt(pos, end);
        EndsLater(remote, old(requests), made, requests, err);
        rounds := rounds + 1;
        if err != None {
          RoundCost(off, pos, end, end);
          return;
        }
        ghost var once, v := chunks, useSeq;
        pos := CopyRound(dest, before, off, pos, end, k, reach);
        RoundCost(off, from, pos, end);
        if requests == made {
          TouchedTwice(m, size, u, from, end, k, once, v, chunks, useSeq, pos);
          UnaskedKeepsWarm(payload, m, u, from, end, chunks, pos);
        }
      }
    }

    /** Whether a read gets as far as asking for bytes. */
    predicate Asks(length: nat, off: int) {
      length > 0 && 0 <= off < size && off + length <= MAX_INT64
    }

    /** A read of [off, end) that is to end in `e`, having made the requests numbered from..to. */
    ghost predicate Reported(from: nat, to: nat, e: Errno) {
      && from <= to
      && (e == OK <==> forall k :: from <= k < to ==> remote(k) == None)
      && (e != OK ==>
            && from < to && remote(to - 1).Some?
            && (e == EINTR <==> remote(to - 1).value == Canceled)
            && (e != EINTR ==> e == ErrnoOf(remote(to - 1).value)))
    }

    lemma EndIsReported(from: nat, to: nat, err: Option<RequestError>)
      requires EndsWith(remote, from, to, err)
      ensures Reported(from, to, if err == None then OK else ReadErrno(err.value))
    {
    }

    /** The part of `Read` that asks for bytes. */
    method ReadAsked(dest: array<byte>, off: nat, end: nat) returns (e: Errno, ghost rounds: nat)
      requires Valid() && off < end <= size && end - off <= dest.Length
      modifies this`chunks, this`useSeq, this`background, this`requests, dest
      ensures Valid()
      ensures Reported(old(requests), requests, e)
      ensures requests == old(requests) <==> Warm(old(chunks), size, off, end)
      ensures e == OK ==> EndsStay(old(chunks), chunks, size)
      ensures e == OK ==> dest[..] == Overwritten(old(dest[..]), 0, payload[off..end])
      ensures requests - old(requests) <= rounds <= BlocksTouched(off, end)
    {
      var err;
      err, rounds := Fill(dest, off, end);
      EndIsReported(old(requests), requests, err);
      e := if err == None then OK else ReadErrno(err.value);
    }

    /**
      Reads at most `dest.Length` bytes at `off` into `dest`. With nothing else
      in flight the loop ends, in at most one round and one request per
      PROBE_SIZE block the read touches. It succeeds exactly when no request it
      made failed, and then filled `dest` with exactly the payload bytes from
      `off` up to the end of the read or of the file; otherwise it reports the
      failure of the last one. It makes no request exactly when it was warm.
     */
    method Read(dest: array<byte>, off: int) returns (n: nat, e: Errno, ghost rounds: nat)
      requires Valid()
      modifies this`chunks, this`useSeq, this`background, this`firstRead, this`requests, dest
      ensures Valid()
      ensures dest.Length == 0 || off >= size ==> e == OK && n == 0
      ensures e == EINVAL <==> dest.Length > 0 && off < 0
      ensures e == EOVERFLOW <==> dest.Length > 0 && 0 <= off < size && off + dest.Length > MAX_INT64
      ensures !Asks(dest.Length, off) ==> requests == old(requests) && dest[..] == old(dest[..])
      ensures Asks(dest.Length, off) ==> Reported(old(requests), requests, e)
      ensures Asks(dest.Length, off) ==>
                (requests == old(requests) <==> Warm(old(chunks), size, off, Min(off + dest.Length, size)))
      ensures n <= dest.Length && (e != OK ==> n == 0)
      ensures e == OK ==> EndsStay(old(chunks), chunks, size)
      ensures e == OK && 0 <= off < size ==>
                && n == Min(off + dest.Length, size) - off
                && dest[..n] == payload[off..off + n] && dest[n..] == old(dest[..])[n..]
      ensures 0 <= off ==> requests - old(requests) <= rounds <= BlocksTouched(off, Min(off + dest.Length, size))
    {
      n, e, rounds := 0, OK, 0;
      if dest.Length == 0 || off >= size {
        return;
      }
      if off < 0 {
        e := EINVAL;
        return;
      }
      NoteRead(off);
      if off + dest.Length > MAX_INT64 {
        e := EOVERFLOW;
        return;
      }
      var end := Min(off + dest.Length, size);
      e, rounds := ReadAsked(dest, off, end);
      if e == OK {
        n := end - off;
      }
    }

    /** Closing the file forgets every chunk. */
    method Release()
      requires Valid()
      modifies this`chunks, this`useSeq
      ensures Valid() && chunks == map[] && useSeq == 0
    {
      chunks := map[];
      useSeq := 0;
      EmptyQuiet(payload);
    }
  }

  /** A round that starts at a block boundary (or at `off`) pays for a block of its own. */
  lemma RoundCost(off: int, pos: int, next: int, end: int)
    requires 0 <= off <= pos < next <= end
    requires pos == off || pos % 0x8_0000 == 0
    ensures BlocksTouched(off, pos) + 1 <= BlocksTouched(off, next)
  {
  }
}
