/**
  One object range read as parallel parts: how the range is split, and how the
  parts are put together again in whatever order they arrive.
 */
module ObjectRanges {
  import opened Common

  /** objectRangeMultipartPartSize. */
  const PART_SIZE: int := 0x8_0000

  datatype Part = Part(index: nat, offset: int, length: int)
  {
    function End(): int {
      offset + length
    }
  }

  /**
    `parts` cut [offset, end) into contiguous non-empty pieces in index order,
    all but the last of exactly PART_SIZE bytes.
   */
  predicate Tiles(parts: seq<Part>, offset: int, end: int) {
    && (forall i :: 0 <= i < |parts| ==>
          && parts[i].index == i
          && parts[i].offset == offset + i * PART_SIZE
          && 0 < parts[i].length <= PART_SIZE
          && (i < |parts| - 1 ==> parts[i].length == PART_SIZE))
    && (if parts == [] then offset == end else parts[|parts| - 1].End() == end)
  }

  method SplitObjectRange(offset: int, length: int) returns (parts: seq<Part>)
    ensures length <= 0 ==> parts == []
    ensures length > 0 ==> Tiles(parts, offset, offset + length)
    ensures forall i :: 0 <= i < |parts| ==>
              parts[i].offset == offset + i * 0x8_0000 && parts[i].length == Min(0x8_0000, length - i * 0x8_0000)
  {
    parts := [];
    if length <= 0 {
      return;
    }
    var count := (length + PART_SIZE - 1) / PART_SIZE;
    for i := 0 to count
      invariant |parts| == i
      invariant Tiles(parts, offset, offset + Min(i * PART_SIZE, length))
    {
      var partOff := offset + i * PART_SIZE;
      var partLen := PART_SIZE;
      var end := offset + length;
      if partOff + partLen > end {
        partLen := end - partOff;
      }
      parts := parts + [Part(i, partOff, partLen)];
    }
  }

  /** A tiling is determined by the range: there is only one way to split. */
  lemma TilingUnique(parts: seq<Part>, other: seq<Part>, offset: int, end: int)
    requires Tiles(parts, offset, end) && Tiles(other, offset, end)
    ensures parts == other
  {
    if parts != [] && other != [] {
      var p, q := parts[|parts| - 1], other[|other| - 1];
      assert (|parts| - 1) * PART_SIZE + p.length == (|other| - 1) * PART_SIZE + q.length;
    }
  }

  /** One part's result: its bytes, or the error its request ended with. */
  datatype Arrival = Bytes(index: nat, buf: seq<byte>) | Failed(index: nat, error: string)

  datatype Result = Read(buf: seq<byte>) | Error(error: string)

  predicate InRange(payload: seq<byte>, offset: int, length: int) {
    0 <= offset && 0 <= length && offset + length <= |payload|
  }

  /** Every part reports once, in any order; a successful one brings exactly its bytes. */
  ghost predicate Delivers(payload: seq<byte>, parts: seq<Part>, arrivals: seq<Arrival>) {
    && |arrivals| == |parts|
    && (forall i :: 0 <= i < |parts| ==> Arrives(arrivals, i))
    && (forall j :: 0 <= j < |arrivals| ==>
          arrivals[j].index < |parts| && Exact(payload, parts[arrivals[j].index], arrivals[j]))
  }

  ghost predicate Arrives(arrivals: seq<Arrival>, i: nat) {
    exists j :: 0 <= j < |arrivals| && arrivals[j].index == i
  }

  ghost predicate Exact(payload: seq<byte>, part: Part, a: Arrival) {
    a.Bytes? ==> InRange(payload, part.offset, part.length) && a.buf == payload[part.offset..part.End()]
  }

  function FirstError(arrivals: seq<Arrival>): Option<string> {
    if arrivals == [] then None
    else
      var first := FirstError(arrivals[..|arrivals| - 1]);
      var a := arrivals[|arrivals| - 1];
      if first.None? && a.Failed? then Some(a.error) else first
  }

  /** The first arrival that is not its part's bytes is this error. */
  ghost predicate FailsFirst(arrivals: seq<Arrival>, error: string) {
    exists j :: 0 <= j < |arrivals| && arrivals[j].Failed? && arrivals[j].error == error
                && forall k :: 0 <= k < j ==> arrivals[k].Bytes?
  }

  lemma {:induction false} FirstErrorIs(arrivals: seq<Arrival>)
    ensures FirstError(arrivals).None? <==> forall j :: 0 <= j < |arrivals| ==> arrivals[j].Bytes?
    ensures FirstError(arrivals).Some? ==> FailsFirst(arrivals, FirstError(arrivals).value)
  {
    if arrivals != [] {
      var n := |arrivals| - 1;
      var before := arrivals[..n];
      FirstErrorIs(before);
      if FirstError(before).None? {
        forall j | 0 <= j < n ensures arrivals[j].Bytes? {
          assert arrivals[j] == before[j];
        }
      } else {
        var j :| 0 <= j < n && before[j].Failed? && before[j].error == FirstError(before).value
                 && forall k :: 0 <= k < j ==> before[k].Bytes?;
        assert arrivals[j].Failed? && forall k :: 0 <= k < j ==> arrivals[k] == before[k];
      }
    }
  }

  /** Some arrival has put part `i` in its place. */
  ghost predicate Placed(payload: seq<byte>, part: Part, buf: seq<byte>) {
    InRange(payload, part.offset, part.length) && buf == payload[part.offset..part.End()]
  }

  /** Collects every part by its index and joins them once all have reported. */
  method Reassemble(payload: seq<byte>, parts: seq<Part>, offset: int, end: int, arrivals: seq<Arrival>)
    returns (r: Result)
    requires Tiles(parts, offset, end) && parts != [] && Delivers(payload, parts, arrivals)
    ensures match r
            case Error(e) => FailsFirst(arrivals, e)
            case Read(buf) =>
              && (forall j :: 0 <= j < |arrivals| ==> arrivals[j].Bytes?)
              && InRange(payload, offset, end - offset) && buf == payload[offset..end]
  {
    var out := new seq<byte>[|parts|](_ => []);
    var err: Option<string> := None;
    for j := 0 to |arrivals|
      invariant err == FirstError(arrivals[..j])
      invariant forall k :: 0 <= k < j && arrivals[k].Bytes? ==>
                  Placed(payload, parts[arrivals[k].index], out[arrivals[k].index])
    {
      assert arrivals[..j + 1][..j] == arrivals[..j];
      assert Exact(payload, parts[arrivals[j].index], arrivals[j]);
      if arrivals[j].Failed? {
        if err.None? {
          err := Some(arrivals[j].error);
        }
      } else {
        out[arrivals[j].index] := arrivals[j].buf;
      }
    }
    assert arrivals[..|arrivals|] == arrivals;
    FirstErrorIs(arrivals);
    if err.Some? {
      return Error(err.value);
    }
    forall i | 0 <= i < |parts| ensures Placed(payload, parts[i], out[i]) {
      assert Arrives(arrivals, i);
      var k :| 0 <= k < |arrivals| && arrivals[k].index == i;
      assert arrivals[k].Bytes?;
    }
    var buf := Join(payload, parts, offset, end, out[..]);
    return Read(buf);
  }

  /** The parts' bytes one after the other are the bytes of the whole range. */
  method Join(payload: seq<byte>, parts: seq<Part>, offset: int, end: int, out: seq<seq<byte>>) returns (buf: seq<byte>)
    requires Tiles(parts, offset, end) && parts != [] && |out| == |parts|
    requires forall i :: 0 <= i < |parts| ==> Placed(payload, parts[i], out[i])
    ensures InRange(payload, offset, end - offset) && buf == payload[offset..end]
  {
    buf := [];
    assert Placed(payload, parts[0], out[0]);
    for i := 0 to |out|
      invariant 0 <= offset && offset + |buf| == (if i == 0 then offset else parts[i - 1].End()) <= |payload|
      invariant buf == payload[offset..offset + |buf|]
    {
      assert Placed(payload, parts[i], out[i]) && parts[i].offset == offset + |buf|;
      buf := buf + out[i];
    }
  }

  /**
    One range read through its parts, or in one request when there is at most
    one part; `single` is what that request would bring.
   */
  method ReadObjectRangeMultipart(payload: seq<byte>, offset: int, length: int, single: Arrival, arrivals: seq<Arrival>)
    returns (r: Result)
    requires length <= PART_SIZE ==> Exact(payload, Part(0, offset, length), single)
    requires length > PART_SIZE ==>
               forall parts :: Tiles(parts, offset, offset + length) ==> Delivers(payload, parts, arrivals)
    ensures var reports := if length <= PART_SIZE then [single] else arrivals;
            match r
            case Error(e) => FailsFirst(reports, e)
            case Read(buf) =>
              && (forall j :: 0 <= j < |reports| ==> reports[j].Bytes?)
              && InRange(payload, offset, length) && buf == payload[offset..offset + length]
  {
    var parts := SplitObjectRange(offset, length);
    assert [single][0] == single;
    if |parts| <= 1 {
      if |parts| == 1 {
        assert parts[0].End() == offset + length;
      }
      return match single case Bytes(_, buf) => Read(buf) case Failed(_, e) => Error(e);
    }
    assert parts[0].length == PART_SIZE && parts[|parts| - 1].offset >= offset + PART_SIZE;
    r := Reassemble(payload, parts, offset, offset + length, arrivals);
  }
}
