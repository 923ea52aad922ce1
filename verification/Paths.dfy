/**
  Slash-separated object paths as the listing code sees them: splitting at '/',
  trimming one slash, prefix tests.
 */
module Paths {

  /** The index of the first '/' of `s`, or |s|. */
  function SlashIndex(s: string): (i: nat)
    ensures i <= |s|
    ensures '/' !in s[..i]
    ensures i < |s| ==> s[i] == '/'
  {
    if s == "" || s[0] == '/' then 0
    else
      var i := SlashIndex(s[1..]);
      assert s[..i + 1] == [s[0]] + s[1..][..i];
      i + 1
  }

  /** The segments between the slashes; one more than there are slashes. */
  function Split(s: string): (segs: seq<string>)
    ensures |segs| > 0
    decreases |s|
  {
    var i := SlashIndex(s);
    if i == |s| then [s] else [s[..i]] + Split(s[i + 1..])
  }

  function Join(segs: seq<string>): string
    requires segs != []
  {
    if |segs| == 1 then segs[0] else segs[0] + "/" + Join(segs[1..])
  }

  function NonEmpty(segs: seq<string>): seq<string> {
    if segs == [] then []
    else (if segs[0] == "" then [] else [segs[0]]) + NonEmpty(segs[1..])
  }

  /** The segments that name something. */
  function Segments(s: string): seq<string> {
    NonEmpty(Split(s))
  }

  function TrimLeadingSlash(s: string): string {
    if s != "" && s[0] == '/' then s[1..] else s
  }

  function TrimTrailingSlash(s: string): string {
    if s != "" && s[|s| - 1] == '/' then s[..|s| - 1] else s
  }

  /** The attribute is the path `p`, one slash in front aside. */
  ghost predicate Reads(attr: string, p: string) {
    attr == "/" + p || (attr == p && (p == "" || p[0] != '/'))
  }

  lemma ReadsTrimmed(attr: string, p: string)
    ensures Reads(attr, p) <==> TrimLeadingSlash(attr) == p
  {
    assert ("/" + p)[1..] == p;
    if attr != "" && attr[0] == '/' {
      assert attr == "/" + attr[1..];
    }
  }

  predicate HasPrefix(s: string, prefix: string) {
    prefix <= s
  }

  /** No segment of `s` is empty. */
  predicate Clean(s: string) {
    forall i :: 0 <= i < |Split(s)| ==> Split(s)[i] != ""
  }

  lemma SlashIndexIs(s: string, i: nat)
    requires i <= |s| && '/' !in s[..i] && (i < |s| ==> s[i] == '/')
    ensures SlashIndex(s) == i
  {
  }

  lemma SplitFirst(s: string, head: string, rest: string)
    requires s == head + "/" + rest && '/' !in head
    ensures Split(s) == [head] + Split(rest)
  {
    assert s[..|head|] == head && s[|head|] == '/' && s[|head| + 1..] == rest;
    SlashIndexIs(s, |head|);
  }

  lemma {:induction false} JoinSplit(s: string)
    ensures Join(Split(s)) == s
    decreases |s|
  {
    var i := SlashIndex(s);
    if i < |s| {
      JoinSplit(s[i + 1..]);
      assert Split(s)[1..] == Split(s[i + 1..]);
      assert s == s[..i] + "/" + s[i + 1..];
    }
  }

  /** Splitting cuts at every slash on its own. */
  lemma {:induction false} SplitConcat(a: string, b: string)
    ensures Split(a + "/" + b) == Split(a) + Split(b)
    decreases |a|
  {
    var i := SlashIndex(a);
    if i == |a| {
      assert a[..i] == a;
      SplitFirst(a + "/" + b, a, b);
    } else {
      var head, rest := a[..i], a[i + 1..];
      assert a == head + "/" + rest;
      SplitConcat(rest, b);
      SplitFirst(a, head, rest);
      ConcatAssoc(head, rest, b);
      SplitFirst(a + "/" + b, head, rest + "/" + b);
      SeqAssoc([head], Split(rest), Split(b));
    }
  }

  lemma ConcatAssoc(head: string, rest: string, b: string)
    ensures head + "/" + rest + "/" + b == head + "/" + (rest + "/" + b)
  {
  }

  lemma SeqAssoc<T>(x: seq<T>, y: seq<T>, z: seq<T>)
    ensures x + (y + z) == (x + y) + z
  {
  }

  lemma {:induction false} JoinConcat(x: seq<string>, y: seq<string>)
    requires x != [] && y != []
    ensures Join(x + y) == Join(x) + "/" + Join(y)
  {
    if |x| == 1 {
      assert (x + y)[1..] == y;
    } else {
      assert (x + y)[1..] == x[1..] + y;
      JoinConcat(x[1..], y);
      assert Join(x + y) == x[0] + "/" + (Join(x[1..]) + "/" + Join(y));
    }
  }

  lemma {:induction false} NonEmptyConcat(x: seq<string>, y: seq<string>)
    ensures NonEmpty(x + y) == NonEmpty(x) + NonEmpty(y)
  {
    if x == [] {
      assert x + y == y;
    } else {
      assert (x + y)[1..] == x[1..] + y;
      NonEmptyConcat(x[1..], y);
    }
  }

  lemma {:induction false} NonEmptyClean(segs: seq<string>)
    requires forall i :: 0 <= i < |segs| ==> segs[i] != ""
    ensures NonEmpty(segs) == segs
  {
    if segs != [] {
      NonEmptyClean(segs[1..]);
    }
  }

  lemma SegmentsConcat(a: string, b: string)
    ensures Segments(a + "/" + b) == Segments(a) + Segments(b)
  {
    SplitConcat(a, b);
    NonEmptyConcat(Split(a), Split(b));
  }

  /** With `SegmentsConcat` this says what the segments are: the names between slashes, empty ones left out. */
  lemma SegmentsOfName(s: string)
    requires '/' !in s
    ensures Segments(s) == if s == "" then [] else [s]
  {
    assert s[..|s|] == s;
    SlashIndexIs(s, |s|);
    assert Split(s) == [s] && NonEmpty([s][1..]) == [];
  }

  lemma CleanSegments(s: string)
    requires Clean(s)
    ensures Segments(s) == Split(s)
  {
    NonEmptyClean(Split(s));
  }

  /**
    Between clean paths the string test and the segment test agree: `s` starts
    with `dir` and a slash exactly when the segments of `dir` strictly start
    those of `s`.
   */
  lemma PrefixIsSegmentPrefix(dir: string, s: string)
    ensures HasPrefix(s, dir + "/") <==> Split(dir) < Split(s)
    ensures HasPrefix(s, dir + "/") ==> Split(s) == Split(dir) + Split(s[|dir| + 1..])
  {
    if HasPrefix(s, dir + "/") {
      assert s == dir + "/" + s[|dir| + 1..];
      SplitConcat(dir, s[|dir| + 1..]);
    }
    if Split(dir) < Split(s) {
      var rest := Split(s)[|Split(dir)|..];
      assert Split(s) == Split(dir) + rest;
      JoinConcat(Split(dir), rest);
      JoinSplit(s);
      JoinSplit(dir);
      assert s == dir + "/" + Join(rest);
    }
  }

  lemma {:induction false} SplitSlashFree(s: string)
    ensures forall i :: 0 <= i < |Split(s)| ==> '/' !in Split(s)[i]
    decreases |s|
  {
    var i := SlashIndex(s);
    if i < |s| {
      SplitSlashFree(s[i + 1..]);
    }
  }

  lemma {:induction false} SplitJoin(segs: seq<string>)
    requires segs != [] && forall i :: 0 <= i < |segs| ==> '/' !in segs[i]
    ensures Split(Join(segs)) == segs
  {
    if |segs| == 1 {
      assert segs[0][..|segs[0]|] == segs[0];
      SlashIndexIs(segs[0], |segs[0]|);
    } else {
      SplitJoin(segs[1..]);
      SplitFirst(Join(segs), segs[0], Join(segs[1..]));
    }
  }
}
