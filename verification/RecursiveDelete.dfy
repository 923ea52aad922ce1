/** Deleting everything at or under a path: each object once, the deepest paths first. */
module RecursiveDelete {
  import opened Common
  import opened Paths
  import opened Listing
  import opened ObjectStore

  datatype Hit = Hit(id: string, path: string)

  /** `p` is the deleted path or lies under it. */
  predicate AtOrUnder(p: string, prefix: string) {
    p != "" && (p == prefix || HasPrefix(p, prefix + "/"))
  }

  predicate Matches(filePath: string, key: string, prefix: string) {
    AtOrUnder(TrimLeadingSlash(filePath), prefix) || AtOrUnder(TrimLeadingSlash(key), prefix)
  }

  /** One of the two attributes is a path whose segments begin with those of `prefix`. */
  ghost predicate InTree(filePath: string, key: string, prefix: string) {
    exists p :: (Reads(filePath, p) || Reads(key, p)) && p != "" && Split(prefix) <= Split(p)
  }

  lemma AtOrUnderSegments(p: string, prefix: string)
    ensures AtOrUnder(p, prefix) <==> p != "" && Split(prefix) <= Split(p)
  {
    PrefixIsSegmentPrefix(prefix, p);
    if Split(prefix) == Split(p) {
      JoinSplit(prefix);
      JoinSplit(p);
    }
  }

  /** What matches is what lies at or under the path, segment by segment. */
  lemma MatchesAreInTree(filePath: string, key: string, prefix: string)
    ensures Matches(filePath, key, prefix) <==> InTree(filePath, key, prefix)
  {
    var f, k := TrimLeadingSlash(filePath), TrimLeadingSlash(key);
    AtOrUnderSegments(f, prefix);
    AtOrUnderSegments(k, prefix);
    ReadsTrimmed(filePath, f);
    ReadsTrimmed(key, k);
    if p :| (Reads(filePath, p) || Reads(key, p)) && p != "" && Split(prefix) <= Split(p) {
      ReadsTrimmed(filePath, p);
      ReadsTrimmed(key, p);
    }
  }

  /** The path an entry is deleted by: its FilePath if that matches, else its Key. */
  function HitPath(e: SearchEntry, prefix: string): string {
    if AtOrUnder(TrimLeadingSlash(e.filePath), prefix) then TrimLeadingSlash(e.filePath) else TrimLeadingSlash(e.key)
  }

  function IdsOf(hits: seq<Hit>): seq<string> {
    seq(|hits|, i requires 0 <= i < |hits| => hits[i].id)
  }

  /** Each matching object of the scan once, in scan order. */
  function HitsOf(entries: seq<SearchEntry>, prefix: string): seq<Hit> {
    if entries == [] then []
    else
      var hits, e := HitsOf(entries[..|entries| - 1], prefix), entries[|entries| - 1];
      if Matches(e.filePath, e.key, prefix) && e.objectId !in IdsOf(hits) then
        hits + [Hit(e.objectId, HitPath(e, prefix))]
      else hits
  }

  /** A path of an entry counts if it matches and the object is not a hit yet. */
  function OneMoreHit(hits: seq<Hit>, id: string, p: string, prefix: string): seq<Hit> {
    if AtOrUnder(p, prefix) && id !in IdsOf(hits) then hits + [Hit(id, p)] else hits
  }

  lemma HitsOneMore(entries: seq<SearchEntry>, prefix: string, n: nat)
    requires n < |entries|
    ensures var e, before := entries[n], HitsOf(entries[..n], prefix);
      HitsOf(entries[..n + 1], prefix) ==
      OneMoreHit(OneMoreHit(before, e.objectId, TrimLeadingSlash(e.filePath), prefix),
                 e.objectId, TrimLeadingSlash(e.key), prefix)
  {
    var e, before := entries[n], HitsOf(entries[..n], prefix);
    assert entries[..n + 1][..n] == entries[..n];
    IdsAppend(before, Hit(e.objectId, TrimLeadingSlash(e.filePath)));
  }

  method CollectHits(entries: seq<SearchEntry>, prefix: string) returns (hits: seq<Hit>)
    ensures hits == HitsOf(entries, prefix)
  {
    hits := [];
    var seen: set<string> := {};
    for n := 0 to |entries|
      invariant hits == HitsOf(entries[..n], prefix)
      invariant forall id :: id in seen <==> id in IdsOf(hits)
    {
      HitsOneMore(entries, prefix, n);
      var e := entries[n];
      var raws := [e.filePath, e.key];
      ghost var before := hits;
      for k := 0 to 2
        invariant forall id :: id in seen <==> id in IdsOf(hits)
        invariant k == 0 ==> hits == before
        invariant k == 1 ==> hits == OneMoreHit(before, e.objectId, TrimLeadingSlash(e.filePath), prefix)
        invariant k == 2 ==> hits == HitsOf(entries[..n + 1], prefix)
      {
        var p := TrimLeadingSlash(raws[k]);
        if p != "" && (p == prefix || HasPrefix(p, prefix + "/")) && e.objectId !in seen {
          seen := seen + {e.objectId};
          IdsAppend(hits, Hit(e.objectId, p));
          hits := hits + [Hit(e.objectId, p)];
        }
      }
    }
    assert entries[..|entries|] == entries;
  }

  lemma IdsAppend(hits: seq<Hit>, h: Hit)
    ensures IdsOf(hits + [h]) == IdsOf(hits) + [h.id]
  {
  }

  predicate NoDuplicateIds(hits: seq<Hit>) {
    forall i, j :: 0 <= i < j < |hits| ==> hits[i].id != hits[j].id
  }

  /** Some entry of the object lies at or under the path. */
  ghost predicate Hits(entries: seq<SearchEntry>, prefix: string, id: string) {
    exists i :: 0 <= i < |entries| && entries[i].objectId == id && Matches(entries[i].filePath, entries[i].key, prefix)
  }

  lemma HitsSplit(entries: seq<SearchEntry>, prefix: string, id: string)
    requires entries != []
    ensures var e := entries[|entries| - 1];
      Hits(entries, prefix, id) <==>
      Hits(entries[..|entries| - 1], prefix, id) || (e.objectId == id && Matches(e.filePath, e.key, prefix))
  {
    var entries' := entries[..|entries| - 1];
    if i :| 0 <= i < |entries'| && entries'[i].objectId == id
            && Matches(entries'[i].filePath, entries'[i].key, prefix) {
      assert entries[i].objectId == id;
    }
    if i :| 0 <= i < |entries| && entries[i].objectId == id && Matches(entries[i].filePath, entries[i].key, prefix) {
      assert i < |entries'| ==> entries'[i].objectId == id;
    }
  }

  /** The hits are exactly the objects at or under the path, each once, by a path that is at or under it. */
  lemma {:induction false} HitsAre(entries: seq<SearchEntry>, prefix: string)
    ensures NoDuplicateIds(HitsOf(entries, prefix))
    ensures forall id :: id in IdsOf(HitsOf(entries, prefix)) <==> Hits(entries, prefix, id)
    ensures forall i :: 0 <= i < |HitsOf(entries, prefix)| ==> AtOrUnder(HitsOf(entries, prefix)[i].path, prefix)
  {
    if entries != [] {
      var entries', e := entries[..|entries| - 1], entries[|entries| - 1];
      HitsAre(entries', prefix);
      var hits := HitsOf(entries', prefix);
      IdsAppend(hits, Hit(e.objectId, HitPath(e, prefix)));
      assert forall i :: 0 <= i < |hits| ==> hits[i].id == IdsOf(hits)[i];
      forall id ensures id in IdsOf(HitsOf(entries, prefix)) <==> Hits(entries, prefix, id) {
        HitsSplit(entries, prefix, id);
      }
    }
  }

  /** The hit is of this entry, by its FilePath if that lies at or under the path and else by its Key. */
  ghost predicate HitOfEntry(h: Hit, e: SearchEntry, prefix: string) {
    && h.id == e.objectId && h.path != "" && Split(prefix) <= Split(h.path)
    && (Reads(e.filePath, h.path)
        || (Reads(e.key, h.path) && !exists p :: Reads(e.filePath, p) && p != "" && Split(prefix) <= Split(p)))
  }

  lemma {:induction false} HitsComeFrom(entries: seq<SearchEntry>, prefix: string, i: nat)
    requires i < |HitsOf(entries, prefix)|
    ensures exists e :: e in entries && HitOfEntry(HitsOf(entries, prefix)[i], e, prefix)
  {
    var n := |entries| - 1;
    var hits, e := HitsOf(entries[..n], prefix), entries[n];
    if i < |hits| {
      HitsComeFrom(entries[..n], prefix, i);
      var e' :| e' in entries[..n] && HitOfEntry(hits[i], e', prefix);
      assert e' in entries && HitOfEntry(HitsOf(entries, prefix)[i], e', prefix);
    } else {
      NewHitOf(e, prefix);
      assert e in entries && HitOfEntry(HitsOf(entries, prefix)[i], e, prefix);
    }
  }

  lemma NewHitOf(e: SearchEntry, prefix: string)
    requires Matches(e.filePath, e.key, prefix)
    ensures HitOfEntry(Hit(e.objectId, HitPath(e, prefix)), e, prefix)
  {
    AtOrUnderSegments(TrimLeadingSlash(e.filePath), prefix);
    AtOrUnderSegments(TrimLeadingSlash(e.key), prefix);
    ReadsTrimmed(e.filePath, HitPath(e, prefix));
    ReadsTrimmed(e.key, HitPath(e, prefix));
    forall p | Reads(e.filePath, p) ensures p == TrimLeadingSlash(e.filePath) {
      ReadsTrimmed(e.filePath, p);
    }
  }

  predicate LongestFirst(hits: seq<Hit>) {
    forall i, j :: 0 <= i < j < |hits| ==> |hits[i].path| >= |hits[j].path|
  }

  method InsertHit(sorted: seq<Hit>, h: Hit) returns (r: seq<Hit>)
    requires LongestFirst(sorted)
    ensures multiset(r) == multiset(sorted) + multiset{h} && LongestFirst(r)
  {
    var k := |sorted|;
    while k > 0 && |sorted[k - 1].path| < |h.path|
      invariant 0 <= k <= |sorted|
      invariant forall j :: k <= j < |sorted| ==> |sorted[j].path| < |h.path|
    {
      k := k - 1;
    }
    r := sorted[..k] + [h] + sorted[k..];
    InsertedAt(sorted, k, h);
  }

  lemma InsertedAt(sorted: seq<Hit>, k: nat, h: Hit)
    requires LongestFirst(sorted) && k <= |sorted|
    requires k > 0 ==> |sorted[k - 1].path| >= |h.path|
    requires forall j :: k <= j < |sorted| ==> |sorted[j].path| < |h.path|
    ensures LongestFirst(sorted[..k] + [h] + sorted[k..])
    ensures multiset(sorted[..k] + [h] + sorted[k..]) == multiset(sorted) + multiset{h}
  {
    forall i | 0 <= i < k ensures |sorted[i].path| >= |h.path| {
      assert |sorted[i].path| >= |sorted[k - 1].path|;
    }
    InsertedOrder(sorted[..k], h, sorted[k..]);
    InsertedCount(sorted, k, h);
  }

  lemma InsertedCount(s: seq<Hit>, k: nat, h: Hit)
    requires k <= |s|
    ensures multiset(s[..k] + [h] + s[k..]) == multiset(s) + multiset{h}
  {
    assert s == s[..k] + s[k..];
  }

  lemma InsertedOrder(a: seq<Hit>, h: Hit, b: seq<Hit>)
    requires LongestFirst(a) && LongestFirst(b)
    requires forall i :: 0 <= i < |a| ==> |a[i].path| >= |h.path|
    requires forall i :: 0 <= i < |b| ==> |b[i].path| < |h.path|
    ensures LongestFirst(a + [h] + b)
  {
  }

  /** Sorts by path length, longest first; among equals any order would do. */
  method SortHits(hits: seq<Hit>) returns (sorted: seq<Hit>)
    ensures multiset(sorted) == multiset(hits) && LongestFirst(sorted)
  {
    sorted := [];
    for n := 0 to |hits|
      invariant multiset(sorted) == multiset(hits[..n]) && LongestFirst(sorted)
    {
      assert hits[..n + 1] == hits[..n] + [hits[n]];
      sorted := InsertHit(sorted, hits[n]);
    }
    assert hits[..|hits|] == hits;
  }

  /** The store without the first `n` hits. */
  function Without(s: Store, hits: seq<Hit>, n: nat): Store
    requires n <= |hits|
  {
    map id | id in s && id !in IdsOf(hits[..n]) :: s[id]
  }

  datatype Outcome = ScanFailed | Stopped(deleted: nat) | AllDeleted(deleted: nat)

  lemma WithoutOneMore(s: Store, hits: seq<Hit>, n: nat)
    requires n < |hits|
    ensures Without(s, hits, n + 1) == Without(s, hits, n) - {hits[n].id}
  {
    assert hits[..n + 1] == hits[..n] + [hits[n]];
    IdsAppend(hits[..n], hits[n]);
  }

  /**
    Deletes the hits of a scan, longest path first, until one delete fails.
    `order` is the order taken.
   */
  method DeleteUnderPrefix(c: Container, relPath: string, entries: Option<seq<SearchEntry>>, ok: string -> bool)
    returns (outcome: Outcome, ghost order: seq<Hit>)
    modifies c
    ensures entries.None? ==> outcome == ScanFailed && c.store == old(c.store)
    ensures entries.Some? ==>
      && multiset(order) == multiset(HitsOf(entries.value, TrimLeadingSlash(relPath))) && LongestFirst(order)
      && (match outcome
          case Stopped(n) => n < |order| && !ok(order[n].id) && c.store == Without(old(c.store), order, n)
          case AllDeleted(n) => n == |order| && c.store == Without(old(c.store), order, n)
          case ScanFailed => false)
      && forall i :: 0 <= i < outcome.deleted ==> ok(order[i].id)
    ensures var prefix := if relPath != "" && relPath[0] == '/' then relPath[1..] else relPath;
      entries.Some? && Truthful(entries.value, old(c.store)) ==>
        forall id :: id in old(c.store) && !InTree(old(c.store)[id].filePath, old(c.store)[id].key, prefix) ==>
          id in c.store && c.store[id] == old(c.store)[id]
    ensures var prefix := if relPath != "" && relPath[0] == '/' then relPath[1..] else relPath;
      entries.Some? && Fresh(entries.value, old(c.store)) && outcome.AllDeleted? ==>
        forall id :: id in c.store ==> !InTree(c.store[id].filePath, c.store[id].key, prefix)
  {
    order := [];
    if entries.None? {
      return ScanFailed, [];
    }
    var hits := CollectHits(entries.value, TrimLeadingSlash(relPath));
    hits := SortHits(hits);
    order := hits;
    ghost var prefix := TrimLeadingSlash(relPath);
    assert Without(c.store, hits, 0) == c.store;
    for n := 0 to |hits|
      invariant c.store == Without(old(c.store), hits, n)
      invariant forall i :: 0 <= i < n ==> ok(hits[i].id)
    {
      WithoutOneMore(old(c.store), hits, n);
      c.ObjectDelete(hits[n].id, ok(hits[n].id));
      if !ok(hits[n].id) {
        OthersSurvive(old(c.store), entries.value, prefix, hits, n);
        return Stopped(n), hits;
      }
    }
    OthersSurvive(old(c.store), entries.value, prefix, hits, |hits|);
    return AllDeleted(|hits|), hits;
  }

  /** Whatever order is taken, no hit is deleted before a hit beneath it, and none twice. */
  lemma DescendantsFirst(entries: seq<SearchEntry>, prefix: string, order: seq<Hit>, i: nat, j: nat)
    requires multiset(order) == multiset(HitsOf(entries, prefix)) && LongestFirst(order)
    requires i < |order| && j < |order|
    ensures HasPrefix(order[j].path, order[i].path + "/") ==> j < i
    ensures order[i].id == order[j].id ==> i == j
  {
    HitsAre(entries, prefix);
    PermutedIds(order, HitsOf(entries, prefix));
  }

  lemma {:induction false} DistinctCount(hits: seq<Hit>, h: Hit)
    requires NoDuplicateIds(hits)
    ensures multiset(hits)[h] <= 1
  {
    if hits != [] {
      var n := |hits| - 1;
      DistinctCount(hits[..n], h);
      assert hits == hits[..n] + [hits[n]];
      if multiset(hits[..n])[h] > 0 {
        assert h in hits[..n];
      }
    }
  }

  lemma SameTwice(hits: seq<Hit>, i: nat, j: nat)
    requires i < j < |hits| && hits[i] == hits[j]
    ensures multiset(hits)[hits[i]] >= 2
  {
    assert hits == hits[..i] + [hits[i]] + hits[i + 1..j] + [hits[j]] + hits[j + 1..];
  }

  /** Distinct IDs stay distinct when reordered. */
  lemma PermutedIds(order: seq<Hit>, hits: seq<Hit>)
    requires multiset(order) == multiset(hits) && NoDuplicateIds(hits)
    ensures NoDuplicateIds(order)
    ensures forall id :: id in IdsOf(order) <==> id in IdsOf(hits)
  {
    forall i, j | 0 <= i < j < |order| ensures order[i].id != order[j].id {
      if order[i].id == order[j].id {
        assert order[i] in multiset(hits) && order[j] in multiset(hits);
        SameTwice(order, i, j);
        DistinctCount(hits, order[i]);
      }
    }
    SameIds(order, hits);
    SameIds(hits, order);
  }

  lemma SameIds(order: seq<Hit>, hits: seq<Hit>)
    requires multiset(order) == multiset(hits)
    ensures forall id :: id in IdsOf(order) ==> id in IdsOf(hits)
  {
    forall i | 0 <= i < |order| ensures order[i].id in IdsOf(hits) {
      assert order[i] in multiset(hits);
      var k :| 0 <= k < |hits| && hits[k] == order[i];
      assert IdsOf(hits)[k] == order[i].id;
    }
  }

  /** A scan that tells the truth of what is there makes no object a hit that does not lie at or under the path. */
  lemma HitsLieInTree(s: Store, entries: seq<SearchEntry>, prefix: string, order: seq<Hit>, n: nat, id: string)
    requires Truthful(entries, s) && multiset(order) == multiset(HitsOf(entries, prefix)) && n <= |order|
    requires id in s && !InTree(s[id].filePath, s[id].key, prefix)
    ensures id in Without(s, order, n)
  {
    HitsAre(entries, prefix);
    PermutedIds(order, HitsOf(entries, prefix));
    MatchesAreInTree(s[id].filePath, s[id].key, prefix);
    IdsTaken(order, n, id);
  }

  lemma OthersSurvive(s: Store, entries: seq<SearchEntry>, prefix: string, order: seq<Hit>, n: nat)
    requires multiset(order) == multiset(HitsOf(entries, prefix)) && n <= |order|
    ensures Truthful(entries, s) ==>
              forall id :: id in s && !InTree(s[id].filePath, s[id].key, prefix) ==> id in Without(s, order, n)
    ensures Fresh(entries, s) && n == |order| ==>
              forall id :: id in Without(s, order, n) ==> !InTree(s[id].filePath, s[id].key, prefix)
  {
    if Truthful(entries, s) {
      forall id | id in s && !InTree(s[id].filePath, s[id].key, prefix) ensures id in Without(s, order, n) {
        HitsLieInTree(s, entries, prefix, order, n, id);
      }
    }
    if Fresh(entries, s) && n == |order| {
      forall id | id in Without(s, order, n) ensures !InTree(s[id].filePath, s[id].key, prefix) {
        DeletesExactly(s, entries, prefix, order, id);
      }
    }
  }

  lemma IdsTaken(order: seq<Hit>, n: nat, id: string)
    requires n <= |order|
    ensures id in IdsOf(order[..n]) ==> id in IdsOf(order)
  {
    assert forall i :: 0 <= i < n ==> IdsOf(order[..n])[i] == IdsOf(order)[i];
  }

  /** Without failures and with an up-to-date scan, exactly the objects at or under the path are gone. */
  lemma DeletesExactly(s: Store, entries: seq<SearchEntry>, prefix: string, order: seq<Hit>, id: string)
    requires Fresh(entries, s) && multiset(order) == multiset(HitsOf(entries, prefix))
    ensures id in Without(s, order, |order|) <==> id in s && !InTree(s[id].filePath, s[id].key, prefix)
  {
    if id in s {
      MatchesAreInTree(s[id].filePath, s[id].key, prefix);
    }
    HitsAre(entries, prefix);
    PermutedIds(order, HitsOf(entries, prefix));
    assert order[..|order|] == order;
    if id in s {
      assert ListsId(entries, id);
      var i :| 0 <= i < |entries| && entries[i].objectId == id;
      assert TrueOf(entries[i], s);
    }
    if Hits(entries, prefix, id) {
      var i :| 0 <= i < |entries| && entries[i].objectId == id && Matches(entries[i].filePath, entries[i].key, prefix);
      assert TrueOf(entries[i], s);
    }
  }
}
