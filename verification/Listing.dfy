/**
  Directory listings over a flat list of scanned objects: what the listing trie
  answers, what the linear scan answers, and when the two agree.
 */
module Listing {
  import opened Common
  import opened Paths

  datatype SearchEntry = SearchEntry(
    objectId: string,
    filePath: string,
    fileName: string,
    name: string,
    key: string,
    size: int)

  datatype DirEntry = DirEntry(name: string, objectId: string, size: int, isDirectory: bool)

  /** One object whose path names something: its segments and the entry itself. */
  datatype Item = Item(segs: seq<string>, entry: SearchEntry)

  function EntryPathKey(e: SearchEntry): string {
    var key := if e.filePath != "" then e.filePath
               else if e.key != "" then e.key
               else if e.name != "" then e.name
               else e.fileName;
    TrimLeadingSlash(key)
  }

  function NormalizePrefix(prefix: string): string {
    var dir := TrimTrailingSlash(prefix);
    if dir == "" then "" else dir + "/"
  }

  /** The segments a listing walks down for a caller's prefix. */
  function PrefixSegments(prefix: string): seq<string> {
    var norm := NormalizePrefix(prefix);
    if norm == "" then [] else Segments(TrimTrailingSlash(norm))
  }

  function Dir(name: string): DirEntry {
    DirEntry(name, "", 0, true)
  }

  function File(name: string, e: SearchEntry): DirEntry {
    DirEntry(name, e.objectId, e.size, false)
  }

  // ---------------------------------------------------------------------
  // What the trie answers
  // ---------------------------------------------------------------------

  function Items(entries: seq<SearchEntry>): seq<Item> {
    if entries == [] then []
    else
      Items(entries[..|entries| - 1]) + ItemOf(entries[|entries| - 1])
  }

  function ItemOf(e: SearchEntry): seq<Item> {
    var segs := Segments(EntryPathKey(e));
    if segs == [] then [] else [Item(segs, e)]
  }

  /** The names directly under `p`, in the order they first occur. */
  function ChildNames(L: seq<Item>, p: seq<string>): seq<string> {
    if L == [] then []
    else
      var names := ChildNames(L[..|L| - 1], p);
      var q := L[|L| - 1].segs;
      if p < q && q[|p|] !in names then names + [q[|p|]] else names
  }

  ghost predicate HasBelow(L: seq<Item>, p: seq<string>) {
    exists i :: 0 <= i < |L| && p < L[i].segs
  }

  /** The first entry whose path is exactly `p`. */
  function FirstAt(L: seq<Item>, p: seq<string>): Option<SearchEntry> {
    if L == [] then None
    else
      var first := FirstAt(L[..|L| - 1], p);
      if first.None? && L[|L| - 1].segs == p then Some(L[|L| - 1].entry) else first
  }

  ghost function Describe(L: seq<Item>, p: seq<string>, name: string): DirEntry {
    if HasBelow(L, p + [name]) then Dir(name)
    else if FirstAt(L, p + [name]).Some? then File(name, FirstAt(L, p + [name]).value)
    else Dir(name)
  }

  ghost function DescribeAll(L: seq<Item>, p: seq<string>, names: seq<string>): (out: seq<DirEntry>)
    ensures |out| == |names|
    ensures forall i :: 0 <= i < |names| ==> out[i] == Describe(L, p, names[i])
  {
    if names == [] then []
    else DescribeAll(L, p, names[..|names| - 1]) + [Describe(L, p, names[|names| - 1])]
  }

  ghost function TrieListing(L: seq<Item>, p: seq<string>): seq<DirEntry> {
    DescribeAll(L, p, ChildNames(L, p))
  }

  // ---------------------------------------------------------------------
  // What the linear scan answers
  // ---------------------------------------------------------------------

  function LinearChild(e: SearchEntry, prefix: string): Option<DirEntry> {
    var key := EntryPathKey(e);
    if key == "" || !HasPrefix(key, prefix) then None
    else
      var rest := key[|prefix|..];
      var i := SlashIndex(rest);
      if rest == "" || i == 0 then None
      else if i < |rest| then Some(Dir(rest[..i]))
      else Some(File(rest, e))
  }

  function NamesOf(out: seq<DirEntry>): seq<string> {
    seq(|out|, i requires 0 <= i < |out| => out[i].name)
  }

  function LinearListing(entries: seq<SearchEntry>, prefix: string): seq<DirEntry> {
    if entries == [] then []
    else
      var out := LinearListing(entries[..|entries| - 1], prefix);
      var c := LinearChild(entries[|entries| - 1], prefix);
      if c.None? || c.value.name in NamesOf(out) then out else out + [c.value]
  }

  method ListEntriesByPrefixLinear(entries: seq<SearchEntry>, prefix: string) returns (out: seq<DirEntry>)
    ensures out == LinearListing(entries, prefix)
  {
    var seen: set<string> := {};
    out := [];
    for n := 0 to |entries|
      invariant out == LinearListing(entries[..n], prefix)
      invariant forall s :: s in seen <==> s in NamesOf(out)
    {
      assert entries[..n + 1][..n] == entries[..n];
      var e := entries[n];
      var key := EntryPathKey(e);
      if key != "" && HasPrefix(key, prefix) {
        var rest := key[|prefix|..];
        if rest != "" {
          var i := SlashIndex(rest);
          if i < |rest| {
            var dirName := rest[..i];
            if dirName != "" && dirName !in seen {
              seen := seen + {dirName};
              NamesAppend(out, Dir(dirName));
              out := out + [Dir(dirName)];
            }
          } else if rest !in seen {
            seen := seen + {rest};
            NamesAppend(out, File(rest, e));
            out := out + [File(rest, e)];
          }
        }
      }
    }
    assert entries[..|entries|] == entries;
  }

  lemma NamesAppend(out: seq<DirEntry>, c: DirEntry)
    ensures NamesOf(out + [c]) == NamesOf(out) + [c.name]
  {
  }

  // ---------------------------------------------------------------------
  // The names of a listing
  // ---------------------------------------------------------------------

  predicate NoDuplicates(names: seq<string>) {
    forall i, j :: 0 <= i < j < |names| ==> names[i] != names[j]
  }

  /** A name is listed under `p` exactly when some path lies at or under it, and only once. */
  lemma {:induction false} ChildNamesAre(L: seq<Item>, p: seq<string>)
    ensures NoDuplicates(ChildNames(L, p))
    ensures forall s :: s in ChildNames(L, p) <==> exists i :: 0 <= i < |L| && p + [s] <= L[i].segs
  {
    if L != [] {
      var L' := L[..|L| - 1];
      ChildNamesAre(L', p);
      forall s ensures s in ChildNames(L, p) <==> exists i :: 0 <= i < |L| && p + [s] <= L[i].segs {
        UnderSplit(L[|L| - 1].segs, p, s);
        if i :| 0 <= i < |L| && p + [s] <= L[i].segs {
          if i < |L| - 1 {
            assert p + [s] <= L'[i].segs;
          }
        }
        if s in ChildNames(L', p) {
          var i :| 0 <= i < |L'| && p + [s] <= L'[i].segs;
          assert p + [s] <= L[i].segs;
        }
      }
    }
  }

  lemma UnderSplit(q: seq<string>, p: seq<string>, s: string)
    ensures p + [s] <= q <==> p < q && q[|p|] == s
  {
    if p < q && q[|p|] == s {
      assert q == p + [q[|p|]] + q[|p| + 1..];
    }
  }

  /** Names are listed in the order in which the scan first meets them. */
  lemma {:induction false} ChildNamesInOrder(L: seq<Item>, p: seq<string>, n: nat)
    requires n <= |L|
    ensures ChildNames(L[..n], p) <= ChildNames(L, p)
    decreases |L|
  {
    if n == |L| {
      assert L[..n] == L;
    } else {
      assert L[..|L| - 1][..n] == L[..n];
      ChildNamesInOrder(L[..|L| - 1], p, n);
    }
  }

  // ---------------------------------------------------------------------
  // Where the two listings agree
  // ---------------------------------------------------------------------

  /** What one item contributes to the listing of `p`. */
  function SegChild(it: Item, p: seq<string>): Option<DirEntry> {
    if !(p < it.segs) then None
    else if |it.segs| == |p| + 1 then Some(File(it.segs[|p|], it.entry))
    else Some(Dir(it.segs[|p|]))
  }

  /** The first item whose path is `q` or lies under it. */
  function FirstTouch(L: seq<Item>, q: seq<string>): Option<Item> {
    if L == [] then None
    else
      var first := FirstTouch(L[..|L| - 1], q);
      if first.None? && q <= L[|L| - 1].segs then Some(L[|L| - 1]) else first
  }

  /** The linear scan meets `q` itself first, and only then something beneath it. */
  ghost predicate Shadowed(L: seq<Item>, q: seq<string>) {
    FirstTouch(L, q).Some? && FirstTouch(L, q).value.segs == q && HasBelow(L, q)
  }

  function SegLinear(L: seq<Item>, p: seq<string>): seq<DirEntry> {
    if L == [] then []
    else
      var out := SegLinear(L[..|L| - 1], p);
      var c := SegChild(L[|L| - 1], p);
      if c.None? || c.value.name in NamesOf(out) then out else out + [c.value]
  }

  lemma {:induction false} FirstTouchIs(L: seq<Item>, q: seq<string>)
    ensures FirstTouch(L, q).Some? ==> FirstTouch(L, q).value in L && q <= FirstTouch(L, q).value.segs
    ensures FirstTouch(L, q).None? ==> forall i :: 0 <= i < |L| ==> !(q <= L[i].segs)
    ensures FirstTouch(L, q).Some? && FirstTouch(L, q).value.segs == q ==>
              FirstAt(L, q) == Some(FirstTouch(L, q).value.entry)
  {
    if L != [] {
      FirstTouchIs(L[..|L| - 1], q);
      if FirstTouch(L[..|L| - 1], q).None? {
        NoneAt(L[..|L| - 1], q);
      }
    }
  }

  lemma {:induction false} NoneAt(L: seq<Item>, q: seq<string>)
    requires forall i :: 0 <= i < |L| ==> L[i].segs != q
    ensures FirstAt(L, q).None?
  {
    if L != [] {
      NoneAt(L[..|L| - 1], q);
    }
  }

  lemma {:induction false} FoundAt(L: seq<Item>, q: seq<string>, i: nat)
    requires i < |L| && L[i].segs == q
    ensures FirstAt(L, q).Some?
    decreases |L|
  {
    if i < |L| - 1 {
      FoundAt(L[..|L| - 1], q, i);
    }
  }

  /** The linear scan lists the same names, each as its first item has it. */
  lemma {:induction false} SegLinearIs(L: seq<Item>, p: seq<string>)
    ensures NamesOf(SegLinear(L, p)) == ChildNames(L, p)
    ensures forall i :: 0 <= i < |SegLinear(L, p)| ==>
              var t := FirstTouch(L, p + [ChildNames(L, p)[i]]);
              t.Some? && SegChild(t.value, p) == Some(SegLinear(L, p)[i])
  {
    if L != [] {
      var L', it := L[..|L| - 1], L[|L| - 1];
      SegLinearIs(L', p);
      var out := SegLinear(L', p);
      var c := SegChild(it, p);
      if c.Some? && c.value.name !in NamesOf(out) {
        NamesAppend(out, c.value);
        UnderSplit(it.segs, p, c.value.name);
        ChildNamesAre(L', p);
        FirstTouchIs(L', p + [c.value.name]);
      }
    }
  }

  /** At `p` the listings agree exactly when no listed name is shadowed. */
  lemma TrieEqualsSegLinear(L: seq<Item>, p: seq<string>)
    ensures TrieListing(L, p) == SegLinear(L, p) <==>
            forall s :: s in ChildNames(L, p) ==> !Shadowed(L, p + [s])
  {
    SegLinearIs(L, p);
    var names := ChildNames(L, p);
    var lin, tri := SegLinear(L, p), TrieListing(L, p);
    assert |lin| == |names| == |tri|;
    forall i | 0 <= i < |names| ensures tri[i] == lin[i] <==> !Shadowed(L, p + [names[i]]) {
      KindsAgree(L, p, names[i], lin[i]);
    }
    if forall i :: 0 <= i < |names| ==> tri[i] == lin[i] {
      assert tri == lin;
    }
  }

  lemma KindsAgree(L: seq<Item>, p: seq<string>, s: string, d: DirEntry)
    requires FirstTouch(L, p + [s]).Some? && SegChild(FirstTouch(L, p + [s]).value, p) == Some(d)
    ensures Describe(L, p, s) == d <==> !Shadowed(L, p + [s])
  {
    var q := p + [s];
    var t := FirstTouch(L, q).value;
    FirstTouchIs(L, q);
    UnderSplit(t.segs, p, s);
    if t.segs != q {
      var i :| 0 <= i < |L| && L[i] == t;
      assert q < L[i].segs;
    }
  }

  /** An item is met before anything at or under its path, and something beneath comes later. */
  ghost predicate FileBeforeDirectory(L: seq<Item>, i: int, j: int) {
    && 0 <= i < j < |L|
    && L[i].segs < L[j].segs
    && forall k :: 0 <= k < i ==> !(L[i].segs <= L[k].segs)
  }

  lemma {:induction false} FirstTouchIndex(L: seq<Item>, q: seq<string>) returns (i: nat)
    requires FirstTouch(L, q).Some?
    ensures i < |L| && L[i] == FirstTouch(L, q).value && q <= L[i].segs
    ensures forall k :: 0 <= k < i ==> !(q <= L[k].segs)
  {
    var L' := L[..|L| - 1];
    if FirstTouch(L', q).Some? {
      i := FirstTouchIndex(L', q);
    } else {
      FirstTouchIs(L', q);
      i := |L| - 1;
      forall k | 0 <= k < i ensures !(q <= L[k].segs) {
        assert L[k] == L'[k];
      }
    }
  }

  lemma {:induction false} FirstTouchAt(L: seq<Item>, q: seq<string>, i: nat)
    requires i < |L| && q <= L[i].segs
    requires forall k :: 0 <= k < i ==> !(q <= L[k].segs)
    ensures FirstTouch(L, q) == Some(L[i])
    decreases |L|
  {
    var L' := L[..|L| - 1];
    if i < |L| - 1 {
      FirstTouchAt(L', q, i);
    } else {
      FirstTouchIs(L', q);
    }
  }

  lemma ShadowedIsFileBeforeDirectory(L: seq<Item>, q: seq<string>)
    requires Shadowed(L, q)
    ensures exists i, j :: FileBeforeDirectory(L, i, j) && L[i].segs == q
  {
    var i := FirstTouchIndex(L, q);
    var j :| 0 <= j < |L| && q < L[j].segs;
    assert i < j;
    assert FileBeforeDirectory(L, i, j);
  }

  lemma FileBeforeDirectoryShadows(L: seq<Item>, i: int, j: int)
    requires FileBeforeDirectory(L, i, j)
    ensures Shadowed(L, L[i].segs)
  {
    FirstTouchAt(L, L[i].segs, i);
  }

  lemma ShadowedDiffers(L: seq<Item>, i: int, j: int)
    requires FileBeforeDirectory(L, i, j) && L[i].segs != []
    ensures var p := L[i].segs[..|L[i].segs| - 1];
            TrieListing(L, p) != SegLinear(L, p)
  {
    var q := L[i].segs;
    var p, s := q[..|q| - 1], q[|q| - 1];
    assert q == p + [s];
    FileBeforeDirectoryShadows(L, i, j);
    ChildNamesAre(L, p);
    TrieEqualsSegLinear(L, p);
  }

  lemma NothingShadowed(L: seq<Item>, p: seq<string>)
    requires !exists i, j :: FileBeforeDirectory(L, i, j)
    ensures TrieListing(L, p) == SegLinear(L, p)
  {
    forall s | s in ChildNames(L, p) ensures !Shadowed(L, p + [s]) {
      if Shadowed(L, p + [s]) {
        ShadowedIsFileBeforeDirectory(L, p + [s]);
      }
    }
    TrieEqualsSegLinear(L, p);
  }

  lemma {:induction false} ItemsNamed(entries: seq<SearchEntry>)
    ensures forall i :: 0 <= i < |Items(entries)| ==> Items(entries)[i].segs != []
  {
    if entries != [] {
      ItemsNamed(entries[..|entries| - 1]);
    }
  }

  // ---------------------------------------------------------------------
  // Back to strings
  // ---------------------------------------------------------------------

  predicate CleanEntry(e: SearchEntry) {
    EntryPathKey(e) == "" || Clean(EntryPathKey(e))
  }

  predicate CleanPrefix(prefix: string) {
    TrimTrailingSlash(prefix) == "" || Clean(TrimTrailingSlash(prefix))
  }

  lemma EmptySegments()
    ensures Segments("") == []
  {
    assert Split("") == [""];
  }

  /** Trimming and re-adding the slash twice is the same as once. */
  lemma NormalizeIdempotent(prefix: string)
    ensures NormalizePrefix(NormalizePrefix(prefix)) == NormalizePrefix(prefix)
    ensures PrefixSegments(NormalizePrefix(prefix)) == PrefixSegments(prefix)
    ensures PrefixSegments(prefix) == Segments(TrimTrailingSlash(prefix))
  {
    EmptySegments();
    var dir := TrimTrailingSlash(prefix);
    assert (dir + "/")[..|dir|] == dir;
  }

  /** On clean paths one entry contributes the same child either way. */
  lemma LinearChildIsSegChild(e: SearchEntry, prefix: string)
    requires CleanEntry(e) && CleanPrefix(prefix)
    ensures LinearChild(e, NormalizePrefix(prefix)) ==
            if Segments(EntryPathKey(e)) == [] then None
            else SegChild(Item(Segments(EntryPathKey(e)), e), PrefixSegments(prefix))
  {
    EmptySegments();
    NormalizeIdempotent(prefix);
    var key := EntryPathKey(e);
    if key != "" {
      CleanSegments(key);
      var dir := TrimTrailingSlash(prefix);
      if dir == "" {
        assert key[0..] == key;
        ChildOfRest(e, key, [], key);
      } else {
        CleanSegments(dir);
        PrefixIsSegmentPrefix(dir, key);
        if HasPrefix(key, dir + "/") {
          ChildOfRest(e, key, Split(dir), key[|dir| + 1..]);
        }
      }
    }
  }

  lemma ChildOfRest(e: SearchEntry, key: string, p: seq<string>, rest: string)
    requires Clean(key) && Split(key) == p + Split(rest)
    ensures rest != "" && SlashIndex(rest) > 0
    ensures SegChild(Item(Split(key), e), p) ==
            Some(if SlashIndex(rest) < |rest| then Dir(rest[..SlashIndex(rest)]) else File(rest, e))
  {
    assert Split(key)[|p|] == Split(rest)[0];
    assert Split(key)[|p|] != "";
    assert p < Split(key);
    if SlashIndex(rest) < |rest| {
      assert |Split(rest)| > 1;
    }
  }

  lemma {:induction false} LinearIsSegLinear(entries: seq<SearchEntry>, prefix: string)
    requires forall i :: 0 <= i < |entries| ==> CleanEntry(entries[i])
    requires CleanPrefix(prefix)
    ensures LinearListing(entries, NormalizePrefix(prefix)) == SegLinear(Items(entries), PrefixSegments(prefix))
  {
    if entries != [] {
      var entries', e := entries[..|entries| - 1], entries[|entries| - 1];
      LinearIsSegLinear(entries', prefix);
      LinearChildIsSegChild(e, prefix);
      SegLinearOneMore(Items(entries'), e, PrefixSegments(prefix));
    }
  }

  lemma SegLinearOneMore(L: seq<Item>, e: SearchEntry, p: seq<string>)
    ensures var segs := Segments(EntryPathKey(e));
            var c := if segs == [] then None else SegChild(Item(segs, e), p);
            var out := SegLinear(L, p);
            SegLinear(L + ItemOf(e), p) ==
              if c.None? || c.value.name in NamesOf(out) then out else out + [c.value]
  {
    var segs := Segments(EntryPathKey(e));
    if segs == [] {
      assert L + ItemOf(e) == L;
    } else {
      assert (L + [Item(segs, e)])[..|L|] == L;
    }
  }

  /**
    For clean paths and a clean prefix, trie and linear scan list the same
    names, order, kinds, object IDs and sizes exactly when no listed name is
    scanned as a file before something beneath it.
   */
  lemma TrieMatchesLinear(entries: seq<SearchEntry>, prefix: string)
    requires forall i :: 0 <= i < |entries| ==> CleanEntry(entries[i])
    requires CleanPrefix(prefix)
    ensures var L, p := Items(entries), PrefixSegments(prefix);
            TrieListing(L, p) == LinearListing(entries, NormalizePrefix(prefix)) <==>
            forall s :: s in ChildNames(L, p) ==> !Shadowed(L, p + [s])
  {
    LinearIsSegLinear(entries, prefix);
    TrieEqualsSegLinear(Items(entries), PrefixSegments(prefix));
  }

  /** In particular when no object's path is a proper ancestor of a later object's path. */
  lemma TrieMatchesLinearWithoutAncestors(entries: seq<SearchEntry>, prefix: string)
    requires forall i :: 0 <= i < |entries| ==> CleanEntry(entries[i])
    requires CleanPrefix(prefix)
    requires forall i, j :: 0 <= i < j < |Items(entries)| ==> !(Items(entries)[i].segs < Items(entries)[j].segs)
    ensures TrieListing(Items(entries), PrefixSegments(prefix)) == LinearListing(entries, NormalizePrefix(prefix))
  {
    var L, p := Items(entries), PrefixSegments(prefix);
    forall s | s in ChildNames(L, p) ensures !Shadowed(L, p + [s]) {
      if Shadowed(L, p + [s]) {
        ShadowedIsFileBeforeDirectory(L, p + [s]);
      }
    }
    TrieMatchesLinear(entries, prefix);
  }

  /**
    Trie and linear scan agree for every clean prefix exactly when no object is
    scanned ahead of everything at or under its path and has one beneath it later.
   */
  lemma TrieMatchesLinearEverywhere(entries: seq<SearchEntry>)
    requires forall i :: 0 <= i < |entries| ==> CleanEntry(entries[i])
    ensures (forall prefix :: CleanPrefix(prefix) ==>
               TrieListing(Items(entries), PrefixSegments(prefix)) == LinearListing(entries, NormalizePrefix(prefix)))
       <==> !exists i, j :: FileBeforeDirectory(Items(entries), i, j)
  {
    var L := Items(entries);
    if i, j :| FileBeforeDirectory(L, i, j) {
      ItemsNamed(entries);
      ItemsSlashFree(entries, i);
      ShadowedDiffers(L, i, j);
      var q := L[i].segs;
      var prefix := PrefixOf(q[..|q| - 1]);
      LinearIsSegLinear(entries, prefix);
    } else {
      forall prefix | CleanPrefix(prefix)
        ensures TrieListing(L, PrefixSegments(prefix)) == LinearListing(entries, NormalizePrefix(prefix))
      {
        NothingShadowed(L, PrefixSegments(prefix));
        LinearIsSegLinear(entries, prefix);
      }
    }
  }

  lemma TwoItems(x: SearchEntry, y: SearchEntry)
    requires x.filePath == "/a" && y.filePath == "/a/b"
    ensures EntryPathKey(x) == "a" && EntryPathKey(y) == "a/b"
    ensures Items([x, y]) == [Item(["a"], x), Item(["a", "b"], y)]
  {
    assert "/a"[1..] == "a" && "/a/b"[1..] == "a/b";
    assert Split("a") == ["a"] && Split("b") == ["b"];
    assert "a/b"[1..] == "/b" && "a/b"[..1] == "a" && "a/b"[2..] == "b";
    assert SlashIndex("a/b") == 1 && Split("a/b") == ["a", "b"];
    assert ["a"][1..] == [] && ["a", "b"][1..] == ["b"] && ["b"][1..] == [];
    assert Segments("a") == ["a"] && Segments("a/b") == ["a", "b"];
    assert [x, y][..1] == [x] && [x][..0] == [];
    assert Items([x]) == Items([]) + ItemOf(x);
    assert Items([x, y]) == Items([x]) + ItemOf(y);
  }

  lemma TwoInTrie(x: SearchEntry, y: SearchEntry)
    ensures TrieListing([Item(["a"], x), Item(["a", "b"], y)], []) == [Dir("a")]
  {
    var L := [Item(["a"], x), Item(["a", "b"], y)];
    assert L[..1] == [Item(["a"], x)] && L[..1][..0] == [];
    assert ChildNames(L[..1], []) == ["a"];
    assert ChildNames(L, []) == ["a"];
    assert [] + ["a"] == ["a"] < L[1].segs;
    assert ["a"][..0] == [];
    assert DescribeAll(L, [], ["a"]) == DescribeAll(L, [], []) + [Describe(L, [], "a")];
  }

  lemma TwoInLine(x: SearchEntry, y: SearchEntry)
    requires EntryPathKey(x) == "a" && EntryPathKey(y) == "a/b"
    ensures LinearListing([x, y], "") == [File("a", x)]
  {
    assert [x, y][..1] == [x] && [x][..0] == [];
    assert "a"[0..] == "a" && "a/b"[0..] == "a/b";
    assert SlashIndex("a") == 1;
    assert "a/b"[1..] == "/b" && "a/b"[..1] == "a" && SlashIndex("a/b") == 1;
    assert LinearListing([x], "") == [File("a", x)];
    assert NamesOf([File("a", x)]) == ["a"];
  }

  /** Two objects, the second beneath the first: the trie lists a directory, the linear scan the first one as a file. */
  lemma DirectoryIsListedAsFile(x: SearchEntry, y: SearchEntry)
    requires x.filePath == "/a" && y.filePath == "/a/b"
    ensures TrieListing(Items([x, y]), PrefixSegments("")) == [Dir("a")]
    ensures LinearListing([x, y], NormalizePrefix("")) == [File("a", x)]
  {
    TwoItems(x, y);
    TwoInTrie(x, y);
    TwoInLine(x, y);
  }

  lemma PrefixOf(p: seq<string>) returns (prefix: string)
    requires forall i :: 0 <= i < |p| ==> '/' !in p[i] && p[i] != ""
    ensures CleanPrefix(prefix) && PrefixSegments(prefix) == p
  {
    if p == [] {
      EmptySegments();
      prefix := "";
    } else {
      prefix := Join(p) + "/";
      SplitJoin(p);
      assert TrimTrailingSlash(prefix) == Join(p);
      CleanSegments(Join(p));
      NormalizeIdempotent(prefix);
    }
  }

  lemma {:induction false} ItemsSlashFree(entries: seq<SearchEntry>, i: nat)
    requires forall i :: 0 <= i < |entries| ==> CleanEntry(entries[i])
    requires i < |Items(entries)|
    ensures forall k :: 0 <= k < |Items(entries)[i].segs| ==>
              '/' !in Items(entries)[i].segs[k] && Items(entries)[i].segs[k] != ""
  {
    var e := entries[|entries| - 1];
    var L' := Items(entries[..|entries| - 1]);
    if i < |L'| {
      ItemsSlashFree(entries[..|entries| - 1], i);
    } else {
      EmptySegments();
      CleanSegments(EntryPathKey(e));
      SplitSlashFree(EntryPathKey(e));
    }
  }

  // ---------------------------------------------------------------------
  // The linear fallback never changes the answer
  // ---------------------------------------------------------------------

  lemma LinearChildIsUnder(e: SearchEntry, prefix: string)
    requires LinearChild(e, NormalizePrefix(prefix)).Some?
    ensures PrefixSegments(prefix) + [LinearChild(e, NormalizePrefix(prefix)).value.name] <= Segments(EntryPathKey(e))
  {
    var key, dir := EntryPathKey(e), TrimTrailingSlash(prefix);
    var norm := NormalizePrefix(prefix);
    var rest := key[|norm|..];
    var name := LinearChild(e, norm).value.name;
    NormalizeIdempotent(prefix);
    EmptySegments();
    FirstSegment(rest);
    if dir == "" {
      assert rest == key;
    } else {
      assert key == dir + "/" + rest;
      SegmentsConcat(dir, rest);
    }
  }

  lemma FirstSegment(rest: string)
    requires rest != "" && SlashIndex(rest) > 0
    ensures Segments(rest) != [] && Segments(rest)[0] == rest[..SlashIndex(rest)]
  {
    var i := SlashIndex(rest);
    assert Split(rest)[0] == rest[..i];
    assert rest[..i] != "";
  }

  /** For all entries and all prefixes, every name of the linear listing is one of the trie's. */
  lemma {:induction false} LinearNamesAreListed(entries: seq<SearchEntry>, prefix: string)
    ensures forall s :: s in NamesOf(LinearListing(entries, NormalizePrefix(prefix))) ==>
              s in ChildNames(Items(entries), PrefixSegments(prefix))
  {
    if entries != [] {
      var entries', e := entries[..|entries| - 1], entries[|entries| - 1];
      var norm, p := NormalizePrefix(prefix), PrefixSegments(prefix);
      LinearNamesAreListed(entries', prefix);
      NamesStay(entries, p);
      var c := LinearChild(e, norm);
      if c.Some? {
        ChildIsListed(entries, prefix, c.value);
        NamesAppend(LinearListing(entries', norm), c.value);
      }
    }
  }

  lemma NamesStay(entries: seq<SearchEntry>, p: seq<string>)
    requires entries != []
    ensures forall s :: s in ChildNames(Items(entries[..|entries| - 1]), p) ==> s in ChildNames(Items(entries), p)
  {
    var L, L' := Items(entries), Items(entries[..|entries| - 1]);
    assert L[..|L'|] == L';
    ChildNamesInOrder(L, p, |L'|);
  }

  /** What the last entry adds to the linear listing has one of the trie's names. */
  lemma ChildIsListed(entries: seq<SearchEntry>, prefix: string, c: DirEntry)
    requires entries != [] && LinearChild(entries[|entries| - 1], NormalizePrefix(prefix)) == Some(c)
    ensures c.name in ChildNames(Items(entries), PrefixSegments(prefix))
  {
    var L, p := Items(entries), PrefixSegments(prefix);
    LinearChildIsUnder(entries[|entries| - 1], prefix);
    assert p + [c.name] <= L[|L| - 1].segs;
    ChildNamesAre(L, p);
  }

  /** A trie's answer, or else the linear scan's if that is not empty. */
  function WithFallback(out: seq<DirEntry>, entries: seq<SearchEntry>, norm: string): seq<DirEntry> {
    var alt := LinearListing(entries, norm);
    if out == [] && entries != [] && alt != [] then alt else out
  }

  lemma FallbackNeverUsed(entries: seq<SearchEntry>, prefix: string)
    ensures var out := TrieListing(Items(entries), PrefixSegments(prefix));
            WithFallback(out, entries, NormalizePrefix(prefix)) == out
  {
    LinearNamesAreListed(entries, prefix);
    var alt := LinearListing(entries, NormalizePrefix(prefix));
    if alt != [] {
      assert NamesOf(alt)[0] in NamesOf(alt);
    }
  }
}
