/**
  What a listing trie knows, as values: for every path with a node, the names
  of its children in order and the file parked there.
 */
module ListingIndex {
  import opened Common
  import opened Paths
  import opened Listing

  type Path = seq<string>

  datatype Index = Index(kids: map<Path, seq<string>>, files: map<Path, Option<SearchEntry>>)
  {
    ghost predicate Valid() {
      && [] in kids
      && kids.Keys == files.Keys
      && forall p {:trigger KidsHaveNodes(p)} :: p in kids ==> KidsHaveNodes(p)
    }

    ghost predicate KidsHaveNodes(p: Path)
      requires p in kids
    {
      forall s :: s in kids[p] ==> p + [s] in kids
    }
  }

  const EMPTY_INDEX: Index := Index(map[[] := []], map[[] := None])

  /** One segment down from `p`: a missing child appears, and unless it is the last one it is no file. */
  function WalkDown(ix: Index, p: Path, s: string, last: bool): Index
    requires p in ix.kids
  {
    var q := p + [s];
    var kids := if s in ix.kids[p] then ix.kids else ix.kids[p := ix.kids[p] + [s]][q := []];
    var files := if s in ix.kids[p] then ix.files else ix.files[q := None];
    Index(kids, if last then files else files[q := None])
  }

  /** The end of an insertion: a file, unless something is beneath it or already there. */
  function Park(ix: Index, p: Path, e: SearchEntry): Index
    requires p in ix.kids && p in ix.files
  {
    if ix.kids[p] == [] && ix.files[p] == None then ix.(files := ix.files[p := Some(e)]) else ix
  }

  /** Inserts `segs` from its i-th segment on; the node of segs[..i] is there whenever the walk began at the root. */
  function InsertFrom(ix: Index, segs: Path, i: nat, e: SearchEntry): Index
    requires i <= |segs|
    decreases |segs| - i
  {
    if segs[..i] !in ix.kids || segs[..i] !in ix.files then ix
    else if i == |segs| then Park(ix, segs[..i], e)
    else InsertFrom(WalkDown(ix, segs[..i], segs[i], i == |segs| - 1), segs, i + 1, e)
  }

  function Insert(ix: Index, segs: Path, e: SearchEntry): Index {
    InsertFrom(ix, segs, 0, e)
  }

  /** The index built by inserting objects one after the other. */
  function IndexOf(L: seq<Item>): Index {
    if L == [] then EMPTY_INDEX
    else Insert(IndexOf(L[..|L| - 1]), L[|L| - 1].segs, L[|L| - 1].entry)
  }

  lemma WalkDownValid(ix: Index, segs: Path, i: nat)
    requires i < |segs| && ix.Valid() && segs[..i] in ix.kids
    ensures WalkDown(ix, segs[..i], segs[i], i == |segs| - 1).Valid()
    ensures segs[..i + 1] == segs[..i] + [segs[i]]
    ensures segs[..i + 1] in WalkDown(ix, segs[..i], segs[i], i == |segs| - 1).kids
  {
    var p, s := segs[..i], segs[i];
    assert segs[..i + 1] == p + [s];
    assert ix.KidsHaveNodes(p);
    WalkValid(ix, p, s, i == |segs| - 1);
  }

  lemma FileValid(ix: Index, p: Path, file: Option<SearchEntry>)
    requires ix.Valid() && p in ix.kids
    ensures ix.(files := ix.files[p := file]).Valid()
  {
    var ix' := ix.(files := ix.files[p := file]);
    forall q | q in ix'.kids ensures ix'.KidsHaveNodes(q) {
      assert ix.KidsHaveNodes(q);
    }
  }

  lemma WholePath<T>(s: seq<T>)
    ensures s[..|s|] == s
  {
  }

  lemma OneMore(segs: Path, i: nat)
    requires i < |segs|
    ensures segs[..i + 1] == segs[..i] + [segs[i]]
  {
  }

  lemma ItemsOneMore(entries: seq<SearchEntry>, n: nat)
    requires n < |entries|
    ensures Items(entries[..n + 1]) == Items(entries[..n]) + ItemOf(entries[n])
  {
    assert entries[..n + 1][..n] == entries[..n];
  }

  lemma WalkKeys(ix: Index, p: Path, s: string, last: bool)
    requires p in ix.kids && ix.kids.Keys == ix.files.Keys && ix.KidsHaveNodes(p)
    ensures var ix' := WalkDown(ix, p, s, last);
            ix'.kids.Keys == ix.kids.Keys + {p + [s]} == ix'.files.Keys
  {
  }

  lemma WalkValid(ix: Index, p: Path, s: string, last: bool)
    requires ix.Valid() && p in ix.kids
    ensures WalkDown(ix, p, s, last).Valid()
  {
    var ix' := WalkDown(ix, p, s, last);
    assert ix.KidsHaveNodes(p);
    WalkKeys(ix, p, s, last);
    forall r | r in ix'.kids ensures ix'.KidsHaveNodes(r) {
      if r in ix.kids {
        assert ix.KidsHaveNodes(r);
      }
    }
  }

  /** What the index lists under `p`. */
  function EntryOf(ix: Index, p: Path, s: string): Option<DirEntry> {
    if p + [s] !in ix.kids || p + [s] !in ix.files then None
    else if ix.kids[p + [s]] != [] then Some(Dir(s))
    else if ix.files[p + [s]].Some? then Some(File(s, ix.files[p + [s]].value))
    else None
  }

  function EntriesOf(ix: Index, p: Path, names: seq<string>): seq<DirEntry> {
    if names == [] then []
    else
      var d := EntryOf(ix, p, names[|names| - 1]);
      EntriesOf(ix, p, names[..|names| - 1]) + if d.Some? then [d.value] else []
  }

  lemma EntriesOneMore(ix: Index, p: Path, names: seq<string>, n: nat)
    requires n < |names|
    ensures names[n] in names
    ensures var d := EntryOf(ix, p, names[n]);
            EntriesOf(ix, p, names[..n + 1]) == EntriesOf(ix, p, names[..n]) + if d.Some? then [d.value] else []
  {
    assert names[..n + 1][..n] == names[..n];
  }

  function ListIndex(ix: Index, p: Path): seq<DirEntry> {
    if p in ix.kids then EntriesOf(ix, p, ix.kids[p]) else []
  }

  // ---------------------------------------------------------------------
  // The index of a list of items
  // ---------------------------------------------------------------------

  ghost predicate HasNode(L: seq<Item>, p: Path) {
    p == [] || exists i :: 0 <= i < |L| && p <= L[i].segs
  }

  /** A directory beats a file at the same path, whichever came first. */
  ghost function FileAt(L: seq<Item>, p: Path): Option<SearchEntry> {
    if HasBelow(L, p) then None else FirstAt(L, p)
  }

  ghost predicate Named(L: seq<Item>) {
    forall i :: 0 <= i < |L| ==> L[i].segs != []
  }

  ghost predicate KidsOf(ix: Index, L: seq<Item>) {
    && (forall p :: p in ix.kids <==> HasNode(L, p))
    && (forall p :: p in ix.kids ==> ix.kids[p] == ChildNames(L, p))
  }

  /** The index holds exactly what `L` says. */
  ghost predicate Represents(ix: Index, L: seq<Item>) {
    && ix.Valid() && Named(L)
    && KidsOf(ix, L)
    && (forall p :: p in ix.files ==> ix.files[p] == FileAt(L, p))
  }

  lemma EmptyRepresents()
    ensures Represents(EMPTY_INDEX, [])
  {
  }

  /** The file at `p` while `segs` is being inserted and segs[..i] has been walked. */
  ghost function PartialFile(L: seq<Item>, segs: Path, i: nat, p: Path): Option<SearchEntry>
    requires i <= |segs|
  {
    if p <= segs[..i] && |p| < |segs| then None else FileAt(L, p)
  }

  /** The index while `segs` is being inserted and segs[..i] has been walked. */
  ghost predicate Partial(ix: Index, L: seq<Item>, segs: Path, i: nat, e: SearchEntry) {
    && i <= |segs| && ix.Valid() && Named(L)
    && KidsOf(ix, L + [Item(segs[..i], e)])
    && (forall p :: p in ix.files ==> ix.files[p] == PartialFile(L, segs, i, p))
  }

  lemma NodeOfAppend(L: seq<Item>, it: Item, p: Path)
    ensures HasNode(L + [it], p) <==> HasNode(L, p) || p <= it.segs
  {
    var A := L + [it];
    if HasNode(L, p) && p != [] {
      var k :| 0 <= k < |L| && p <= L[k].segs;
      assert p <= A[k].segs;
    }
    if p <= it.segs {
      assert p <= A[|L|].segs;
    }
  }

  lemma NoNodeNoChildren(L: seq<Item>, p: Path, s: string)
    requires s !in ChildNames(L, p)
    ensures !HasNode(L, p + [s]) && ChildNames(L, p + [s]) == []
  {
    ChildNamesAre(L, p);
    ChildNamesAre(L, p + [s]);
    if x :| x in ChildNames(L, p + [s]) {
      var i :| 0 <= i < |L| && p + [s] + [x] <= L[i].segs;
    }
  }

  lemma NoNodeNoFile(L: seq<Item>, p: Path)
    ensures !HasNode(L, p) ==> FileAt(L, p) == None
  {
    if !HasNode(L, p) {
      NoneAt(L, p);
    }
  }

  lemma PrefixOneMore(segs: Path, i: nat, p: Path)
    requires i < |segs|
    ensures p <= segs[..i + 1] <==> p <= segs[..i] || p == segs[..i + 1]
  {
  }

  /** How one more segment of a path changes which nodes there are and what they list. */
  lemma KidsOneMore(L: seq<Item>, segs: Path, e: SearchEntry, i: nat, p: Path)
    requires i < |segs|
    ensures var A, B := L + [Item(segs[..i], e)], L + [Item(segs[..i + 1], e)];
            && (HasNode(B, p) <==> HasNode(A, p) || p == segs[..i + 1])
            && ChildNames(B, p) == ChildNames(A, p) +
                 (if p == segs[..i] && segs[i] !in ChildNames(A, p) then [segs[i]] else [])
  {
    var A, B := L + [Item(segs[..i], e)], L + [Item(segs[..i + 1], e)];
    assert A[..|L|] == L && B[..|L|] == L;
    NodeOfAppend(L, Item(segs[..i], e), p);
    NodeOfAppend(L, Item(segs[..i + 1], e), p);
    PrefixOneMore(segs, i, p);
  }

  /** What walking one segment changes at `q`. */
  lemma WalkAt(ix: Index, p: Path, s: string, last: bool, q: Path)
    requires p in ix.kids && ix.kids.Keys == ix.files.Keys
    requires s in ix.kids[p] <==> p + [s] in ix.kids
    ensures var ix' := WalkDown(ix, p, s, last);
      && (q in ix'.kids <==> q in ix.kids || q == p + [s])
      && (q in ix'.files <==> q in ix'.kids)
      && (q in ix'.kids ==> ix'.kids[q] == WalkedKids(ix, p, s, q))
      && (q in ix'.files ==> ix'.files[q] == WalkedFile(ix, p, s, last, q))
  {
    var n := p + [s];
    assert |n| == |p| + 1;
  }

  function WalkedKids(ix: Index, p: Path, s: string, q: Path): seq<string> {
    if q !in ix.kids then []
    else if q == p && s !in ix.kids[q] then ix.kids[q] + [s]
    else ix.kids[q]
  }

  function WalkedFile(ix: Index, p: Path, s: string, last: bool, q: Path): Option<SearchEntry> {
    if q !in ix.files || (q == p + [s] && !last) then None else ix.files[q]
  }

  /** Which nodes a walked path has: exactly those the tree says. */
  lemma NodeIffListed(ix: Index, L: seq<Item>, p: Path, s: string)
    requires KidsOf(ix, L) && p in ix.kids
    ensures s in ix.kids[p] <==> p + [s] in ix.kids
  {
    ChildNamesAre(L, p);
    assert p + [s] in ix.kids <==> HasNode(L, p + [s]);
  }

  lemma WalkKidsAt(ix: Index, L: seq<Item>, segs: Path, i: nat, e: SearchEntry, q: Path)
    requires i < |segs| && segs[..i] in ix.kids
    requires KidsOf(ix, L + [Item(segs[..i], e)]) && ix.kids.Keys == ix.files.Keys
    ensures var ix', B := WalkDown(ix, segs[..i], segs[i], i == |segs| - 1), L + [Item(segs[..i + 1], e)];
      (q in ix'.kids <==> HasNode(B, q)) && (q in ix'.kids ==> ix'.kids[q] == ChildNames(B, q))
  {
    var p, s := segs[..i], segs[i];
    var A := L + [Item(segs[..i], e)];
    assert segs[..i + 1] == p + [s];
    NodeIffListed(ix, A, p, s);
    WalkAt(ix, p, s, i == |segs| - 1, q);
    KidsOneMore(L, segs, e, i, q);
    if q == p + [s] && q !in ix.kids {
      NoNodeNoChildren(A, p, s);
    }
  }

  lemma WalkKids(ix: Index, L: seq<Item>, segs: Path, i: nat, e: SearchEntry)
    requires Partial(ix, L, segs, i, e) && i < |segs| && segs[..i] in ix.kids
    ensures KidsOf(WalkDown(ix, segs[..i], segs[i], i == |segs| - 1), L + [Item(segs[..i + 1], e)])
  {
    var B := L + [Item(segs[..i + 1], e)];
    forall q ensures q in WalkDown(ix, segs[..i], segs[i], i == |segs| - 1).kids <==> HasNode(B, q) {
      WalkKidsAt(ix, L, segs, i, e, q);
    }
    forall q | q in WalkDown(ix, segs[..i], segs[i], i == |segs| - 1).kids
      ensures WalkDown(ix, segs[..i], segs[i], i == |segs| - 1).kids[q] == ChildNames(B, q)
    {
      WalkKidsAt(ix, L, segs, i, e, q);
    }
  }

  /** A walked path is a directory; the place of its last segment keeps its file. */
  lemma WalkFileAt(ix: Index, L: seq<Item>, segs: Path, i: nat, q: Path)
    requires i < |segs| && segs[..i] in ix.kids && ix.kids.Keys == ix.files.Keys
    requires segs[i] in ix.kids[segs[..i]] <==> segs[..i] + [segs[i]] in ix.kids
    requires q in ix.files ==> ix.files[q] == PartialFile(L, segs, i, q)
    requires q !in ix.files && q == segs[..i + 1] ==> FileAt(L, q) == None
    requires q in WalkDown(ix, segs[..i], segs[i], i == |segs| - 1).files
    ensures WalkDown(ix, segs[..i], segs[i], i == |segs| - 1).files[q] == PartialFile(L, segs, i + 1, q)
  {
    assert segs[..i + 1] == segs[..i] + [segs[i]];
    WalkAt(ix, segs[..i], segs[i], i == |segs| - 1, q);
    PrefixOneMore(segs, i, q);
  }

  lemma WalkFiles(ix: Index, L: seq<Item>, segs: Path, i: nat, e: SearchEntry, q: Path)
    requires Partial(ix, L, segs, i, e) && i < |segs| && segs[..i] in ix.kids
    requires q in WalkDown(ix, segs[..i], segs[i], i == |segs| - 1).files
    ensures WalkDown(ix, segs[..i], segs[i], i == |segs| - 1).files[q] == PartialFile(L, segs, i + 1, q)
  {
    NodeIffListed(ix, L + [Item(segs[..i], e)], segs[..i], segs[i]);
    NodeOfAppend(L, Item(segs[..i], e), q);
    NoNodeNoFile(L, q);
    WalkFileAt(ix, L, segs, i, q);
  }

  lemma WalkPartial(ix: Index, L: seq<Item>, segs: Path, i: nat, e: SearchEntry)
    requires Partial(ix, L, segs, i, e) && i < |segs| && segs[..i] in ix.kids
    ensures Partial(WalkDown(ix, segs[..i], segs[i], i == |segs| - 1), L, segs, i + 1, e)
  {
    WalkDownValid(ix, segs, i);
    WalkKids(ix, L, segs, i, e);
    var ix' := WalkDown(ix, segs[..i], segs[i], i == |segs| - 1);
    forall q | q in ix'.files ensures ix'.files[q] == PartialFile(L, segs, i + 1, q) {
      WalkFiles(ix, L, segs, i, e, q);
    }
  }

  lemma NamesMeanBelow(L: seq<Item>, p: Path)
    ensures ChildNames(L, p) == [] <==> !HasBelow(L, p)
  {
    ChildNamesAre(L, p);
    if i :| 0 <= i < |L| && p < L[i].segs {
      UnderSplit(L[i].segs, p, L[i].segs[|p|]);
    }
    if ChildNames(L, p) != [] {
      var x := ChildNames(L, p)[0];
      assert x in ChildNames(L, p);
      var i :| 0 <= i < |L| && p + [x] <= L[i].segs;
      assert p < L[i].segs;
    }
  }

  lemma FileOfAppend(L: seq<Item>, it: Item, p: Path)
    ensures FileAt(L + [it], p) ==
            if p < it.segs then None
            else if p == it.segs && FileAt(L, p) == None && !HasBelow(L, p) then Some(it.entry)
            else FileAt(L, p)
  {
    var A := L + [it];
    assert A[..|L|] == L;
    if p < it.segs {
      assert p < A[|L|].segs;
    } else {
      assert HasBelow(A, p) <==> HasBelow(L, p) by {
        if i :| 0 <= i < |L| && p < L[i].segs {
          assert p < A[i].segs;
        }
      }
    }
  }

  lemma ParkRepresents(ix: Index, L: seq<Item>, segs: Path, e: SearchEntry)
    requires Partial(ix, L, segs, |segs|, e) && segs != [] && segs in ix.kids
    ensures Represents(Park(ix, segs, e), L + [Item(segs, e)])
  {
    var it := Item(segs, e);
    var A := L + [it];
    assert segs[..|segs|] == segs && A[..|L|] == L;
    NamesMeanBelow(L, segs);
    FileValid(ix, segs, Some(e));
    var ix' := Park(ix, segs, e);
    forall p | p in ix'.files ensures ix'.files[p] == FileAt(A, p) {
      FileOfAppend(L, it, p);
    }
  }

  lemma {:induction false} InsertPartial(ix: Index, L: seq<Item>, segs: Path, i: nat, e: SearchEntry)
    requires Partial(ix, L, segs, i, e) && segs != [] && segs[..i] in ix.kids
    ensures Represents(InsertFrom(ix, segs, i, e), L + [Item(segs, e)])
    decreases |segs| - i
  {
    if i == |segs| {
      assert segs[..i] == segs;
      ParkRepresents(ix, L, segs, e);
    } else {
      WalkDownValid(ix, segs, i);
      WalkPartial(ix, L, segs, i, e);
      InsertPartial(WalkDown(ix, segs[..i], segs[i], i == |segs| - 1), L, segs, i + 1, e);
    }
  }

  lemma StartKids(L: seq<Item>, e: SearchEntry, p: Path)
    ensures HasNode(L + [Item([], e)], p) <==> HasNode(L, p)
    ensures ChildNames(L + [Item([], e)], p) == ChildNames(L, p)
  {
    assert (L + [Item([], e)])[..|L|] == L;
    NodeOfAppend(L, Item([], e), p);
  }

  lemma StartPartial(ix: Index, L: seq<Item>, segs: Path, e: SearchEntry)
    requires Represents(ix, L) && segs != []
    ensures Partial(ix, L, segs, 0, e)
  {
    var A := L + [Item(segs[..0], e)];
    assert segs[..0] == [];
    forall p ensures HasNode(A, p) <==> HasNode(L, p) {
      StartKids(L, e, p);
    }
    forall p ensures ChildNames(A, p) == ChildNames(L, p) {
      StartKids(L, e, p);
    }
    NoneAt(L, []);
  }

  /** Inserting an object into the index of `L` gives the index of `L` with the object added. */
  lemma InsertRepresents(ix: Index, L: seq<Item>, segs: Path, e: SearchEntry)
    requires Represents(ix, L) && segs != []
    ensures Represents(Insert(ix, segs, e), L + [Item(segs, e)])
  {
    StartPartial(ix, L, segs, e);
    InsertPartial(ix, L, segs, 0, e);
  }

  lemma EntryIsDescribed(ix: Index, L: seq<Item>, p: Path, s: string)
    requires Represents(ix, L) && p in ix.kids && s in ix.kids[p]
    ensures EntryOf(ix, p, s) == Some(Describe(L, p, s))
  {
    var q := p + [s];
    assert ix.KidsHaveNodes(p);
    NamesMeanBelow(L, q);
    if !HasBelow(L, q) {
      var i :| 0 <= i < |L| && q <= L[i].segs;
      assert L[i].segs == q;
      FoundAt(L, q, i);
    }
  }

  lemma {:induction false} EntriesAreDescribed(ix: Index, L: seq<Item>, p: Path, names: seq<string>)
    requires Represents(ix, L) && p in ix.kids && forall s :: s in names ==> s in ix.kids[p]
    ensures EntriesOf(ix, p, names) == DescribeAll(L, p, names)
  {
    if names != [] {
      EntriesAreDescribed(ix, L, p, names[..|names| - 1]);
      EntryIsDescribed(ix, L, p, names[|names| - 1]);
    }
  }

  lemma RepresentedListing(ix: Index, L: seq<Item>, p: Path)
    requires Represents(ix, L)
    ensures ListIndex(ix, p) == TrieListing(L, p)
  {
    if p in ix.kids {
      EntriesAreDescribed(ix, L, p, ix.kids[p]);
    } else {
      NamesMeanBelow(L, p);
    }
  }

  /**
    For every list of objects and every directory, the trie lists the names at
    or beneath it in first-occurrence order without duplicates, each one a
    directory exactly when some path lies strictly beneath it and otherwise the
    first object with exactly that path.
   */
  lemma IndexListsTheTrie(entries: seq<SearchEntry>, p: Path)
    ensures ListIndex(IndexOf(Items(entries)), p) == TrieListing(Items(entries), p)
  {
    ItemsNamed(entries);
    IndexRepresents(Items(entries));
    RepresentedListing(IndexOf(Items(entries)), Items(entries), p);
  }

  lemma IndexOneMore(entries: seq<SearchEntry>, n: nat)
    requires n < |entries|
    ensures var segs := Segments(EntryPathKey(entries[n]));
      IndexOf(Items(entries[..n + 1])) ==
      if segs == [] then IndexOf(Items(entries[..n])) else Insert(IndexOf(Items(entries[..n])), segs, entries[n])
  {
    var L, segs := Items(entries[..n]), Segments(EntryPathKey(entries[n]));
    ItemsOneMore(entries, n);
    assert (L + [Item(segs, entries[n])])[..|L|] == L;
    assert L + [] == L;
  }

  /** Every node but the root is listed by its parent. */
  ghost predicate Reachable(ix: Index) {
    forall p, s :: p + [s] in ix.kids ==> p in ix.kids && s in ix.kids[p]
  }

  lemma RepresentedReachable(ix: Index, L: seq<Item>)
    requires Represents(ix, L)
    ensures Reachable(ix)
  {
    forall p, s | p + [s] in ix.kids ensures p in ix.kids && s in ix.kids[p] {
      var i :| 0 <= i < |L| && p + [s] <= L[i].segs;
      assert p <= L[i].segs;
      NodeIffListed(ix, L, p, s);
    }
  }

  lemma {:induction false} IndexRepresents(L: seq<Item>)
    requires Named(L)
    ensures Represents(IndexOf(L), L)
  {
    if L == [] {
      EmptyRepresents();
    } else {
      var L' := L[..|L| - 1];
      IndexRepresents(L');
      InsertRepresents(IndexOf(L'), L', L[|L| - 1].segs, L[|L| - 1].entry);
      assert L == L' + [Item(L[|L| - 1].segs, L[|L| - 1].entry)];
    }
  }

  lemma IndexReachable(entries: seq<SearchEntry>)
    ensures Reachable(IndexOf(Items(entries)))
  {
    ItemsNamed(entries);
    IndexRepresents(Items(entries));
    RepresentedReachable(IndexOf(Items(entries)), Items(entries));
  }

  lemma {:induction false} AncestorHasNode(ix: Index, segs: Path, j: nat)
    requires Reachable(ix) && j <= |segs| && segs in ix.kids
    ensures segs[..j] in ix.kids
    decreases |segs| - j
  {
    if j == |segs| {
      assert segs[..j] == segs;
    } else {
      AncestorHasNode(ix, segs, j + 1);
      assert segs[..j + 1] == segs[..j] + [segs[j]];
    }
  }

  /** A missing link on the way down means there is no node at the end. */
  lemma NothingBelow(ix: Index, segs: Path, i: nat)
    requires Reachable(ix) && i < |segs| && segs[..i] in ix.kids && segs[i] !in ix.kids[segs[..i]]
    ensures segs !in ix.kids
  {
    if segs in ix.kids {
      AncestorHasNode(ix, segs, i + 1);
      ChildOf(ix, segs[..i], segs[i], segs[..i + 1]);
    }
  }

  lemma ChildOf(ix: Index, p: Path, s: string, q: Path)
    requires Reachable(ix) && q in ix.kids && q == p + [s]
    ensures p in ix.kids && s in ix.kids[p]
  {
  }
}
