/**
  Under which name an object is listed: by the first of its FilePath, Key, Name
  and FileName that is not empty, one leading slash aside.
 */
module ListingNames {
  import opened Common
  import opened Paths
  import opened Listing

  /** `attr` is what names the object. */
  ghost predicate NamedBy(e: SearchEntry, attr: string) {
    || (e.filePath == attr != "")
    || (e.filePath == "" && e.key == attr != "")
    || (e.filePath == "" && e.key == "" && e.name == attr != "")
    || (e.filePath == "" && e.key == "" && e.name == "" && e.fileName == attr)
  }

  // ---------------------------------------------------------------------
  // Where one object is listed
  // ---------------------------------------------------------------------

  ghost predicate CleanPath(segs: seq<string>) {
    segs != [] && forall i :: 0 <= i < |segs| ==> segs[i] != "" && '/' !in segs[i]
  }

  lemma JoinNeverBeginsWithSlash(segs: seq<string>)
    requires CleanPath(segs)
    ensures Join(segs) != "" && Join(segs)[0] != '/'
  {
    assert Join(segs)[0] == segs[0][0];
    assert segs[0][0] in segs[0];
  }

  lemma NamedItem(e: SearchEntry, attr: string, segs: seq<string>)
    requires NamedBy(e, attr) && CleanPath(segs) && (attr == Join(segs) || attr == "/" + Join(segs))
    ensures Items([e]) == [Item(segs, e)] && CleanEntry(e)
  {
    JoinNeverBeginsWithSlash(segs);
    SplitJoin(segs);
    assert ("/" + Join(segs))[1..] == Join(segs);
    assert EntryPathKey(e) == Join(segs);
    CleanSegments(Join(segs));
    assert [e][..0] == [];
    assert Items([e]) == Items([]) + ItemOf(e);
  }

  /** A directory is asked for by its segments with or without a slash at the end. */
  lemma PrefixNames(p: seq<string>)
    requires CleanPath(p)
    ensures PrefixSegments(Join(p)) == p && PrefixSegments(Join(p) + "/") == p
    ensures CleanPrefix(Join(p)) && CleanPrefix(Join(p) + "/")
    ensures PrefixSegments("") == [] && PrefixSegments("/") == []
  {
    EmptySegments();
    SplitJoin(p);
    CleanSegments(Join(p));
    LastIsNoSlash(p);
    NormalizeIdempotent(Join(p));
    NormalizeIdempotent(Join(p) + "/");
    assert TrimTrailingSlash(Join(p)) == Join(p);
    assert TrimTrailingSlash(Join(p) + "/") == Join(p);
  }

  lemma {:induction false} LastIsNoSlash(segs: seq<string>)
    requires CleanPath(segs)
    ensures Join(segs) != "" && Join(segs)[|Join(segs)| - 1] != '/'
  {
    if |segs| == 1 {
      assert segs[0][|segs[0]| - 1] in segs[0];
    } else {
      LastIsNoSlash(segs[1..]);
      assert Join(segs)[|Join(segs)| - 1] == Join(segs[1..])[|Join(segs[1..])| - 1];
    }
  }

  /**
    An object is listed in every directory above its path: as the next directory
    on the way, and in the last one as itself, with its own ID and size. It is
    listed nowhere else.
   */
  lemma ListedAtItsPath(e: SearchEntry, attr: string, segs: seq<string>, p: seq<string>)
    requires NamedBy(e, attr) && CleanPath(segs) && (attr == Join(segs) || attr == "/" + Join(segs))
    ensures TrieListing(Items([e]), p) ==
            if !(p < segs) then []
            else if |p| + 1 < |segs| then [DirEntry(segs[|p|], "", 0, true)]
            else [DirEntry(segs[|p|], e.objectId, e.size, false)]
  {
    NamedItem(e, attr, segs);
    OneListed(Item(segs, e), p);
  }

  lemma OneListed(it: Item, p: seq<string>)
    ensures TrieListing([it], p) ==
            if !(p < it.segs) then []
            else if |p| + 1 < |it.segs| then [DirEntry(it.segs[|p|], "", 0, true)]
            else [DirEntry(it.segs[|p|], it.entry.objectId, it.entry.size, false)]
  {
    assert [it][..0] == [];
    assert ChildNames([], p) == [];
    if p < it.segs {
      var s := it.segs[|p|];
      assert ChildNames([it], p) == [s];
      assert [s][..0] == [];
      assert DescribeAll([it], p, [s]) == DescribeAll([it], p, []) + [Describe([it], p, s)];
      assert FirstAt([], p + [s]) == None;
      assert it.segs[..|p| + 1] == p + [s];
      if |p| + 1 < |it.segs| {
        assert p + [s] < [it][0].segs;
      } else {
        assert it.segs == p + [s];
      }
    }
  }

  /** The linear scan lists it there too. */
  lemma ListedLinearly(e: SearchEntry, attr: string, segs: seq<string>, prefix: string)
    requires NamedBy(e, attr) && CleanPath(segs) && (attr == Join(segs) || attr == "/" + Join(segs))
    requires CleanPrefix(prefix)
    ensures LinearListing([e], NormalizePrefix(prefix)) == TrieListing(Items([e]), PrefixSegments(prefix))
  {
    NamedItem(e, attr, segs);
    TrieMatchesLinearWithoutAncestors([e], prefix);
  }

  // ---------------------------------------------------------------------
  // The other names change nothing
  // ---------------------------------------------------------------------

  /** The same object under the same path. */
  ghost predicate Alike(a: Item, b: Item) {
    a.segs == b.segs && a.entry.objectId == b.entry.objectId && a.entry.size == b.entry.size
  }

  ghost predicate AllAlike(L: seq<Item>, M: seq<Item>) {
    |L| == |M| && forall i :: 0 <= i < |L| ==> Alike(L[i], M[i])
  }

  lemma {:induction false} AlikeNames(L: seq<Item>, M: seq<Item>, p: seq<string>)
    requires AllAlike(L, M)
    ensures ChildNames(L, p) == ChildNames(M, p)
  {
    if L != [] {
      assert Alike(L[|L| - 1], M[|L| - 1]);
      AlikeNames(L[..|L| - 1], M[..|L| - 1], p);
    }
  }

  lemma {:induction false} AlikeFirst(L: seq<Item>, M: seq<Item>, p: seq<string>)
    requires AllAlike(L, M)
    ensures FirstAt(L, p).Some? <==> FirstAt(M, p).Some?
    ensures FirstAt(L, p).Some? ==>
              FirstAt(L, p).value.objectId == FirstAt(M, p).value.objectId
              && FirstAt(L, p).value.size == FirstAt(M, p).value.size
  {
    if L != [] {
      assert Alike(L[|L| - 1], M[|L| - 1]);
      AlikeFirst(L[..|L| - 1], M[..|L| - 1], p);
    }
  }

  lemma AlikeBelow(L: seq<Item>, M: seq<Item>, p: seq<string>)
    requires AllAlike(L, M) && HasBelow(L, p)
    ensures HasBelow(M, p)
  {
    var i :| 0 <= i < |L| && p < L[i].segs;
    assert Alike(L[i], M[i]) && p < M[i].segs;
  }

  lemma Mirrored(L: seq<Item>, M: seq<Item>)
    requires AllAlike(L, M)
    ensures AllAlike(M, L)
  {
    forall i | 0 <= i < |M| ensures Alike(M[i], L[i]) {
      assert Alike(L[i], M[i]);
    }
  }

  lemma AlikeListing(L: seq<Item>, M: seq<Item>, p: seq<string>)
    requires AllAlike(L, M)
    ensures TrieListing(L, p) == TrieListing(M, p)
  {
    AlikeNames(L, M, p);
    Mirrored(L, M);
    var names := ChildNames(L, p);
    forall i | 0 <= i < |names| ensures Describe(L, p, names[i]) == Describe(M, p, names[i]) {
      AlikeFirst(L, M, p + [names[i]]);
      if HasBelow(L, p + [names[i]]) {
        AlikeBelow(L, M, p + [names[i]]);
      }
      if HasBelow(M, p + [names[i]]) {
        AlikeBelow(M, L, p + [names[i]]);
      }
    }
  }

  /** Two entries of one object that what names it has in common. */
  ghost predicate SameName(a: SearchEntry, b: SearchEntry) {
    && a.objectId == b.objectId && a.size == b.size
    && exists attr :: NamedBy(a, attr) && NamedBy(b, attr)
  }

  lemma {:induction false} SameItems(entries: seq<SearchEntry>, others: seq<SearchEntry>)
    requires |entries| == |others| && forall i :: 0 <= i < |entries| ==> SameName(entries[i], others[i])
    ensures AllAlike(Items(entries), Items(others))
  {
    if entries != [] {
      var n := |entries| - 1;
      SameItems(entries[..n], others[..n]);
      assert SameName(entries[n], others[n]);
      assert EntryPathKey(entries[n]) == EntryPathKey(others[n]);
    }
  }

  lemma {:induction false} SameLinear(entries: seq<SearchEntry>, others: seq<SearchEntry>, prefix: string)
    requires |entries| == |others| && forall i :: 0 <= i < |entries| ==> SameName(entries[i], others[i])
    ensures LinearListing(entries, prefix) == LinearListing(others, prefix)
  {
    if entries != [] {
      var n := |entries| - 1;
      SameLinear(entries[..n], others[..n], prefix);
      assert SameName(entries[n], others[n]);
      assert EntryPathKey(entries[n]) == EntryPathKey(others[n]);
    }
  }

  /** Whatever the names after the first one that is not empty, every directory is listed the same, either way. */
  lemma LaterNamesDoNotCount(entries: seq<SearchEntry>, others: seq<SearchEntry>, p: seq<string>, prefix: string)
    requires |entries| == |others| && forall i :: 0 <= i < |entries| ==> SameName(entries[i], others[i])
    ensures TrieListing(Items(entries), p) == TrieListing(Items(others), p)
    ensures LinearListing(entries, prefix) == LinearListing(others, prefix)
  {
    SameItems(entries, others);
    AlikeListing(Items(entries), Items(others), p);
    SameLinear(entries, others, prefix);
  }
}
