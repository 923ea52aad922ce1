/**
  The directory listing of the mounted file system: a third way to list the
  same scan, sorted by name and without editors' temporary files.
 */
module FuseListing {
  import opened Common
  import opened Paths
  import opened Listing

  datatype FuseEntry = FuseEntry(name: string, isDir: bool)

  predicate IsEphemeral(name: string) {
    HasPrefix(name, ".goutputstream-") || HasPrefix(name, ".gsavefile-")
  }

  function FirstNonEmpty(a: string, b: string): string {
    if a == "" then b else a
  }

  /** The path an entry is listed by; the other names only serve at the container's root. */
  function FusePath(e: SearchEntry, atRoot: bool): string {
    var p := FirstNonEmpty(TrimLeadingSlash(e.filePath), TrimLeadingSlash(e.key));
    if p == "" && atRoot then
      FirstNonEmpty(FirstNonEmpty(TrimLeadingSlash(e.fileName), TrimLeadingSlash(e.name)), e.objectId)
    else p
  }

  function DirPrefix(dir: string): string {
    if dir == "" then "" else dir + "/"
  }

  /** What one entry adds to the listing of `dir`, if anything. */
  function FuseChild(e: SearchEntry, dir: string): Option<FuseEntry> {
    var prefix := DirPrefix(dir);
    var p := FusePath(e, prefix == "");
    if !HasPrefix(p, prefix) then None
    else
      var rest := p[|prefix|..];
      var i := SlashIndex(rest);
      if rest[..i] == "" || IsEphemeral(rest[..i]) then None
      else Some(FuseEntry(rest[..i], i < |rest|))
  }

  ghost predicate Adds(entries: seq<SearchEntry>, dir: string, child: FuseEntry) {
    exists i :: 0 <= i < |entries| && FuseChild(entries[i], dir) == Some(child)
  }

  /** A name is listed if some entry adds it, as a directory if some entry adds it as one. */
  ghost predicate Lists(entries: seq<SearchEntry>, dir: string, child: FuseEntry) {
    if child.isDir then Adds(entries, dir, child)
    else Adds(entries, dir, child) && !Adds(entries, dir, child.(isDir := true))
  }

  /** Byte-wise order of names. */
  predicate Less(a: string, b: string) {
    b != "" && (a == "" || a[0] < b[0] || (a[0] == b[0] && Less(a[1..], b[1..])))
  }

  lemma {:induction false} LessIsTotal(a: string, b: string)
    ensures Less(a, b) || a == b || Less(b, a)
  {
    if a != "" && b != "" && a[0] == b[0] {
      LessIsTotal(a[1..], b[1..]);
    }
  }

  lemma {:induction false} LessIsTransitive(a: string, b: string, c: string)
    requires Less(a, b) && Less(b, c)
    ensures Less(a, c)
  {
    if a != "" && a[0] == b[0] == c[0] {
      LessIsTransitive(a[1..], b[1..], c[1..]);
    }
  }

  predicate StrictlySorted(names: seq<string>) {
    forall i, j :: 0 <= i < j < |names| ==> Less(names[i], names[j])
  }

  method InsertName(names: seq<string>, name: string) returns (r: seq<string>)
    requires StrictlySorted(names) && name !in names
    ensures StrictlySorted(r) && forall s :: s in r <==> s in names || s == name
  {
    var k := |names|;
    while k > 0 && !Less(names[k - 1], name)
      invariant 0 <= k <= |names|
      invariant forall j :: k <= j < |names| ==> Less(name, names[j])
    {
      k := k - 1;
      LessIsTotal(names[k], name);
    }
    forall j | 0 <= j < k ensures Less(names[j], name) {
      if j < k - 1 {
        LessIsTransitive(names[j], names[k - 1], name);
      }
    }
    assert names == names[..k] + names[k..];
    InsertedOrder(names[..k], name, names[k..]);
    r := names[..k] + [name] + names[k..];
  }

  lemma InsertedOrder(a: seq<string>, name: string, b: seq<string>)
    requires StrictlySorted(a) && StrictlySorted(b)
    requires forall i :: 0 <= i < |a| ==> Less(a[i], name)
    requires forall i :: 0 <= i < |b| ==> Less(name, b[i])
    ensures StrictlySorted(a + [name] + b)
  {
    var r := a + [name] + b;
    forall i, j | 0 <= i < j < |r| ensures Less(r[i], r[j]) {
      if i < |a| && j > |a| {
        LessIsTransitive(r[i], name, r[j]);
      }
    }
  }

  /** The names of a set, sorted. */
  method SortNames(names: set<string>) returns (sorted: seq<string>)
    ensures StrictlySorted(sorted) && forall s :: s in sorted <==> s in names
  {
    sorted := [];
    var todo := names;
    while todo != {}
      invariant todo <= names && StrictlySorted(sorted)
      invariant forall s :: s in sorted <==> s in names && s !in todo
      decreases |todo|
    {
      var name :| name in todo;
      todo := todo - {name};
      sorted := InsertName(sorted, name);
    }
  }

  predicate SortedByName(out: seq<FuseEntry>) {
    forall i, j :: 0 <= i < j < |out| ==> Less(out[i].name, out[j].name)
  }

  /** The children found so far, by name. */
  ghost predicate Collected(children: map<string, bool>, entries: seq<SearchEntry>, dir: string) {
    forall s {:trigger CollectedAt(children, entries, dir, s)} :: CollectedAt(children, entries, dir, s)
  }

  ghost predicate CollectedAt(children: map<string, bool>, entries: seq<SearchEntry>, dir: string, s: string) {
    && (s in children <==> Adds(entries, dir, FuseEntry(s, true)) || Adds(entries, dir, FuseEntry(s, false)))
    && (s in children ==> (children[s] <==> Adds(entries, dir, FuseEntry(s, true))))
  }

  lemma AddsSplit(entries: seq<SearchEntry>, e: SearchEntry, dir: string, child: FuseEntry)
    ensures Adds(entries + [e], dir, child) <==> Adds(entries, dir, child) || FuseChild(e, dir) == Some(child)
  {
    var more := entries + [e];
    if i :| 0 <= i < |entries| && FuseChild(entries[i], dir) == Some(child) {
      assert more[i] == entries[i];
    }
    if i :| 0 <= i < |more| && FuseChild(more[i], dir) == Some(child) {
      assert i < |entries| ==> more[i] == entries[i];
    }
    assert more[|entries|] == e;
  }

  /** What the map of children becomes with one more entry: a directory stays one. */
  function WithChild(children: map<string, bool>, c: Option<FuseEntry>): map<string, bool> {
    if c.None? then children
    else if c.value.isDir then children[c.value.name := true]
    else if c.value.name in children && children[c.value.name] then children
    else children[c.value.name := false]
  }

  lemma CollectedAtNext(children: map<string, bool>, entries: seq<SearchEntry>, e: SearchEntry, dir: string, s: string)
    requires CollectedAt(children, entries, dir, s)
    ensures CollectedAt(WithChild(children, FuseChild(e, dir)), entries + [e], dir, s)
  {
    AddsSplit(entries, e, dir, FuseEntry(s, true));
    AddsSplit(entries, e, dir, FuseEntry(s, false));
  }

  lemma CollectedOneMore(children: map<string, bool>, entries: seq<SearchEntry>, dir: string, n: nat)
    requires n < |entries| && Collected(children, entries[..n], dir)
    ensures Collected(WithChild(children, FuseChild(entries[n], dir)), entries[..n + 1], dir)
  {
    var now, next := WithChild(children, FuseChild(entries[n], dir)), entries[..n + 1];
    assert next == entries[..n] + [entries[n]];
    forall s ensures CollectedAt(now, next, dir, s) {
      CollectedAtNext(children, entries[..n], entries[n], dir, s);
    }
  }

  lemma NoneCollected(children: map<string, bool>, entries: seq<SearchEntry>, dir: string)
    requires children == map[] && entries == []
    ensures Collected(children, entries, dir)
  {
    forall s ensures CollectedAt(children, entries, dir, s) {
    }
  }

  /** Gathers the children of `dir` from a scan. */
  method CollectChildren(entries: seq<SearchEntry>, dir: string) returns (children: map<string, bool>)
    ensures Collected(children, entries, dir)
  {
    children := map[];
    NoneCollected(children, entries[..0], dir);
    var dirPrefix := if dir != "" then dir + "/" else dir;
    for n := 0 to |entries|
      invariant Collected(children, entries[..n], dir)
    {
      CollectedOneMore(children, entries, dir, n);
      var e := entries[n];
      var p := FusePath(e, dirPrefix == "");
      if HasPrefix(p, dirPrefix) {
        var rest := p[|dirPrefix|..];
        var i := SlashIndex(rest);
        var seg := rest[..i];
        if rest != "" && seg != "" && !IsEphemeral(seg) {
          if i < |rest| {
            children := children[seg := true];
          } else if !(seg in children && children[seg]) {
            children := children[seg := false];
          }
        }
      }
    }
    assert entries[..|entries|] == entries;
  }

  /**
    The children of `dir`, strictly sorted by name: those some entry adds, as
    directories where some entry says so. A failed scan lists nothing.
   */
  method ListChildren(entries: Option<seq<SearchEntry>>, dir: string) returns (out: Option<seq<FuseEntry>>)
    ensures out.None? <==> entries.None?
    ensures out.Some? ==> SortedByName(out.value)
    ensures out.Some? ==> forall child :: child in out.value <==> Lists(entries.value, dir, child)
  {
    if entries.None? {
      return None;
    }
    var children := CollectChildren(entries.value, dir);
    var names := SortNames(children.Keys);
    var list: seq<FuseEntry> := [];
    for n := 0 to |names|
      invariant |list| == n && forall i :: 0 <= i < n ==> list[i] == FuseEntry(names[i], children[names[i]])
    {
      assert names[n] in names;
      list := list + [FuseEntry(names[n], children[names[n]])];
    }
    ListedAll(children, names, list, entries.value, dir);
    return Some(list);
  }

  lemma ListedAll(children: map<string, bool>, names: seq<string>, list: seq<FuseEntry>,
                  entries: seq<SearchEntry>, dir: string)
    requires |list| == |names| && forall s :: s in names <==> s in children
    requires forall i :: 0 <= i < |names| ==> names[i] in children && list[i] == FuseEntry(names[i], children[names[i]])
    requires Collected(children, entries, dir)
    ensures forall child :: child in list <==> Lists(entries, dir, child)
  {
    forall child ensures child in list <==> Lists(entries, dir, child) {
      assert CollectedAt(children, entries, dir, child.name);
      ListedIs(children, names, list, child);
    }
  }

  lemma ListedIs(children: map<string, bool>, names: seq<string>, list: seq<FuseEntry>, child: FuseEntry)
    requires |list| == |names| && forall s :: s in names <==> s in children
    requires forall i :: 0 <= i < |names| ==> names[i] in children && list[i] == FuseEntry(names[i], children[names[i]])
    ensures child in list <==> child.name in children && children[child.name] == child.isDir
  {
    if child.name in children && children[child.name] == child.isDir {
      assert child.name in names;
      var i :| 0 <= i < |names| && names[i] == child.name;
      assert list[i] == child;
    }
  }

  // ---------------------------------------------------------------------
  // The mounted listing and the trie agree
  // ---------------------------------------------------------------------

  /** An entry with a clean FilePath, one leading slash aside, and no editors' temporary names on the way. */
  predicate Plain(e: SearchEntry) {
    && Clean(TrimLeadingSlash(e.filePath))
    && var segs := Split(TrimLeadingSlash(e.filePath));
       forall i :: 0 <= i < |segs| ==> !IsEphemeral(segs[i])
  }

  lemma EmptyIsNotClean()
    ensures !Clean("")
  {
    assert Split("")[0] == "";
  }

  lemma LastIsEmpty(a: string)
    ensures !Clean(a + "/" + "")
  {
    SplitConcat(a, "");
    assert Split("") == [""];
    assert Split(a + "/" + "")[|Split(a)|] == "";
  }

  lemma CleanEnd(dir: string)
    requires Clean(dir)
    ensures dir != "" && TrimTrailingSlash(dir) == dir && NormalizePrefix(dir) == dir + "/"
  {
    EmptyIsNotClean();
    if dir[|dir| - 1] == '/' {
      var a := dir[..|dir| - 1];
      assert dir == a + "/" + "";
      LastIsEmpty(a);
    }
  }

  lemma PlainKey(e: SearchEntry)
    requires Plain(e)
    ensures TrimLeadingSlash(e.filePath) != "" && EntryPathKey(e) == TrimLeadingSlash(e.filePath)
    ensures Segments(EntryPathKey(e)) == Split(TrimLeadingSlash(e.filePath)) != []
  {
    CleanEnd(TrimLeadingSlash(e.filePath));
    CleanSegments(TrimLeadingSlash(e.filePath));
  }

  lemma CleanDir(dir: string)
    requires dir == "" || Clean(dir)
    ensures CleanPrefix(dir) && NormalizePrefix(dir) == DirPrefix(dir)
  {
    if dir != "" {
      CleanEnd(dir);
    }
  }

  /** A plain entry adds what the linear scan adds, name and kind. */
  lemma PlainIsLinear(e: SearchEntry, dir: string)
    requires Plain(e) && (dir == "" || Clean(dir))
    ensures var c := LinearChild(e, DirPrefix(dir));
      FuseChild(e, dir) == if c.None? then None else Some(FuseEntry(c.value.name, c.value.isDirectory))
  {
    PlainKey(e);
    var key, prefix := TrimLeadingSlash(e.filePath), DirPrefix(dir);
    assert FusePath(e, prefix == "") == key;
    if HasPrefix(key, prefix) {
      NotEphemeral(e, dir);
      var rest := key[|prefix|..];
      assert rest[..|rest|] == rest;
    }
  }

  /** A plain entry adds to a directory just what it adds to the trie's. */
  lemma PlainChild(e: SearchEntry, dir: string)
    requires Plain(e) && (dir == "" || Clean(dir))
    ensures var c := SegChild(Item(Segments(EntryPathKey(e)), e), PrefixSegments(dir));
      FuseChild(e, dir) == if c.None? then None else Some(FuseEntry(c.value.name, c.value.isDirectory))
  {
    PlainKey(e);
    CleanDir(dir);
    PlainIsLinear(e, dir);
    LinearChildIsSegChild(e, dir);
  }

  /** The segment after the directory is one of the entry's own. */
  lemma NotEphemeral(e: SearchEntry, dir: string)
    requires Plain(e) && (dir == "" || Clean(dir)) && HasPrefix(TrimLeadingSlash(e.filePath), DirPrefix(dir))
    ensures var rest := TrimLeadingSlash(e.filePath)[|DirPrefix(dir)|..];
      !IsEphemeral(rest[..SlashIndex(rest)])
  {
    var key := TrimLeadingSlash(e.filePath);
    var rest := key[|DirPrefix(dir)|..];
    assert Split(rest)[0] == rest[..SlashIndex(rest)];
    if dir == "" {
      assert rest == key;
    } else {
      PrefixIsSegmentPrefix(dir, key);
      assert rest == key[|dir| + 1..];
      assert Split(key)[|Split(dir)|] == Split(rest)[0];
    }
  }

  ghost predicate IsItemOf(it: Item, e: SearchEntry) {
    it == Item(Segments(EntryPathKey(e)), e)
  }

  lemma {:induction false} ItemsOfPlain(entries: seq<SearchEntry>)
    requires forall i :: 0 <= i < |entries| ==> Plain(entries[i])
    ensures |Items(entries)| == |entries|
    ensures forall i :: 0 <= i < |entries| ==> IsItemOf(Items(entries)[i], entries[i])
  {
    if entries != [] {
      var entries', e := entries[..|entries| - 1], entries[|entries| - 1];
      ItemsOfPlain(entries');
      PlainKey(e);
      LastItem(Items(entries'), entries', e);
      assert entries == entries' + [e];
    }
  }

  lemma LastItem(L: seq<Item>, entries: seq<SearchEntry>, e: SearchEntry)
    requires |L| == |entries| && forall i :: 0 <= i < |entries| ==> IsItemOf(L[i], entries[i])
    requires Segments(EntryPathKey(e)) != []
    ensures var M, more := L + ItemOf(e), entries + [e];
            |M| == |more| && forall i :: 0 <= i < |more| ==> IsItemOf(M[i], more[i])
  {
  }

  /**
    For plain entries the mounted listing and the trie listing of a directory
    show the same names, and the same of them as directories.
   */
  lemma MountedMatchesTrie(entries: seq<SearchEntry>, dir: string, name: string, isDir: bool)
    requires forall i :: 0 <= i < |entries| ==> Plain(entries[i])
    requires dir == "" || Clean(dir)
    ensures var L, p := Items(entries), PrefixSegments(dir);
      Lists(entries, dir, FuseEntry(name, isDir)) <==>
      name in ChildNames(L, p) && Describe(L, p, name).isDirectory == isDir
  {
    var L, p := Items(entries), PrefixSegments(dir);
    AddsMeans(entries, dir, name, true);
    AddsMeans(entries, dir, name, false);
    ListedMeans(L, p, name);
  }

  /** A name is listed by the trie if something lies beneath it or is there. */
  lemma ListedMeans(L: seq<Item>, p: seq<string>, name: string)
    ensures name in ChildNames(L, p) <==> HasBelow(L, p + [name]) || HasAt(L, p + [name])
    ensures name in ChildNames(L, p) ==> (Describe(L, p, name).isDirectory <==> HasBelow(L, p + [name]))
  {
    var q := p + [name];
    ChildNamesAre(L, p);
    if i :| 0 <= i < |L| && L[i].segs == q {
      FoundAt(L, q, i);
    }
    if name in ChildNames(L, p) {
      var i :| 0 <= i < |L| && q <= L[i].segs;
      assert q < L[i].segs || L[i].segs == q;
    }
  }

  ghost predicate HasAt(L: seq<Item>, q: seq<string>) {
    exists i :: 0 <= i < |L| && L[i].segs == q
  }

  /** An entry adds a name as a directory if it lies beneath it, as a file if it is there. */
  lemma AddsOne(e: SearchEntry, dir: string, name: string, isDir: bool)
    requires Plain(e) && (dir == "" || Clean(dir))
    ensures var segs, q := Segments(EntryPathKey(e)), PrefixSegments(dir) + [name];
      FuseChild(e, dir) == Some(FuseEntry(name, isDir)) <==> if isDir then q < segs else segs == q
  {
    PlainChild(e, dir);
    UnderSplit(Segments(EntryPathKey(e)), PrefixSegments(dir), name);
  }

  lemma AddsMeans(entries: seq<SearchEntry>, dir: string, name: string, isDir: bool)
    requires forall i :: 0 <= i < |entries| ==> Plain(entries[i])
    requires dir == "" || Clean(dir)
    ensures var L, q := Items(entries), PrefixSegments(dir) + [name];
      Adds(entries, dir, FuseEntry(name, isDir)) <==> if isDir then HasBelow(L, q) else HasAt(L, q)
  {
    var L, q := Items(entries), PrefixSegments(dir) + [name];
    ItemsOfPlain(entries);
    if i :| 0 <= i < |entries| && FuseChild(entries[i], dir) == Some(FuseEntry(name, isDir)) {
      AddsOne(entries[i], dir, name, isDir);
      assert IsItemOf(L[i], entries[i]);
    }
    if i :| 0 <= i < |L| && if isDir then q < L[i].segs else L[i].segs == q {
      assert IsItemOf(L[i], entries[i]);
      AddsOne(entries[i], dir, name, isDir);
    }
  }
}
