/**
  Rename over immutable objects: delete what the destination names, then copy
  each source object and delete it.
 */
module Renames {
  import opened Common
  import opened Paths
  import opened Listing
  import opened ObjectStore

  function JoinRel(base: string, seg: string): string {
    if base == "" then seg else base + "/" + seg
  }

  /** One of the object's attributes is a path whose segments are those of the directory and then the name. */
  ghost predicate LiesIn(o: Object, dir: string, name: string) {
    exists p :: Titled(o, p) && Split(p) == (if dir == "" then [] else Split(dir)) + [name]
  }

  lemma JoinRelLies(o: Object, dir: string, name: string)
    requires name != "" && '/' !in name && (dir == "" || dir[0] != '/')
    ensures LiesIn(o, dir, name) <==> Named(o, TrimLeadingSlash(JoinRel(dir, name)))
  {
    var path := JoinRel(dir, name);
    assert name[0] in name;
    assert path[0] != '/';
    TitledIsNamed(o, path);
    JoinRelSegments(dir, name);
    if p :| Titled(o, p) && Split(p) == (if dir == "" then [] else Split(dir)) + [name] {
      JoinSplit(p);
      JoinSplit(path);
    }
  }

  /** Some object under `src` or `dst` holds `payload`. */
  ghost predicate Holds(t: Store, payload: seq<byte>, src: string, dst: string) {
    exists j :: j in t && t[j].payload == payload && (Named(t[j], src) || Named(t[j], dst))
  }

  /** The payload of every source object is still under `src` or `dst`. */
  ghost predicate SourcesKept(s: Store, t: Store, sources: seq<string>, src: string, dst: string) {
    forall id {:trigger id in sources} :: id in sources && id in s ==> Holds(t, s[id].payload, src, dst)
  }

  /** Objects that neither path names are untouched. */
  ghost predicate OthersKept(s: Store, t: Store, src: string, dst: string) {
    forall id :: id in s && !Named(s[id], src) && !Named(s[id], dst) ==> id in t && t[id] == s[id]
  }

  ghost predicate Kept(s: Store, t: Store, sources: seq<string>, src: string, dst: string) {
    SourcesKept(s, t, sources, src, dst) && OthersKept(s, t, src, dst)
  }

  ghost predicate Disjoint(a: seq<string>, b: seq<string>) {
    forall id :: id in a ==> id !in b
  }

  /** The store after the first `k` destination objects are deleted. */
  function Cleared(s: Store, found: seq<string>, ok: string -> bool, k: nat): Store
    requires k <= |found|
  {
    map j | j in s && !(j in found[..k] && ok(j)) :: s[j]
  }

  /** No source object is among those deleted at the destination: nothing is lost. */
  lemma ClearedKeeps(s: Store, src: string, dst: string, srcScan: seq<SearchEntry>, dstScan: seq<SearchEntry>,
                     ok: string -> bool, k: nat)
    requires Truthful(srcScan, s) && Truthful(dstScan, s) && k <= |ExactMatches(dstScan, dst)|
    ensures var sources, found := ExactMatches(srcScan, src), ExactMatches(dstScan, dst);
      && OthersKept(s, Cleared(s, found, ok, k), src, dst)
      && (Disjoint(sources, found) ==> SourcesKept(s, Cleared(s, found, ok, k), sources, src, dst))
  {
    var sources, found := ExactMatches(srcScan, src), ExactMatches(dstScan, dst);
    var t := Cleared(s, found, ok, k);
    forall id ensures id in found[..k] ==> id in found {
    }
    forall id | id in s && !Named(s[id], src) && !Named(s[id], dst) ensures id in t && t[id] == s[id] {
      MatchesAre(dstScan, s, dst, id);
    }
    if Disjoint(sources, found) {
      forall id | id in sources && id in s ensures Holds(t, s[id].payload, src, dst) {
        MatchesAre(srcScan, s, src, id);
        assert id in t && t[id] == s[id];
      }
    }
  }

  /**
    With distinct payloads and every delete done, clearing the destination
    keeps the sources exactly when no object was matched for both.
   */
  lemma ClearedLosesOverlap(s: Store, src: string, dst: string, srcScan: seq<SearchEntry>, dstScan: seq<SearchEntry>,
                            ok: string -> bool)
    requires Truthful(srcScan, s) && Truthful(dstScan, s)
    requires forall id :: id in ExactMatches(dstScan, dst) ==> ok(id)
    requires forall id :: id in ExactMatches(srcScan, src) ==> id in s
    requires forall i, j :: i in s && j in s && s[i].payload == s[j].payload ==> i == j
    ensures var sources, found := ExactMatches(srcScan, src), ExactMatches(dstScan, dst);
      SourcesKept(s, Cleared(s, found, ok, |found|), sources, src, dst) <==> Disjoint(sources, found)
  {
    var sources, found := ExactMatches(srcScan, src), ExactMatches(dstScan, dst);
    var t := Cleared(s, found, ok, |found|);
    ClearedKeeps(s, src, dst, srcScan, dstScan, ok, |found|);
    assert found[..|found|] == found;
    if SourcesKept(s, t, sources, src, dst) {
      forall id | id in sources ensures id !in found {
        assert Holds(t, s[id].payload, src, dst);
        var j :| j in t && t[j].payload == s[id].payload && (Named(t[j], src) || Named(t[j], dst));
        assert j == id;
      }
    }
  }

  /** Copying one object to the destination and then deleting it loses no payload. */
  lemma CopyKeeps(s: Store, t: Store, sources: seq<string>, src: string, dstRel: string, id: string, copy: string)
    requires Kept(s, t, sources, src, TrimLeadingSlash(dstRel)) && id in t && copy !in t
    requires copy !in s && (id in s ==> Named(s[id], src))
    ensures var copied := t[copy := NewObject(dstRel, t[id].payload)];
      && Kept(s, copied, sources, src, TrimLeadingSlash(dstRel))
      && Kept(s, copied - {id}, sources, src, TrimLeadingSlash(dstRel))
  {
    var dst := TrimLeadingSlash(dstRel);
    var copied := t[copy := NewObject(dstRel, t[id].payload)];
    NewObjectIsNamed(dstRel, t[id].payload);
    forall x | x in sources && x in s
      ensures Holds(copied, s[x].payload, src, dst) && Holds(copied - {id}, s[x].payload, src, dst)
    {
      assert Holds(t, s[x].payload, src, dst);
      var j :| j in t && t[j].payload == s[x].payload && (Named(t[j], src) || Named(t[j], dst));
      assert j in copied && copied[j] == t[j];
      assert j != id ==> j in copied - {id} && (copied - {id})[j] == t[j];
      assert copy in copied - {id} && copied[copy].payload == t[id].payload && Named(copied[copy], dst);
    }
  }

  lemma OneMoreCleared(s: Store, found: seq<string>, ok: string -> bool, k: nat)
    requires k < |found|
    ensures Cleared(s, found, ok, k + 1) ==
            if ok(found[k]) then Cleared(s, found, ok, k) - {found[k]} else Cleared(s, found, ok, k)
  {
    assert found[..k + 1] == found[..k] + [found[k]];
  }

  ghost predicate AllKept(history: seq<Store>, n: nat, s: Store, sources: seq<string>, src: string, dst: string) {
    forall i {:trigger Kept(s, history[i], sources, src, dst)} ::
      n <= i < |history| ==> Kept(s, history[i], sources, src, dst)
  }

  lemma OneMoreKept(history: seq<Store>, n: nat, s: Store, sources: seq<string>, src: string, dst: string, t: Store)
    requires AllKept(history, n, s, sources, src, dst) && Kept(s, t, sources, src, dst)
    ensures AllKept(history + [t], n, s, sources, src, dst)
  {
  }

  /**
    What a rename is asked, and how its requests turn out. `error` is what the
    request that ends it early reports, if one does; a get also fails when the
    object is gone.
   */
  datatype Request = Request(
    readOnly: bool,
    srcDir: string,
    name: string,
    dstDir: Option<string>,
    newName: string,
    flags: nat,
    srcScan: Option<seq<SearchEntry>>,
    dstScan: Option<seq<SearchEntry>>,
    gets: string -> bool,
    newIds: nat -> Option<string>,
    deletes: string -> bool,
    error: RequestError)
  {
    function Refusal(): Errno {
      if readOnly then EROFS
      else if name == "" || newName == "" || '/' in name || '/' in newName then EINVAL
      else if flags != 0 then ENOTSUP
      else if dstDir.None? then EXDEV
      else OK
    }

    function Src(): string {
      TrimLeadingSlash(JoinRel(srcDir, name))
    }

    function DstRel(): string {
      JoinRel(if dstDir.Some? then dstDir.value else "", newName)
    }

    function Dst(): string {
      TrimLeadingSlash(DstRel())
    }

    function Sources(): seq<string> {
      if srcScan.Some? then ExactMatches(srcScan.value, Src()) else []
    }

    function Found(): seq<string> {
      if dstScan.Some? then ExactMatches(dstScan.value, Dst()) else []
    }

    /** The sources, unless some object matches both paths. */
    ghost function Guarded(): seq<string> {
      if Disjoint(Sources(), Found()) then Sources() else []
    }

    /** Neither directory is written with a slash in front. */
    predicate Relative() {
      && (srcDir == "" || srcDir[0] != '/')
      && (dstDir.Some? ==> dstDir.value == "" || dstDir.value[0] != '/')
    }

    /** Scans tell the truth and new objects get new IDs. */
    ghost predicate Legal(s: Store) {
      && (srcScan.Some? ==> Truthful(srcScan.value, s))
      && (dstScan.Some? ==> Truthful(dstScan.value, s))
      && (forall i :: newIds(i).Some? ==> newIds(i).value !in s && newIds(i).value !in Sources())
      && forall i, j :: i < j && newIds(i).Some? ==> newIds(i) != newIds(j)
    }
  }

  /** The sources are kept however many of the destination's objects are deleted, if the matches are disjoint. */
  lemma RequestKeeps(r: Request, s: Store, k: nat)
    requires r.Legal(s) && k <= |r.Found()|
    ensures Kept(s, Cleared(s, r.Found(), r.deletes, k), r.Guarded(), r.Src(), r.Dst())
  {
    var srcScan := if r.srcScan.Some? then r.srcScan.value else [];
    var dstScan := if r.dstScan.Some? then r.dstScan.value else [];
    ClearedKeeps(s, r.Src(), r.Dst(), srcScan, dstScan, r.deletes, k);
  }

  /** Deletes the k-th object that the destination names, if the request succeeds. */
  method ClearOne(c: Container, r: Request, ghost s: Store, k: nat, ghost from: nat)
    requires k < |r.Found()| && r.Legal(s) && c.store == Cleared(s, r.Found(), r.deletes, k)
    requires AllKept(c.history, from, s, r.Guarded(), r.Src(), r.Dst())
    modifies c
    ensures c.store == Cleared(s, r.Found(), r.deletes, k + 1)
    ensures old(c.history) <= c.history
    ensures AllKept(c.history, from, s, r.Guarded(), r.Src(), r.Dst())
  {
    OneMoreCleared(s, r.Found(), r.deletes, k);
    ghost var before := c.history;
    c.ObjectDelete(r.Found()[k], r.deletes(r.Found()[k]));
    RequestKeeps(r, s, k + 1);
    OneMoreKept(before, from, s, r.Guarded(), r.Src(), r.Dst(), c.store);
  }

  /** Deletes what the destination names; failures are ignored. */
  method ClearDestination(c: Container, r: Request)
    requires r.Legal(c.store)
    modifies c
    ensures c.store == Cleared(old(c.store), r.Found(), r.deletes, |r.Found()|)
    ensures old(c.history) <= c.history
    ensures AllKept(c.history, |old(c.history)|, old(c.store), r.Guarded(), r.Src(), r.Dst())
    ensures Kept(old(c.store), c.store, r.Guarded(), r.Src(), r.Dst())
  {
    ghost var s, from := c.store, |c.history|;
    var ids := c.FindObjectsByExactPath(r.DstRel(), r.dstScan);
    var found := if ids.Some? then ids.value else [];
    NoneCleared(s, found, r.deletes);
    for k := 0 to |found|
      invariant c.store == Cleared(s, found, r.deletes, k)
      invariant old(c.history) <= c.history
      invariant AllKept(c.history, from, s, r.Guarded(), r.Src(), r.Dst())
    {
      ClearOne(c, r, s, k, from);
    }
    RequestKeeps(r, s, |found|);
  }

  lemma NoneCleared(s: Store, found: seq<string>, ok: string -> bool)
    ensures Cleared(s, found, ok, 0) == s
  {
  }

  /** An ID given to one of the first `k` copies. */
  ghost predicate CopyId(r: Request, k: int, j: string) {
    exists i {:trigger r.newIds(i)} :: 0 <= i < k && r.newIds(i) == Some(j)
  }

  /** The i-th source has become a copy at the destination. */
  ghost predicate Copied(base: Store, t: Store, r: Request, i: nat)
    requires i < |r.Sources()|
  {
    && r.Sources()[i] in base && r.newIds(i).Some? && r.newIds(i).value in t
    && t[r.newIds(i).value] == NewObject(r.DstRel(), base[r.Sources()[i]].payload)
  }

  /** The first `k` sources are copied from `base` to the destination and gone; all else is as in `base`. */
  ghost predicate Moved(base: Store, t: Store, r: Request, k: int)
    requires 0 <= k <= |r.Sources()|
  {
    && (forall i {:trigger Copied(base, t, r, i)} :: 0 <= i < k ==> Copied(base, t, r, i))
    && (forall j :: j in t <==> (j in base && j !in r.Sources()[..k]) || CopyId(r, k, j))
    && (forall j :: j in t && j in base ==> t[j] == base[j])
  }

  /** The k-th source could not be read, copied or deleted, and nothing was done after it. */
  ghost predicate StoppedAt(base: Store, t: Store, r: Request, k: int)
    requires 0 <= k < |r.Sources()|
  {
    var id := r.Sources()[k];
    exists m: Store {:trigger Moved(base, m, r, k)} :: Moved(base, m, r, k) && (
      if id !in m || !r.gets(id) || r.newIds(k).None? then t == m
      else !r.deletes(id) && t == m[r.newIds(k).value := NewObject(r.DstRel(), m[id].payload)])
  }

  lemma CopyIdNext(r: Request, k: nat, j: string)
    ensures CopyId(r, k + 1, j) <==> CopyId(r, k, j) || r.newIds(k) == Some(j)
  {
  }

  lemma CopiesAreNew(r: Request, base: Store, k: nat, j: string)
    requires r.Legal(base) && CopyId(r, k, j)
    ensures j !in base && j !in r.Sources() && r.newIds(k) != Some(j)
  {
    var i :| 0 <= i < k && r.newIds(i) == Some(j);
  }

  lemma CopiedStays(base: Store, t: Store, r: Request, k: nat, i: nat, t': Store)
    requires r.Legal(base) && i < k < |r.Sources()| && Copied(base, t, r, i) && r.newIds(k).Some? && r.Sources()[k] in t
    requires t' == t[r.newIds(k).value := NewObject(r.DstRel(), t[r.Sources()[k]].payload)] - {r.Sources()[k]}
    ensures Copied(base, t', r, i)
  {
    assert CopyId(r, k, r.newIds(i).value);
    CopiesAreNew(r, base, k, r.newIds(i).value);
  }

  lemma OneMoreMoved(base: Store, t: Store, r: Request, k: nat)
    requires r.Legal(base) && k < |r.Sources()| && Moved(base, t, r, k)
    requires r.Sources()[k] in t && r.newIds(k).Some?
    ensures r.newIds(k).value !in t && r.Sources()[k] in base
    ensures var copied := t[r.newIds(k).value := NewObject(r.DstRel(), t[r.Sources()[k]].payload)];
            Moved(base, copied - {r.Sources()[k]}, r, k + 1)
  {
    var sources, id, copy := r.Sources(), r.Sources()[k], r.newIds(k).value;
    var t' := t[copy := NewObject(r.DstRel(), t[id].payload)] - {id};
    assert sources[..k + 1] == sources[..k] + [id];
    if CopyId(r, k, copy) {
      CopiesAreNew(r, base, k, copy);
    }
    if CopyId(r, k, id) {
      CopiesAreNew(r, base, k, id);
    }
    assert copy !in t && id in base;
    forall i | 0 <= i < k + 1 ensures Copied(base, t', r, i) {
      if i < k {
        assert Copied(base, t, r, i);
        CopiedStays(base, t, r, k, i, t');
      }
    }
    forall j ensures j in t' <==> (j in base && j !in sources[..k + 1]) || CopyId(r, k + 1, j) {
      CopyIdNext(r, k, j);
    }
  }

  /** Copies one source under a new ID and deletes it, if the delete succeeds. */
  method MoveOne(c: Container, r: Request, ghost s: Store, id: string, copy: string, ghost from: nat)
    requires r.Legal(s) && id in r.Sources() && id in c.store && copy !in c.store && copy !in s
    requires Kept(s, c.store, r.Guarded(), r.Src(), r.Dst())
    requires AllKept(c.history, from, s, r.Guarded(), r.Src(), r.Dst())
    modifies c
    ensures var copied := old(c.store)[copy := NewObject(r.DstRel(), old(c.store)[id].payload)];
      c.store == if r.deletes(id) then copied - {id} else copied
    ensures old(c.history) <= c.history
    ensures Kept(s, c.store, r.Guarded(), r.Src(), r.Dst())
    ensures AllKept(c.history, from, s, r.Guarded(), r.Src(), r.Dst())
  {
    if id in s {
      SourceIsNamed(r, s, id);
    }
    CopyKeeps(s, c.store, r.Guarded(), r.Src(), r.DstRel(), id, copy);
    ghost var before := c.history;
    c.ObjectPut(r.DstRel(), c.store[id].payload, Some(copy));
    OneMoreKept(before, from, s, r.Guarded(), r.Src(), r.Dst(), c.store);
    ghost var between := c.history;
    c.ObjectDelete(id, r.deletes(id));
    OneMoreKept(between, from, s, r.Guarded(), r.Src(), r.Dst(), c.store);
  }

  /** Reads, copies and deletes the k-th source, as far as the requests succeed. */
  method MoveSource(c: Container, r: Request, ghost s: Store, ghost base: Store, k: nat, ghost from: nat)
    returns (ok: bool)
    requires k < |r.Sources()| && r.Legal(s) && r.Legal(base) && Moved(base, c.store, r, k)
    requires forall j :: j in base ==> j in s
    requires Kept(s, c.store, r.Guarded(), r.Src(), r.Dst())
    requires AllKept(c.history, from, s, r.Guarded(), r.Src(), r.Dst())
    modifies c
    ensures old(c.history) <= c.history
    ensures ok ==> Moved(base, c.store, r, k + 1)
    ensures !ok ==> StoppedAt(base, c.store, r, k)
    ensures Kept(s, c.store, r.Guarded(), r.Src(), r.Dst())
    ensures AllKept(c.history, from, s, r.Guarded(), r.Src(), r.Dst())
  {
    var id := r.Sources()[k];
    ghost var m := c.store;
    if id !in c.store || !r.gets(id) {
      assert StoppedAt(base, m, r, k);
      return false;
    }
    if r.newIds(k).None? {
      OneMoreKept(c.history, from, s, r.Guarded(), r.Src(), r.Dst(), m);
      c.ObjectPut(r.DstRel(), c.store[id].payload, None);
      assert StoppedAt(base, m, r, k);
      return false;
    }
    OneMoreMoved(base, c.store, r, k);
    MoveOne(c, r, s, id, r.newIds(k).value, from);
    if !r.deletes(id) {
      assert StoppedAt(base, c.store, r, k);
      return false;
    }
    return true;
  }

  /** Copies each source and deletes it; the first failure ends the rename. */
  method MoveSources(c: Container, r: Request, ghost s: Store, sources: seq<string>) returns (e: Errno)
    requires r.Legal(s) && r.Legal(c.store) && sources == r.Sources()
    requires forall j :: j in c.store ==> j in s
    requires Kept(s, c.store, r.Guarded(), r.Src(), r.Dst())
    modifies c
    ensures old(c.history) <= c.history
    ensures e == OK ==> Moved(old(c.store), c.store, r, |sources|)
    ensures e != OK ==>
              e == ErrnoOf(r.error) && exists k :: 0 <= k < |sources| && StoppedAt(old(c.store), c.store, r, k)
    ensures AllKept(c.history, |old(c.history)|, s, r.Guarded(), r.Src(), r.Dst())
    ensures Kept(s, c.store, r.Guarded(), r.Src(), r.Dst())
  {
    ghost var base, from := c.store, |c.history|;
    for k := 0 to |sources|
      invariant old(c.history) <= c.history
      invariant Moved(base, c.store, r, k)
      invariant Kept(s, c.store, r.Guarded(), r.Src(), r.Dst())
      invariant AllKept(c.history, from, s, r.Guarded(), r.Src(), r.Dst())
    {
      var ok := MoveSource(c, r, s, base, k, from);
      if !ok {
        return ErrnoOf(r.error);
      }
    }
    return OK;
  }

  /** When every request succeeds and each source is there once, nothing stops the rename. */
  lemma NothingStops(base: Store, t: Store, r: Request, k: nat)
    requires k < |r.Sources()|
    requires forall i :: 0 <= i < |r.Sources()| ==>
               r.Sources()[i] in base && r.gets(r.Sources()[i]) && r.deletes(r.Sources()[i]) && r.newIds(i).Some?
    requires forall i :: 0 <= i < k ==> r.Sources()[i] != r.Sources()[k]
    ensures !StoppedAt(base, t, r, k)
  {
    NotBefore(r.Sources(), k);
  }

  lemma NotBefore(ids: seq<string>, k: nat)
    requires k < |ids| && forall i :: 0 <= i < k ==> ids[i] != ids[k]
    ensures ids[k] !in ids[..k]
  {
  }

  lemma SourceIsNamed(r: Request, s: Store, id: string)
    requires r.Legal(s) && id in r.Sources() && id in s
    ensures Named(s[id], r.Src())
  {
    MatchesAre(r.srcScan.value, s, r.Src(), id);
  }

  /** Objects that lie neither at the source nor at the destination are untouched. */
  ghost predicate ElsewhereKept(s: Store, t: Store, r: Request) {
    r.dstDir.Some? ==>
      forall id :: id in s && !LiesIn(s[id], r.srcDir, r.name) && !LiesIn(s[id], r.dstDir.value, r.newName) ==>
        id in t && t[id] == s[id]
  }

  lemma KeptElsewhere(r: Request, s: Store, t: Store)
    requires r.Refusal() == OK && r.Relative() && Kept(s, t, r.Guarded(), r.Src(), r.Dst())
    ensures ElsewhereKept(s, t, r)
  {
    forall id | id in s && !LiesIn(s[id], r.srcDir, r.name) && !LiesIn(s[id], r.dstDir.value, r.newName)
      ensures id in t && t[id] == s[id]
    {
      JoinRelLies(s[id], r.srcDir, r.name);
      JoinRelLies(s[id], r.dstDir.value, r.newName);
    }
  }

  /**
    Renaming one file. When no object matches both paths, every source payload
    is under one of the two paths at every step, however far the rename gets;
    either every source has become a copy at the destination, or the rename
    stopped right at a request that failed and reports it.
   */
  method Rename(c: Container, r: Request) returns (e: Errno)
    requires r.Legal(c.store)
    modifies c
    ensures old(c.history) <= c.history
    ensures r.Refusal() != OK ==> e == r.Refusal() && c.store == old(c.store)
    ensures r.readOnly ==> e == EROFS
    ensures !r.readOnly ==>
              (r.name == "" || r.newName == "" || '/' in r.name || '/' in r.newName <==> e == EINVAL)
    ensures !r.readOnly && e != EINVAL ==> (r.flags != 0 <==> e == ENOTSUP)
    ensures !r.readOnly && e != EINVAL && r.flags == 0 ==> (r.dstDir.None? <==> e == EXDEV)
    ensures r.Refusal() == OK && r.srcScan.None? ==> e == ErrnoOf(r.error) && c.store == old(c.store)
    ensures r.Refusal() == OK && r.srcScan.Some? && r.Sources() == [] ==> e == ENOENT && c.store == old(c.store)
    ensures r.Refusal() == OK && r.Sources() != [] ==>
              var base := Cleared(old(c.store), r.Found(), r.deletes, |r.Found()|);
              || (e == OK && Moved(base, c.store, r, |r.Sources()|))
              || (e == ErrnoOf(r.error) && exists k :: 0 <= k < |r.Sources()| && StoppedAt(base, c.store, r, k))
    ensures Disjoint(r.Sources(), r.Found()) ==>
              AllKept(c.history, |old(c.history)|, old(c.store), r.Sources(), r.Src(), r.Dst())
    ensures r.Relative() ==>
              ElsewhereKept(old(c.store), c.store, r)
              && forall i :: |old(c.history)| <= i < |c.history| ==> ElsewhereKept(old(c.store), c.history[i], r)
  {
    if r.readOnly {
      return EROFS;
    }
    if r.name == "" || r.newName == "" || '/' in r.name || '/' in r.newName {
      return EINVAL;
    }
    if r.flags != 0 {
      return ENOTSUP;
    }
    if r.dstDir.None? {
      return EXDEV;
    }
    var ids := c.FindObjectsByExactPath(JoinRel(r.srcDir, r.name), r.srcScan);
    if ids.None? {
      return ErrnoOf(r.error);
    }
    var sources := ids.value;
    if |sources| == 0 {
      return ENOENT;
    }
    ghost var s := c.store;
    ClearDestination(c, r);
    ClearedLegal(r, s);
    e := MoveSources(c, r, s, sources);
    if r.Relative() {
      KeptElsewhere(r, s, c.store);
      forall i | |old(c.history)| <= i < |c.history| ensures ElsewhereKept(s, c.history[i], r) {
        assert Kept(s, c.history[i], r.Guarded(), r.Src(), r.Dst());
        KeptElsewhere(r, s, c.history[i]);
      }
    }
  }

  lemma ClearedLegal(r: Request, s: Store)
    requires r.Legal(s)
    ensures r.Legal(Cleared(s, r.Found(), r.deletes, |r.Found()|))
  {
    var t := Cleared(s, r.Found(), r.deletes, |r.Found()|);
    forall e: SearchEntry | TrueOf(e, s) ensures TrueOf(e, t) {
    }
  }

  /** With up-to-date scans and different paths, a successful rename leaves exactly the copies at the destination. */
  lemma RenamedExactly(r: Request, s: Store, t: Store, id: string)
    requires r.Legal(s) && r.srcScan.Some? && r.dstScan.Some? && Fresh(r.srcScan.value, s) && Fresh(r.dstScan.value, s)
    requires forall j :: j in r.Found() ==> r.deletes(j)
    requires r.Src() != r.Dst() && r.Src() != ""
    requires Moved(Cleared(s, r.Found(), r.deletes, |r.Found()|), t, r, |r.Sources()|)
    requires id in t
    ensures !Named(t[id], r.Src())
    ensures Named(t[id], r.Dst()) <==> CopyId(r, |r.Sources()|, id)
  {
    var base := Cleared(s, r.Found(), r.deletes, |r.Found()|);
    assert r.Found()[..|r.Found()|] == r.Found() && r.Sources()[..|r.Sources()|] == r.Sources();
    if CopyId(r, |r.Sources()|, id) {
      var i :| 0 <= i < |r.Sources()| && r.newIds(i) == Some(id);
      assert Copied(base, t, r, i);
      NewObjectIsNamed(r.DstRel(), base[r.Sources()[i]].payload);
    } else {
      MatchesAre(r.srcScan.value, s, r.Src(), id);
      MatchesAre(r.dstScan.value, s, r.Dst(), id);
    }
  }

  lemma JoinRelApart(dir: string, name: string, other: string, newName: string)
    requires name != "" && '/' !in name && newName != "" && '/' !in newName
    requires (dir == "" || dir[0] != '/') && (other == "" || other[0] != '/')
    requires TrimLeadingSlash(JoinRel(dir, name)) == TrimLeadingSlash(JoinRel(other, newName))
    ensures dir == other && name == newName
  {
    assert name[0] in name && newName[0] in newName;
    assert JoinRel(dir, name)[0] != '/' && JoinRel(other, newName)[0] != '/';
    JoinRelSegments(dir, name);
    JoinRelSegments(other, newName);
    assert (if dir == "" then [] else Split(dir)) == Split(JoinRel(dir, name))[..|Split(JoinRel(dir, name))| - 1];
    assert (if other == "" then [] else Split(other)) == Split(JoinRel(dir, name))[..|Split(JoinRel(dir, name))| - 1];
    if dir != "" && other != "" {
      JoinSplit(dir);
      JoinSplit(other);
    }
  }

  lemma JoinRelSegments(dir: string, name: string)
    requires name != "" && '/' !in name
    ensures Split(JoinRel(dir, name)) == (if dir == "" then [] else Split(dir)) + [name]
  {
    assert name[..|name|] == name;
    SlashIndexIs(name, |name|);
    assert Split(name) == [name];
    if dir != "" {
      SplitConcat(dir, name);
    }
  }

  /** Some object of `t` with this payload lies in the directory under the name. */
  ghost predicate HeldIn(t: Store, payload: seq<byte>, dir: string, name: string) {
    exists id :: id in t && t[id].payload == payload && LiesIn(t[id], dir, name)
  }

  /**
    With up-to-date scans a rename that succeeds leaves nothing at the old
    place, and at the new one exactly new objects with the payloads of those
    that were at the old place and not at the new one.
   */
  lemma RenameLands(r: Request, s: Store, t: Store, id: string)
    requires r.Legal(s) && r.srcScan.Some? && r.dstScan.Some? && Fresh(r.srcScan.value, s) && Fresh(r.dstScan.value, s)
    requires forall j :: j in r.Found() ==> r.deletes(j)
    requires r.Refusal() == OK && r.Relative() && (r.srcDir != r.dstDir.value || r.name != r.newName)
    requires Moved(Cleared(s, r.Found(), r.deletes, |r.Found()|), t, r, |r.Sources()|)
    ensures id in t ==> !LiesIn(t[id], r.srcDir, r.name)
    ensures id in t && LiesIn(t[id], r.dstDir.value, r.newName) ==>
              id !in s && HeldIn(s, t[id].payload, r.srcDir, r.name)
    ensures id in s && LiesIn(s[id], r.srcDir, r.name) && !LiesIn(s[id], r.dstDir.value, r.newName) ==>
              HeldIn(t, s[id].payload, r.dstDir.value, r.newName)
  {
    if r.Src() == r.Dst() {
      JoinRelApart(r.srcDir, r.name, r.dstDir.value, r.newName);
    }
    if id in t {
      JoinRelLies(t[id], r.srcDir, r.name);
      JoinRelLies(t[id], r.dstDir.value, r.newName);
      SourcePathNames(r);
      RenamedExactly(r, s, t, id);
      if LiesIn(t[id], r.dstDir.value, r.newName) {
        CopyHasSource(r, s, t, id);
      }
    }
    if id in s {
      JoinRelLies(s[id], r.srcDir, r.name);
      JoinRelLies(s[id], r.dstDir.value, r.newName);
      if Named(s[id], r.Src()) && !Named(s[id], r.Dst()) {
        SourceHasCopy(r, s, t, id);
      }
    }
  }

  lemma SourcePathNames(r: Request)
    requires r.Refusal() == OK && r.Relative()
    ensures r.Src() != ""
  {
    assert r.name[0] in r.name;
  }

  lemma CopyHasSource(r: Request, s: Store, t: Store, id: string)
    requires r.Legal(s) && r.Refusal() == OK && r.Relative()
    requires Moved(Cleared(s, r.Found(), r.deletes, |r.Found()|), t, r, |r.Sources()|)
    requires id in t && CopyId(r, |r.Sources()|, id)
    ensures id !in s && HeldIn(s, t[id].payload, r.srcDir, r.name)
  {
    var base := Cleared(s, r.Found(), r.deletes, |r.Found()|);
    var i :| 0 <= i < |r.Sources()| && r.newIds(i) == Some(id);
    assert Copied(base, t, r, i);
    var source := r.Sources()[i];
    SourceIsNamed(r, s, source);
    JoinRelLies(s[source], r.srcDir, r.name);
    assert s[source].payload == t[id].payload;
  }

  lemma SourceHasCopy(r: Request, s: Store, t: Store, id: string)
    requires r.Legal(s) && r.srcScan.Some? && Fresh(r.srcScan.value, s) && r.Refusal() == OK && r.Relative()
    requires r.dstScan.Some? && Truthful(r.dstScan.value, s)
    requires Moved(Cleared(s, r.Found(), r.deletes, |r.Found()|), t, r, |r.Sources()|)
    requires id in s && Named(s[id], r.Src()) && !Named(s[id], r.Dst())
    ensures HeldIn(t, s[id].payload, r.dstDir.value, r.newName)
  {
    var base := Cleared(s, r.Found(), r.deletes, |r.Found()|);
    MatchesAre(r.srcScan.value, s, r.Src(), id);
    MatchesAre(r.dstScan.value, s, r.Dst(), id);
    assert r.Found()[..|r.Found()|] == r.Found();
    var i :| 0 <= i < |r.Sources()| && r.Sources()[i] == id;
    assert Copied(base, t, r, i);
    var copy := r.newIds(i).value;
    NewObjectIsNamed(r.DstRel(), s[id].payload);
    JoinRelLies(t[copy], r.dstDir.value, r.newName);
    assert t[copy].payload == s[id].payload;
  }

  /** One object under both paths: renaming `a` to `b` deletes it first and then finds nothing to copy. */
  lemma OverlapIsLost()
    ensures var s: Store := map["x" := Object("/a", "b", [1])];
      var scan := [SearchEntry("x", "/a", "", "", "b", 1)];
      && Fresh(scan, s) && ExactMatches(scan, "a") == ExactMatches(scan, "b") == ["x"]
      && Cleared(s, ["x"], _ => true, 1) == map[]
      && !SourcesKept(s, map[], ["x"], "a", "b")
  {
    var s: Store := map["x" := Object("/a", "b", [1])];
    var scan := [SearchEntry("x", "/a", "", "", "b", 1)];
    assert scan[0].objectId == "x";
    assert ListsId(scan, "x") && TrueOf(scan[0], s);
    assert ExactMatches(scan[..0], "a") == ExactMatches(scan[..0], "b") == [];
    assert "x" in ["x"] && ["x"][..1] == ["x"];
    assert !Holds(map[], s["x"].payload, "a", "b");
  }
}
