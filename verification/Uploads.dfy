/**
  Upload on close: the new object is put before the objects found under its
  path are deleted, so a path that had an object keeps one at every step.
 */
module Uploads {
  import opened Common
  import opened Paths
  import opened Listing
  import opened ObjectStore
  import FuseListing
  import FuseNames

  /** The store after the put and the first `k` deletes. */
  function Replaced(s: Store, o: Object, id: string, found: seq<string>, ok: string -> bool, k: nat): Store
    requires k <= |found|
  {
    map j | j in s[id := o] && !(j in found[..k] && j != id && ok(j)) :: s[id := o][j]
  }

  /** `path` still names an object if it did, and objects it does not name are untouched. */
  ghost predicate Kept(s: Store, t: Store, path: string) {
    && (HasPath(s, path) ==> HasPath(t, path))
    && forall id :: id in s && !Named(s[id], path) ==> id in t && t[id] == s[id]
  }

  lemma ReplacedKeeps(s: Store, relPath: string, payload: seq<byte>, id: string, entries: seq<SearchEntry>,
                      ok: string -> bool, k: nat)
    requires Truthful(entries, s) && (id in s ==> s[id] == NewObject(relPath, payload))
    requires k <= |ExactMatches(entries, TrimLeadingSlash(relPath))|
    ensures var path := TrimLeadingSlash(relPath);
      Kept(s, Replaced(s, NewObject(relPath, payload), id, ExactMatches(entries, path), ok, k), path)
  {
    var path, o := TrimLeadingSlash(relPath), NewObject(relPath, payload);
    var found := ExactMatches(entries, path);
    var t := Replaced(s, o, id, found, ok, k);
    NewObjectIsNamed(relPath, payload);
    assert Named(t[id], path);
    forall j | j in s && !Named(s[j], path) ensures j in t && t[j] == s[j] {
      MatchesAre(entries, s, path, j);
      TakeSubset(found, k, j);
    }
  }

  lemma TakeSubset(found: seq<string>, k: nat, j: string)
    requires k <= |found|
    ensures j in found[..k] ==> j in found
  {
  }

  /** With an up-to-date scan and every delete done, the path names exactly the new object. */
  lemma ReplacedExactly(s: Store, relPath: string, payload: seq<byte>, id: string, entries: seq<SearchEntry>,
                        ok: string -> bool)
    requires Fresh(entries, s) && (id in s ==> s[id] == NewObject(relPath, payload))
    requires forall j :: j in ExactMatches(entries, TrimLeadingSlash(relPath)) ==> ok(j)
    ensures var path := TrimLeadingSlash(relPath);
      var found := ExactMatches(entries, path);
      var t := Replaced(s, NewObject(relPath, payload), id, found, ok, |found|);
      && (forall j :: j in t && Named(t[j], path) <==> j == id)
      && (forall other :: other != path && other != "" ==>
            (HasPath(t, other) <==> exists j :: j in s && Named(s[j], other) && !Named(s[j], path)))
  {
    var path, o := TrimLeadingSlash(relPath), NewObject(relPath, payload);
    var found := ExactMatches(entries, path);
    var t := Replaced(s, o, id, found, ok, |found|);
    assert found[..|found|] == found;
    NewObjectIsNamed(relPath, payload);
    forall j | j in s ensures j in found <==> Named(s[j], path) {
      MatchesAre(entries, s, path, j);
    }
    forall other | other != path && other != ""
      ensures HasPath(t, other) <==> exists j :: j in s && Named(s[j], other) && !Named(s[j], path)
    {
      if j :| j in s && Named(s[j], other) && !Named(s[j], path) {
        assert j in t && Named(t[j], other);
      }
      if j :| j in t && Named(t[j], other) {
        assert j in s && Named(s[j], other) && !Named(s[j], path);
      }
    }
  }

  /** A second name is lost with its object: closing `b` can empty `a`. */
  lemma SecondNameIsLost()
    ensures var s: Store := map["x" := Object("/a", "b", [1])];
      var entries := [SearchEntry("x", "/a", "", "", "b", 1)];
      && Fresh(entries, s) && HasPath(s, "a")
      && var found := ExactMatches(entries, "b");
         !HasPath(Replaced(s, NewObject("b", [2]), "y", found, _ => true, |found|), "a")
  {
    var s: Store := map["x" := Object("/a", "b", [1])];
    var entries := [SearchEntry("x", "/a", "", "", "b", 1)];
    assert Named(s["x"], "a") && Named(s["x"], "b");
    assert entries[0].objectId == "x";
    assert ListsId(entries, "x");
    assert TrueOf(entries[0], s);
    ReplacedExactly(s, "b", [2], "y", entries, _ => true);
  }

  function BaseName(path: string): string {
    Split(path)[|Split(path)| - 1]
  }

  /** Which files are not uploaded: those whose own name is an editor's temporary file's. */
  lemma TemporaryFiles(dir: string, name: string)
    requires '/' !in name
    ensures BaseName(name) == BaseName(dir + "/" + name) == name
    ensures FuseListing.IsEphemeral(name) <==> FuseNames.Temporary(name)
  {
    assert name[..|name|] == name;
    SlashIndexIs(name, |name|);
    SplitConcat(dir, name);
    FuseNames.EphemeralIsTemporary(name);
  }

  lemma OneMoreKept(history: seq<Store>, n: nat, s: Store, path: string, t: Store)
    requires AllKept(history, n, s, path) && Kept(s, t, path)
    ensures AllKept(history + [t], n, s, path)
  {
  }

  /** Deletes the k-th object found, if it is not the new one and the request succeeds. */
  method DeleteFound(c: Container, relPath: string, payload: seq<byte>, id: string, ghost s: Store,
                     ghost scan: seq<SearchEntry>, found: seq<string>, ok: string -> bool, k: nat, ghost from: nat)
    requires Truthful(scan, s) && (id in s ==> s[id] == NewObject(relPath, payload))
    requires found == ExactMatches(scan, TrimLeadingSlash(relPath)) && k < |found|
    requires c.store == Replaced(s, NewObject(relPath, payload), id, found, ok, k)
    requires AllKept(c.history, from, s, TrimLeadingSlash(relPath))
    modifies c
    ensures c.store == Replaced(s, NewObject(relPath, payload), id, found, ok, k + 1)
    ensures old(c.history) <= c.history && AllKept(c.history, from, s, TrimLeadingSlash(relPath))
  {
    OneMoreDeleted(s, NewObject(relPath, payload), id, found, ok, k);
    if found[k] != id {
      ReplacedKeeps(s, relPath, payload, id, scan, ok, k + 1);
      ghost var before := c.history;
      c.ObjectDelete(found[k], ok(found[k]));
      OneMoreKept(before, from, s, TrimLeadingSlash(relPath), c.store);
    }
  }

  /** The states recorded after the first `n`. */
  ghost predicate AllKept(history: seq<Store>, n: nat, s: Store, path: string) {
    forall i :: n <= i < |history| ==> Kept(s, history[i], path)
  }

  /**
    Closing a written file; editors' temporary files are not uploaded. `entries` is the scan, up to
    date or not; `opens` says whether the spooled file opens, `id` is the new
    object's ID if the put succeeds, and `ok` which deletes succeed.
   */
  method UploadOnClose(c: Container, relPath: string, payload: seq<byte>, entries: Option<seq<SearchEntry>>,
                       opens: bool, id: Option<string>, ok: string -> bool)
    returns (uploaded: bool)
    requires entries.Some? ==> Truthful(entries.value, c.store)
    requires id.Some? && id.value in c.store ==> c.store[id.value] == NewObject(relPath, payload)
    modifies c
    ensures uploaded == (!FuseListing.IsEphemeral(BaseName(relPath)) && opens && id.Some?)
    ensures !uploaded ==> c.store == old(c.store)
    ensures uploaded ==>
              && id.value in c.store && c.store[id.value].payload == payload && c.store[id.value].key == ""
              && c.store[id.value].filePath == if relPath != "" && relPath[0] == '/' then relPath else "/" + relPath
    ensures uploaded ==>
              var found := if entries.Some? then ExactMatches(entries.value, TrimLeadingSlash(relPath)) else [];
              c.store == Replaced(old(c.store), NewObject(relPath, payload), id.value, found, ok, |found|)
    ensures old(c.history) <= c.history && AllKept(c.history, |old(c.history)|, old(c.store), TrimLeadingSlash(relPath))
  {
    ghost var s, path := c.store, TrimLeadingSlash(relPath);
    if FuseListing.IsEphemeral(BaseName(relPath)) {
      return false;
    }
    var ids := c.FindObjectsByExactPath(relPath, entries);
    var found := if ids.Some? then ids.value else [];
    if !opens {
      return false;
    }
    c.ObjectPut(relPath, payload, id);
    if id.None? {
      return false;
    }
    ghost var scan := if entries.Some? then entries.value else [];
    ReplacedKeeps(s, relPath, payload, id.value, scan, ok, 0);
    assert c.store == Replaced(s, NewObject(relPath, payload), id.value, found, ok, 0);
    for k := 0 to |found|
      invariant c.store == Replaced(s, NewObject(relPath, payload), id.value, found, ok, k)
      invariant old(c.history) <= c.history && AllKept(c.history, |old(c.history)|, s, path)
    {
      DeleteFound(c, relPath, payload, id.value, s, scan, found, ok, k, |old(c.history)|);
    }
    return true;
  }

  lemma OneMoreDeleted(s: Store, o: Object, id: string, found: seq<string>, ok: string -> bool, k: nat)
    requires k < |found|
    ensures Replaced(s, o, id, found, ok, k + 1) ==
            if found[k] != id && ok(found[k]) then Replaced(s, o, id, found, ok, k) - {found[k]}
            else Replaced(s, o, id, found, ok, k)
  {
    assert found[..k + 1] == found[..k] + [found[k]];
  }
}
