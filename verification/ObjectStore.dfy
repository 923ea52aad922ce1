/**
  A container of immutable objects as the file system sees it: an object is
  found by its FilePath or Key attribute, put under a new ID, and deleted by ID.
  Every request is one step and may fail.
 */
module ObjectStore {
  import opened Common
  import opened Paths
  import opened Listing

  datatype Object = Object(filePath: string, key: string, payload: seq<byte>)

  type Store = map<string, Object>

  /** An object goes by its FilePath and by its Key, one leading slash aside. */
  predicate GoesBy(filePath: string, key: string, path: string) {
    TrimLeadingSlash(filePath) == path || TrimLeadingSlash(key) == path
  }

  predicate Named(o: Object, path: string) {
    GoesBy(o.filePath, o.key, path)
  }

  /** One of the object's two attributes is `p`, with or without a slash in front. */
  ghost predicate Titled(o: Object, p: string) {
    o.filePath == p || o.filePath == "/" + p || o.key == p || o.key == "/" + p
  }

  /** What an object goes by: any path that does not itself begin with a slash. */
  lemma TitledIsNamed(o: Object, p: string)
    requires p == "" || p[0] != '/'
    ensures Named(o, p) <==> Titled(o, p)
  {
    assert ("/" + p)[1..] == p;
    if o.filePath != "" && o.filePath[0] == '/' {
      assert o.filePath == "/" + o.filePath[1..];
    }
    if o.key != "" && o.key[0] == '/' {
      assert o.key == "/" + o.key[1..];
    }
  }

  ghost predicate HasPath(s: Store, path: string) {
    exists id :: id in s && Named(s[id], path)
  }

  /** The object that a put under `path` creates. */
  function NewObject(path: string, payload: seq<byte>): Object {
    Object("/" + TrimLeadingSlash(path), "", payload)
  }

  lemma NewObjectIsNamed(path: string, payload: seq<byte>)
    ensures Named(NewObject(path, payload), TrimLeadingSlash(path))
    ensures forall other :: Named(NewObject(path, payload), other) ==> other == TrimLeadingSlash(path) || other == ""
  {
  }

  function ExactMatches(entries: seq<SearchEntry>, path: string): seq<string> {
    if entries == [] then []
    else
      var e := entries[|entries| - 1];
      ExactMatches(entries[..|entries| - 1], path) + if GoesBy(e.filePath, e.key, path) then [e.objectId] else []
  }

  /** What a scan says of an object that exists is right; it may be out of date otherwise. */
  ghost predicate Truthful(entries: seq<SearchEntry>, s: Store) {
    forall i :: 0 <= i < |entries| ==> TrueOf(entries[i], s)
  }

  ghost predicate TrueOf(e: SearchEntry, s: Store) {
    e.objectId in s ==> e.filePath == s[e.objectId].filePath && e.key == s[e.objectId].key
  }

  ghost predicate ListsId(entries: seq<SearchEntry>, id: string) {
    exists i :: 0 <= i < |entries| && entries[i].objectId == id
  }

  /** An up-to-date scan: it misses no object. */
  ghost predicate Fresh(entries: seq<SearchEntry>, s: Store) {
    Truthful(entries, s) && forall id :: id in s ==> ListsId(entries, id)
  }

  /** The matches of a truthful scan are objects with the path; those of a fresh scan are all of them. */
  lemma {:induction false} MatchesAre(entries: seq<SearchEntry>, s: Store, path: string, id: string)
    requires Truthful(entries, s) && id in s
    ensures id in ExactMatches(entries, path) ==> Named(s[id], path)
    ensures ListsId(entries, id) && Named(s[id], path) ==> id in ExactMatches(entries, path)
  {
    if entries != [] {
      var entries', e := entries[..|entries| - 1], entries[|entries| - 1];
      assert TrueOf(e, s);
      forall i | 0 <= i < |entries'| ensures TrueOf(entries'[i], s) {
        assert TrueOf(entries[i], s);
      }
      MatchesAre(entries', s, path, id);
      if ListsId(entries, id) && e.objectId != id {
        var i :| 0 <= i < |entries| && entries[i].objectId == id;
        assert entries'[i].objectId == id;
      }
    }
  }

  class Container {
    var store: Store
    ghost var history: seq<Store>

    /** `entries` is what the container scan returns, up to date or not; None when it fails. */
    method FindObjectsByExactPath(relPath: string, entries: Option<seq<SearchEntry>>) returns (ids: Option<seq<string>>)
      ensures ids == if entries.None? then None else Some(ExactMatches(entries.value, TrimLeadingSlash(relPath)))
    {
      if entries.None? {
        return None;
      }
      var path := TrimLeadingSlash(relPath);
      var out: seq<string> := [];
      for n := 0 to |entries.value|
        invariant out == ExactMatches(entries.value[..n], path)
      {
        var e := entries.value[n];
        assert entries.value[..n + 1][..n] == entries.value[..n];
        if TrimLeadingSlash(e.filePath) == path || TrimLeadingSlash(e.key) == path {
          out := out + [e.objectId];
        }
      }
      assert entries.value[..|entries.value|] == entries.value;
      return Some(out);
    }

    /** Stores a payload under `path` as object `id`; None when it fails. */
    method ObjectPut(path: string, payload: seq<byte>, id: Option<string>)
      modifies this
      ensures store == if id.None? then old(store) else old(store)[id.value := NewObject(path, payload)]
      ensures history == old(history) + [store]
    {
      if id.Some? {
        store := store[id.value := NewObject(path, payload)];
      }
      history := history + [store];
    }

    method ObjectDelete(id: string, ok: bool)
      modifies this
      ensures store == if ok then old(store) - {id} else old(store)
      ensures history == old(history) + [store]
    {
      if ok {
        store := store - {id};
      }
      history := history + [store];
    }
  }
}
