/** The blob cache as an object whose methods update its books and files in place, one call at a time. */
module BlobFiles {
  import opened Common
  import opened BlobCache

  class Cache {
    const dir: string
    const maxBytes: nat
    var curBytes: int
    var lru: seq<string>
    var entries: Entries
    var disk: map<string, seq<byte>>

    function Now(): State
      reads this
    {
      State(dir, maxBytes, curBytes, lru, entries, disk)
    }

    constructor (dir: string, maxBytes: nat, disk: map<string, seq<byte>>)
      ensures Now() == State(dir, maxBytes, 0, [], map[], disk)
    {
      this.dir := dir;
      this.maxBytes := maxBytes;
      this.curBytes := 0;
      this.lru := [];
      this.entries := map[];
      this.disk := disk;
    }

    method RemoveFromLRU(key: string)
      modifies this`lru
      ensures lru == RemoveFirst(old(lru), key)
    {
      for i := 0 to |lru|
        invariant lru == old(lru) && key !in lru[..i]
      {
        if lru[i] == key {
          RemoveFirstAt(lru, key, i);
          lru := lru[..i] + lru[i + 1..];
          return;
        }
      }
      RemoveFirstAbsent(lru, key);
    }

    method BumpLRU(key: string)
      modifies this`lru
      ensures lru == Bumped(old(lru), key)
    {
      RemoveFromLRU(key);
      lru := [key] + lru;
    }

    method FinishFetch(key: string, path: string, size: nat, ok: bool)
      modifies this`entries, this`curBytes
      ensures Now() == Finished(old(Now()), key, path, size, ok)
    {
      if key !in entries {
        return;
      }
      var e := entries[key].(fetching := false, failed := !ok);
      if ok {
        e := e.(path := path, size := size);
        curBytes := curBytes + size;
      }
      entries := entries[key := e.(waiters := {})];
    }

    method EvictIfNeeded()
      modifies this`lru, this`entries, this`curBytes, this`disk
      ensures Now() == Evicted(old(Now()))
    {
      while curBytes > maxBytes && |lru| > 0
        invariant Evicted(Now()) == Evicted(old(Now()))
        decreases |lru|
      {
        var key := lru[|lru| - 1];
        lru := lru[..|lru| - 1];
        var e := if key in entries then Some(entries[key]) else None;
        entries := entries - {key};
        if e.Some? && e.value.path != "" {
          disk := disk - {e.value.path};
          curBytes := curBytes - e.value.size;
        }
      }
    }

    /** Removes a hit whose file is gone from the books. */
    method Forget(key: string)
      requires key in entries
      modifies this`lru, this`entries, this`curBytes
      ensures Now() == Forgot(old(Now()), key)
    {
      curBytes := curBytes - entries[key].size;
      entries := entries - {key};
      RemoveFromLRU(key);
    }

    /** `data` is what the fetch writes; None when opening, fetching, closing or renaming fails. */
    method GetOrFetch(key: string, data: Option<seq<byte>>) returns (r: GetResult)
      requires key in entries ==> !entries[key].fetching
      modifies this
      ensures Now() == GetState(old(Now()), key, data)
      ensures r == GetAnswer(old(Now()), key, data)
    {
      if key == "" {
        return Failed;
      }
      while key in entries && !entries[key].fetching && !entries[key].failed
        invariant Now() == old(Now())
               || (old(IsHit(Now(), key) && !OnDisk(Now(), entries[key].path, entries[key].size))
                   && Now() == Forgot(HitTouched(old(Now()), key), key))
        decreases key in entries
      {
        var e := entries[key];
        BumpLRU(key);
        if e.path in disk && |disk[e.path]| == e.size {
          return Got(e.path, e.size);
        }
        Forget(key);
      }
      r := Fetch(key, data);
    }

    method Fetch(key: string, data: Option<seq<byte>>) returns (r: GetResult)
      modifies this
      ensures Now() == Fetched(old(Now()), key, data)
      ensures r == if data.None? then Failed else Got(FinalPath(dir, key), |data.value|)
    {
      entries := entries[key := Entry("", 0, true, false, {})];
      BumpLRU(key);
      disk := disk - {TmpPath(dir, key)};
      if data.None? {
        FinishFetch(key, "", 0, false);
        return Failed;
      }
      var final := FinalPath(dir, key);
      disk := disk[final := data.value];
      FinishFetch(key, final, |data.value|, true);
      EvictIfNeeded();
      return Got(final, |data.value|);
    }

    /** Moves a file into the cache; the eviction that follows runs on its own. */
    method StoreFromPath(key: string, src: string, renames: bool) returns (r: GetResult)
      modifies this
      ensures Now() == Stored(old(Now()), key, src, renames)
      ensures r == if key == "" || src == "" || src !in old(disk) || !renames then Failed
                   else Got(FinalPath(dir, key), |old(disk)[src]|)
    {
      if key == "" || src == "" || src !in disk {
        return Failed;
      }
      var size := |disk[src]|;
      var final := FinalPath(dir, key);
      if !renames {
        return Failed;
      }
      disk := (disk - {src})[final := disk[src]];
      if key in entries && !entries[key].failed && entries[key].path != "" {
        curBytes := curBytes - entries[key].size;
        disk := disk - {entries[key].path};
      }
      entries := entries[key := Entry(final, size, false, false, {})];
      BumpLRU(key);
      curBytes := curBytes + size;
      return Got(final, size);
    }
  }
}
