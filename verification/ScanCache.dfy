/**
  The scan cache as an object, one call at a time: entries are kept in arrays,
  each with its trie, and every caller gets an array of its own.
 */
module ScanCache {
  import opened Common
  import opened Paths
  import opened Listing
  import opened ListingIndex
  import opened ListingTrie

  /** One cached scan with the trie built for it. */
  class Record {
    const at: nat
    const entries: array<SearchEntry>
    const trie: ListingTrie

    ghost predicate Valid()
      reads entries, trie, trie.repr
    {
      trie.Valid() && trie.index == IndexOf(Items(entries[..]))
    }

    constructor (at: nat, entries: array<SearchEntry>)
      ensures this.at == at && this.entries == entries
      ensures Valid() && fresh(trie) && fresh(trie.repr)
    {
      this.at := at;
      this.entries := entries;
      var t := BuildListingTrie(entries[..]);
      trie := t;
    }
  }

  /** Copies a slice into one that nobody else holds. */
  method Copy(entries: array<SearchEntry>) returns (out: array<SearchEntry>)
    ensures fresh(out) && out[..] == entries[..]
  {
    out := new SearchEntry[entries.Length](i requires 0 <= i < entries.Length reads entries => entries[i]);
  }

  datatype Outcome = Ok(entries: seq<SearchEntry>) | Err(message: string)

  datatype Scan = Scan(at: nat, entries: seq<SearchEntry>)

  class Cache {
    var records: map<string, Record>
    ghost var cached: map<string, Scan>
    ghost var repr: set<object>

    ghost predicate Holds(key: string)
      requires key in records
      reads this, repr
    {
      var r := records[key];
      && r in repr && r.entries in repr && r.trie in repr && r.trie.repr <= repr
      && r.Valid() && key in cached && cached[key] == Scan(r.at, r.entries[..])
    }

    ghost predicate Valid()
      reads this, repr
    {
      && this !in repr
      && records.Keys == cached.Keys
      && forall key {:trigger Holds(key)} :: key in records ==> Holds(key)
    }

    /** A record outlives whatever touches only the maps around it. */
    twostate lemma HoldsStays(key: string)
      requires old(key in records && Holds(key)) && this !in old(repr) && unchanged(old(repr))
      requires key in records && records[key] == old(records[key])
      requires key in cached && cached[key] == old(cached[key]) && old(repr) <= repr
      ensures Holds(key)
    {
    }

    /** A valid record holds what the maps around it say of it. */
    lemma HoldsNew(key: string, r: Record)
      requires key in records && records[key] == r && r.Valid()
      requires r in repr && r.entries in repr && r.trie in repr && r.trie.repr <= repr
      requires key in cached && cached[key] == Scan(r.at, r.entries[..])
      ensures Holds(key)
    {
    }

    /** The maps around a new, valid record are valid again. */
    twostate lemma Published(key: string, new r: Record)
      requires old(Valid()) && unchanged(old(repr)) && r.Valid()
      requires records == old(records)[key := r]
      requires cached == old(cached)[key := Scan(r.at, r.entries[..])]
      requires old(repr) <= repr && this !in repr
      requires r in repr && r.entries in repr && r.trie in repr && r.trie.repr <= repr
      ensures Valid()
    {
      forall k | k in records ensures Holds(k) {
        if k == key {
          HoldsNew(key, r);
        } else {
          assert old(Holds(k));
          HoldsStays(k);
        }
      }
    }

    constructor ()
      ensures Valid() && cached == map[] && repr == {}
    {
      records := map[];
      cached := map[];
      repr := {};
    }

    /** Publishes a finished scan with its trie. */
    method Publish(key: string, now: nat, entries: array<SearchEntry>)
      requires Valid()
      modifies this
      ensures Valid() && cached == old(cached)[key := Scan(now, entries[..])]
      ensures fresh(repr - old(repr) - {entries}) && old(repr) <= repr
    {
      var r := new Record(now, entries);
      ghost var footprint := {r, r.entries, r.trie} + r.trie.repr;
      assert fresh(footprint - {entries});
      records := records[key := r];
      cached := cached[key := Scan(now, entries[..])];
      repr := repr + footprint;
      Published(key, r);
    }

    method InvalidateContainerScan(key: string)
      requires Valid()
      modifies this
      ensures Valid() && cached == old(cached) - {key} && repr == old(repr)
    {
      records := records - {key};
      cached := cached - {key};
      forall k | k in records ensures Holds(k) {
        assert old(Holds(k));
        HoldsStays(k);
      }
    }

    /**
      The entries of a container: a copy of the cached scan while it is fresh,
      else a copy of a new one. Nobody else holds the array, so whatever the
      caller writes to it reaches neither the cache nor its trie.
     */
    method ListEntriesByHeadScan(key: string, now: nat, scan: Outcome)
      returns (out: array?<SearchEntry>, leader: bool)
      requires Valid()
      modifies this
      ensures Valid() && old(repr) <= repr && fresh(repr - old(repr))
      ensures leader <==> key !in old(cached) || now >= old(cached)[key].at + 300
      ensures out == null <==> leader && scan.Err?
      ensures out != null ==> fresh(out) && out !in repr
      ensures out != null ==> out[..] == if leader then scan.entries else old(cached)[key].entries
      ensures cached == if leader && scan.Ok? then old(cached)[key := Scan(now, scan.entries)] else old(cached)
    {
      if key in records && now - records[key].at < SCAN_TTL {
        assert Holds(key);
        out := Copy(records[key].entries);
        return out, false;
      }
      leader := true;
      assert key in records ==> Holds(key);
      if scan.Err? {
        return null, true;
      }
      var entries := new SearchEntry[|scan.entries|](i requires 0 <= i < |scan.entries| => scan.entries[i]);
      assert entries[..] == scan.entries;
      Publish(key, now, entries);
      out := Copy(entries);
    }

    /** What the cached trie lists under a prefix; the linear scan is tried when it lists nothing. */
    method ListCached(key: string, prefix: string) returns (out: seq<DirEntry>)
      requires Valid() && key in records
      ensures out == TrieListing(Items(cached[key].entries), PrefixSegments(prefix))
    {
      assert Holds(key);
      var r := records[key];
      var norm := NormalizePrefix(prefix);
      IndexReachable(r.entries[..]);
      IndexListsTheTrie(r.entries[..], PrefixSegments(norm));
      FallbackNeverUsed(r.entries[..], prefix);
      out := r.trie.ListImmediateChildren(norm);
      if |out| == 0 && r.entries.Length > 0 {
        var alt := ListEntriesByPrefixLinear(r.entries[..], norm);
        if |alt| > 0 {
          out := alt;
        }
      }
      NormalizeIdempotent(prefix);
    }

    /** The children of a directory of the container, from a fresh or a new scan. */
    method ListEntriesByPrefix(key: string, prefix: string, now: nat, scan: Outcome)
      returns (out: Option<seq<DirEntry>>)
      requires Valid()
      modifies this
      ensures Valid() && old(repr) <= repr && fresh(repr - old(repr))
      ensures var scans := key !in old(cached) || now >= old(cached)[key].at + 300;
        && cached == (if scans && scan.Ok? then old(cached)[key := Scan(now, scan.entries)] else old(cached))
        && out == if scans && scan.Err? then None
                  else Some(TrieListing(Items(cached[key].entries), PrefixSegments(prefix)))
    {
      if key in records && now - records[key].at < SCAN_TTL {
        assert Holds(key);
        var listed := ListCached(key, prefix);
        return Some(listed);
      }
      assert key in records ==> Holds(key);
      var entries, leader := ListEntriesByHeadScan(key, now, scan);
      if entries == null {
        return None;
      }
      var listed := ListCached(key, prefix);
      return Some(listed);
    }
  }
}
