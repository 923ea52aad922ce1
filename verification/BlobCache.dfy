/**
  The on-disk blob cache: byte accounting, least-recently-used eviction, and
  fetch or store of one key. Each critical section is a function on the whole
  cache state; the class runs them in place, `BlobProtocol` interleaves them.
 */
module BlobCache {
  import opened Common

  /** One cached key. `waiters` are the channels closed when its fetch ends. */
  datatype Entry = Entry(path: string, size: nat, fetching: bool, failed: bool, waiters: set<nat>)
  {
    predicate Complete() {
      !fetching && !failed
    }
  }

  type Entries = map<string, Entry>

  datatype State = State(
    dir: string,
    maxBytes: nat,
    curBytes: int,
    lru: seq<string>,
    entries: Entries,
    disk: map<string, seq<byte>>)

  function FinalPath(dir: string, key: string): string {
    dir + "/" + key + ".blob"
  }

  function TmpPath(dir: string, key: string): string {
    FinalPath(dir, key) + ".tmp"
  }

  lemma PathsDiffer(dir: string, key: string, other: string)
    ensures FinalPath(dir, key) != "" && FinalPath(dir, key) != TmpPath(dir, other)
    ensures FinalPath(dir, key) == FinalPath(dir, other) <==> key == other
    ensures TmpPath(dir, key) == TmpPath(dir, other) <==> key == other
  {
    var a, b := FinalPath(dir, key), FinalPath(dir, other);
    var tmp := TmpPath(dir, other);
    assert a[|a| - 1] == 'b' && tmp[|tmp| - 1] == 'p';
    assert a[|dir| + 1..|a| - 5] == key && b[|dir| + 1..|b| - 5] == other;
    if TmpPath(dir, key) == TmpPath(dir, other) {
      assert a == TmpPath(dir, key)[..|a|] && b == TmpPath(dir, other)[..|b|];
    }
  }

  // ---------------------------------------------------------------------
  // The list of keys, most recent first
  // ---------------------------------------------------------------------

  predicate NoDup(s: seq<string>) {
    s == [] || (s[0] !in s[1..] && NoDup(s[1..]))
  }

  function RemoveFirst(s: seq<string>, key: string): seq<string> {
    if s == [] then []
    else if s[0] == key then s[1..]
    else [s[0]] + RemoveFirst(s[1..], key)
  }

  function Bumped(s: seq<string>, key: string): seq<string> {
    [key] + RemoveFirst(s, key)
  }

  function SizeOf(entries: Entries, key: string): nat {
    if key in entries then entries[key].size else 0
  }

  /** The bytes of the entries that `keys` names. */
  function Total(keys: seq<string>, entries: Entries): nat {
    if keys == [] then 0 else Total(keys[1..], entries) + SizeOf(entries, keys[0])
  }

  lemma {:induction false} RemoveFirstAt(s: seq<string>, key: string, i: nat)
    requires i < |s| && s[i] == key && key !in s[..i]
    ensures RemoveFirst(s, key) == s[..i] + s[i + 1..]
  {
    if i > 0 {
      assert s[0] == s[..i][0];
      assert key !in s[1..][..i - 1] by {
        assert s[1..][..i - 1] == s[..i][1..];
      }
      RemoveFirstAt(s[1..], key, i - 1);
      assert s[..i] == [s[0]] + s[1..][..i - 1];
    }
  }

  lemma {:induction false} RemoveFirstAbsent(s: seq<string>, key: string)
    requires key !in s
    ensures RemoveFirst(s, key) == s
  {
    if s != [] {
      RemoveFirstAbsent(s[1..], key);
    }
  }

  /** Removing a key from a list without duplicates leaves exactly the others, and their bytes. */
  lemma {:induction false} RemoveFirstKeeps(s: seq<string>, key: string, entries: Entries)
    requires NoDup(s)
    ensures NoDup(RemoveFirst(s, key))
    ensures forall x :: x in RemoveFirst(s, key) <==> x in s && x != key
    ensures Total(s, entries) == Total(RemoveFirst(s, key), entries) + if key in s then SizeOf(entries, key) else 0
  {
    if s != [] && s[0] != key {
      RemoveFirstKeeps(s[1..], key, entries);
      var r := RemoveFirst(s, key);
      assert r[1..] == RemoveFirst(s[1..], key);
    }
  }

  lemma BumpKeeps(s: seq<string>, key: string, entries: Entries)
    requires NoDup(s)
    ensures NoDup(Bumped(s, key))
    ensures forall x :: x in Bumped(s, key) <==> x in s || x == key
    ensures Total(Bumped(s, key), entries) == Total(s, entries) + if key in s then 0 else SizeOf(entries, key)
  {
    RemoveFirstKeeps(s, key, entries);
    assert Bumped(s, key)[1..] == RemoveFirst(s, key);
  }

  lemma {:induction false} TotalSame(keys: seq<string>, a: Entries, b: Entries)
    requires forall k :: k in keys ==> SizeOf(a, k) == SizeOf(b, k)
    ensures Total(keys, a) == Total(keys, b)
  {
    if keys != [] {
      TotalSame(keys[1..], a, b);
    }
  }

  /** Changing one entry changes the bytes by the difference of its sizes. */
  lemma {:induction false} TotalUpdate(keys: seq<string>, a: Entries, b: Entries, key: string)
    requires NoDup(keys)
    requires forall k :: k in keys && k != key ==> SizeOf(a, k) == SizeOf(b, k)
    ensures Total(keys, b) == Total(keys, a) + if key in keys then SizeOf(b, key) - SizeOf(a, key) else 0
  {
    if keys != [] {
      if keys[0] == key {
        TotalSame(keys[1..], a, b);
      } else {
        TotalUpdate(keys[1..], a, b, key);
      }
    }
  }

  lemma {:induction false} TotalConcat(x: seq<string>, y: seq<string>, entries: Entries)
    ensures Total(x + y, entries) == Total(x, entries) + Total(y, entries)
  {
    if x == [] {
      assert x + y == y;
    } else {
      assert (x + y)[1..] == x[1..] + y;
      TotalConcat(x[1..], y, entries);
    }
  }

  lemma {:induction false} NoDupPrefix(s: seq<string>, n: nat)
    requires NoDup(s) && n <= |s|
    ensures NoDup(s[..n])
    ensures forall x :: x in s[n..] ==> x !in s[..n]
  {
    if n > 0 {
      NoDupPrefix(s[1..], n - 1);
      assert s[..n][1..] == s[1..][..n - 1] && s[n..] == s[1..][n - 1..];
    }
  }

  // ---------------------------------------------------------------------
  // The critical sections
  // ---------------------------------------------------------------------

  /** A present, finished, unfailed entry is a hit. */
  predicate IsHit(s: State, key: string) {
    key in s.entries && s.entries[key].Complete()
  }

  predicate OnDisk(s: State, path: string, size: nat) {
    path in s.disk && |s.disk[path]| == size
  }

  function HitTouched(s: State, key: string): State {
    s.(lru := Bumped(s.lru, key))
  }

  /** The file of a hit is gone: its entry and its bytes go too. */
  function Forgot(s: State, key: string): State
    requires key in s.entries
  {
    s.(entries := s.entries - {key},
       lru := RemoveFirst(s.lru, key),
       curBytes := s.curBytes - s.entries[key].size)
  }

  function Begun(s: State, key: string): State {
    s.(entries := s.entries[key := Entry("", 0, true, false, {})], lru := Bumped(s.lru, key))
  }

  /** The end of a fetch; an entry that is no longer there stays away. */
  function Finished(s: State, key: string, path: string, size: nat, ok: bool): State {
    if key !in s.entries then s
    else if ok then
      s.(entries := s.entries[key := Entry(path, size, false, false, {})], curBytes := s.curBytes + size)
    else
      s.(entries := s.entries[key := s.entries[key].(fetching := false, failed := true, waiters := {})])
  }

  function EvictOne(s: State): State
    requires s.lru != []
  {
    var key := s.lru[|s.lru| - 1];
    var s' := s.(lru := s.lru[..|s.lru| - 1], entries := s.entries - {key});
    if key in s.entries && s.entries[key].path != "" then
      s'.(disk := s.disk - {s.entries[key].path}, curBytes := s.curBytes - s.entries[key].size)
    else s'
  }

  function Evicted(s: State): State
    decreases |s.lru|
  {
    if s.curBytes > s.maxBytes && s.lru != [] then Evicted(EvictOne(s)) else s
  }

  /** A moved-in file replaces whatever entry there was; the old file is removed by its path. */
  function Recorded(s: State, key: string, size: nat): State {
    var replaced := key in s.entries && !s.entries[key].failed && s.entries[key].path != "";
    State(s.dir, s.maxBytes,
          s.curBytes - (if replaced then s.entries[key].size else 0) + size,
          Bumped(s.lru, key),
          s.entries[key := Entry(FinalPath(s.dir, key), size, false, false, {})],
          if replaced then s.disk - {s.entries[key].path} else s.disk)
  }

  // ---------------------------------------------------------------------
  // What every critical section keeps, whatever else is going on
  // ---------------------------------------------------------------------

  /** Keys and entries agree, and the count is never below the tracked bytes. */
  ghost predicate Booked(s: State) {
    && NoDup(s.lru)
    && (forall k :: k in s.lru <==> k in s.entries)
    && (forall k :: k in s.entries && s.entries[k].path == "" ==> s.entries[k].size == 0)
    && Total(s.lru, s.entries) <= s.curBytes
  }

  /** The bytes counted for no entry. */
  function Leak(s: State): int {
    s.curBytes - Total(s.lru, s.entries)
  }

  lemma HitTouchedKeeps(s: State, key: string)
    requires Booked(s) && key in s.entries
    ensures Booked(HitTouched(s, key)) && Leak(HitTouched(s, key)) == Leak(s)
  {
    BumpKeeps(s.lru, key, s.entries);
  }

  lemma ForgotKeeps(s: State, key: string)
    requires Booked(s) && key in s.entries
    ensures Booked(Forgot(s, key)) && Leak(Forgot(s, key)) == Leak(s)
  {
    RemoveFirstKeeps(s.lru, key, s.entries);
    TotalSame(RemoveFirst(s.lru, key), s.entries, s.entries - {key});
  }

  lemma BegunKeeps(s: State, key: string)
    requires Booked(s)
    ensures Booked(Begun(s, key)) && Leak(Begun(s, key)) == Leak(s) + SizeOf(s.entries, key)
  {
    BumpKeeps(s.lru, key, s.entries);
    TotalUpdate(Bumped(s.lru, key), s.entries, Begun(s, key).entries, key);
  }

  lemma FinishedKeeps(s: State, key: string, path: string, size: nat, ok: bool)
    requires Booked(s) && (ok ==> path != "")
    ensures Booked(Finished(s, key, path, size, ok))
    ensures Leak(Finished(s, key, path, size, ok)) == Leak(s) + if ok then SizeOf(s.entries, key) else 0
  {
    TotalUpdate(s.lru, s.entries, Finished(s, key, path, size, ok).entries, key);
  }

  lemma EvictOneKeeps(s: State)
    requires Booked(s) && s.lru != []
    ensures Booked(EvictOne(s)) && Leak(EvictOne(s)) == Leak(s)
  {
    var n := |s.lru| - 1;
    var key := s.lru[n];
    NoDupPrefix(s.lru, n);
    assert s.lru == s.lru[..n] + [key] && s.lru[n..] == [key];
    TotalConcat(s.lru[..n], [key], s.entries);
    assert [key][1..] == [];
    TotalSame(s.lru[..n], s.entries, s.entries - {key});
  }

  /** After eviction the tracked bytes are within the limit, leaked or not. */
  lemma {:induction false} EvictedKeeps(s: State)
    requires Booked(s)
    ensures Booked(Evicted(s)) && Leak(Evicted(s)) == Leak(s)
    ensures Total(Evicted(s).lru, Evicted(s).entries) <= s.maxBytes
    decreases |s.lru|
  {
    if s.curBytes > s.maxBytes && s.lru != [] {
      EvictOneKeeps(s);
      EvictedKeeps(EvictOne(s));
    }
  }

  lemma RecordedKeeps(s: State, key: string, size: nat)
    requires Booked(s)
    ensures Booked(Recorded(s, key, size))
    ensures Leak(Recorded(s, key, size)) ==
            Leak(s) + if key in s.entries && s.entries[key].failed then s.entries[key].size else 0
  {
    BumpKeeps(s.lru, key, s.entries);
    TotalUpdate(Bumped(s.lru, key), s.entries, Recorded(s, key, size).entries, key);
  }

  /** More leaked bytes than the limit: every eviction empties the cache. */
  lemma {:induction false} LeakEmptiesCache(s: State)
    requires Booked(s) && Leak(s) > s.maxBytes
    ensures Evicted(s).lru == [] && Evicted(s).entries == map[]
    decreases |s.lru|
  {
    if s.lru != [] {
      EvictOneKeeps(s);
      LeakEmptiesCache(EvictOne(s));
    }
  }

  // ---------------------------------------------------------------------
  // What eviction keeps
  // ---------------------------------------------------------------------

  function Restricted(entries: Entries, keys: seq<string>): Entries {
    map k | k in entries && k in keys :: entries[k]
  }

  lemma {:induction false} TotalGrows(keys: seq<string>, entries: Entries, i: nat, j: nat)
    requires i <= j <= |keys|
    ensures Total(keys[..i], entries) <= Total(keys[..j], entries)
  {
    assert keys[..j] == keys[..i] + keys[i..j];
    TotalConcat(keys[..i], keys[i..j], entries);
  }

  /** `n` most recent keys are the most that fit the limit. */
  ghost predicate LongestFit(s: State, n: nat) {
    && n <= |s.lru|
    && forall j :: 0 <= j <= |s.lru| ==> (j <= n <==> Total(s.lru[..j], s.entries) <= s.maxBytes)
  }

  /** With exact accounting, eviction keeps exactly the longest most-recent prefix that fits. */
  lemma {:induction false} EvictsToLongestPrefix(s: State)
    requires Booked(s) && Leak(s) == 0
    ensures LongestFit(s, |Evicted(s).lru|)
    ensures Evicted(s).lru == s.lru[..|Evicted(s).lru|]
    ensures Evicted(s).entries == Restricted(s.entries, Evicted(s).lru)
    decreases |s.lru|
  {
    if s.curBytes > s.maxBytes && s.lru != [] {
      EvictOneKeeps(s);
      EvictsToLongestPrefix(EvictOne(s));
      OneMoreDoesNotFit(s, |Evicted(s).lru|);
      RestrictLess(s, Evicted(s).lru);
    } else {
      assert s.lru[..|s.lru|] == s.lru;
      forall j | 0 <= j <= |s.lru| ensures Total(s.lru[..j], s.entries) <= s.maxBytes {
        TotalGrows(s.lru, s.entries, j, |s.lru|);
      }
    }
  }

  lemma OneMoreDoesNotFit(s: State, n: nat)
    requires Booked(s) && Leak(s) == 0 && s.curBytes > s.maxBytes && s.lru != []
    requires LongestFit(EvictOne(s), n)
    ensures LongestFit(s, n)
  {
    var m := |s.lru|;
    var t := EvictOne(s);
    assert s.lru[..m] == s.lru;
    NoDupPrefix(s.lru, m - 1);
    forall j | 0 <= j < m ensures Total(s.lru[..j], s.entries) == Total(t.lru[..j], t.entries) {
      assert t.lru[..j] == s.lru[..j];
      KeysOfPrefix(s.lru, j, m - 1);
      TotalSame(s.lru[..j], s.entries, t.entries);
    }
  }

  lemma RestrictLess(s: State, keys: seq<string>)
    requires Booked(s) && s.lru != [] && |keys| < |s.lru| && keys == s.lru[..|keys|]
    ensures Restricted(EvictOne(s).entries, keys) == Restricted(s.entries, keys)
  {
    NoDupPrefix(s.lru, |s.lru| - 1);
    KeysOfPrefix(s.lru, |keys|, |s.lru| - 1);
  }

  lemma KeysOfPrefix(s: seq<string>, i: nat, j: nat)
    requires i <= j <= |s|
    ensures forall k :: k in s[..i] ==> k in s[..j]
  {
    assert s[..i] == s[..j][..i];
  }

  // ---------------------------------------------------------------------
  // One call at a time
  // ---------------------------------------------------------------------

  /** What the files under the cached keys hold, however they got there. */
  ghost predicate Intact(payload: string -> seq<byte>, s: State) {
    forall key :: FinalPath(s.dir, key) in s.disk ==> s.disk[FinalPath(s.dir, key)] == payload(key)
  }

  /** An entry between calls: failed and empty, or complete under its own path. */
  ghost predicate Settled(payload: string -> seq<byte>, s: State, key: string)
    requires key in s.entries
  {
    var e := s.entries[key];
    && !e.fetching
    && (if e.failed then e.path == "" && e.size == 0
        else e.path == FinalPath(s.dir, key) && e.size == |payload(key)|)
  }

  /** Between calls: nothing in flight, exact accounting, every cached file is its key's payload. */
  ghost predicate Sound(payload: string -> seq<byte>, s: State) {
    && Booked(s) && Leak(s) == 0
    && Intact(payload, s)
    && forall key :: key in s.entries ==> Settled(payload, s, key)
  }

  datatype GetResult = Got(path: string, size: nat) | Failed

  /** The whole effect of one fetch; `data` is what arrived, if anything did. */
  function Fetched(s: State, key: string, data: Option<seq<byte>>): State {
    var t := Begun(s, key).(disk := s.disk - {TmpPath(s.dir, key)});
    var final := FinalPath(s.dir, key);
    if data.None? then Finished(t, key, "", 0, false)
    else Evicted(Finished(t.(disk := t.disk[final := data.value]), key, final, |data.value|, true))
  }

  /** The whole effect of one `GetOrFetch` when nothing is in flight. */
  function GetState(s: State, key: string, data: Option<seq<byte>>): State {
    if key == "" then s
    else if !IsHit(s, key) then Fetched(s, key, data)
    else if OnDisk(s, s.entries[key].path, s.entries[key].size) then HitTouched(s, key)
    else Fetched(Forgot(HitTouched(s, key), key), key, data)
  }

  function GetAnswer(s: State, key: string, data: Option<seq<byte>>): GetResult {
    if key == "" then Failed
    else if IsHit(s, key) && OnDisk(s, s.entries[key].path, s.entries[key].size) then
      Got(s.entries[key].path, s.entries[key].size)
    else if data.None? then Failed
    else Got(FinalPath(s.dir, key), |data.value|)
  }

  /** The whole effect of one `StoreFromPath`, before the eviction it starts. */
  function Stored(s: State, key: string, src: string, renames: bool): State {
    if key == "" || src == "" || src !in s.disk || !renames then s
    else
      var final := FinalPath(s.dir, key);
      Recorded(s.(disk := (s.disk - {src})[final := s.disk[src]]), key, |s.disk[src]|)
  }

  /** Which files eviction removes: those of complete entries that it drops. */
  lemma {:induction false} EvictedDisk(s: State, key: string)
    requires Booked(s)
    requires forall k :: k in s.entries ==> s.entries[k].path == "" || s.entries[k].path == FinalPath(s.dir, k)
    ensures Evicted(s).dir == s.dir
    ensures var final := FinalPath(s.dir, key);
      && (final in Evicted(s).disk <==>
            final in s.disk && (key in s.entries && s.entries[key].path != "" ==> key in Evicted(s).entries))
      && (final in Evicted(s).disk ==> Evicted(s).disk[final] == s.disk[final])
    decreases |s.lru|
  {
    if s.curBytes > s.maxBytes && s.lru != [] {
      EvictOneKeeps(s);
      EvictedDisk(EvictOne(s), key);
      EvictedEntries(EvictOne(s));
      PathsDiffer(s.dir, key, s.lru[|s.lru| - 1]);
    }
  }

  lemma {:induction false} EvictedEntries(s: State)
    ensures forall k :: k in Evicted(s).entries ==> k in s.entries && Evicted(s).entries[k] == s.entries[k]
    decreases |s.lru|
  {
    if s.curBytes > s.maxBytes && s.lru != [] {
      EvictedEntries(EvictOne(s));
    }
  }

  lemma TmpIsNoBlob(payload: string -> seq<byte>, s: State, key: string)
    requires Intact(payload, s)
    ensures Intact(payload, s.(disk := s.disk - {TmpPath(s.dir, key)}))
  {
  }

  lemma BlobWritten(payload: string -> seq<byte>, s: State, key: string)
    requires Intact(payload, s)
    ensures Intact(payload, s.(disk := s.disk[FinalPath(s.dir, key) := payload(key)]))
  {
    forall k | FinalPath(s.dir, k) in s.disk[FinalPath(s.dir, key) := payload(key)]
      ensures s.disk[FinalPath(s.dir, key) := payload(key)][FinalPath(s.dir, k)] == payload(k)
    {
      PathsDiffer(s.dir, key, k);
    }
  }

  lemma EvictedSound(payload: string -> seq<byte>, s: State)
    requires Sound(payload, s)
    ensures Sound(payload, Evicted(s))
  {
    EvictedKeeps(s);
    EvictedEntries(s);
    EvictedDisk(s, "");
    forall key | FinalPath(s.dir, key) in Evicted(s).disk
      ensures Evicted(s).disk[FinalPath(s.dir, key)] == payload(key)
    {
      EvictedDisk(s, key);
    }
  }

  /** The state just before the eviction that ends a successful fetch. */
  function Arrived(s: State, key: string, data: seq<byte>): State {
    var final := FinalPath(s.dir, key);
    var t := Begun(s, key);
    Finished(t.(disk := (s.disk - {TmpPath(s.dir, key)})[final := data]), key, final, |data|, true)
  }

  lemma ArrivedSound(payload: string -> seq<byte>, s: State, key: string)
    requires Sound(payload, s) && !IsHit(s, key)
    ensures Sound(payload, Arrived(s, key, payload(key)))
    ensures Arrived(s, key, payload(key)).lru == Bumped(s.lru, key)
  {
    PathsDiffer(s.dir, key, key);
    BegunKeeps(s, key);
    var t := Begun(s, key).(disk := (s.disk - {TmpPath(s.dir, key)})[FinalPath(s.dir, key) := payload(key)]);
    TmpIsNoBlob(payload, s, key);
    BlobWritten(payload, s.(disk := s.disk - {TmpPath(s.dir, key)}), key);
    FinishedKeeps(t, key, FinalPath(s.dir, key), |payload(key)|, true);
    var r := Arrived(s, key, payload(key));
    assert r == Finished(t, key, FinalPath(s.dir, key), |payload(key)|, true);
    forall k | k in r.entries ensures Settled(payload, r, k) {
      assert k != key ==> Settled(payload, s, k);
    }
  }

  /** The newest blob outlives the eviction exactly when it fits the limit on its own. */
  lemma NewestFits(payload: string -> seq<byte>, s: State, key: string)
    requires Sound(payload, s) && s.lru != [] && s.lru[0] == key && IsHit(s, key)
    ensures FinalPath(s.dir, key) in Evicted(s).disk <==>
            FinalPath(s.dir, key) in s.disk && s.entries[key].size <= s.maxBytes
    ensures FinalPath(s.dir, key) in Evicted(s).disk ==> Evicted(s).lru != [] && Evicted(s).lru[0] == key
  {
    assert Settled(payload, s, key);
    PathsDiffer(s.dir, key, key);
    EvictedDisk(s, key);
    EvictsToLongestPrefix(s);
    EvictedKeeps(s);
    var n := |Evicted(s).lru|;
    assert s.lru[..1] == [key];
    assert Total([key], s.entries) == s.entries[key].size;
    assert 1 <= n <==> Total(s.lru[..1], s.entries) <= s.maxBytes;
    NoDupPrefix(s.lru, n);
    if n == 0 {
      assert key !in Evicted(s).lru;
    } else {
      assert s.lru[..n][0] == key;
    }
  }

  lemma FailedFetchSound(payload: string -> seq<byte>, s: State, key: string)
    requires Sound(payload, s) && !IsHit(s, key)
    ensures Sound(payload, Fetched(s, key, None))
  {
    BegunKeeps(s, key);
    TmpIsNoBlob(payload, s, key);
    var t := Begun(s, key).(disk := s.disk - {TmpPath(s.dir, key)});
    FinishedKeeps(t, key, "", 0, false);
    var r := Fetched(s, key, None);
    forall k | k in r.entries ensures Settled(payload, r, k) {
      assert k != key ==> Settled(payload, s, k);
    }
  }

  /** A fetched blob is there afterwards exactly when it fits the limit on its own. */
  lemma FetchedServes(payload: string -> seq<byte>, s: State, key: string, data: Option<seq<byte>>)
    requires Sound(payload, s) && !IsHit(s, key)
    requires data.Some? ==> data.value == payload(key)
    ensures Sound(payload, Fetched(s, key, data)) && Fetched(s, key, data).dir == s.dir
    ensures data.Some? ==>
              (FinalPath(s.dir, key) in Fetched(s, key, data).disk <==> |payload(key)| <= s.maxBytes)
  {
    if data.None? {
      FailedFetchSound(payload, s, key);
    } else {
      ArrivedSound(payload, s, key);
      var r := Arrived(s, key, payload(key));
      assert Fetched(s, key, data) == Evicted(r);
      EvictedSound(payload, r);
      NewestFits(payload, r, key);
      EvictedDisk(r, key);
    }
  }

  lemma ForgotSound(payload: string -> seq<byte>, s: State, key: string)
    requires Sound(payload, s) && key in s.entries
    ensures Sound(payload, Forgot(HitTouched(s, key), key))
    ensures !IsHit(Forgot(HitTouched(s, key), key), key)
  {
    HitTouchedKeeps(s, key);
    var t := HitTouched(s, key);
    ForgotKeeps(t, key);
    var r := Forgot(t, key);
    forall k | k in r.entries ensures Settled(payload, r, k) {
      assert Settled(payload, s, k);
    }
  }

  lemma HitSound(payload: string -> seq<byte>, s: State, key: string)
    requires Sound(payload, s) && key in s.entries
    ensures Sound(payload, HitTouched(s, key))
  {
    HitTouchedKeeps(s, key);
    var r := HitTouched(s, key);
    forall k | k in r.entries ensures Settled(payload, r, k) {
      assert Settled(payload, s, k);
    }
  }

  /**
    Whatever became of the files meanwhile, an answer names the key's own path
    and size; the file is there with the key's payload if it was already there
    or fits the limit, and an answer fails only when a needed fetch fails.
   */
  lemma GetServes(payload: string -> seq<byte>, s: State, key: string, data: Option<seq<byte>>)
    requires Sound(payload, s) && key != ""
    requires data.Some? ==> data.value == payload(key)
    ensures Sound(payload, GetState(s, key, data))
    ensures var final, size := FinalPath(s.dir, key), |payload(key)|;
      var served := IsHit(s, key) && final in s.disk;
      && GetAnswer(s, key, data) == (if served || data.Some? then Got(final, size) else Failed)
      && (served || data.Some? ==>
            (final in GetState(s, key, data).disk <==> served || size <= s.maxBytes))
      && (final in GetState(s, key, data).disk ==> GetState(s, key, data).disk[final] == payload(key))
  {
    if !IsHit(s, key) {
      FetchedServes(payload, s, key, data);
    } else {
      assert Settled(payload, s, key);
      if OnDisk(s, s.entries[key].path, s.entries[key].size) {
        HitSound(payload, s, key);
      } else {
        ForgotSound(payload, s, key);
        FetchedServes(payload, Forgot(HitTouched(s, key), key), key, data);
      }
    }
  }

  lemma StoredSound(payload: string -> seq<byte>, s: State, key: string, src: string, renames: bool)
    requires Sound(payload, s)
    requires src in s.disk ==> s.disk[src] == payload(key)
    ensures Sound(payload, Stored(s, key, src, renames))
  {
    if key != "" && src != "" && src in s.disk && renames {
      var final := FinalPath(s.dir, key);
      var t := s.(disk := (s.disk - {src})[final := s.disk[src]]);
      assert Intact(payload, s.(disk := s.disk - {src}));
      BlobWritten(payload, s.(disk := s.disk - {src}), key);
      if key in s.entries {
        assert Settled(payload, s, key);
      }
      RecordedKeeps(t, key, |s.disk[src]|);
      var r := Stored(s, key, src, renames);
      forall k | k in r.entries ensures Settled(payload, r, k) {
        assert k != key ==> Settled(payload, s, k);
      }
    }
  }

  /**
    Storing over a complete entry removes the file it has just moved in, and
    nothing else does; the next request for the key must fetch it.
   */
  lemma StoreKeepsItsFile(payload: string -> seq<byte>, s: State, key: string, src: string)
    requires Sound(payload, s) && key != "" && src != "" && src in s.disk && s.disk[src] == payload(key)
    ensures FinalPath(s.dir, key) in Stored(s, key, src, true).disk <==> !IsHit(s, key)
    ensures forall data :: GetAnswer(Stored(s, key, src, true), key, data).Failed? <==> IsHit(s, key) && data.None?
  {
    PathsDiffer(s.dir, key, key);
    if key in s.entries {
      assert Settled(payload, s, key);
    }
  }

  // ---------------------------------------------------------------------
  // Runs of whole calls
  // ---------------------------------------------------------------------

  datatype Call =
    | Get(key: string, data: Option<seq<byte>>)
    | Store(key: string, src: string, renames: bool)
    | Evict
    | Outside(disk: map<string, seq<byte>>)

  /** Fetches and moved-in files bring their key's payload; nothing outside puts a wrong file under a key's path. */
  ghost predicate Legal(payload: string -> seq<byte>, s: State, call: Call) {
    match call
    case Get(key, data) => data.Some? ==> data.value == payload(key)
    case Store(key, src, renames) => src in s.disk ==> s.disk[src] == payload(key)
    case Evict => true
    case Outside(disk) => Intact(payload, s.(disk := disk))
  }

  function Apply(s: State, call: Call): State {
    match call
    case Get(key, data) => GetState(s, key, data)
    case Store(key, src, renames) => Stored(s, key, src, renames)
    case Evict => Evicted(s)
    case Outside(disk) => s.(disk := disk)
  }

  ghost predicate IsCallRun(payload: string -> seq<byte>, run: seq<State>, calls: seq<Call>) {
    && |run| == |calls| + 1
    && run[0].lru == [] && run[0].entries == map[] && run[0].curBytes == 0 && Intact(payload, run[0])
    && forall i :: 0 <= i < |calls| ==> Legal(payload, run[i], calls[i]) && run[i + 1] == Apply(run[i], calls[i])
  }

  /** Accounting is exact and no cached file is ever wrong, after any calls and any loss of files. */
  lemma {:induction false} RunSound(payload: string -> seq<byte>, run: seq<State>, calls: seq<Call>, n: nat)
    requires IsCallRun(payload, run, calls) && n <= |calls|
    ensures Sound(payload, run[n])
  {
    if n > 0 {
      RunSound(payload, run, calls, n - 1);
      var s, call := run[n - 1], calls[n - 1];
      assert Legal(payload, s, call);
      match call
      case Get(key, data) =>
        if key != "" {
          GetServes(payload, s, key, data);
        }
      case Store(key, src, renames) =>
        StoredSound(payload, s, key, src, renames);
      case Evict =>
        EvictedSound(payload, s);
      case Outside(disk) =>
        forall k | k in s.entries ensures Settled(payload, s.(disk := disk), k) {
          assert Settled(payload, s, k);
        }
    }
  }
}
