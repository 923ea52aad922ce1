/**
  Any number of uploads on close at once, with scans that may be out of date,
  failing requests, and new objects under IDs never used before. Only paths under
  which closing a file puts an object are uploaded to.

  `ever` is history: every object that was ever there. So is `last`: the ID most
  recently put under each path.
 */
module UploadProtocol {
  import opened Common
  import opened Paths
  import opened Listing
  import opened ObjectStore
  import Uploads
  import FuseListing
  import FuseNames

  /** What a file or a directory may be called when it is created. */
  predicate IsName(seg: string) {
    seg != "" && seg != "." && seg != ".."
  }

  /** Closing a file at `path` puts an object there: it can be created, and is no editor's temporary file. */
  predicate Uploadable(path: string): (b: bool)
    ensures b ==> path != ""
  {
    && (forall i :: 0 <= i < |Split(path)| ==> IsName(Split(path)[i]))
    && !FuseListing.IsEphemeral(Uploads.BaseName(path))
  }

  /** A path of file names can be uploaded to unless a name is `.` or `..` or the last one is a temporary file's. */
  lemma UploadableMeans(segs: seq<string>)
    requires segs != [] && forall i :: 0 <= i < |segs| ==> '/' !in segs[i]
    ensures Uploadable(Join(segs)) <==>
            (forall i :: 0 <= i < |segs| ==> segs[i] != "" && segs[i] != "." && segs[i] != "..")
            && !FuseNames.Temporary(segs[|segs| - 1])
  {
    SplitJoin(segs);
    UploadableSegments(Join(segs), segs);
    FuseNames.EphemeralIsTemporary(segs[|segs| - 1]);
  }

  lemma UploadableSegments(path: string, segs: seq<string>)
    requires Split(path) == segs
    ensures Uploadable(path) <==>
            (forall i :: 0 <= i < |segs| ==> segs[i] != "" && segs[i] != "." && segs[i] != "..")
            && !FuseListing.IsEphemeral(segs[|segs| - 1])
  {
    forall i | 0 <= i < |segs| ensures IsName(Split(path)[i]) <==> segs[i] != "" && segs[i] != "." && segs[i] != ".." {
    }
  }

  datatype Pc =
    | AtScan(payload: seq<byte>)
    | AtPut(payload: seq<byte>, found: seq<string>)
    | AtDelete(id: string, rest: seq<string>)
    | AtDone

  datatype Upload = Upload(path: string, pc: Pc)

  datatype Sys = Sys(store: Store, uploads: map<nat, Upload>, ever: Store, last: map<string, string>)

  ghost predicate Init(s: Sys) {
    s.uploads == map[] && s.ever == s.store && s.last == map[]
  }

  function Go(s: Sys, u: nat, pc: Pc): map<nat, Upload>
    requires u in s.uploads
  {
    s.uploads[u := s.uploads[u].(pc := pc)]
  }

  ghost predicate Begin(s: Sys, s': Sys, u: nat, relPath: string, payload: seq<byte>) {
    && u !in s.uploads && Uploadable(TrimLeadingSlash(relPath))
    && s' == s.(uploads := s.uploads[u := Upload(TrimLeadingSlash(relPath), AtScan(payload))])
  }

  /** A scan tells of objects that are or were there; a failed one tells nothing. */
  ghost predicate Scan(s: Sys, s': Sys, u: nat, entries: seq<SearchEntry>) {
    && u in s.uploads && s.uploads[u].pc.AtScan?
    && (forall i :: 0 <= i < |entries| ==> entries[i].objectId in s.ever && TrueOf(entries[i], s.ever))
    && s' == s.(uploads := Go(s, u, AtPut(s.uploads[u].pc.payload, ExactMatches(entries, s.uploads[u].path))))
  }

  ghost predicate Put(s: Sys, s': Sys, u: nat, id: Option<string>) {
    && u in s.uploads && s.uploads[u].pc.AtPut?
    && var path := s.uploads[u].path;
       if id.None? then s' == s.(uploads := Go(s, u, AtDone))
       else
         var o := Object("/" + path, "", s.uploads[u].pc.payload);
         && id.value !in s.ever
         && s' == Sys(s.store[id.value := o], Go(s, u, AtDelete(id.value, s.uploads[u].pc.found)),
                      s.ever[id.value := o], s.last[path := id.value])
  }

  ghost predicate Delete(s: Sys, s': Sys, u: nat, ok: bool) {
    && u in s.uploads && s.uploads[u].pc.AtDelete?
    && var pc := s.uploads[u].pc;
       if pc.rest == [] then s' == s.(uploads := Go(s, u, AtDone))
       else
         s' == s.(store := if pc.rest[0] != pc.id && ok then s.store - {pc.rest[0]} else s.store,
                  uploads := Go(s, u, AtDelete(pc.id, pc.rest[1..])))
  }

  datatype Step =
    | DoBegin(u: nat, relPath: string, payload: seq<byte>)
    | DoScan(u: nat, entries: seq<SearchEntry>)
    | DoPut(u: nat, id: Option<string>)
    | DoDelete(u: nat, ok: bool)

  ghost predicate NextBy(s: Sys, s': Sys, step: Step) {
    match step
    case DoBegin(u, relPath, payload) => Begin(s, s', u, relPath, payload)
    case DoScan(u, entries) => Scan(s, s', u, entries)
    case DoPut(u, id) => Put(s, s', u, id)
    case DoDelete(u, ok) => Delete(s, s', u, ok)
  }

  ghost predicate IsRun(run: seq<Sys>, steps: seq<Step>) {
    && |run| == |steps| + 1 && Init(run[0])
    && forall i {:trigger StepAt(run, steps, i)} :: 0 <= i < |steps| ==> StepAt(run, steps, i)
  }

  ghost predicate StepAt(run: seq<Sys>, steps: seq<Step>, i: nat)
    requires i < |steps| && |run| == |steps| + 1
  {
    NextBy(run[i], run[i + 1], steps[i])
  }

  // ---------------------------------------------------------------------
  // What holds in every reachable state
  // ---------------------------------------------------------------------

  /** IDs found under `path` are of objects that had it. */
  ghost predicate FoundUnder(ever: Store, path: string, found: seq<string>) {
    forall i :: 0 <= i < |found| ==> found[i] in ever && Named(ever[found[i]], path)
  }

  ghost predicate UploadInv(s: Sys, up: Upload) {
    && Uploadable(up.path)
    && (up.pc.AtPut? ==> FoundUnder(s.ever, up.path, up.pc.found))
    && (up.pc.AtDelete? ==>
          FoundUnder(s.ever, up.path, up.pc.rest) && up.path in s.last && s.last[up.path] !in up.pc.rest)
  }

  /** The object put last under `path` is there, under no other path. */
  ghost predicate LastInv(s: Sys, path: string)
    requires path in s.last
  {
    var id := s.last[path];
    && Uploadable(path) && id in s.store && id in s.ever && Named(s.ever[id], path)
    && forall other :: other != "" && Named(s.ever[id], other) ==> other == path
  }

  ghost predicate Inv(s: Sys) {
    && (forall id :: id in s.store ==> id in s.ever && s.store[id] == s.ever[id])
    && (forall id :: id in s.ever && id !in s.store ==> exists path :: path in s.last && Named(s.ever[id], path))
    && (forall path {:trigger LastInv(s, path)} :: path in s.last ==> LastInv(s, path))
    && (forall u :: u in s.uploads ==> UploadInv(s, s.uploads[u]))
  }

  lemma {:induction false} MatchesWere(entries: seq<SearchEntry>, ever: Store, path: string)
    requires forall i :: 0 <= i < |entries| ==> entries[i].objectId in ever && TrueOf(entries[i], ever)
    ensures FoundUnder(ever, path, ExactMatches(entries, path))
  {
    if entries != [] {
      MatchesWere(entries[..|entries| - 1], ever, path);
      assert TrueOf(entries[|entries| - 1], ever);
    }
  }

  lemma ScanInv(s: Sys, s': Sys, u: nat, entries: seq<SearchEntry>)
    requires Inv(s) && Scan(s, s', u, entries)
    ensures Inv(s')
  {
    MatchesWere(entries, s.ever, s.uploads[u].path);
    forall path | path in s'.last ensures LastInv(s', path) {
      assert LastInv(s, path);
    }
  }

  lemma BeginInv(s: Sys, s': Sys, u: nat, relPath: string, payload: seq<byte>)
    requires Inv(s) && Begin(s, s', u, relPath, payload)
    ensures Inv(s')
  {
    forall path | path in s'.last ensures LastInv(s', path) {
      assert LastInv(s, path);
    }
  }

  /** An object put under `path` is the last one there, and another path's last one stays. */
  lemma PutLast(s: Sys, s': Sys, u: nat, id: Option<string>, path: string)
    requires Inv(s) && Put(s, s', u, id) && path in s'.last
    ensures LastInv(s', path)
  {
    if path in s.last {
      assert LastInv(s, path);
    }
    if path == s.uploads[u].path {
      assert UploadInv(s, s.uploads[u]);
    }
  }

  lemma PutUpload(s: Sys, s': Sys, u: nat, id: Option<string>, v: nat)
    requires Inv(s) && Put(s, s', u, id) && v in s'.uploads
    ensures UploadInv(s', s'.uploads[v])
  {
    assert UploadInv(s, s.uploads[v]);
  }

  lemma PutInv(s: Sys, s': Sys, u: nat, id: Option<string>)
    requires Inv(s) && Put(s, s', u, id)
    ensures Inv(s')
  {
    forall p | p in s'.last ensures LastInv(s', p) {
      PutLast(s, s', u, id, p);
    }
    forall j | j in s'.ever && j !in s'.store ensures exists p :: p in s'.last && Named(s'.ever[j], p) {
      var p :| p in s.last && Named(s.ever[j], p);
      assert p in s'.last && Named(s'.ever[j], p);
    }
    forall v | v in s'.uploads ensures UploadInv(s', s'.uploads[v]) {
      PutUpload(s, s', u, id, v);
    }
  }

  lemma DeleteLast(s: Sys, s': Sys, u: nat, ok: bool, path: string)
    requires Inv(s) && Delete(s, s', u, ok) && path in s'.last
    ensures LastInv(s', path)
  {
    assert LastInv(s, path);
    assert UploadInv(s, s.uploads[u]);
  }

  lemma DeleteUpload(s: Sys, s': Sys, u: nat, ok: bool, v: nat)
    requires Inv(s) && Delete(s, s', u, ok) && v in s'.uploads
    ensures UploadInv(s', s'.uploads[v])
  {
    assert UploadInv(s, s.uploads[v]);
  }

  /** What is gone was found under the path of an upload that has put its own object there. */
  lemma DeleteGone(s: Sys, s': Sys, u: nat, ok: bool, j: string)
    requires Inv(s) && Delete(s, s', u, ok) && j in s'.ever && j !in s'.store
    ensures exists p :: p in s'.last && Named(s'.ever[j], p)
  {
    var up := s.uploads[u];
    assert UploadInv(s, up);
    if j in s.store {
      assert j == up.pc.rest[0];
      assert up.path in s'.last && Named(s'.ever[j], up.path);
    } else {
      var p :| p in s.last && Named(s.ever[j], p);
      assert p in s'.last && Named(s'.ever[j], p);
    }
  }

  lemma DeleteInv(s: Sys, s': Sys, u: nat, ok: bool)
    requires Inv(s) && Delete(s, s', u, ok)
    ensures Inv(s')
  {
    forall p | p in s'.last ensures LastInv(s', p) {
      DeleteLast(s, s', u, ok, p);
    }
    forall j | j in s'.ever && j !in s'.store ensures exists p :: p in s'.last && Named(s'.ever[j], p) {
      DeleteGone(s, s', u, ok, j);
    }
    forall v | v in s'.uploads ensures UploadInv(s', s'.uploads[v]) {
      DeleteUpload(s, s', u, ok, v);
    }
  }

  lemma StepInv(s: Sys, s': Sys, step: Step)
    requires Inv(s) && NextBy(s, s', step)
    ensures Inv(s')
  {
    match step
    case DoBegin(u, relPath, payload) => BeginInv(s, s', u, relPath, payload);
    case DoScan(u, entries) => ScanInv(s, s', u, entries);
    case DoPut(u, id) => PutInv(s, s', u, id);
    case DoDelete(u, ok) => DeleteInv(s, s', u, ok);
  }

  lemma {:induction false} RunInv(run: seq<Sys>, steps: seq<Step>, n: nat)
    requires IsRun(run, steps) && n < |run|
    ensures Inv(run[n])
  {
    if n > 0 {
      RunInv(run, steps, n - 1);
      assert StepAt(run, steps, n - 1);
      StepInv(run[n - 1], run[n], steps[n - 1]);
    }
  }

  // ---------------------------------------------------------------------
  // Main results
  // ---------------------------------------------------------------------

  /** Nothing that was ever there is forgotten. */
  lemma {:induction false} EverGrows(run: seq<Sys>, steps: seq<Step>, i: nat, j: nat)
    requires IsRun(run, steps) && i <= j <= |steps|
    ensures forall id :: id in run[i].ever ==> id in run[j].ever && run[j].ever[id] == run[i].ever[id]
    ensures forall path :: path in run[i].last ==> path in run[j].last
    decreases j - i
  {
    if i < j {
      EverGrows(run, steps, i, j - 1);
      assert StepAt(run, steps, j - 1);
    }
  }

  /**
    Once an upload has put an object under a path, the path names an object
    ever after, and the one put last is among them.
   */
  lemma UploadedPathStays(run: seq<Sys>, steps: seq<Step>, i: nat, j: nat, path: string)
    requires IsRun(run, steps) && i <= j <= |steps| && path in run[i].last
    ensures path in run[j].last && run[j].last[path] in run[j].store
    ensures Named(run[j].store[run[j].last[path]], path)
  {
    EverGrows(run, steps, i, j);
    RunInv(run, steps, j);
    assert LastInv(run[j], path);
  }

  /** What an upload that has not put its object yet is to store. */
  function Pending(pc: Pc): Option<seq<byte>> {
    if pc.AtScan? || pc.AtPut? then Some(pc.payload) else None
  }

  /** Among the first `n` steps upload `u` began, to this path and with this payload. */
  ghost predicate Began(steps: seq<Step>, n: nat, u: nat, path: string, payload: seq<byte>)
    requires n <= |steps|
  {
    exists k, relPath :: 0 <= k < n && steps[k] == DoBegin(u, relPath, payload)
                         && (relPath == path || relPath == "/" + path)
  }

  lemma StepBegan(run: seq<Sys>, steps: seq<Step>, n: nat, u: nat)
    requires IsRun(run, steps) && n < |steps| && u in run[n + 1].uploads
    ensures u in run[n].uploads ==>
              run[n + 1].uploads[u].path == run[n].uploads[u].path
              && (Pending(run[n + 1].uploads[u].pc).Some? ==>
                    Pending(run[n + 1].uploads[u].pc) == Pending(run[n].uploads[u].pc))
    ensures u !in run[n].uploads ==>
              Pending(run[n + 1].uploads[u].pc).Some?
              && Began(steps, n + 1, u, run[n + 1].uploads[u].path, Pending(run[n + 1].uploads[u].pc).value)
  {
    assert StepAt(run, steps, n);
    if u !in run[n].uploads {
      var relPath := steps[n].relPath;
      ReadsTrimmed(relPath, TrimLeadingSlash(relPath));
      assert steps[n] == DoBegin(u, relPath, Pending(run[n + 1].uploads[u].pc).value);
    }
  }

  lemma {:induction false} RunBegan(run: seq<Sys>, steps: seq<Step>, n: nat, u: nat)
    requires IsRun(run, steps) && n <= |steps| && u in run[n].uploads
    requires Pending(run[n].uploads[u].pc).Some?
    ensures Began(steps, n, u, run[n].uploads[u].path, Pending(run[n].uploads[u].pc).value)
  {
    StepBegan(run, steps, n - 1, u);
    if u in run[n - 1].uploads {
      RunBegan(run, steps, n - 1, u);
      var path, payload := run[n].uploads[u].path, Pending(run[n].uploads[u].pc).value;
      var k, relPath :| 0 <= k < n - 1 && steps[k] == DoBegin(u, relPath, payload)
                        && (relPath == path || relPath == "/" + path);
      assert 0 <= k < n && steps[k] == DoBegin(u, relPath, payload);
    }
  }

  /**
    A put stores under the path and with the payload that its upload began with,
    and as long as that object is there it holds them.
   */
  lemma UploadStoresWhatWasWritten(run: seq<Sys>, steps: seq<Step>, n: nat, j: nat, u: nat, id: string)
    requires IsRun(run, steps) && n < j <= |steps| && steps[n] == DoPut(u, Some(id))
    ensures id in run[n + 1].store && id in run[n + 1].ever && run[n + 1].store[id] == run[n + 1].ever[id]
    ensures u in run[n].uploads && Began(steps, n, u, run[n].uploads[u].path, run[n + 1].store[id].payload)
    ensures Named(run[n + 1].store[id], run[n].uploads[u].path)
    ensures id in run[j].store ==> run[j].store[id] == run[n + 1].store[id]
  {
    assert StepAt(run, steps, n);
    RunBegan(run, steps, n, u);
    EverGrows(run, steps, n + 1, j);
    RunInv(run, steps, j);
    assert TrimLeadingSlash("/" + run[n].uploads[u].path) == run[n].uploads[u].path;
  }

  // ---------------------------------------------------------------------
  // Exactly which paths can lose their last object
  // ---------------------------------------------------------------------

  /** The object goes by another name besides `path`, one under which an upload can put. */
  ghost predicate HasOtherName(o: Object, path: string) {
    exists other :: Uploadable(other) && other != path && Named(o, other)
  }

  lemma GoneIfUnnamed(s: Sys, t: Sys, path: string, id: string)
    requires Inv(s) && Inv(t) && id in s.store && Named(s.store[id], path) && !HasPath(t.store, path)
    requires id in t.ever && t.ever[id] == s.ever[id]
    ensures id !in t.store
  {
  }

  /** A path that empties had only objects with a second name under which an upload has put. */
  lemma EmptiedBySecondNames(run: seq<Sys>, steps: seq<Step>, i: nat, j: nat, path: string, id: string)
    requires IsRun(run, steps) && i <= j <= |steps| && path != ""
    requires id in run[i].store && Named(run[i].store[id], path)
    requires !HasPath(run[j].store, path)
    ensures exists other :: other != path && Uploadable(other) && other in run[j].last && Named(run[i].store[id], other)
  {
    RunInv(run, steps, i);
    RunInv(run, steps, j);
    EverGrows(run, steps, i, j);
    GoneIfUnnamed(run[i], run[j], path, id);
    var other :| other in run[j].last && Named(run[j].ever[id], other);
    assert LastInv(run[j], other);
    assert Named(run[j].store[run[j].last[other]], other);
  }

  /**
    A path with an object that goes by no other name to which an upload can put
    is never without one again, whatever is uploaded meanwhile.
   */
  lemma NoPathEmpties(run: seq<Sys>, steps: seq<Step>, i: nat, j: nat, path: string, id: string)
    requires IsRun(run, steps) && i <= j <= |steps| && path != ""
    requires id in run[i].store && Named(run[i].store[id], path) && !HasOtherName(run[i].store[id], path)
    ensures HasPath(run[j].store, path)
  {
    if !HasPath(run[j].store, path) {
      EmptiedBySecondNames(run, steps, i, j, path, id);
    }
  }

  lemma {:induction false} Longer(ids: set<string>) returns (n: nat)
    ensures forall id :: id in ids ==> |id| < n
  {
    if ids == {} {
      n := 0;
    } else {
      var id :| id in ids;
      var m := Longer(ids - {id});
      n := if m > |id| then m else |id| + 1;
    }
  }

  lemma FreshId(ids: set<string>) returns (id: string)
    ensures id !in ids
  {
    var n := Longer(ids);
    id := seq(n, _ => 'x');
  }

  lemma {:induction false} Above(us: set<nat>) returns (n: nat)
    ensures forall u :: u in us ==> u < n
  {
    if us == {} {
      n := 0;
    } else {
      var u :| u in us;
      var m := Above(us - {u});
      n := if m > u then m else u + 1;
      forall v | v in us ensures v < n {
        assert v != u ==> v in us - {u};
      }
    }
  }

  lemma Extend(run: seq<Sys>, steps: seq<Step>, s: Sys, s': Sys, step: Step) returns (run': seq<Sys>, steps': seq<Step>)
    requires IsRun(run, steps) && run[|run| - 1] == s && NextBy(s, s', step)
    ensures IsRun(run', steps') && run'[|run'| - 1] == s' && run'[0] == run[0]
  {
    run', steps' := run + [s'], steps + [step];
    forall i | 0 <= i < |steps'| ensures StepAt(run', steps', i) {
      assert i < |steps| ==> StepAt(run, steps, i);
    }
  }

  /** An upload to `other` finds the one object `id`. */
  lemma FindOne(run: seq<Sys>, steps: seq<Step>, s: Sys, id: string, other: string)
    returns (run': seq<Sys>, steps': seq<Step>, s': Sys, u: nat)
    requires IsRun(run, steps) && run[|run| - 1] == s && Uploadable(other)
    requires id in s.ever && Named(s.ever[id], other)
    ensures IsRun(run', steps') && run'[|run'| - 1] == s' && run'[0] == run[0]
    ensures s' == s.(uploads := s'.uploads) && u in s'.uploads && s'.uploads[u] == Upload(other, AtPut([], [id]))
  {
    u := Above(s.uploads.Keys);
    var entry := SearchEntry(id, s.ever[id].filePath, "", "", s.ever[id].key, 0);
    assert ExactMatches([entry][..0], other) == [];
    assert ExactMatches([entry], other) == [id];
    assert TrimLeadingSlash("/" + other) == other;
    var s1 := s.(uploads := s.uploads[u := Upload(other, AtScan([]))]);
    run', steps' := Extend(run, steps, s, s1, DoBegin(u, "/" + other, []));
    s' := s1.(uploads := Go(s1, u, AtPut([], [id])));
    run', steps' := Extend(run', steps', s1, s', DoScan(u, [entry]));
  }

  /** It puts its own object and deletes that one. */
  lemma ReplaceOne(run: seq<Sys>, steps: seq<Step>, s: Sys, id: string, other: string, u: nat)
    returns (run': seq<Sys>, steps': seq<Step>, s': Sys, copy: string)
    requires IsRun(run, steps) && run[|run| - 1] == s && id in s.ever
    requires u in s.uploads && s.uploads[u] == Upload(other, AtPut([], [id]))
    ensures IsRun(run', steps') && run'[|run'| - 1] == s' && run'[0] == run[0]
    ensures copy !in s.ever && s'.store == s.store[copy := Object("/" + other, "", [])] - {id}
  {
    copy := FreshId(s.ever.Keys);
    var o := Object("/" + other, "", []);
    var s1 := Sys(s.store[copy := o], Go(s, u, AtDelete(copy, [id])), s.ever[copy := o], s.last[other := copy]);
    run', steps' := Extend(run, steps, s, s1, DoPut(u, Some(copy)));
    assert [id][1..] == [];
    s' := s1.(store := s1.store - {id}, uploads := Go(s1, u, AtDelete(copy, [])));
    run', steps' := Extend(run', steps', s1, s', DoDelete(u, true));
  }

  /** An upload to its second name takes one object away from `path`. */
  lemma TakeOne(run: seq<Sys>, steps: seq<Step>, s: Sys, path: string, id: string, other: string)
    returns (run': seq<Sys>, steps': seq<Step>, s': Sys)
    requires IsRun(run, steps) && run[|run| - 1] == s && path != ""
    requires id in s.store && id in s.ever && s.ever[id] == s.store[id]
    requires Uploadable(other) && other != path && Named(s.store[id], other)
    ensures IsRun(run', steps') && run'[|run'| - 1] == s' && run'[0] == run[0]
    ensures id !in s'.store
    ensures forall j :: j in s'.store && Named(s'.store[j], path) ==> j in s.store && s'.store[j] == s.store[j]
  {
    var u, copy;
    run', steps', s', u := FindOne(run, steps, s, id, other);
    run', steps', s', copy := ReplaceOne(run', steps', s', id, other, u);
    assert TrimLeadingSlash("/" + other) == other;
  }

  /** The objects that `path` names. */
  function Under(s: Store, path: string): set<string> {
    set id | id in s && Named(s[id], path)
  }

  lemma {:induction false} EmptyIt(run: seq<Sys>, steps: seq<Step>, path: string)
    returns (run': seq<Sys>, steps': seq<Step>)
    requires IsRun(run, steps) && path != ""
    requires var s := run[|run| - 1]; forall id :: id in Under(s.store, path) ==> HasOtherName(s.store[id], path)
    ensures IsRun(run', steps') && run'[0] == run[0] && !HasPath(run'[|run'| - 1].store, path)
    decreases Under(run[|run| - 1].store, path)
  {
    run', steps' := run, steps;
    var s := run[|run| - 1];
    RunInv(run, steps, |steps|);
    assert forall id :: id in s.store && Named(s.store[id], path) ==> id in Under(s.store, path);
    if Under(s.store, path) != {} {
      var id :| id in Under(s.store, path);
      var other :| Uploadable(other) && other != path && Named(s.store[id], other);
      var s';
      run', steps', s' := TakeOne(run, steps, s, path, id, other);
      assert Under(s'.store, path) <= Under(s.store, path) - {id};
      run', steps' := EmptyIt(run', steps', path);
    }
  }

  /** From `s` some run of uploads leaves `path` without an object. */
  ghost predicate CanEmpty(s: Sys, path: string) {
    exists run: seq<Sys>, steps: seq<Step> ::
      IsRun(run, steps) && run[0] == s && !HasPath(run[|run| - 1].store, path)
  }

  /**
    Uploads can leave a path without an object, in some run, exactly when every
    object it names at the start goes by another name as well.
   */
  lemma EmptiesIffAllHaveOtherNames(s: Sys, path: string)
    requires Init(s) && path != ""
    ensures CanEmpty(s, path) <==>
            forall id :: id in s.store && Named(s.store[id], path) ==> HasOtherName(s.store[id], path)
  {
    if run: seq<Sys>, steps: seq<Step> :| IsRun(run, steps) && run[0] == s && !HasPath(run[|run| - 1].store, path) {
      forall id | id in s.store && Named(s.store[id], path) ensures HasOtherName(s.store[id], path) {
        EmptiedBySecondNames(run, steps, 0, |steps|, path, id);
      }
    }
    if forall id :: id in s.store && Named(s.store[id], path) ==> HasOtherName(s.store[id], path) {
      var run, steps := EmptyIt([s], [], path);
    }
  }
}
