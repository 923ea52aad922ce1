/**
  No call of the blob cache is ever stuck: in every reachable state it is done,
  or can go on without anything failing, or waits for a fetch that has not ended,
  or finds that another fetch of its key has taken its temporary file away.
 */
module BlobProgress {
  import opened Common
  import opened BlobCache
  import opened BlobDisk
  import opened BlobProtocol
  import BlobContents

  /** The process can take a step in which nothing fails and nobody gives up. */
  ghost predicate CanStep(payload: string -> seq<byte>, s: Sys, pid: nat) {
    exists s', step :: NextBy(payload, s, s', step) && GoesOn(s', step, pid)
  }

  ghost predicate GoesOn(s': Sys, step: Step, pid: nat) {
    && !step.Vanish? && !step.Fail? && step.pid == pid && pid in s'.procs
    && (step.Wake? || step.Move? ==> !s'.procs[pid].AtDone?)
    && (step.Create? ==> !s'.procs[pid].AtFinish?)
  }

  lemma Steps(payload: string -> seq<byte>, s: Sys, s': Sys, step: Step, pid: nat)
    requires NextBy(payload, s, s', step) && GoesOn(s', step, pid)
    ensures CanStep(payload, s, pid)
  {
  }

  lemma LookCanStep(payload: string -> seq<byte>, s: Sys, pid: nat)
    requires pid in s.procs && s.procs[pid].AtLook?
    ensures CanStep(payload, s, pid)
  {
    var key := s.procs[pid].key;
    if IsHit(s.cache, key) {
      var e := s.cache.entries[key];
      Steps(payload, s, Go(s, pid, AtStat(key, e.path, e.size)).(cache := HitTouched(s.cache, key)), Look(pid), pid);
    } else if IsFetching(s.cache, key) {
      var e := s.cache.entries[key];
      var s' := Go(s, pid, AtWait(key, s.nextChannel)).(
           nextChannel := s.nextChannel + 1,
           home := s.home[s.nextChannel := key],
           cache := s.cache.(entries := s.cache.entries[key := e.(waiters := e.waiters + {s.nextChannel})]));
      Steps(payload, s, s', Look(pid), pid);
    } else {
      Steps(payload, s, Go(s, pid, AtOpen(key)).(cache := Begun(s.cache, key), fetcher := s.fetcher[key := pid]),
            Look(pid), pid);
    }
  }

  lemma CheckCanStep(payload: string -> seq<byte>, s: Sys, pid: nat)
    requires pid in s.procs
    requires var pc := s.procs[pid]; pc.AtStat? || pc.AtRecheck? || (pc.AtWait? && pc.channel in s.closed)
    ensures CanStep(payload, s, pid)
  {
    var pc := s.procs[pid];
    if pc.AtStat? {
      Steps(payload, s, Go(s, pid, if OnDisk(s.cache, pc.path, pc.size) then AtDone
                                   else AtRecheck(pc.key, pc.path, pc.size)), Stat(pid), pid);
    } else if pc.AtRecheck? {
      var same := IsHit(s.cache, pc.key)
                  && s.cache.entries[pc.key].path == pc.path && s.cache.entries[pc.key].size == pc.size;
      Steps(payload, s, Go(s, pid, AtLook(pc.key)).(cache := if same then Forgot(s.cache, pc.key) else s.cache),
            Recheck(pid), pid);
    } else {
      Steps(payload, s, Go(s, pid, AtLook(pc.key)), Wake(pid), pid);
    }
  }

  lemma OpenCanStep(payload: string -> seq<byte>, s: Sys, pid: nat)
    requires pid in s.procs && (s.procs[pid].AtOpen? || s.procs[pid].AtCreate?)
    ensures CanStep(payload, s, pid)
  {
    var key := s.procs[pid].key;
    var tmp := TmpPath(s.cache.dir, key);
    if s.procs[pid].AtOpen? {
      Steps(payload, s, Go(s, pid, AtCreate(key)).(cache := s.cache.(disk := s.cache.disk - {tmp})), Remove(pid), pid);
    } else {
      var there := InodeAt(s.cache.disk, s.files, tmp);
      var s' := if there.Some? then
          Go(s, pid, AtWrite(key, there.value, 0)).(
            cache := s.cache.(disk := s.cache.disk[tmp := []]),
            files := s.files.(written := s.files.written[there.value := {}]))
        else
          Go(s, pid, AtWrite(key, s.files.next, 0)).(
            cache := s.cache.(disk := s.cache.disk[tmp := []]), files := NewFile(s.files, tmp, {}));
      Steps(payload, s, s', Create(pid), pid);
    }
  }

  lemma WriteCanStep(payload: string -> seq<byte>, s: Sys, pid: nat)
    requires BlobContents.Inv(payload, s) && pid in s.procs && s.procs[pid].AtWrite?
    requires s.procs[pid].off < |payload(s.procs[pid].key)| || TmpPath(s.cache.dir, s.procs[pid].key) in s.cache.disk
    ensures CanStep(payload, s, pid)
  {
    var pc := s.procs[pid];
    assert BlobContents.WriterFits(payload, s.cache.dir, s.cache.disk, s.files, pc);
    if pc.off < |payload(pc.key)| {
      var path := PathOf(s.cache, s.files, pc.key, pc.inode);
      var s' := Go(s, pid, pc.(off := pc.off + 1)).(
            cache := if path.None? || path.value !in s.cache.disk then s.cache else
                       s.cache.(disk := s.cache.disk[path.value := Overwritten(
                         s.cache.disk[path.value], pc.off, payload(pc.key)[pc.off..pc.off + 1])]),
            files := s.files.(written := s.files.written[
                       pc.inode := WrittenTo(s.files, pc.inode) + Span(pc.off, pc.off + 1)]));
      Steps(payload, s, s', Write(pid, 1), pid);
    } else {
      Steps(payload, s, Go(s, pid, AtRename(pc.key, |s.cache.disk[TmpPath(s.cache.dir, pc.key)]|)), Size(pid), pid);
    }
  }

  lemma RenameCanStep(payload: string -> seq<byte>, s: Sys, pid: nat)
    requires BlobContents.Inv(payload, s) && pid in s.procs && s.procs[pid].AtRename?
    requires TmpPath(s.cache.dir, s.procs[pid].key) in s.cache.disk
    ensures CanStep(payload, s, pid)
  {
    var key, dir := s.procs[pid].key, s.cache.dir;
    var s' := Go(s, pid, AtFinish(key, s.procs[pid].size, true)).(
      cache := s.cache.(disk := (s.cache.disk - {TmpPath(dir, key)})[
                 FinalPath(dir, key) := s.cache.disk[TmpPath(dir, key)]]),
      files := s.files.(inode := s.files.inode[FinalPath(dir, key) := s.files.inode[TmpPath(dir, key)]]));
    Steps(payload, s, s', Rename(pid), pid);
  }

  lemma EndCanStep(payload: string -> seq<byte>, s: Sys, pid: nat)
    requires pid in s.procs
    requires var pc := s.procs[pid]; pc.AtFinish? || pc.AtMove? || pc.AtRecord? || pc.AtEvict?
    ensures CanStep(payload, s, pid)
  {
    var pc := s.procs[pid];
    if pc.AtFinish? {
      Steps(payload, s, Go(s, pid, if pc.ok then AtEvict else AtDone).(
        cache := Finished(s.cache, pc.key, FinalPath(s.cache.dir, pc.key), pc.size, pc.ok),
        closed := s.closed + WaitersOf(s.cache, pc.key),
        fetcher := s.fetcher - {pc.key}), Finish(pid), pid);
    } else if pc.AtMove? {
      var final := FinalPath(s.cache.dir, pc.key);
      Steps(payload, s, Go(s, pid, AtRecord(pc.key, |payload(pc.key)|)).(
        cache := s.cache.(disk := s.cache.disk[final := payload(pc.key)]),
        files := NewFile(s.files, final, Span(0, |payload(pc.key)|))), Move(pid), pid);
    } else if pc.AtRecord? {
      var lost := if IsFetching(s.cache, pc.key) then {pc.key} else {};
      Steps(payload, s, Go(s, pid, AtEvict).(
        cache := Recorded(s.cache, pc.key, pc.size),
        fetcher := s.fetcher - lost,
        orphaned := s.orphaned + lost), Record(pid), pid);
    } else {
      Steps(payload, s, Go(s, pid, AtDone).(
        cache := Evicted(s.cache),
        fetcher := s.fetcher - LostByEviction(s.cache),
        orphaned := s.orphaned + LostByEviction(s.cache)), Step.Evict(pid), pid);
    }
  }

  /** What keeps a call from going on: a fetch that has not ended, or the loss of its temporary file. */
  predicate HeldUp(payload: string -> seq<byte>, s: Sys, pc: Pc) {
    || (pc.AtWait? && pc.channel !in s.closed)
    || ((pc.AtRename? || (pc.AtWrite? && pc.off >= |payload(pc.key)|)) && TmpPath(s.cache.dir, pc.key) !in s.cache.disk)
  }

  lemma NeverStuck(payload: string -> seq<byte>, run: seq<Sys>, steps: seq<Step>, n: nat, pid: nat)
    requires IsRun(payload, run, steps) && n <= |steps| && pid in run[n].procs
    ensures run[n].procs[pid].AtDone? || CanStep(payload, run[n], pid) || HeldUp(payload, run[n], run[n].procs[pid])
  {
    BlobContents.RunInv(payload, run, steps, n);
    var s, pc := run[n], run[n].procs[pid];
    if pc.AtLook? {
      LookCanStep(payload, s, pid);
    } else if pc.AtStat? || pc.AtRecheck? || (pc.AtWait? && pc.channel in s.closed) {
      CheckCanStep(payload, s, pid);
    } else if pc.AtOpen? || pc.AtCreate? {
      OpenCanStep(payload, s, pid);
    } else if pc.AtWrite? && !HeldUp(payload, s, pc) {
      WriteCanStep(payload, s, pid);
    } else if pc.AtRename? && !HeldUp(payload, s, pc) {
      RenameCanStep(payload, s, pid);
    } else if pc.AtFinish? || pc.AtMove? || pc.AtRecord? || pc.AtEvict? {
      EndCanStep(payload, s, pid);
    }
  }
}
