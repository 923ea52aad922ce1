/**
  The files of the blob cache as the operating system keeps them. A path leads
  to a file; a fetch holds its file open, and goes on writing to it when the path
  is renamed, removed or taken by another file.
 */
module BlobDisk {
  import opened Common
  import opened BlobCache

  /** Which file a path leads to, the next new one, and what was written to each. */
  datatype Files = Files(inode: map<string, nat>, next: nat, written: map<nat, set<nat>>)

  /** The file at `path`, if there is one. */
  function InodeAt(disk: map<string, seq<byte>>, files: Files, path: string): Option<nat> {
    if path in disk && path in files.inode then Some(files.inode[path]) else None
  }

  function WrittenTo(files: Files, inode: nat): set<nat> {
    if inode in files.written then files.written[inode] else {}
  }

  /** The path at which a fetch of `key` finds the file it has open, if that still has one. */
  function PathOf(c: State, files: Files, key: string, inode: nat): Option<string> {
    if InodeAt(c.disk, files, TmpPath(c.dir, key)) == Some(inode) then Some(TmpPath(c.dir, key))
    else if InodeAt(c.disk, files, FinalPath(c.dir, key)) == Some(inode) then Some(FinalPath(c.dir, key))
    else None
  }

  /** Writing past the end of a file leaves zeros in between. */
  function Overwritten(file: seq<byte>, off: nat, data: seq<byte>): (r: seq<byte>)
    ensures |r| == if off + |data| > |file| && data != [] then off + |data| else |file|
    ensures forall j :: 0 <= j < |r| ==>
              r[j] == if off <= j < off + |data| then data[j - off] else if j < |file| then file[j] else 0
  {
    var n := if off + |data| > |file| && data != [] then off + |data| else |file|;
    seq(n, j requires 0 <= j < n =>
      if off <= j < off + |data| then data[j - off] else if j < |file| then file[j] else 0)
  }

  /** The positions from `from` up to `to`. */
  function Span(from: nat, to: nat): (r: set<nat>)
    ensures forall j :: j in r <==> from <= j < to
  {
    if from < to then Span(from, to - 1) + {to - 1} else {}
  }

  /** The file holds what was written to it, as far as it was, and zeros where nothing was. */
  ghost predicate HoldsWritten(data: seq<byte>, written: set<nat>, payload: seq<byte>) {
    && |data| <= |payload|
    && (forall j :: 0 <= j < |data| ==> data[j] == if j in written then payload[j] else 0)
    && (forall j :: j in written ==> j < |data|)
    && (data != [] ==> |data| - 1 in written)
  }

  ghost predicate FileHolds(payload: string -> seq<byte>, disk: map<string, seq<byte>>, files: Files,
                            path: string, key: string) {
    InodeAt(disk, files, path).Some? ==>
      HoldsWritten(disk[path], WrittenTo(files, files.inode[path]), payload(key))
  }

  /** Every path leads to a file of its own, and the next file is a new one. */
  ghost predicate Linked(disk: map<string, seq<byte>>, files: Files) {
    && (forall p :: p in disk ==> p in files.inode && files.inode[p] < files.next)
    && (forall p, q :: p in disk && q in disk && p != q && p in files.inode && q in files.inode ==>
          files.inode[p] != files.inode[q])
  }

  /** A new file at `path`. */
  function NewFile(files: Files, path: string, written: set<nat>): Files {
    Files(files.inode[path := files.next], files.next + 1, files.written[files.next := written])
  }

  /** An earlier run may have left files behind: whole blobs, and temporary files of any extent. */
  ghost predicate LeftBehind(payload: string -> seq<byte>, c: State, files: Files) {
    && Intact(payload, c) && Linked(c.disk, files)
    && (forall k :: FileHolds(payload, c.disk, files, FinalPath(c.dir, k), k))
    && (forall k :: FileHolds(payload, c.disk, files, TmpPath(c.dir, k), k))
  }
}
