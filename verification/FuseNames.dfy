/**
  What the mounted listing's names mean: under which name an object is shown, in
  which directory and as what, which names are hidden, and how names are sorted.
 */
module FuseNames {
  import opened Common
  import opened Paths
  import opened Listing
  import opened FuseListing

  /** An editor's temporary file. */
  ghost predicate Temporary(name: string) {
    exists rest: string :: name == ".goutputstream-" + rest || name == ".gsavefile-" + rest
  }

  lemma EphemeralIsTemporary(name: string)
    ensures IsEphemeral(name) <==> Temporary(name)
  {
    if HasPrefix(name, ".goutputstream-") {
      assert name == ".goutputstream-" + name[15..];
    }
    if HasPrefix(name, ".gsavefile-") {
      assert name == ".gsavefile-" + name[11..];
    }
  }

  /**
    `path` is what the object is shown by: its FilePath, or else its Key, or
    else, at the root of the container only, its FileName, its Name or its ID,
    each with one slash in front aside and passed over when nothing is left.
   */
  ghost predicate ShownBy(e: SearchEntry, path: string, atRoot: bool) {
    || (path != "" && Reads(e.filePath, path))
    || (path != "" && Reads(e.filePath, "") && Reads(e.key, path))
    || (Reads(e.filePath, "") && Reads(e.key, "")
        && (if !atRoot then path == ""
            else || (path != "" && Reads(e.fileName, path))
                 || (path != "" && Reads(e.fileName, "") && Reads(e.name, path))
                 || (Reads(e.fileName, "") && Reads(e.name, "") && path == e.objectId)))
  }

  lemma ShownByIsFusePath(e: SearchEntry, path: string, atRoot: bool)
    ensures ShownBy(e, path, atRoot) <==> FusePath(e, atRoot) == path
  {
    ReadsTrimmed(e.filePath, path);
    ReadsTrimmed(e.filePath, "");
    ReadsTrimmed(e.key, path);
    ReadsTrimmed(e.key, "");
    ReadsTrimmed(e.fileName, path);
    ReadsTrimmed(e.fileName, "");
    ReadsTrimmed(e.name, path);
    ReadsTrimmed(e.name, "");
  }

  lemma ChildAtRoot(e: SearchEntry, name: string, isDir: bool)
    ensures FuseChild(e, "") == Some(FuseEntry(name, isDir)) <==>
            name != "" && !Temporary(name) && Continues([], name, isDir, FusePath(e, true))
  {
    var path := FusePath(e, true);
    assert path[0..] == path && [] + [name] == [name];
    ChildOfRest(path, name, isDir);
  }

  /** What is added by the part of a path behind a directory. */
  function RestChild(rest: string): Option<FuseEntry> {
    var seg := rest[..SlashIndex(rest)];
    if seg == "" || IsEphemeral(seg) then None else Some(FuseEntry(seg, SlashIndex(rest) < |rest|))
  }

  lemma FuseChildIs(e: SearchEntry, dir: string, path: string)
    requires dir != "" && path == FusePath(e, false)
    ensures FuseChild(e, dir) == if HasPrefix(path, dir + "/") then RestChild(path[|dir| + 1..]) else None
  {
    assert DirPrefix(dir) != "";
  }

  /** The path has the directory's segments, then the name, and more after it if it is a directory. */
  ghost predicate Continues(p: seq<string>, name: string, isDir: bool, path: string) {
    p + [name] <= Split(path) && (isDir <==> p + [name] < Split(path))
  }

  lemma ContinuesBeneath(dir: string, name: string, isDir: bool, path: string)
    ensures Continues(Split(dir), name, isDir, path) <==>
            HasPrefix(path, dir + "/")
            && [name] <= Split(path[|dir| + 1..]) && (isDir <==> [name] < Split(path[|dir| + 1..]))
  {
    PrefixIsSegmentPrefix(dir, path);
    if HasPrefix(path, dir + "/") {
      Beneath(Split(dir), name, Split(path[|dir| + 1..]));
    } else {
      NotBeneath(Split(dir), name, Split(path));
    }
  }

  lemma ChildBeneath(e: SearchEntry, dir: string, name: string, isDir: bool)
    requires dir != ""
    ensures FuseChild(e, dir) == Some(FuseEntry(name, isDir)) <==>
            name != "" && !Temporary(name) && Continues(Split(dir), name, isDir, FusePath(e, false))
  {
    var path := FusePath(e, false);
    FuseChildIs(e, dir, path);
    ContinuesBeneath(dir, name, isDir, path);
    if HasPrefix(path, dir + "/") {
      ChildOfRest(path[|dir| + 1..], name, isDir);
    }
  }

  /**
    An object is shown in a directory by the segment of its path that follows
    those of the directory, if that is a name and not a temporary file's, and as
    a directory exactly when more follows.
   */
  lemma ShownInDirectory(e: SearchEntry, path: string, dir: string, name: string, isDir: bool)
    requires ShownBy(e, path, dir == "")
    ensures var p := if dir == "" then [] else Split(dir);
      FuseChild(e, dir) == Some(FuseEntry(name, isDir)) <==>
      name != "" && !Temporary(name) && Continues(p, name, isDir, path)
  {
    ShownByIsFusePath(e, path, dir == "");
    if dir == "" {
      ChildAtRoot(e, name, isDir);
    } else {
      ChildBeneath(e, dir, name, isDir);
    }
  }

  /** What the part of a path behind the directory adds. */
  lemma ChildOfRest(rest: string, name: string, isDir: bool)
    ensures RestChild(rest) == Some(FuseEntry(name, isDir)) <==>
      && name != "" && !Temporary(name)
      && [name] <= Split(rest) && (isDir <==> [name] < Split(rest))
  {
    EphemeralIsTemporary(name);
    assert rest[..|rest|] == rest;
    assert Split(rest)[0] == rest[..SlashIndex(rest)];
    assert SlashIndex(rest) < |rest| <==> |Split(rest)| > 1;
  }

  lemma Beneath(p: seq<string>, name: string, rest: seq<string>)
    ensures p + [name] <= p + rest <==> [name] <= rest
    ensures p + [name] < p + rest <==> [name] < rest
  {
    if p + [name] <= p + rest {
      assert (p + rest)[|p|] == name;
    }
  }

  lemma NotBeneath(p: seq<string>, name: string, q: seq<string>)
    requires !(p < q)
    ensures !(p + [name] <= q)
  {
  }

  /** Names are sorted character by character: the first difference decides, and a name comes before its extensions. */
  lemma {:induction false} LessIsLexicographic(a: string, b: string)
    ensures Less(a, b) <==>
            a < b || exists i :: 0 <= i < |a| && i < |b| && a[..i] == b[..i] && a[i] < b[i]
  {
    if a != "" && b != "" && a[0] == b[0] {
      LessIsLexicographic(a[1..], b[1..]);
      if i :| 0 <= i < |a| - 1 && i < |b| - 1 && a[1..][..i] == b[1..][..i] && a[1..][i] < b[1..][i] {
        assert a[..i + 1] == [a[0]] + a[1..][..i] == b[..i + 1];
        assert a[i + 1] < b[i + 1];
      }
      if i :| 0 <= i < |a| && i < |b| && a[..i] == b[..i] && a[i] < b[i] {
        assert i > 0;
        assert a[1..][..i - 1] == a[..i][1..] == b[..i][1..] == b[1..][..i - 1];
        assert a[1..][i - 1] < b[1..][i - 1];
      }
      assert a < b <==> a[1..] < b[1..];
    } else if a != "" && b != "" {
      if a[0] < b[0] {
        assert a[..0] == b[..0];
      }
    }
  }
}
