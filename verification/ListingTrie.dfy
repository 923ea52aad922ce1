/**
  The listing trie itself: nodes linked through their `children` maps and
  updated in place while a path is walked down.

  `nodes` names the node of every path and `index` is what the nodes hold.
 */
module ListingTrie {
  import opened Common
  import opened Paths
  import opened Listing
  import opened ListingIndex

  class TrieNode {
    var children: map<string, TrieNode>
    var order: seq<string>
    var file: Option<SearchEntry>
    ghost const path: Path

    constructor (ghost p: Path)
      ensures children == map[] && order == [] && file == None && path == p
    {
      children := map[];
      order := [];
      file := None;
      path := p;
    }

    /** What a listing says of this node; one that is neither directory nor file is skipped. */
    function Entry(name: string): Option<DirEntry>
      reads this
    {
      if |children| > 0 then Some(Dir(name))
      else if file.Some? then Some(File(name, file.value))
      else None
    }
  }

  /** A node at `p` with these fields holds what the index says and links to its children's nodes. */
  ghost predicate Fits(nodes: map<Path, TrieNode>, ix: Index, p: Path,
                       children: map<string, TrieNode>, order: seq<string>, file: Option<SearchEntry>)
  {
    && p in ix.kids && p in ix.files
    && order == ix.kids[p] && file == ix.files[p]
    && (forall s :: s in children <==> s in order)
    && (forall s :: s in children ==> p + [s] in nodes && children[s] == nodes[p + [s]])
  }

  class ListingTrie {
    const root: TrieNode
    ghost var nodes: map<Path, TrieNode>
    ghost var index: Index
    ghost var repr: set<TrieNode>

    ghost predicate NodeHolds(p: Path)
      requires p in nodes
      reads this, nodes[p]
    {
      nodes[p].path == p && Fits(nodes, index, p, nodes[p].children, nodes[p].order, nodes[p].file)
    }

    ghost predicate Valid()
      reads this, repr
    {
      && index.Valid()
      && nodes.Keys == index.kids.Keys
      && nodes[[]] == root
      && (forall p :: p in nodes ==> nodes[p] in repr)
      && (forall p {:trigger NodeHolds(p)} :: p in nodes ==> NodeHolds(p))
    }

    constructor ()
      ensures Valid() && index == EMPTY_INDEX && fresh(repr)
    {
      root := new TrieNode([]);
      new;
      nodes := map[[] := root];
      repr := {root};
      index := EMPTY_INDEX;
    }

    /** Links a new, empty node under `cur`, the node at `p`, by the name `s`. */
    method Link(cur: TrieNode, ghost p: Path, s: string) returns (next: TrieNode)
      requires Valid() && p in nodes && cur == nodes[p] && s !in cur.children
      modifies this`nodes, this`repr, this`index, cur`children, cur`order
      ensures Valid() && index == WalkDown(old(index), p, s, true)
      ensures fresh(next) && p + [s] in nodes && next == nodes[p + [s]]
      ensures repr == old(repr) + {next}
    {
      assert NodeHolds(p) && index.KidsHaveNodes(p);
      WalkValid(index, p, s, true);
      WalkKeys(index, p, s, true);
      ghost var was, ix, children := nodes, index, cur.children;
      assert Fits(was, ix, p, children, cur.order, cur.file);
      next := new TrieNode(p + [s]);
      cur.children := cur.children[s := next];
      cur.order := cur.order + [s];
      nodes := nodes[p + [s] := next];
      repr := repr + {next};
      index := WalkDown(index, p, s, true);
      forall q | q in nodes ensures NodeHolds(q) {
        if q == p {
          LinkFitsParent(was, ix, p, s, next, children, cur.order, cur.file);
        } else if q != p + [s] {
          assert old(NodeHolds(q)) && nodes[q] != cur;
          LinkFitsOther(was, ix, p, s, next, q, nodes[q].children, nodes[q].order, nodes[q].file);
        }
      }
    }

    /** A directory on the way drops the file parked at its path. */
    method DropFile(node: TrieNode, ghost p: Path)
      requires Valid() && p in nodes && node == nodes[p]
      modifies this`index, node`file
      ensures Valid() && index == old(index).(files := old(index).files[p := None])
    {
      FileValid(index, p, None);
      node.file := None;
      index := index.(files := index.files[p := None]);
      forall q | q in nodes ensures NodeHolds(q) {
        assert old(NodeHolds(p) && NodeHolds(q));
        assert q != p ==> nodes[q] != node;
      }
    }

    /** One round of `InsertSegments`. */
    method Step(cur: TrieNode, ghost p: Path, s: string, last: bool) returns (next: TrieNode)
      requires Valid() && p in nodes && cur == nodes[p]
      modifies this`nodes, this`repr, this`index, repr
      ensures Valid() && index == WalkDown(old(index), p, s, last)
      ensures p + [s] in nodes && next == nodes[p + [s]]
      ensures old(repr) <= repr && fresh(repr - old(repr))
    {
      assert NodeHolds(p);
      if s in cur.children {
        next := cur.children[s];
      } else {
        next := Link(cur, p, s);
        assert repr - old(repr) <= {next};
      }
      if !last {
        DropFile(next, p + [s]);
      }
    }

    /** The end of `InsertSegments`: a file, unless something is beneath it or already there. */
    method ParkFile(cur: TrieNode, ghost p: Path, e: SearchEntry)
      requires Valid() && p in nodes && cur == nodes[p]
      modifies this`index, cur`file
      ensures Valid() && index == Park(old(index), p, e)
    {
      assert NodeHolds(p);
      NoChildrenNoOrder(p);
      FileValid(index, p, Some(e));
      if |cur.children| == 0 && cur.file == None {
        cur.file := Some(e);
      }
      index := Park(index, p, e);
      forall q | q in nodes ensures NodeHolds(q) {
        assert old(NodeHolds(q));
        assert q != p ==> nodes[q] != cur;
      }
    }

    lemma NoChildrenNoOrder(p: Path)
      requires Valid() && p in nodes
      ensures |nodes[p].children| == 0 <==> nodes[p].order == []
    {
      assert NodeHolds(p);
      if nodes[p].order != [] {
        assert nodes[p].order[0] in nodes[p].order;
        assert nodes[p].order[0] in nodes[p].children;
      }
      if |nodes[p].children| != 0 {
        var s :| s in nodes[p].children;
      }
    }

    /** Inserts one object at the path `segs`. */
    method InsertSegments(segs: Path, e: SearchEntry)
      requires Valid()
      modifies this`nodes, this`repr, this`index, repr
      ensures Valid() && index == Insert(old(index), segs, e)
      ensures fresh(repr - old(repr))
    {
      var cur := root;
      WholePath(segs);
      for i := 0 to |segs|
        invariant Valid() && segs[..i] in nodes && cur == nodes[segs[..i]]
        invariant InsertFrom(index, segs, i, e) == Insert(old(index), segs, e)
        invariant fresh(repr - old(repr))
      {
        OneMore(segs, i);
        cur := Step(cur, segs[..i], segs[i], i == |segs| - 1);
      }
      ParkFile(cur, segs, e);
    }

    /** Objects whose path names nothing are skipped. */
    method InsertEntry(entries: seq<SearchEntry>, n: nat)
      requires n < |entries| && Valid() && index == IndexOf(Items(entries[..n]))
      modifies this`nodes, this`repr, this`index, repr
      ensures Valid() && index == IndexOf(Items(entries[..n + 1]))
      ensures fresh(repr - old(repr))
    {
      var key := EntryPathKey(entries[n]);
      IndexOneMore(entries, n);
      EmptySegments();
      var nonE := Segments(key);
      if key != "" && nonE != [] {
        InsertSegments(nonE, entries[n]);
      }
    }

    /** One link down; none means nothing is there. */
    method Child(cur: TrieNode, ghost p: Path, s: string) returns (next: TrieNode?)
      requires Valid() && Reachable(index) && p in nodes && cur == nodes[p]
      ensures if p + [s] in index.kids then p + [s] in nodes && next == nodes[p + [s]]
              else next == null && s !in index.kids[p]
    {
      assert NodeHolds(p) && index.KidsHaveNodes(p);
      if s !in cur.children {
        return null;
      }
      next := cur.children[s];
    }

    /** Walks down to a directory; no node means nothing is listed there. */
    method FindNode(segs: Path) returns (cur: TrieNode?)
      requires Valid() && Reachable(index)
      ensures if segs in index.kids then segs in nodes && cur == nodes[segs] else cur == null
    {
      cur := root;
      for i := 0 to |segs|
        invariant cur != null && segs[..i] in nodes && cur == nodes[segs[..i]]
      {
        assert segs[..i] + [segs[i]] == segs[..i + 1];
        cur := Child(cur, segs[..i], segs[i]);
        if cur == null {
          NothingBelow(index, segs, i);
          return;
        }
      }
      assert segs[..|segs|] == segs;
    }

    /** The children of the directory `prefix` names. */
    method ListImmediateChildren(prefix: string) returns (out: seq<DirEntry>)
      requires Valid() && Reachable(index)
      ensures out == ListIndex(index, PrefixSegments(prefix))
    {
      var p := PrefixSegments(prefix);
      var cur := FindNode(p);
      if cur == null {
        out := [];
      } else {
        out := ListNode(cur, p);
      }
    }

    method ListNode(cur: TrieNode, ghost p: Path) returns (out: seq<DirEntry>)
      requires Valid() && p in nodes && cur == nodes[p]
      ensures out == EntriesOf(index, p, index.kids[p])
    {
      out := [];
      assert NodeHolds(p);
      var order := cur.order;
      for n := 0 to |order|
        invariant out == EntriesOf(index, p, order[..n])
      {
        EntriesOneMore(index, p, order, n);
        EntryOfNode(p, order[n]);
        var entry := cur.children[order[n]].Entry(order[n]);
        if entry.Some? {
          out := out + [entry.value];
        }
      }
      assert order[..|order|] == order;
    }

    lemma EntryOfNode(p: Path, name: string)
      requires Valid() && p in nodes && name in nodes[p].order
      ensures name in nodes[p].children && nodes[p].children[name].Entry(name) == EntryOf(index, p, name)
    {
      assert NodeHolds(p) && NodeHolds(p + [name]);
      NoChildrenNoOrder(p + [name]);
    }
  }

  lemma LastSegment(p: Path, s: string, q: Path, x: string)
    ensures p + [s] == q + [x] <==> p == q && s == x
  {
    if p + [s] == q + [x] {
      assert p == (p + [s])[..|p|] == (q + [x])[..|q|] == q;
      assert s == (p + [s])[|p|];
    }
  }

  lemma LinkFitsParent(nodes: map<Path, TrieNode>, ix: Index, p: Path, s: string, next: TrieNode,
                       children: map<string, TrieNode>, order: seq<string>, file: Option<SearchEntry>)
    requires p in ix.kids && p in ix.files && s !in ix.kids[p] && order == ix.kids[p] + [s]
    requires Fits(nodes, ix, p, children, ix.kids[p], file)
    ensures Fits(nodes[p + [s] := next], WalkDown(ix, p, s, true), p, children[s := next], order, file)
  {
    var q := p + [s];
    assert |q| == |p| + 1;
    forall x | x in children ensures p + [x] != q {
      LastSegment(p, s, p, x);
    }
  }

  lemma LinkFitsOther(nodes: map<Path, TrieNode>, ix: Index, p: Path, s: string, next: TrieNode, q: Path,
                      children: map<string, TrieNode>, order: seq<string>, file: Option<SearchEntry>)
    requires p in ix.kids && s !in ix.kids[p] && q != p && q != p + [s]
    requires Fits(nodes, ix, q, children, order, file)
    ensures Fits(nodes[p + [s] := next], WalkDown(ix, p, s, true), q, children, order, file)
  {
    forall x | x in children ensures q + [x] != p + [s] {
      LastSegment(p, s, q, x);
    }
  }

  /** Indexes a whole scan, in scan order. */
  method BuildListingTrie(entries: seq<SearchEntry>) returns (t: ListingTrie)
    ensures fresh(t) && fresh(t.repr)
    ensures t.Valid() && t.index == IndexOf(Items(entries))
  {
    t := new ListingTrie();
    WholePath(entries);
    for n := 0 to |entries|
      invariant t.Valid() && t.index == IndexOf(Items(entries[..n]))
      invariant fresh(t.repr)
    {
      t.InsertEntry(entries, n);
    }
  }

  /** Listing any directory of any scan through the trie. */
  method ListScanned(entries: seq<SearchEntry>, prefix: string) returns (out: seq<DirEntry>)
    ensures out == TrieListing(Items(entries), PrefixSegments(prefix))
  {
    var t := BuildListingTrie(entries);
    IndexReachable(entries);
    out := t.ListImmediateChildren(prefix);
    IndexListsTheTrie(entries, PrefixSegments(prefix));
  }
}
