/** Which blocks reading a page shows, and in which order: an account of the traversal by paths. */
module NotionReading {
  import opened Prelude
  import opened Lists
  import opened NotionContent

  /** The block at a path of positions below a block; only a block that has children is entered. */
  function BlockAt(pages: Workspace, id: string, path: seq<nat>): Option<Block>
    decreases |path|
  {
    if path == [] || path[0] >= |pages(id)| then None
    else
      var block := pages(id)[path[0]];
      if |path| == 1 then Some(block)
      else if block.hasChildren then BlockAt(pages, block.id, path[1..])
      else None
  }

  /** The first path comes before the second in reading order: parents before children, siblings in order. */
  predicate Earlier(p: seq<nat>, q: seq<nat>)
    decreases |p|
  {
    q != [] && (p == [] || p[0] < q[0] || (p[0] == q[0] && Earlier(p[1..], q[1..])))
  }

  /** The path leads to a block with text that is not too deep. */
  predicate Readable(pages: Workspace, id: string, depth: int, maxDepth: int, path: seq<nat>) {
    && path != [] && depth + |path| - 1 <= maxDepth
    && BlockAt(pages, id, path).Some? && BlockAt(pages, id, path).value.text != ""
  }

  /** The line of the block at a path. */
  function LineAt(pages: Workspace, id: string, depth: int, path: seq<nat>): Line
    requires BlockAt(pages, id, path).Some?
  {
    var block := BlockAt(pages, id, path).value;
    Line(block.kind, block.text, depth + |path| - 1)
  }

  ghost predicate InReadingOrder(paths: seq<seq<nat>>) {
    forall k, l :: 0 <= k < l < |paths| ==> Earlier(paths[k], paths[l])
  }

  ghost predicate LinesAt(pages: Workspace, id: string, depth: int, maxDepth: int, paths: seq<seq<nat>>, lines: seq<Line>) {
    && |lines| == |paths|
    && forall k :: 0 <= k < |paths| ==>
         Readable(pages, id, depth, maxDepth, paths[k]) && lines[k] == LineAt(pages, id, depth, paths[k])
  }

  /** Every readable path that begins with one of the first n positions is there. */
  ghost predicate AllReadable(pages: Workspace, id: string, n: nat, depth: int, maxDepth: int, paths: seq<seq<nat>>) {
    forall path :: Readable(pages, id, depth, maxDepth, path) && path[0] < n ==> path in paths
  }

  function Nested(i: nat, paths: seq<seq<nat>>): seq<seq<nat>> {
    seq(|paths|, k requires 0 <= k < |paths| => [i] + paths[k])
  }

  lemma {:induction false} AtBelow(pages: Workspace, id: string, i: nat, path: seq<nat>)
    requires i < |pages(id)| && path != []
    ensures BlockAt(pages, id, [i] + path)
         == if pages(id)[i].hasChildren then BlockAt(pages, pages(id)[i].id, path) else None
  {
    assert ([i] + path)[1..] == path;
  }

  lemma {:induction false} EarlierBelow(i: nat, p: seq<nat>, q: seq<nat>)
    ensures Earlier([i] + p, [i] + q) <==> Earlier(p, q)
  {
    assert ([i] + p)[1..] == p && ([i] + q)[1..] == q;
  }

  lemma {:induction false} OrderBelow(i: nat, paths: seq<seq<nat>>)
    requires InReadingOrder(paths)
    ensures InReadingOrder(Nested(i, paths))
  {
    forall k, l | 0 <= k < l < |paths| ensures Earlier(Nested(i, paths)[k], Nested(i, paths)[l]) {
      EarlierBelow(i, paths[k], paths[l]);
    }
  }

  /** The lines below block number i. */
  lemma {:induction false} LinesBelow(pages: Workspace, id: string, i: nat, depth: int, maxDepth: int,
                                      paths: seq<seq<nat>>, lines: seq<Line>)
    requires i < |pages(id)| && pages(id)[i].hasChildren
    requires LinesAt(pages, pages(id)[i].id, depth + 1, maxDepth, paths, lines)
    ensures LinesAt(pages, id, depth, maxDepth, Nested(i, paths), lines)
  {
    forall k | 0 <= k < |paths|
      ensures Readable(pages, id, depth, maxDepth, [i] + paths[k])
      ensures lines[k] == LineAt(pages, id, depth, [i] + paths[k])
    {
      AtBelow(pages, id, i, paths[k]);
    }
  }

  lemma {:induction false} LinesAtJoin(pages: Workspace, id: string, depth: int, maxDepth: int,
                                       p: seq<seq<nat>>, a: seq<Line>, q: seq<seq<nat>>, b: seq<Line>)
    requires LinesAt(pages, id, depth, maxDepth, p, a) && LinesAt(pages, id, depth, maxDepth, q, b)
    ensures LinesAt(pages, id, depth, maxDepth, p + q, a + b)
  {
    hide Readable, LineAt;
  }

  /** All paths of the list begin with the position. */
  ghost predicate AllStart(paths: seq<seq<nat>>, i: nat) {
    forall k :: 0 <= k < |paths| ==> paths[k] != [] && paths[k][0] == i
  }

  lemma {:induction false} OrderJoin(p: seq<seq<nat>>, q: seq<seq<nat>>, i: nat)
    requires InReadingOrder(p) && InReadingOrder(q) && AllStart(q, i)
    requires forall k :: 0 <= k < |p| ==> p[k] != [] && p[k][0] < i
    ensures InReadingOrder(p + q)
  {
  }

  /** The paths below a block, if it is entered. */
  lemma {:induction false} BelowPaths(pages: Workspace, block: Block, depth: int, maxDepth: int) returns (below: seq<seq<nat>>)
    requires depth <= maxDepth
    ensures InReadingOrder(below) && forall k :: 0 <= k < |below| ==> below[k] != []
    ensures below != [] ==> block.hasChildren
    ensures LinesAt(pages, block.id, depth + 1, maxDepth, below, Lines(Below(pages, block, depth, maxDepth)))
    ensures block.hasChildren && depth < maxDepth ==>
      forall path :: Readable(pages, block.id, depth + 1, maxDepth, path) ==> path in below
    decreases maxDepth - depth, 0, 1
  {
    if block.hasChildren && depth < maxDepth {
      below := TraversalPaths(pages, block.id, depth + 1, maxDepth);
      forall k | 0 <= k < |below| ensures below[k] != [] { assert below[k] in below; }
    } else {
      below := [];
    }
  }

  /** What one block contributes: its own line, and those below it. */
  lemma {:induction false} BlockPaths(pages: Workspace, id: string, i: nat, depth: int, maxDepth: int) returns (paths: seq<seq<nat>>)
    requires i < |pages(id)| && depth <= maxDepth
    ensures InReadingOrder(paths) && AllStart(paths, i)
    ensures LinesAt(pages, id, depth, maxDepth, paths, Lines(BlockTraversal(pages, pages(id)[i], depth, maxDepth)))
    ensures forall path :: Readable(pages, id, depth, maxDepth, path) && path[0] == i ==> path in paths
    decreases maxDepth - depth, 1, 0
  {
    var block := pages(id)[i];
    var own := if block.text == "" then [] else [[i]];
    var below := BelowPaths(pages, block, depth, maxDepth);
    paths := own + Nested(i, below);
    forall path | Readable(pages, id, depth, maxDepth, path) && path[0] == i ensures path in paths {
      ReadableIn(pages, id, i, depth, maxDepth, path);
      if |path| > 1 {
        NestedHas(i, below, path[1..]);
      }
    }
    hide Readable, LineAt, BlockAt, InReadingOrder, AllStart, Nested, Earlier, LinesAt, Lines, OwnLine, Below;
    OwnPath(pages, id, i, depth, maxDepth);
    OwnFirst(i, own, below);
    LinesAppend(OwnLine(block, depth), Below(pages, block, depth, maxDepth));
    if below == [] {
      NestedLines(pages, id, i, depth, maxDepth, below, Lines(Below(pages, block, depth, maxDepth)));
    } else {
      LinesBelow(pages, id, i, depth, maxDepth, below, Lines(Below(pages, block, depth, maxDepth)));
    }
    LinesAtJoin(pages, id, depth, maxDepth, own, Lines(OwnLine(block, depth)),
                Nested(i, below), Lines(Below(pages, block, depth, maxDepth)));
  }

  lemma {:induction false} NestedLines(pages: Workspace, id: string, i: nat, depth: int, maxDepth: int,
                                       below: seq<seq<nat>>, lines: seq<Line>)
    requires below == [] && i < |pages(id)| && LinesAt(pages, pages(id)[i].id, depth + 1, maxDepth, below, lines)
    ensures LinesAt(pages, id, depth, maxDepth, Nested(i, below), lines)
  {
  }

  lemma {:induction false} OwnPath(pages: Workspace, id: string, i: nat, depth: int, maxDepth: int)
    requires i < |pages(id)| && depth <= maxDepth
    ensures BlockAt(pages, id, [i]) == Some(pages(id)[i])
    ensures var block := pages(id)[i];
            LinesAt(pages, id, depth, maxDepth, if block.text == "" then [] else [[i]], Lines(OwnLine(block, depth)))
  {
    var block := pages(id)[i];
    if block.text != "" {
      FlatMapOne(LineOf, Emit(Line(block.kind, block.text, depth)));
    }
  }

  lemma {:induction false} OwnFirst(i: nat, own: seq<seq<nat>>, below: seq<seq<nat>>)
    requires own == [] || own == [[i]]
    requires InReadingOrder(below) && forall k :: 0 <= k < |below| ==> below[k] != []
    ensures InReadingOrder(own + Nested(i, below)) && AllStart(own + Nested(i, below), i)
  {
    OrderBelow(i, below);
    forall k | 0 <= k < |below| ensures Earlier([i], [i] + below[k]) {
      EarlierBelow(i, [], below[k]);
      assert [i] + [] == [i];
    }
  }

  /** A readable path through block number i is the block's own or leads on below it. */
  lemma {:induction false} ReadableIn(pages: Workspace, id: string, i: nat, depth: int, maxDepth: int, path: seq<nat>)
    requires i < |pages(id)| && Readable(pages, id, depth, maxDepth, path) && path[0] == i
    ensures |path| == 1 ==> path == [i] && pages(id)[i].text != ""
    ensures |path| > 1 ==>
      && pages(id)[i].hasChildren && depth < maxDepth
      && Readable(pages, pages(id)[i].id, depth + 1, maxDepth, path[1..]) && path == [i] + path[1..]
  {
    if |path| > 1 {
      assert path == [i] + path[1..];
      AtBelow(pages, id, i, path[1..]);
    }
  }

  lemma {:induction false} NestedHas(i: nat, paths: seq<seq<nat>>, path: seq<nat>)
    requires path in paths
    ensures [i] + path in Nested(i, paths)
  {
    var k :| 0 <= k < |paths| && paths[k] == path;
    assert Nested(i, paths)[k] == [i] + path;
  }

  /** The first n blocks contribute one after the other. */
  lemma {:induction false} ListPaths(pages: Workspace, id: string, n: nat, depth: int, maxDepth: int)
    returns (paths: seq<seq<nat>>)
    requires n <= |pages(id)| && depth <= maxDepth
    ensures InReadingOrder(paths) && forall k :: 0 <= k < |paths| ==> paths[k] != [] && paths[k][0] < n
    ensures LinesAt(pages, id, depth, maxDepth, paths, Lines(ListTraversal(pages, pages(id)[..n], depth, maxDepth)))
    ensures AllReadable(pages, id, n, depth, maxDepth, paths)
    decreases maxDepth - depth, 2, n
  {
    if n == 0 {
      paths := [];
    } else {
      var front, back := pages(id)[..n - 1], pages(id)[n - 1];
      var before := ListPaths(pages, id, n - 1, depth, maxDepth);
      var more := BlockPaths(pages, id, n - 1, depth, maxDepth);
      paths := before + more;
      assert pages(id)[..n] == front + [back] && pages(id)[..n][..n - 1] == front;
      LinesAppend(ListTraversal(pages, front, depth, maxDepth), BlockTraversal(pages, back, depth, maxDepth));
      LinesAtJoin(pages, id, depth, maxDepth, before, Lines(ListTraversal(pages, front, depth, maxDepth)),
                  more, Lines(BlockTraversal(pages, back, depth, maxDepth)));
      OrderJoin(before, more, n - 1);
      hide Readable, Earlier, InReadingOrder, LinesAt, Lines, BlockTraversal;
    }
  }

  /** Reading a page shows one line for each block with text that is reached through blocks that have children and
      is not too deep, with its depth, and parents before children and siblings in order. */
  lemma {:induction false} TraversalPaths(pages: Workspace, id: string, depth: int, maxDepth: int)
    returns (paths: seq<seq<nat>>)
    ensures InReadingOrder(paths)
    ensures LinesAt(pages, id, depth, maxDepth, paths, Lines(Traversal(pages, id, depth, maxDepth)))
    ensures forall path :: Readable(pages, id, depth, maxDepth, path) <==> path in paths
    decreases maxDepth - depth + 1, 0, 0
  {
    if depth > maxDepth {
      paths := [];
    } else {
      var n := |pages(id)|;
      paths := ListPaths(pages, id, n, depth, maxDepth);
      assert pages(id)[..n] == pages(id);
      LinesAppend([Fetch(id)], ListTraversal(pages, pages(id), depth, maxDepth));
      FlatMapOne(LineOf, Fetch(id));
      assert [] + Lines(ListTraversal(pages, pages(id), depth, maxDepth))
          == Lines(ListTraversal(pages, pages(id), depth, maxDepth));
      forall path | Readable(pages, id, depth, maxDepth, path) ensures path in paths {
        assert path[0] < n;
      }
      forall path | path in paths ensures Readable(pages, id, depth, maxDepth, path) {
        var k :| 0 <= k < |paths| && paths[k] == path;
      }
    }
  }
}
