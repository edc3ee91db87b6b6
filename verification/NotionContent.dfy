/** Reading a page's blocks: a walk that stops at a depth and at a number of lines. */
module NotionContent {
  import opened Lists

  /** A block as the API lists it; blocks without printable text have the empty text. */
  datatype Block = Block(id: string, kind: string, text: string, hasChildren: bool)

  datatype Line = Line(kind: string, text: string, depth: int)

  /** What the walk does: ask for the children of a block, or produce a line. */
  datatype Step = Fetch(id: string) | Emit(line: Line)

  /** The workspace: the children the API lists for a block. Nothing rules out cycles. */
  type Workspace = string -> seq<Block>

  // --- the unbudgeted traversal ---

  /** The pre-order traversal below a block, cut at maxDepth. */
  function Traversal(pages: Workspace, id: string, depth: int, maxDepth: int): seq<Step>
    decreases maxDepth - depth + 1, 0, 0
  {
    if depth > maxDepth then [] else [Fetch(id)] + ListTraversal(pages, pages(id), depth, maxDepth)
  }

  function ListTraversal(pages: Workspace, blocks: seq<Block>, depth: int, maxDepth: int): seq<Step>
    requires depth <= maxDepth
    decreases maxDepth - depth, 2, |blocks|
  {
    if blocks == [] then [] else
      var n := |blocks| - 1;
      ListTraversal(pages, blocks[..n], depth, maxDepth) + BlockTraversal(pages, blocks[n], depth, maxDepth)
  }

  /** One block's own line, then everything below it. */
  function BlockTraversal(pages: Workspace, block: Block, depth: int, maxDepth: int): seq<Step>
    requires depth <= maxDepth
    decreases maxDepth - depth, 1, 0
  {
    OwnLine(block, depth) + Below(pages, block, depth, maxDepth)
  }

  function OwnLine(block: Block, depth: int): seq<Step> {
    if block.text == "" then [] else [Emit(Line(block.kind, block.text, depth))]
  }

  function Below(pages: Workspace, block: Block, depth: int, maxDepth: int): seq<Step>
    requires depth <= maxDepth
    decreases maxDepth - depth, 0, 1
  {
    if block.hasChildren && depth < maxDepth then Traversal(pages, block.id, depth + 1, maxDepth) else []
  }

  function LineOf(step: Step): seq<Line> {
    if step.Emit? then [step.line] else []
  }

  /** The lines a list of steps produces. */
  function Lines(steps: seq<Step>): seq<Line> {
    FlatMap(LineOf, steps)
  }

  /** The steps up to and including the one that produces line number `budget`. */
  function Cut(steps: seq<Step>, budget: int): seq<Step> {
    if budget <= 0 || steps == [] then []
    else [steps[0]] + Cut(steps[1..], Left(steps[0], budget))
  }

  function FirstLines(lines: seq<Line>, budget: int): seq<Line> {
    if budget <= 0 then [] else if |lines| <= budget then lines else lines[..budget]
  }

  // --- lemmas about cutting ---

  lemma {:induction false} LinesAppend(a: seq<Step>, b: seq<Step>)
    ensures Lines(a + b) == Lines(a) + Lines(b)
  {
    FlatMapAppend(LineOf, a, b);
  }

  function Left(step: Step, budget: int): int {
    if step.Emit? then budget - 1 else budget
  }

  lemma {:induction false} CutAll(steps: seq<Step>, budget: int)
    requires |Lines(steps)| < budget
    ensures Cut(steps, budget) == steps
  {
    if steps != [] {
      CutAll(steps[1..], Left(steps[0], budget));
    }
  }

  lemma {:induction false} CutCons(step: Step, rest: seq<Step>, budget: int)
    requires budget > 0
    ensures Cut([step] + rest, budget) == [step] + Cut(rest, Left(step, budget))
  {
    assert ([step] + rest)[1..] == rest;
  }

  lemma {:induction false} LinesCons(step: Step, rest: seq<Step>)
    ensures |Lines([step] + rest)| == |LineOf(step)| + |Lines(rest)|
  {
    FlatMapAppend(LineOf, [step], rest);
    FlatMapOne(LineOf, step);
  }

  /** Once the budget is used up, what follows does not matter; before, the rest gets what is left. */
  lemma {:induction false} CutAppend(a: seq<Step>, b: seq<Step>, budget: int)
    ensures Cut(a + b, budget)
         == if |Lines(a)| >= budget then Cut(a, budget) else a + Cut(b, budget - |Lines(a)|)
  {
    if budget > 0 {
      if a == [] {
        assert a + b == b;
        assert a + Cut(b, budget) == Cut(b, budget);
      } else {
        CutAppend(a[1..], b, Left(a[0], budget));
        CutHead(a[0], a[1..], b, budget);
        assert a == [a[0]] + a[1..];
      }
    }
  }

  /** The first step of the claim above. */
  lemma {:induction false} CutHead(step: Step, rest: seq<Step>, b: seq<Step>, budget: int)
    requires budget > 0
    requires Cut(rest + b, Left(step, budget))
          == if |Lines(rest)| >= Left(step, budget) then Cut(rest, Left(step, budget))
             else rest + Cut(b, Left(step, budget) - |Lines(rest)|)
    ensures Cut([step] + rest + b, budget)
         == if |Lines([step] + rest)| >= budget then Cut([step] + rest, budget)
            else [step] + rest + Cut(b, budget - |Lines([step] + rest)|)
  {
    CutCons(step, rest + b, budget);
    CutCons(step, rest, budget);
    LinesCons(step, rest);
    BudgetOfRest(step, |Lines(rest)|, budget);
    assert [step] + rest + b == [step] + (rest + b);
    hide Cut, Lines, Left, LineOf;
    var tail := Cut(b, budget - |Lines([step] + rest)|);
    assert [step] + rest + tail == [step] + (rest + tail);
  }

  lemma {:induction false} BudgetOfRest(step: Step, n: nat, budget: int)
    ensures Left(step, budget) - n == budget - (|LineOf(step)| + n)
  {
  }

  /** Cutting the traversal keeps exactly the first lines. */
  lemma {:induction false} LinesOfCut(steps: seq<Step>, budget: int)
    ensures Lines(Cut(steps, budget)) == FirstLines(Lines(steps), budget)
  {
    if budget > 0 && steps != [] {
      LinesOfCut(steps[1..], Left(steps[0], budget));
      assert Cut(steps, budget)[1..] == Cut(steps[1..], Left(steps[0], budget));
    }
  }

  lemma {:induction false} ListSplit(pages: Workspace, blocks: seq<Block>, i: nat, depth: int, maxDepth: int)
    requires i < |blocks| && depth <= maxDepth
    ensures ListTraversal(pages, blocks[..i + 1], depth, maxDepth)
         == ListTraversal(pages, blocks[..i], depth, maxDepth) + BlockTraversal(pages, blocks[i], depth, maxDepth)
  {
    assert blocks[..i + 1][..i] == blocks[..i];
  }

  /** The traversal of a list starts with the traversal of any front part. */
  lemma {:induction false} ListPrefix(pages: Workspace, blocks: seq<Block>, i: nat, depth: int, maxDepth: int)
    returns (rest: seq<Step>)
    requires i <= |blocks| && depth <= maxDepth
    ensures ListTraversal(pages, blocks, depth, maxDepth)
         == ListTraversal(pages, blocks[..i], depth, maxDepth) + rest
    decreases |blocks| - i
  {
    if i == |blocks| {
      rest := [];
      assert blocks[..i] == blocks;
    } else {
      var tail := ListPrefix(pages, blocks, i + 1, depth, maxDepth);
      ListSplit(pages, blocks, i, depth, maxDepth);
      rest := BlockTraversal(pages, blocks[i], depth, maxDepth) + tail;
    }
  }

  /** Inside the list below `id`: the steps for the first i blocks. */
  function Front(pages: Workspace, id: string, i: nat, depth: int, maxDepth: int): seq<Step>
    requires depth <= maxDepth && i <= |pages(id)|
  {
    [Fetch(id)] + ListTraversal(pages, pages(id)[..i], depth, maxDepth)
  }

  lemma {:induction false} FrontStep(pages: Workspace, id: string, i: nat, depth: int, maxDepth: int)
    requires depth <= maxDepth && i < |pages(id)|
    ensures Front(pages, id, i + 1, depth, maxDepth)
         == Front(pages, id, i, depth, maxDepth) + OwnLine(pages(id)[i], depth)
          + Below(pages, pages(id)[i], depth, maxDepth)
  {
    ListSplit(pages, pages(id), i, depth, maxDepth);
  }

  lemma {:induction false} TraversalFront(pages: Workspace, id: string, i: nat, depth: int, maxDepth: int)
    returns (rest: seq<Step>)
    requires depth <= maxDepth && i <= |pages(id)|
    ensures Traversal(pages, id, depth, maxDepth) == Front(pages, id, i, depth, maxDepth) + rest
  {
    rest := ListPrefix(pages, pages(id), i, depth, maxDepth);
    var front := ListTraversal(pages, pages(id)[..i], depth, maxDepth);
    assert [Fetch(id)] + (front + rest) == [Fetch(id)] + front + rest;
  }

  /** When the budget ends among the first i blocks, the later ones do not matter. */
  lemma {:induction false} StopHere(pages: Workspace, id: string, i: nat, depth: int, maxDepth: int, budget: int)
    requires depth <= maxDepth && i <= |pages(id)|
    requires |Lines(Front(pages, id, i, depth, maxDepth))| >= budget
    ensures Cut(Traversal(pages, id, depth, maxDepth), budget) == Cut(Front(pages, id, i, depth, maxDepth), budget)
  {
    var rest := TraversalFront(pages, id, i, depth, maxDepth);
    CutAppend(Front(pages, id, i, depth, maxDepth), rest, budget);
  }

  lemma {:induction false} OwnLineAdds(steps: seq<Step>, block: Block, depth: int)
    ensures Lines(steps + OwnLine(block, depth))
         == Lines(steps) + (if block.text == "" then [] else [Line(block.kind, block.text, depth)])
    ensures block.text == "" ==> steps + OwnLine(block, depth) == steps
  {
    LinesAppend(steps, OwnLine(block, depth));
    FlatMapOne(LineOf, Emit(Line(block.kind, block.text, depth)));
  }

  /** The block's own line is the last the budget allows. */
  lemma {:induction false} StopAtOwnLine(pages: Workspace, id: string, i: nat, depth: int, maxDepth: int, budget: int)
    requires depth <= maxDepth && i < |pages(id)|
    requires |Lines(Front(pages, id, i, depth, maxDepth))| == budget - 1 && pages(id)[i].text != ""
    ensures Cut(Traversal(pages, id, depth, maxDepth), budget)
         == Front(pages, id, i, depth, maxDepth) + OwnLine(pages(id)[i], depth)
  {
    var front, own := Front(pages, id, i, depth, maxDepth), OwnLine(pages(id)[i], depth);
    var below := Below(pages, pages(id)[i], depth, maxDepth);
    FrontStep(pages, id, i, depth, maxDepth);
    LinesAppend(front, own);
    LinesAppend(front + own, below);
    StopHere(pages, id, i + 1, depth, maxDepth, budget);
    CutAppend(front + own, below, budget);
    CutAppend(front, own, budget);
    assert Cut(own, 1) == own;
  }

  /** What walking below a block with the remaining budget adds. */
  lemma {:induction false} BelowAdds(pages: Workspace, id: string, i: nat, depth: int, maxDepth: int, budget: int,
                                     done: seq<Step>, added: seq<Step>)
    requires depth <= maxDepth && i < |pages(id)|
    requires done == Front(pages, id, i, depth, maxDepth) + OwnLine(pages(id)[i], depth)
    requires |Lines(done)| < budget
    requires added == Cut(Below(pages, pages(id)[i], depth, maxDepth), budget - |Lines(done)|)
    ensures |Lines(done + added)| < budget ==> done + added == Front(pages, id, i + 1, depth, maxDepth)
    ensures |Lines(done + added)| >= budget ==> done + added == Cut(Traversal(pages, id, depth, maxDepth), budget)
  {
    var below, left := Below(pages, pages(id)[i], depth, maxDepth), budget - |Lines(done)|;
    FrontStep(pages, id, i, depth, maxDepth);
    LinesAppend(done, added);
    LinesAppend(done, below);
    LinesOfCut(below, left);
    if |Lines(below)| < left {
      CutAll(below, left);
    } else {
      StopHere(pages, id, i + 1, depth, maxDepth, budget);
      CutAppend(done, below, budget);
    }
  }

  // --- the source's walk ---

  /**
   * The walk makes exactly the requests and lines of the full traversal up to line number
   * maxLines, and returns those lines.
   */
  method CollectLines(pages: Workspace, id: string, depth: int, maxDepth: int, maxLines: int)
    returns (lines: seq<Line>, steps: seq<Step>)
    ensures steps == Cut(Traversal(pages, id, depth, maxDepth), maxLines)
    ensures lines == Lines(steps)
    ensures lines == FirstLines(Lines(Traversal(pages, id, depth, maxDepth)), maxLines)
    decreases maxDepth - depth + 1
  {
    LinesOfCut(Traversal(pages, id, depth, maxDepth), maxLines);
    if depth > maxDepth || maxLines <= 0 {
      return [], [];
    }
    var blocks := pages(id);
    lines, steps := [], [Fetch(id)];
    FlatMapOne(LineOf, Fetch(id));
    assert Front(pages, id, 0, depth, maxDepth) == steps;
    for i := 0 to |blocks|
      invariant steps == Front(pages, id, i, depth, maxDepth)
      invariant lines == Lines(steps) && |lines| < maxLines
    {
      var block := blocks[i];
      OwnLineAdds(steps, block, depth);
      if block.text != "" {
        if |lines| + 1 >= maxLines {
          StopAtOwnLine(pages, id, i, depth, maxDepth, maxLines);
        }
        lines := lines + [Line(block.kind, block.text, depth)];
        steps := steps + [Emit(Line(block.kind, block.text, depth))];
        if |lines| >= maxLines {
          return;
        }
      }
      var childLines: seq<Line>, childSteps: seq<Step> := [], [];
      if block.hasChildren && depth < maxDepth && |lines| < maxLines {
        childLines, childSteps := CollectLines(pages, block.id, depth + 1, maxDepth, maxLines - |lines|);
      }
      BelowAdds(pages, id, i, depth, maxDepth, maxLines, steps, childSteps);
      LinesAppend(steps, childSteps);
      lines := lines + childLines;
      steps := steps + childSteps;
      if |lines| >= maxLines {
        return;
      }
    }
    assert blocks[..|blocks|] == blocks;
    CutAll(steps, maxLines);
  }

  lemma {:induction false} CutNests(steps: seq<Step>, small: int, large: int)
    requires small <= large
    ensures Cut(steps, small) <= Cut(steps, large)
  {
    if small > 0 && steps != [] {
      CutNests(steps[1..], Left(steps[0], small), Left(steps[0], large));
    }
  }

  lemma {:induction false} LinesOfPrefix(a: seq<Step>, b: seq<Step>)
    requires a <= b
    ensures Lines(a) <= Lines(b)
  {
    assert b == a + b[|a|..];
    LinesAppend(a, b[|a|..]);
  }

  /** Of two walks below the same block the one with the smaller budget makes the first requests of the other
      and returns the first of its lines. */
  lemma {:induction false} BudgetsNest(pages: Workspace, id: string, depth: int, maxDepth: int, small: int, large: int)
    requires small <= large
    ensures
      var steps := Traversal(pages, id, depth, maxDepth);
      && Cut(steps, small) <= Cut(steps, large)
      && Lines(Cut(steps, small)) <= Lines(Cut(steps, large))
  {
    var steps := Traversal(pages, id, depth, maxDepth);
    CutNests(steps, small, large);
    LinesOfPrefix(Cut(steps, small), Cut(steps, large));
  }
}
