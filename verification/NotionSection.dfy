/** Replacing one section of a page: the plan, carrying it out, and what it leaves alone. */
module NotionSection {
  import opened Text

  /**
   * A top-level block as listed: its plain text, and for a level-2 heading with visible text the
   * normalized label that section names are compared with.
   */
  datatype Block = Block(id: string, kind: string, text: string, name: string)

  datatype Error =
    | HeadingRequired
    | ContentRequired
    | NotFound(available: seq<string>)
    | Ambiguous
    | CallFailed

  datatype Plan = Plan(headingId: string, archivedIds: seq<string>, available: seq<string>)

  datatype PlanResult = Planned(plan: Plan) | Rejected(error: Error)

  // --- the plan ---

  function Label(heading: string): string {
    NormalizeText(heading)
  }

  /** A block as the service returns it, with the label of its heading worked out. */
  function Listed(id: string, kind: string, text: string): Block {
    Block(id, kind, text, if kind == "heading_2" then Label(text) else "")
  }

  /** Only a heading with visible text starts a section. */
  predicate IsHeading(block: Block) {
    block.name != ""
  }

  /** The positions of the section headings with the label. */
  function Matches(blocks: seq<Block>, name: string): (matches: seq<nat>)
    ensures forall k :: 0 <= k < |matches| ==> matches[k] < |blocks|
  {
    if blocks == [] then [] else
      var n := |blocks| - 1;
      Matches(blocks[..n], name) + (if blocks[n].name == name then [n] else [])
  }

  /** The first heading from a position on, or the end of the page. */
  function NextHeading(blocks: seq<Block>, from: nat): (next: nat)
    requires from <= |blocks|
    ensures from <= next <= |blocks|
    decreases |blocks| - from
  {
    if from == |blocks| || IsHeading(blocks[from]) then from else NextHeading(blocks, from + 1)
  }

  function Available(blocks: seq<Block>): seq<string> {
    if blocks == [] then []
    else (if IsHeading(blocks[0]) then [blocks[0].text] else []) + Available(blocks[1..])
  }

  function Ids(blocks: seq<Block>): seq<string> {
    seq(|blocks|, i requires 0 <= i < |blocks| => blocks[i].id)
  }

  function NonEmpty(ids: seq<string>): seq<string> {
    if ids == [] then [] else (if ids[0] == "" then [] else [ids[0]]) + NonEmpty(ids[1..])
  }

  /** The plan for the section with a label. */
  function PlanFor(blocks: seq<Block>, name: string): PlanResult {
    var matches := Matches(blocks, name);
    if name == "" then Rejected(HeadingRequired)
    else if matches == [] then Rejected(NotFound(Available(blocks)))
    else if |matches| > 1 then Rejected(Ambiguous)
    else Planned(PlanAt(blocks, matches[0]))
  }

  function PlanAt(blocks: seq<Block>, target: nat): Plan
    requires target < |blocks|
  {
    var archived := NonEmpty(Ids(blocks[target + 1..NextHeading(blocks, target + 1)]));
    Plan(blocks[target].id, archived, Available(blocks))
  }

  function PlanReplacement(blocks: seq<Block>, sectionHeading: string): PlanResult {
    PlanFor(blocks, Label(sectionHeading))
  }

  lemma {:induction false} NextHeadingSpec(blocks: seq<Block>, from: nat)
    requires from <= |blocks|
    ensures
      var next := NextHeading(blocks, from);
      NoHeadings(blocks[from..next]) && AtSectionStart(blocks[next..])
    decreases |blocks| - from
  {
    if from < |blocks| && !IsHeading(blocks[from]) {
      NextHeadingSpec(blocks, from + 1);
      var next := NextHeading(blocks, from);
      assert blocks[from..next] == [blocks[from]] + blocks[from + 1..next];
    }
  }

  lemma {:induction false} MatchesSpec(blocks: seq<Block>, name: string)
    ensures forall i :: i in Matches(blocks, name) <==> 0 <= i < |blocks| && blocks[i].name == name
    ensures forall j, k :: 0 <= j < k < |Matches(blocks, name)| ==> Matches(blocks, name)[j] < Matches(blocks, name)[k]
  {
    if blocks != [] {
      var n := |blocks| - 1;
      MatchesSpec(blocks[..n], name);
      var matches := Matches(blocks[..n], name);
      assert forall k :: 0 <= k < |matches| ==> matches[k] in matches;
    }
  }

  // --- the page as sections ---

  datatype Section = Section(heading: Block, body: seq<Block>)

  datatype Outline = Outline(preamble: seq<Block>, sections: seq<Section>)

  /** Reading a page as a preamble and sections, from its last block backwards. */
  function Parse(blocks: seq<Block>): Outline {
    if blocks == [] then Outline([], [])
    else
      var rest := Parse(blocks[1..]);
      if IsHeading(blocks[0]) then Outline([], [Section(blocks[0], rest.preamble)] + rest.sections)
      else Outline([blocks[0]] + rest.preamble, rest.sections)
  }

  function FlattenSections(sections: seq<Section>): seq<Block> {
    if sections == [] then []
    else [sections[0].heading] + sections[0].body + FlattenSections(sections[1..])
  }

  lemma {:induction false} FlattenParse(blocks: seq<Block>)
    ensures Parse(blocks).preamble + FlattenSections(Parse(blocks).sections) == blocks
  {
    if blocks != [] {
      FlattenParse(blocks[1..]);
      assert blocks == [blocks[0]] + blocks[1..];
      var sections := Parse(blocks).sections;
      if IsHeading(blocks[0]) {
        assert sections[1..] == Parse(blocks[1..]).sections;
      }
    }
  }

  ghost predicate NoHeadings(blocks: seq<Block>) {
    forall i :: 0 <= i < |blocks| ==> !IsHeading(blocks[i])
  }

  ghost predicate AtSectionStart(blocks: seq<Block>) {
    blocks != [] ==> IsHeading(blocks[0])
  }

  lemma {:induction false} ParseBody(body: seq<Block>, rest: seq<Block>)
    requires NoHeadings(body)
    ensures Parse(body + rest) == Outline(body + Parse(rest).preamble, Parse(rest).sections)
  {
    if body == [] {
      assert body + rest == rest;
      assert body + Parse(rest).preamble == Parse(rest).preamble;
    } else {
      assert (body + rest)[1..] == body[1..] + rest;
      ParseBody(body[1..], rest);
      assert [body[0]] + (body[1..] + Parse(rest).preamble) == body + Parse(rest).preamble;
    }
  }

  lemma {:induction false} ParseSection(heading: Block, body: seq<Block>, rest: seq<Block>)
    requires IsHeading(heading) && NoHeadings(body) && AtSectionStart(rest)
    ensures Parse([heading] + body + rest) == Outline([], [Section(heading, body)] + Parse(rest).sections)
  {
    var blocks := [heading] + body + rest;
    assert blocks[1..] == body + rest;
    ParseBody(body, rest);
    assert Parse(rest).preamble == [];
    assert body + [] == body;
  }

  lemma {:induction false} ParseFront(front: seq<Block>, rest: seq<Block>)
    requires AtSectionStart(rest)
    ensures Parse(front + rest) == Outline(Parse(front).preamble, Parse(front).sections + Parse(rest).sections)
  {
    if front == [] {
      assert front + rest == rest;
      assert Parse(rest).preamble == [];
      assert [] + Parse(rest).sections == Parse(rest).sections;
    } else {
      assert (front + rest)[1..] == front[1..] + rest;
      ParseFront(front[1..], rest);
      var f := Parse(front[1..]);
      assert [Section(front[0], f.preamble)] + (f.sections + Parse(rest).sections)
          == [Section(front[0], f.preamble)] + f.sections + Parse(rest).sections;
    }
  }

  /** Putting another body under a heading changes that section and nothing else. */
  lemma {:induction false} OtherBody(front: seq<Block>, heading: Block, body: seq<Block>, other: seq<Block>,
                                     rest: seq<Block>)
    requires IsHeading(heading) && NoHeadings(body) && NoHeadings(other) && AtSectionStart(rest)
    ensures
      var k := |Parse(front).sections|;
      var before := Parse(front + ([heading] + body + rest));
      && k < |before.sections|
      && before.sections[k] == Section(heading, body)
      && Parse(front + ([heading] + other + rest))
         == before.(sections := before.sections[k := Section(heading, other)])
  {
    ParseSection(heading, body, rest);
    ParseSection(heading, other, rest);
    ParseFront(front, [heading] + body + rest);
    ParseFront(front, [heading] + other + rest);
  }

  // --- the target of a plan ---

  /** The one section heading with the label. */
  ghost predicate IsTarget(blocks: seq<Block>, name: string, t: int) {
    && 0 <= t < |blocks| && blocks[t].name == name != ""
    && forall i :: 0 <= i < |blocks| && blocks[i].name == name ==> i == t
  }

  /** A target's plan is the plan. */
  lemma {:induction false} PlanOfTarget(blocks: seq<Block>, name: string, t: nat)
    requires IsTarget(blocks, name, t)
    ensures PlanFor(blocks, name) == Planned(PlanAt(blocks, t))
  {
    var matches := Matches(blocks, name);
    MatchesSpec(blocks, name);
    assert t in matches;
    assert forall k :: 0 <= k < |matches| ==> matches[k] in matches;
    assert matches[0] == t;
    assert |matches| > 1 ==> matches[0] == t == matches[1];
  }

  /** A plan exists exactly when one section, and only one, has the label. */
  lemma {:induction false} PlannedIff(blocks: seq<Block>, name: string)
    ensures PlanFor(blocks, name).Planned? <==> exists t :: IsTarget(blocks, name, t)
  {
    if PlanFor(blocks, name).Planned? {
      var t := TargetOfPlan(blocks, name);
    }
    if t :| IsTarget(blocks, name, t) {
      PlanOfTarget(blocks, name, t);
    }
  }

  lemma {:induction false} MatchesMeaning(blocks: seq<Block>, name: string)
    ensures Matches(blocks, name) == [] <==> forall i :: 0 <= i < |blocks| ==> blocks[i].name != name
    ensures |Matches(blocks, name)| > 1 <==> exists i, j :: 0 <= i < j < |blocks| && blocks[i].name == blocks[j].name == name
  {
    var matches := Matches(blocks, name);
    MatchesSpec(blocks, name);
    hide Matches;
    assert forall k :: 0 <= k < |matches| ==> matches[k] in matches;
    if |matches| > 1 {
      assert blocks[matches[0]].name == blocks[matches[1]].name == name;
    }
    if i, j :| 0 <= i < j < |blocks| && blocks[i].name == blocks[j].name == name {
      assert i in matches && j in matches;
      var k :| 0 <= k < |matches| && matches[k] == i;
      var l :| 0 <= l < |matches| && matches[l] == j;
      assert k != l;
    }
    assert matches != [] ==> blocks[matches[0]].name == name;
  }

  /** A label is reported as not found, with the labels there are, exactly when no section has it. */
  lemma {:induction false} NotFoundIff(blocks: seq<Block>, name: string)
    requires name != ""
    ensures PlanFor(blocks, name) == Rejected(NotFound(Available(blocks)))
      <==> forall i :: 0 <= i < |blocks| ==> blocks[i].name != name
  {
    MatchesMeaning(blocks, name);
    hide Matches, Available;
  }

  /** A label is reported as ambiguous exactly when two sections have it. */
  lemma {:induction false} AmbiguousIff(blocks: seq<Block>, name: string)
    requires name != ""
    ensures PlanFor(blocks, name) == Rejected(Ambiguous)
      <==> exists i, j :: 0 <= i < j < |blocks| && blocks[i].name == blocks[j].name == name
  {
    MatchesMeaning(blocks, name);
    hide Matches, Available;
  }

  lemma {:induction false} TargetOfPlan(blocks: seq<Block>, name: string) returns (t: nat)
    requires PlanFor(blocks, name).Planned?
    ensures IsTarget(blocks, name, t)
    ensures PlanFor(blocks, name).plan == PlanAt(blocks, t)
  {
    var matches := Matches(blocks, name);
    t := matches[0];
    MatchesSpec(blocks, name);
    assert t in matches && matches == [t];
  }

  // --- carrying it out ---

  ghost predicate ValidIds(blocks: seq<Block>) {
    forall i :: 0 <= i < |blocks| ==> blocks[i].id != ""
  }

  ghost predicate DistinctIds(blocks: seq<Block>) {
    forall i, j :: 0 <= i < j < |blocks| ==> blocks[i].id != blocks[j].id
  }

  function IndexOfId(blocks: seq<Block>, id: string): (i: nat)
    ensures i <= |blocks| && (i < |blocks| ==> blocks[i].id == id)
    ensures forall j :: 0 <= j < i ==> blocks[j].id != id
  {
    if blocks == [] || blocks[0].id == id then 0 else 1 + IndexOfId(blocks[1..], id)
  }

  /** What a request to build a section's content asks for. */
  datatype Draft = Draft(kind: string, text: string)

  function BulletDrafts(bullets: seq<string>): seq<Draft> {
    if bullets == [] then [] else
      var own := if Trim(bullets[0]) == "" then [] else [Draft("bulleted_list_item", Trim(bullets[0]))];
      own + BulletDrafts(bullets[1..])
  }

  function SectionDrafts(paragraph: string, bullets: seq<string>): seq<Draft> {
    (if Trim(paragraph) == "" then [] else [Draft("paragraph", Trim(paragraph))]) + BulletDrafts(bullets)
  }

  /** The drafts as blocks, under the ids the service gives them. */
  function Stored(drafts: seq<Draft>, ids: seq<string>): seq<Block>
    requires |ids| == |drafts|
  {
    seq(|drafts|, i requires 0 <= i < |drafts| => Listed(ids[i], drafts[i].kind, drafts[i].text))
  }

  /** The page held by the service, and its two write calls. */
  class RemotePage {
    var blocks: seq<Block>

    constructor (initial: seq<Block>)
      ensures blocks == initial
    {
      blocks := initial;
    }

    method Archive(id: string) returns (ok: bool)
      modifies this
      ensures
        var i := IndexOfId(old(blocks), id);
        && ok == (id != "" && i < |old(blocks)|)
        && blocks == if ok then old(blocks)[..i] + old(blocks)[i + 1..] else old(blocks)
    {
      var i := IndexOfId(blocks, id);
      ok := id != "" && i < |blocks|;
      if ok {
        blocks := blocks[..i] + blocks[i + 1..];
      }
    }

    method Append(children: seq<Block>, after: string) returns (ok: bool)
      modifies this
      ensures
        var i := if after == "" then |old(blocks)| - 1 else IndexOfId(old(blocks), after);
        && ok == (children != [] && i < |old(blocks)|)
        && blocks == if ok then old(blocks)[..i + 1] + children + old(blocks)[i + 1..] else old(blocks)
    {
      var i := if after == "" then |blocks| - 1 else IndexOfId(blocks, after);
      ok := children != [] && i < |blocks|;
      if ok {
        blocks := blocks[..i + 1] + children + blocks[i + 1..];
      }
    }
  }

  /** The page after `calls` successful write calls of a plan for the section t..n. */
  function PageAfter(blocks: seq<Block>, t: nat, n: nat, children: seq<Block>, calls: nat): seq<Block>
    requires t < n <= |blocks|
  {
    if calls <= n - t - 1 then blocks[..t + 1] + blocks[t + 1 + calls..]
    else blocks[..t + 1] + children + blocks[n..]
  }

  lemma {:induction false} FoundAt(blocks: seq<Block>, i: nat)
    requires DistinctIds(blocks) && i < |blocks|
    ensures IndexOfId(blocks, blocks[i].id) == i
  {
  }

  lemma {:induction false} IdsKept(blocks: seq<Block>)
    requires ValidIds(blocks)
    ensures NonEmpty(Ids(blocks)) == Ids(blocks)
  {
    if blocks != [] {
      assert Ids(blocks)[1..] == Ids(blocks[1..]);
      assert ValidIds(blocks[1..]) by { assert forall i :: 0 <= i < |blocks| - 1 ==> blocks[1..][i] == blocks[i + 1]; }
      IdsKept(blocks[1..]);
    }
  }

  /** Dropping blocks behind the heading keeps ids distinct and the heading in place. */
  lemma {:induction false} DropAfter(blocks: seq<Block>, t: nat, k: nat)
    requires DistinctIds(blocks) && t + 1 + k <= |blocks|
    ensures DistinctIds(blocks[..t + 1] + blocks[t + 1 + k..])
  {
    var now := blocks[..t + 1] + blocks[t + 1 + k..];
    forall i, j | 0 <= i < j < |now| ensures now[i].id != now[j].id {
      assert now[i] == blocks[if i <= t then i else i + k];
      assert now[j] == blocks[if j <= t then j else j + k];
    }
  }

  lemma {:induction false} ArchiveStep(blocks: seq<Block>, t: nat, k: nat)
    requires DistinctIds(blocks) && t + 1 + k < |blocks|
    ensures
      var now := blocks[..t + 1] + blocks[t + 1 + k..];
      && IndexOfId(now, blocks[t + 1 + k].id) == t + 1 < |now|
      && blocks[..t + 1] + blocks[t + 2 + k..] == now[..t + 1] + now[t + 2..]
  {
    var now := blocks[..t + 1] + blocks[t + 1 + k..];
    DropAfter(blocks, t, k);
    FoundAt(now, t + 1);
    assert now[t + 1] == blocks[t + 1 + k];
    assert now[t + 2..] == blocks[t + 2 + k..];
  }

  lemma {:induction false} AppendStep(blocks: seq<Block>, t: nat, n: nat)
    requires DistinctIds(blocks) && t < n <= |blocks|
    ensures
      var now := blocks[..t + 1] + blocks[n..];
      && IndexOfId(now, blocks[t].id) == t < |now|
      && now[..t + 1] == blocks[..t + 1] && now[t + 1..] == blocks[n..]
  {
    var now := blocks[..t + 1] + blocks[n..];
    DropAfter(blocks, t, n - t - 1);
    FoundAt(now, t);
    assert now[t] == blocks[t];
  }

  lemma {:induction false} ArchivedIds(blocks: seq<Block>, t: nat)
    requires ValidIds(blocks) && t < |blocks|
    ensures PlanAt(blocks, t).archivedIds == Ids(blocks[t + 1..NextHeading(blocks, t + 1)])
  {
    var body := blocks[t + 1..NextHeading(blocks, t + 1)];
    assert ValidIds(body) by { assert forall i :: 0 <= i < |body| ==> body[i] == blocks[t + 1 + i]; }
    IdsKept(body);
  }

  /** How far a run gets, and the page it leaves behind. */
  datatype Outcome = Done | Failed(error: Error)

  /**
   * The replace_section branch of an update: reads the page, plans, archives the old body block by
   * block and appends the new one under the heading. Write calls after the first `calls` fail.
   */
  method ReplaceSection(page: RemotePage, sectionHeading: string, drafts: seq<Draft>, ids: seq<string>, calls: nat)
    returns (outcome: Outcome, ghost t: nat)
    requires ValidIds(page.blocks) && DistinctIds(page.blocks) && |ids| == |drafts|
    modifies page
    ensures Trim(sectionHeading) == "" ==> outcome == Failed(HeadingRequired) && page.blocks == old(page.blocks)
    ensures Trim(sectionHeading) != "" && drafts == [] ==>
      outcome == Failed(ContentRequired) && page.blocks == old(page.blocks)
    ensures Trim(sectionHeading) != "" && drafts != [] ==>
      PageChange(old(page.blocks), Label(Trim(sectionHeading)), t, Stored(drafts, ids), calls, outcome, page.blocks)
  {
    t := 0;
    if Trim(sectionHeading) == "" {
      return Failed(HeadingRequired), 0;
    }
    if drafts == [] {
      return Failed(ContentRequired), 0;
    }
    var planned := PlanReplacement(page.blocks, Trim(sectionHeading));
    if planned.Rejected? {
      return Failed(planned.error), 0;
    }
    t := TargetOfPlan(page.blocks, Label(Trim(sectionHeading)));
    ArchivedIds(page.blocks, t);
    outcome := CarryOut(page, planned.plan, Stored(drafts, ids), calls, t);
  }

  /** What a run may do to the page: nothing without a plan, else as many steps as calls succeed. */
  ghost predicate PageChange(blocks: seq<Block>, name: string, t: nat, children: seq<Block>, calls: nat,
                             outcome: Outcome, after: seq<Block>) {
    var planned := PlanFor(blocks, name);
    if planned.Rejected? then outcome == Failed(planned.error) && after == blocks
    else
      && IsTarget(blocks, name, t)
      && var n := NextHeading(blocks, t + 1);
      && outcome == (if calls >= n - t then Done else Failed(CallFailed))
      && after == PageAfter(blocks, t, n, children, calls)
  }

  /** Archives the block that now stands right behind the heading. */
  method ArchiveFirst(page: RemotePage, ghost blocks: seq<Block>, ghost t: nat, ghost k: nat, id: string)
    requires DistinctIds(blocks) && t + 1 + k < |blocks| && id == blocks[t + 1 + k].id != ""
    requires page.blocks == blocks[..t + 1] + blocks[t + 1 + k..]
    modifies page
    ensures page.blocks == blocks[..t + 1] + blocks[t + 2 + k..]
  {
    ArchiveStep(blocks, t, k);
    var ok := page.Archive(id);
  }

  lemma {:induction false} IdInBody(blocks: seq<Block>, ids: seq<string>, t: nat, k: nat)
    requires t + |ids| < |blocks| && ids == Ids(blocks[t + 1..t + 1 + |ids|]) && k < |ids| && ValidIds(blocks)
    ensures ids[k] == blocks[t + 1 + k].id != ""
  {
  }

  /** Archives the blocks behind a heading in order, until a call fails. */
  method ArchiveAll(page: RemotePage, ids: seq<string>, calls: nat, ghost t: nat) returns (archived: nat)
    requires ValidIds(page.blocks) && DistinctIds(page.blocks) && t + |ids| < |page.blocks|
    requires ids == Ids(page.blocks[t + 1..t + 1 + |ids|])
    modifies page
    ensures archived == if calls < |ids| then calls else |ids|
    ensures page.blocks == old(page.blocks)[..t + 1] + old(page.blocks)[t + 1 + archived..]
  {
    ghost var blocks := page.blocks;
    archived := 0;
    while archived < |ids| && archived < calls
      invariant archived <= |ids| && archived <= calls
      invariant page.blocks == blocks[..t + 1] + blocks[t + 1 + archived..]
    {
      IdInBody(blocks, ids, t, archived);
      ArchiveFirst(page, blocks, t, archived, ids[archived]);
      archived := archived + 1;
    }
  }

  /** Archives the planned blocks in order, then appends the new ones under the heading. */
  method CarryOut(page: RemotePage, plan: Plan, children: seq<Block>, calls: nat, ghost t: nat)
    returns (outcome: Outcome)
    requires ValidIds(page.blocks) && DistinctIds(page.blocks) && children != []
    requires t < |page.blocks| && plan.headingId == page.blocks[t].id
    requires plan.archivedIds == Ids(page.blocks[t + 1..NextHeading(page.blocks, t + 1)])
    modifies page
    ensures
      var n := NextHeading(old(page.blocks), t + 1);
      && outcome == (if calls >= n - t then Done else Failed(CallFailed))
      && page.blocks == PageAfter(old(page.blocks), t, n, children, calls)
  {
    ghost var blocks := page.blocks;
    var archived := ArchiveAll(page, plan.archivedIds, calls, t);
    if archived < |plan.archivedIds| || archived >= calls {
      return Failed(CallFailed);
    }
    AppendUnder(page, blocks, t, NextHeading(blocks, t + 1), children, plan.headingId);
    outcome := Done;
  }

  /** Appends the new blocks under the heading once the old ones are gone. */
  method AppendUnder(page: RemotePage, ghost blocks: seq<Block>, ghost t: nat, ghost n: nat, children: seq<Block>,
                     id: string)
    requires DistinctIds(blocks) && t < n <= |blocks| && id == blocks[t].id != "" && children != []
    requires page.blocks == blocks[..t + 1] + blocks[n..]
    modifies page
    ensures page.blocks == blocks[..t + 1] + children + blocks[n..]
  {
    AppendStep(blocks, t, n);
    var ok := page.Append(children, id);
  }

  // --- main results ---

  lemma {:induction false} SplitAtTarget(blocks: seq<Block>, t: nat)
    requires t < |blocks| && IsHeading(blocks[t])
    ensures
      var n := NextHeading(blocks, t + 1);
      && blocks == blocks[..t] + ([blocks[t]] + blocks[t + 1..n] + blocks[n..])
      && NoHeadings(blocks[t + 1..n]) && AtSectionStart(blocks[n..])
  {
    NextHeadingSpec(blocks, t + 1);
  }

  /** The part of the section's body that a run of `calls` calls leaves. */
  function BodyAfter(body: seq<Block>, children: seq<Block>, calls: nat): seq<Block> {
    if calls <= |body| then body[calls..] else children
  }

  /**
   * However far a run gets, the preamble and every other section are untouched and in place; the
   * target keeps its heading and has the rest of its old body, or exactly the new one.
   */
  lemma {:induction false} OnlyTheTargetChanges(blocks: seq<Block>, t: nat, children: seq<Block>, calls: nat)
    requires t < |blocks| && IsHeading(blocks[t]) && NoHeadings(children)
    ensures
      var n := NextHeading(blocks, t + 1);
      var before, k := Parse(blocks), |Parse(blocks[..t]).sections|;
      && k < |before.sections| && before.sections[k] == Section(blocks[t], blocks[t + 1..n])
      && Parse(PageAfter(blocks, t, n, children, calls))
         == before.(sections := before.sections[k := Section(blocks[t], BodyAfter(blocks[t + 1..n], children, calls))])
  {
    var n := NextHeading(blocks, t + 1);
    SplitAtTarget(blocks, t);
    var old_, body := blocks[t + 1..n], BodyAfter(blocks[t + 1..n], children, calls);
    AfterSplit(blocks, t, n, children, calls);
    assert NoHeadings(body);
    OtherBody(blocks[..t], blocks[t], old_, body, blocks[n..]);
  }

  lemma {:induction false} AfterSplit(blocks: seq<Block>, t: nat, n: nat, children: seq<Block>, calls: nat)
    requires t < n <= |blocks|
    ensures PageAfter(blocks, t, n, children, calls)
         == blocks[..t] + ([blocks[t]] + BodyAfter(blocks[t + 1..n], children, calls) + blocks[n..])
  {
    assert blocks[..t + 1] == blocks[..t] + [blocks[t]];
    if calls <= n - t - 1 {
      RestOfBody(blocks, t + 1, n, calls);
      ThreeParts(blocks[..t], [blocks[t]], blocks[t + 1..n][calls..], blocks[n..]);
    } else {
      ThreeParts(blocks[..t], [blocks[t]], children, blocks[n..]);
    }
  }

  lemma {:induction false} RestOfBody(blocks: seq<Block>, from: nat, n: nat, calls: nat)
    requires from + calls <= n <= |blocks|
    ensures blocks[from + calls..] == blocks[from..n][calls..] + blocks[n..]
  {
  }

  lemma {:induction false} ThreeParts(a: seq<Block>, b: seq<Block>, c: seq<Block>, d: seq<Block>)
    ensures (a + b) + (c + d) == a + (b + c + d) == (a + b) + c + d
  {
  }

  /** Content built from a paragraph and bullets never starts a section. */
  lemma {:induction false} DraftsAreNoHeadings(paragraph: string, bullets: seq<string>, ids: seq<string>)
    requires |ids| == |SectionDrafts(paragraph, bullets)|
    ensures NoHeadings(Stored(SectionDrafts(paragraph, bullets), ids))
  {
    BulletKinds(bullets);
    var drafts := SectionDrafts(paragraph, bullets);
    assert forall i :: 0 <= i < |drafts| ==> drafts[i].kind != "heading_2";
  }

  lemma {:induction false} BulletKinds(bullets: seq<string>)
    ensures forall i :: 0 <= i < |BulletDrafts(bullets)| ==> BulletDrafts(bullets)[i].kind == "bulleted_list_item"
  {
    if bullets != [] {
      BulletKinds(bullets[1..]);
    }
  }

  /** There is something to write exactly when the paragraph or a bullet has visible text. */
  lemma {:induction false} NothingToWriteIff(paragraph: string, bullets: seq<string>)
    ensures SectionDrafts(paragraph, bullets) == []
      <==> Trim(paragraph) == "" && forall i :: 0 <= i < |bullets| ==> Trim(bullets[i]) == ""
  {
    NoBulletsIff(bullets);
  }

  lemma {:induction false} NoBulletsIff(bullets: seq<string>)
    ensures BulletDrafts(bullets) == [] <==> forall i :: 0 <= i < |bullets| ==> Trim(bullets[i]) == ""
  {
    if bullets != [] {
      NoBulletsIff(bullets[1..]);
      assert forall i :: 0 < i < |bullets| ==> bullets[i] == bullets[1..][i - 1];
    }
  }

  /** The blocks a section is given: the trimmed paragraph, if visible, and then one bullet for each visible one,
      in order; `from` tells which bullet each comes from. */
  ghost predicate Written(children: seq<Block>, ids: seq<string>, paragraph: string, bullets: seq<string>, from: seq<nat>) {
    var head := if Trim(paragraph) == "" then 0 else 1;
    && |children| == |ids| == head + |from|
    && (head == 1 ==> children[0] == Block(ids[0], "paragraph", Trim(paragraph), ""))
    && (forall k :: 0 <= k < |from| ==>
          from[k] < |bullets| && children[head + k] == Block(ids[head + k], "bulleted_list_item", Trim(bullets[from[k]]), ""))
    && VisibleOnes(bullets, from)
  }

  /** The positions of all visible bullets, in order. */
  ghost predicate VisibleOnes(bullets: seq<string>, from: seq<nat>) {
    && (forall k, l :: 0 <= k < l < |from| ==> from[k] < from[l])
    && (forall i: nat :: i in from <==> i < |bullets| && Trim(bullets[i]) != "")
  }

  lemma {:induction false} VisibleSnoc(bullets: seq<string>, bullet: string, from: seq<nat>)
    requires VisibleOnes(bullets, from)
    ensures VisibleOnes(bullets + [bullet], if Trim(bullet) == "" then from else from + [|bullets|])
  {
    hide Trim;
    assert forall k :: 0 <= k < |from| ==> from[k] in from;
    var more := from + [|bullets|];
    assert forall i: nat :: i in more <==> i in from || i == |bullets|;
  }

  /** The draft is that of the bullet it comes from. */
  ghost predicate DraftsFrom(drafts: seq<Draft>, bullets: seq<string>, from: seq<nat>) {
    && |drafts| == |from|
    && forall k :: 0 <= k < |from| ==>
         from[k] < |bullets| && drafts[k] == Draft("bulleted_list_item", Trim(bullets[from[k]]))
  }

  lemma {:induction false} DraftsFromSnoc(drafts: seq<Draft>, bullets: seq<string>, bullet: string, from: seq<nat>)
    requires DraftsFrom(drafts, bullets, from)
    ensures if Trim(bullet) == "" then DraftsFrom(drafts, bullets + [bullet], from)
            else DraftsFrom(drafts + [Draft("bulleted_list_item", Trim(bullet))], bullets + [bullet], from + [|bullets|])
  {
    hide Trim;
  }

  lemma {:induction false} NoBulletsFrom()
    ensures VisibleOnes([], []) && DraftsFrom(BulletDrafts([]), [], [])
  {
  }

  lemma {:induction false} BulletsFrom(bullets: seq<string>) returns (from: seq<nat>)
    ensures VisibleOnes(bullets, from) && DraftsFrom(BulletDrafts(bullets), bullets, from)
  {
    hide VisibleOnes, DraftsFrom, BulletDrafts, Trim;
    if bullets == [] {
      NoBulletsFrom();
      from := [];
    } else {
      var front, last := bullets[..|bullets| - 1], bullets[|bullets| - 1];
      var before := BulletsFrom(front);
      BulletDraftsSnoc(front, last);
      VisibleSnoc(front, last, before);
      DraftsFromSnoc(BulletDrafts(front), front, last, before);
      assert front + [last] == bullets;
      assert BulletDrafts(front) + [] == BulletDrafts(front);
      from := if Trim(last) == "" then before else before + [|front|];
    }
  }

  /** What one bullet is written as. */
  function BulletDraft(bullet: string): seq<Draft> {
    if Trim(bullet) == "" then [] else [Draft("bulleted_list_item", Trim(bullet))]
  }

  lemma {:induction false} BulletDraftsSnoc(bullets: seq<string>, bullet: string)
    ensures BulletDrafts(bullets + [bullet]) == BulletDrafts(bullets) + BulletDraft(bullet)
  {
    hide Trim;
    if bullets == [] {
      assert [bullet][1..] == [] && bullets + [bullet] == [bullet];
      assert BulletDrafts([bullet]) == BulletDraft(bullet) + [];
    } else {
      assert BulletDrafts(bullets) == BulletDraft(bullets[0]) + BulletDrafts(bullets[1..]);
      assert (bullets + [bullet])[1..] == bullets[1..] + [bullet];
      assert BulletDrafts(bullets + [bullet]) == BulletDraft(bullets[0]) + BulletDrafts(bullets[1..] + [bullet]);
      hide BulletDrafts, BulletDraft;
      BulletDraftsSnoc(bullets[1..], bullet);
    }
  }

  lemma {:induction false} DraftsAreWritten(paragraph: string, bullets: seq<string>, ids: seq<string>) returns (from: seq<nat>)
    requires |ids| == |SectionDrafts(paragraph, bullets)|
    ensures Written(Stored(SectionDrafts(paragraph, bullets), ids), ids, paragraph, bullets, from)
  {
    from := BulletsFrom(bullets);
    hide VisibleOnes, BulletDrafts, Trim;
    assert DraftsFrom(BulletDrafts(bullets), bullets, from);
  }

  /** What one update of a section does to the outline of the page. */
  ghost predicate SectionUpdated(blocks: seq<Block>, name: string, children: seq<Block>, calls: nat,
                                 outcome: Outcome, after: seq<Block>) {
    if forall t :: !IsTarget(blocks, name, t) then outcome.Failed? && after == blocks
    else
      exists k :: OneSectionUpdated(Parse(blocks), Parse(after), k, name, children, calls, outcome)
  }

  ghost predicate OneSectionUpdated(before: Outline, after: Outline, k: int, name: string, children: seq<Block>,
                                    calls: nat, outcome: Outcome) {
    && 0 <= k < |before.sections|
    && var section := before.sections[k];
    && section.heading.name == name
    && after == before.(sections := before.sections[k := Section(section.heading, BodyAfter(section.body, children, calls))])
    && outcome == (if calls > |section.body| then Done else Failed(CallFailed))
  }

  lemma {:induction false} ChangeUpdates(blocks: seq<Block>, name: string, t: nat, children: seq<Block>, calls: nat,
                                         outcome: Outcome, after: seq<Block>)
    requires PageChange(blocks, name, t, children, calls, outcome, after) && NoHeadings(children)
    ensures SectionUpdated(blocks, name, children, calls, outcome, after)
  {
    PlannedIff(blocks, name);
    if PlanFor(blocks, name).Planned? {
      OnlyTheTargetChanges(blocks, t, children, calls);
      assert OneSectionUpdated(Parse(blocks), Parse(after), |Parse(blocks[..t]).sections|, name, children, calls, outcome);
    }
  }

  /** The paragraph or a bullet has visible text. */
  ghost predicate HasContent(paragraph: string, bullets: seq<string>) {
    Trim(paragraph) != "" || exists i :: 0 <= i < |bullets| && Trim(bullets[i]) != ""
  }

  /**
   * One update of a section as its caller sees it: nothing changes without a heading, without content or
   * without exactly one section of that name; otherwise the body of that section, and nothing else, is
   * replaced by the paragraph and the bullets, or loses its first blocks when a call fails.
   */
  method UpdateSection(page: RemotePage, sectionHeading: string, paragraph: string, bullets: seq<string>,
                       ids: seq<string>, calls: nat)
    returns (outcome: Outcome)
    requires ValidIds(page.blocks) && DistinctIds(page.blocks) && |ids| == |SectionDrafts(paragraph, bullets)|
    modifies page
    ensures Trim(sectionHeading) == "" ==> outcome == Failed(HeadingRequired) && page.blocks == old(page.blocks)
    ensures Trim(sectionHeading) != "" && !HasContent(paragraph, bullets) ==>
      outcome == Failed(ContentRequired) && page.blocks == old(page.blocks)
    ensures Trim(sectionHeading) != "" && HasContent(paragraph, bullets) ==>
      exists children, from ::
        && Written(children, ids, paragraph, bullets, from)
        && SectionUpdated(old(page.blocks), Label(Trim(sectionHeading)), children, calls, outcome, page.blocks)
  {
    ghost var t;
    outcome, t := ReplaceSection(page, sectionHeading, SectionDrafts(paragraph, bullets), ids, calls);
    NothingToWriteIff(paragraph, bullets);
    DraftsAreNoHeadings(paragraph, bullets, ids);
    ghost var children := Stored(SectionDrafts(paragraph, bullets), ids);
    ghost var from := DraftsAreWritten(paragraph, bullets, ids);
    hide SectionDrafts, Stored, Written, SectionUpdated, Trim, NoHeadings;
    if Trim(sectionHeading) != "" && HasContent(paragraph, bullets) {
      ChangeUpdates(old(page.blocks), Label(Trim(sectionHeading)), t, children, calls, outcome, page.blocks);
      assert Written(children, ids, paragraph, bullets, from);
    }
  }

  /** Planning again on the finished page archives exactly the blocks just added. */
  lemma {:induction false} ReplanArchivesTheNewBlocks(blocks: seq<Block>, name: string, t: nat, children: seq<Block>)
    requires IsTarget(blocks, name, t) && NoHeadings(children) && ValidIds(children)
    ensures
      var n := NextHeading(blocks, t + 1);
      PlanFor(PageAfter(blocks, t, n, children, n - t), name)
      == Planned(Plan(blocks[t].id, Ids(children), Available(blocks)))
  {
    var n := NextHeading(blocks, t + 1);
    var front, body, rest := blocks[..t + 1], blocks[t + 1..n], blocks[n..];
    SplitAtTarget(blocks, t);
    assert blocks == front + body + rest;
    NewTarget(blocks, name, t, n, children);
    NewPlanFor(front, children, rest, name);
    AvailableSame(front, body, children, rest);
  }

  lemma {:induction false} NewPlanFor(front: seq<Block>, children: seq<Block>, rest: seq<Block>, name: string)
    requires front != [] && NoHeadings(children) && ValidIds(children) && AtSectionStart(rest)
    requires IsTarget(front + children + rest, name, |front| - 1)
    ensures
      var after := front + children + rest;
      PlanFor(after, name) == Planned(Plan(front[|front| - 1].id, Ids(children), Available(after)))
  {
    PlanOfTarget(front + children + rest, name, |front| - 1);
    NewPlan(front, children, rest);
  }

  lemma {:induction false} NewPlan(front: seq<Block>, children: seq<Block>, rest: seq<Block>)
    requires front != [] && NoHeadings(children) && ValidIds(children) && AtSectionStart(rest)
    ensures
      var after := front + children + rest;
      PlanAt(after, |front| - 1) == Plan(front[|front| - 1].id, Ids(children), Available(after))
  {
    var after := front + children + rest;
    assert after[|front|..|front| + |children|] == children && after[|front| + |children|..] == rest;
    NextBehind(after, |front|, |children|);
    IdsKept(children);
  }

  lemma {:induction false} NewTarget(blocks: seq<Block>, name: string, t: nat, n: nat, children: seq<Block>)
    requires IsTarget(blocks, name, t) && t < n <= |blocks| && NoHeadings(children)
    ensures IsTarget(blocks[..t + 1] + children + blocks[n..], name, t)
  {
    forall i | 0 <= i < |children| ensures children[i].name != name {
      assert !IsHeading(children[i]);
    }
    forall i | n <= i < |blocks| ensures blocks[i].name != name {
    }
    var after := blocks[..t + 1] + children + blocks[n..];
    forall i | t < i < |after| ensures after[i].name != name {
      assert after[i] in children || after[i] in blocks[n..];
    }
  }

  lemma {:induction false} NextBehind(blocks: seq<Block>, from: nat, count: nat)
    requires from + count <= |blocks| && NoHeadings(blocks[from..from + count])
    requires AtSectionStart(blocks[from + count..])
    ensures NextHeading(blocks, from) == from + count
    decreases count
  {
    if count > 0 {
      assert blocks[from] == blocks[from..from + count][0];
      assert blocks[from + 1..from + count] == blocks[from..from + count][1..];
      NextBehind(blocks, from + 1, count - 1);
    }
  }

  lemma {:induction false} AvailableAppend(a: seq<Block>, b: seq<Block>)
    ensures Available(a + b) == Available(a) + Available(b)
  {
    if a == [] {
      assert a + b == b;
    } else {
      assert (a + b)[1..] == a[1..] + b;
      AvailableAppend(a[1..], b);
    }
  }

  lemma {:induction false} NoneAvailable(blocks: seq<Block>)
    requires NoHeadings(blocks)
    ensures Available(blocks) == []
  {
    if blocks != [] {
      NoneAvailable(blocks[1..]);
    }
  }

  lemma {:induction false} AvailableSame(front: seq<Block>, body: seq<Block>, other: seq<Block>, rest: seq<Block>)
    requires NoHeadings(body) && NoHeadings(other)
    ensures Available(front + body + rest) == Available(front + other + rest)
  {
    AvailableAppend(front + body, rest);
    AvailableAppend(front, body);
    AvailableAppend(front + other, rest);
    AvailableAppend(front, other);
    NoneAvailable(body);
    NoneAvailable(other);
  }

  /**
   * A level-2 heading without visible text belongs to the body before it: the finished page keeps
   * all other level-2 headings exactly when the replaced body has none.
   */
  lemma {:induction false} BlankHeadingsGoWithTheBody(blocks: seq<Block>, t: nat, children: seq<Block>)
    requires DistinctIds(blocks) && t < |blocks|
    requires forall i :: 0 <= i < |children| ==> children[i].kind != "heading_2"
    ensures
      var n := NextHeading(blocks, t + 1);
      var after := PageAfter(blocks, t, n, children, n - t);
      (forall i :: 0 <= i < |blocks| && blocks[i].kind == "heading_2" ==> blocks[i] in after)
      <==> (forall i :: t < i < n ==> blocks[i].kind != "heading_2")
  {
    var n := NextHeading(blocks, t + 1);
    var after := PageAfter(blocks, t, n, children, n - t);
    forall i | 0 <= i < |blocks| && (i <= t || i >= n) ensures blocks[i] in after {
      assert blocks[i] == after[if i <= t then i else i - n + t + 1 + |children|];
    }
    forall i | t < i < n && blocks[i].kind == "heading_2" ensures blocks[i] !in after {
      GoneFrom(blocks, t, n, children, i);
    }
  }

  lemma {:induction false} GoneFrom(blocks: seq<Block>, t: nat, n: nat, children: seq<Block>, i: nat)
    requires DistinctIds(blocks) && t < i < n <= |blocks|
    requires blocks[i] !in children
    ensures blocks[i] !in blocks[..t + 1] + children + blocks[n..]
  {
    assert forall j :: 0 <= j < |blocks| && j != i ==> blocks[j].id != blocks[i].id;
  }

  /** A page as the service lists it, and a heading without visible text that replacing the section in front
      of it loses: the plan archives it with the body. */
  lemma {:induction false} BlankHeadingIsLost()
    ensures
      var blank := Listed("2", "heading_2", "");
      var blocks := [Listed("1", "heading_2", "plan"), blank];
      var children := [Listed("3", "paragraph", "new")];
      && blank.kind == "heading_2"
      && PlanReplacement(blocks, "plan") == Planned(Plan("1", ["2"], ["plan"]))
      && IsTarget(blocks, "plan", 0)
      && blank !in PageAfter(blocks, 0, NextHeading(blocks, 1), children, 2)
  {
    var blank := Listed("2", "heading_2", "");
    var blocks := [Listed("1", "heading_2", "plan"), blank];
    PlanLabel();
    BlankLabel();
    hide Label, PlanFor, NextHeading, PageAfter, IsTarget;
    TwoBlocks(blocks[0], blank, Listed("3", "paragraph", "new"), "plan");
  }

  /** A section of one block, that starts no other section, at the end of the page. */
  lemma {:induction false} TwoBlocks(a: Block, b: Block, c: Block, name: string)
    requires a.name == name && name != "" && b.name == "" && b.id != "" && a.id != b.id && b.id != c.id
    ensures NextHeading([a, b], 1) == 2 && b !in PageAfter([a, b], 0, 2, [c], 2)
    ensures IsTarget([a, b], name, 0) && PlanFor([a, b], name) == Planned(Plan(a.id, [b.id], [a.text]))
  {
    var blocks := [a, b];
    assert PageAfter(blocks, 0, 2, [c], 2) == [a, c];
    assert IsTarget(blocks, name, 0);
    PlanOfTarget(blocks, name, 0);
    assert blocks[1..] == [b] && [b][1..] == [] && blocks[1..2] == [b];
    assert NextHeading(blocks, 1) == NextHeading(blocks, 2) == 2;
    assert Ids([b]) == [b.id] && [b.id][1..] == [];
    assert NonEmpty([b.id]) == [b.id] + NonEmpty([]);
    assert Available(blocks) == [a.text] + Available([b]) && Available([b]) == [] + Available([]);
  }

  lemma {:induction false} PlanLabel()
    ensures Label("plan") == "plan"
  {
    NoSpaceIsNormal("plan");
  }

  lemma {:induction false} BlankLabel()
    ensures Label("") == ""
  {
  }
}
