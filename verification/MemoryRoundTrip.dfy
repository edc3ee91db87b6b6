/** What the analyzer reads is what the printer was given. */
module MemoryRoundTrip {
  import opened Prelude
  import opened Lists
  import opened Text
  import opened VisibleLines
  import opened PersonalizationLedger
  import opened MemoryRender
  import opened Partition
  import D = MemoryDiagnostics

  // --- scanning joined parts ---

  lemma {:induction false} SplitGap(a: string, b: string)
    ensures SplitLines(a + "\n\n" + b) == SplitLines(a) + [""] + SplitLines(b)
  {
    SplitConcat(a + "\n", b);
    SplitConcat(a, "");
    SplitOneLine("");
    assert a + "\n" + "" == a + "\n";
    assert a + "\n" + "\n" + b == a + "\n\n" + b;
  }

  lemma {:induction false} ScanNothing(s: D.State)
    ensures D.Scan(s, "") == s
  {
    SplitOneLine("");
    D.BlankLine();
    assert D.Kinds([""]) == [D.Other];
    OneKind(s, D.Other);
  }

  lemma {:induction false} KindsGap(a: seq<string>, b: seq<string>)
    ensures D.Kinds(a + [""] + b) == D.Kinds(a) + [D.Other] + D.Kinds(b)
  {
    D.BlankLine();
  }

  lemma {:induction false} OneKind(s: D.State, kind: D.LineKind)
    ensures D.ScanKinds(s, [kind]) == D.Step(s, kind)
  {
    assert [kind][1..] == [];
    assert D.ScanKinds(D.Step(s, kind), []) == D.Step(s, kind);
  }

  lemma {:induction false} SkipOther(s: D.State, x: seq<D.LineKind>, y: seq<D.LineKind>)
    ensures D.ScanKinds(s, x + [D.Other] + y) == D.ScanKinds(D.ScanKinds(s, x), y)
  {
    D.ScanKindsAppend(s, x + [D.Other], y);
    D.ScanKindsAppend(s, x, [D.Other]);
    OneKind(D.ScanKinds(s, x), D.Other);
  }

  lemma {:induction false} ScanGap(s: D.State, a: string, b: string)
    ensures D.Scan(s, a + "\n\n" + b) == D.Scan(D.Scan(s, a), b)
  {
    SplitGap(a, b);
    KindsGap(SplitLines(a), SplitLines(b));
    SkipOther(s, D.Kinds(SplitLines(a)), D.Kinds(SplitLines(b)));
  }

  lemma {:induction false} ScanJoin(s: D.State, a: string, b: string)
    ensures D.Scan(s, JoinPart(a, b)) == D.Scan(D.Scan(s, a), b)
  {
    ScanNothing(s);
    ScanNothing(D.Scan(s, a));
    ScanGap(s, a, b);
  }

  /** A text of one line. */
  lemma {:induction false} ScanLine(s: D.State, line: string)
    requires OneLine(line)
    ensures D.Scan(s, line) == D.Step(s, D.Classify(line))
  {
    SplitOneLine(line);
    assert D.Kinds([line]) == [D.Classify(line)];
    OneKind(s, D.Classify(line));
  }

  // --- one bullet section ---

  /** No line of the text is a heading. */
  ghost predicate NoHeadingInside(e: Entry) {
    forall k :: 0 <= k < |MoreLines(e)| ==> IsBody(D.Classify(MoreLines(e)[k]))
  }

  predicate IsBody(kind: D.LineKind) { kind.Bullet? || kind.Other? }

  ghost predicate AllBody(kinds: seq<D.LineKind>) {
    forall k :: 0 <= k < |kinds| ==> IsBody(kinds[k])
  }

  ghost predicate PlainTexts(entries: seq<Entry>) {
    forall i :: 0 <= i < |entries| ==> ShowsFirstLine(entries[i]) && NoHeadingInside(entries[i])
  }

  lemma {:induction false} SameMembers(order: Order, entries: seq<Entry>)
    requires Reorders(order) && PlainTexts(entries)
    ensures PlainTexts(order.entries(entries))
    ensures |FlatMap(EntryBullets, order.entries(entries))| == |FlatMap(EntryBullets, entries)|
  {
    var sorted := order.entries(entries);
    forall i | 0 <= i < |sorted| ensures ShowsFirstLine(sorted[i]) && NoHeadingInside(sorted[i]) {
      assert sorted[i] in multiset(sorted);
      assert sorted[i] in multiset(entries);
    }
    BagReordered(EntryBullets, sorted, entries);
    assert |Bag(EntryBullets, sorted)| == |FlatMap(EntryBullets, sorted)|;
    assert |Bag(EntryBullets, entries)| == |FlatMap(EntryBullets, entries)|;
  }

  /** The state after n bullets: counted when a project and one of its sections are open. */
  function AfterBullets(s: D.State, n: nat): D.State {
    if s.project.Some? && s.project.value != "" && s.section.Some? && s.project.value in s.projects && n > 0 then
      var name := s.project.value;
      D.State(s.project, s.section, s.projects[name := D.WithBullets(s.projects[name], s.section.value, n)])
    else s
  }

  lemma {:induction false} BulletsAdd(s: D.State, n: nat)
    ensures AfterBullets(AfterBullets(s, 1), n) == AfterBullets(s, n + 1)
  {
    if AfterBullets(s, 1) != s && n > 0 {
      var name, section := s.project.value, s.section.value;
      var coverage := s.projects[name];
      assert D.WithBullets(D.WithBullets(coverage, section, 1), section, n) == D.WithBullets(coverage, section, n + 1);
      assert s.projects[name := D.WithBullets(coverage, section, 1)][name := D.WithBullets(coverage, section, n + 1)]
          == s.projects[name := D.WithBullets(coverage, section, n + 1)];
    }
  }

  /** Lines that are no headings only count as many bullets as there are among them. */
  lemma {:induction false} ScanBody(s: D.State, lines: seq<string>)
    requires AllBody(D.Kinds(lines))
    ensures D.ScanKinds(s, D.Kinds(lines)) == AfterBullets(s, |FlatMap(BulletOf, lines)|)
    decreases |lines|
  {
    if lines != [] {
      var kinds := D.Kinds(lines);
      assert kinds[1..] == D.Kinds(lines[1..]);
      assert kinds[0] == D.Classify(lines[0]) && IsBody(kinds[0]);
      BodyStep(s, kinds[0]);
      BulletsAdd(s, |FlatMap(BulletOf, lines[1..])|);
      assert |FlatMap(BulletOf, lines)| == (if kinds[0].Bullet? then 1 else 0) + |FlatMap(BulletOf, lines[1..])|;
      hide D.Step, AfterBullets, D.Classify, D.Kinds;
      ScanBody(D.Step(s, kinds[0]), lines[1..]);
    }
  }

  lemma {:induction false} BodyStep(s: D.State, kind: D.LineKind)
    requires IsBody(kind)
    ensures D.Step(s, kind) == if kind.Bullet? then AfterBullets(s, 1) else s
  {
  }

  lemma {:induction false} EntryIsBody(e: Entry)
    requires ShowsFirstLine(e) && NoHeadingInside(e)
    ensures AllBody(D.Kinds(EntryLines(e)))
  {
    EntryLinesAre(e);
    D.BulletLine(FirstLine(e));
  }

  lemma {:induction false} BodyAppend(a: seq<string>, b: seq<string>)
    requires AllBody(D.Kinds(a)) && AllBody(D.Kinds(b))
    ensures AllBody(D.Kinds(a + b))
  {
    assert D.Kinds(a + b) == D.Kinds(a) + D.Kinds(b);
    hide D.Kinds;
  }

  lemma {:induction false} EntriesAreBody(entries: seq<Entry>)
    requires PlainTexts(entries)
    ensures AllBody(D.Kinds(FlatMap(EntryLines, entries)))
  {
    if entries != [] {
      assert PlainTexts(entries[1..]);
      EntryIsBody(entries[0]);
      hide AllBody, D.Kinds, EntryLines, PlainTexts;
      EntriesAreBody(entries[1..]);
      BodyAppend(EntryLines(entries[0]), FlatMap(EntryLines, entries[1..]));
    }
  }

  /** The bullets among the lines of the entries are the entries' bullets. */
  lemma {:induction false} BulletsOfLines(entries: seq<Entry>)
    ensures FlatMap(BulletOf, FlatMap(EntryLines, entries)) == FlatMap(EntryBullets, entries)
  {
    if entries != [] {
      BulletsOfLines(entries[1..]);
      FlatMapAppend(BulletOf, EntryLines(entries[0]), FlatMap(EntryLines, entries[1..]));
    }
  }

  /** The lines of a section are its heading and the lines of its entries. */
  lemma {:induction false} SectionText(order: Order, heading: string, entries: seq<Entry>)
    requires OneLine(heading) && entries != []
    ensures SplitLines(RenderBulletSection(order, heading, entries))
         == [heading] + FlatMap(EntryLines, order.entries(entries))
  {
    var bullets := Bullets(order.entries(entries));
    SplitJoinedTexts([heading] + bullets);
    FlatMapAppend(SplitLines, [heading], bullets);
    FlatMapOne(SplitLines, heading);
    SplitOneLine(heading);
    LinesOfBullets(order.entries(entries));
  }

  lemma {:induction false} LinesOfBullets(entries: seq<Entry>)
    ensures FlatMap(SplitLines, Bullets(entries)) == FlatMap(EntryLines, entries)
  {
    if entries != [] {
      LinesOfBullets(entries[1..]);
      FlatMapAppend(SplitLines, ["- " + entries[0].text], Bullets(entries[1..]));
      FlatMapOne(SplitLines, "- " + entries[0].text);
    }
  }

  lemma {:induction false} ScanSection(s: D.State, order: Order, heading: string, entries: seq<Entry>)
    requires Reorders(order) && PlainTexts(entries) && OneLine(heading)
    ensures D.Scan(s, RenderBulletSection(order, heading, entries))
         == if entries == [] then s else AfterBullets(D.Step(s, D.Classify(heading)), |FlatMap(EntryBullets, entries)|)
  {
    if entries == [] {
      ScanNothing(s);
    } else {
      var lines := FlatMap(EntryLines, order.entries(entries));
      SectionText(order, heading, entries);
      SameMembers(order, entries);
      EntriesAreBody(order.entries(entries));
      BulletsOfLines(order.entries(entries));
      D.KindsCons(heading, lines);
      assert ([D.Classify(heading)] + D.Kinds(lines))[1..] == D.Kinds(lines);
      ScanBody(D.Step(s, D.Classify(heading)), lines);
    }
  }

  // --- one project ---

  /** The bullets that the entries of one section of a project are printed as. */
  function Count(entries: seq<Entry>, name: string, section: D.Section): nat {
    |FlatMap(EntryBullets, InSlot(entries, InProject(name, section)))|
  }

  lemma {:induction false} ManyBullets(entries: seq<Entry>)
    requires PlainTexts(entries)
    ensures FlatMap(EntryBullets, entries) == [] <==> entries == []
  {
    if entries != [] {
      EntryBulletsAre(entries[0]);
    }
  }

  /** Sections are present where something was counted. */
  function CoverageOf(x: nat, y: nat, z: nat): D.Coverage {
    D.Coverage(
      (if x > 0 then {D.Overview} else {}) + (if y > 0 then {D.MembersAndRoles} else {})
      + (if z > 0 then {D.RoadmapAndMilestones} else {}),
      map[D.Overview := x, D.MembersAndRoles := y, D.RoadmapAndMilestones := z])
  }

  /** What the analyzer should report about a project: exact counts, and a section where there are entries. */
  function Covered(entries: seq<Entry>, name: string): D.Coverage {
    CoverageOf(Count(entries, name, D.Overview), Count(entries, name, D.MembersAndRoles),
               Count(entries, name, D.RoadmapAndMilestones))
  }

  function Fill(coverage: D.Coverage, section: D.Section, n: nat): D.Coverage {
    if n == 0 then coverage else D.WithBullets(D.WithSection(coverage, section), section, n)
  }

  lemma {:induction false} FillAll(x: nat, y: nat, z: nat)
    ensures Fill(Fill(Fill(D.NO_COVERAGE, D.Overview, x), D.MembersAndRoles, y), D.RoadmapAndMilestones, z)
         == CoverageOf(x, y, z)
  {
    var a := Fill(D.NO_COVERAGE, D.Overview, x);
    FillOne(D.NO_COVERAGE, D.Overview, x);
    var b := Fill(a, D.MembersAndRoles, y);
    FillOne(a, D.MembersAndRoles, y);
    FillOne(b, D.RoadmapAndMilestones, z);
    assert Fill(b, D.RoadmapAndMilestones, z).bullets == CoverageOf(x, y, z).bullets;
  }

  lemma {:induction false} FillOne(coverage: D.Coverage, section: D.Section, n: nat)
    requires section in coverage.bullets && coverage.bullets[section] == 0
    ensures Fill(coverage, section, n).present == coverage.present + (if n > 0 then {section} else {})
    ensures Fill(coverage, section, n).bullets == coverage.bullets[section := n]
  {
  }

  lemma {:induction false} TitlesAreTrimmed(section: D.Section)
    ensures D.Title(section) != "" && IsTrimmed(D.Title(section)) && OneLine("#### " + D.Title(section))
    ensures D.SectionTitled(D.Title(section)) == Some(section)
  {
    match section
    case Overview =>
    case MembersAndRoles =>
      assert D.Title(section)[0] == 'M' && D.Title(D.Overview)[0] == 'O';
    case RoadmapAndMilestones =>
      assert D.Title(section)[0] == 'R' && D.Title(D.Overview)[0] == 'O' && D.Title(D.MembersAndRoles)[0] == 'M';
  }

  /** The state inside a project, whose coverage is known. */
  ghost predicate Inside(s: D.State, projects: map<string, D.Coverage>, name: string, coverage: D.Coverage) {
    s.project == Some(name) && name != "" && s.projects == projects[name := coverage]
  }

  lemma {:induction false} PickTexts(slotOf: Entry -> Slot, entries: seq<Entry>, slot: Slot)
    requires PlainTexts(entries)
    ensures PlainTexts(Pick(slotOf, entries, slot))
  {
    if entries != [] {
      assert ShowsFirstLine(entries[0]) && NoHeadingInside(entries[0]);
      PickTexts(slotOf, entries[1..], slot);
    }
  }

  lemma {:induction false} InSlotTexts(entries: seq<Entry>, slot: Slot)
    requires PlainTexts(entries)
    ensures PlainTexts(InSlot(entries, slot))
  {
    PickTexts(SlotOf, entries, slot);
  }

  lemma {:induction false} ScanPart(s: D.State, order: Order, entries: seq<Entry>, name: string, section: D.Section,
                                    projects: map<string, D.Coverage>, coverage: D.Coverage)
    requires Reorders(order) && PlainTexts(entries) && Inside(s, projects, name, coverage)
    ensures Inside(D.Scan(s, SectionPart(order, entries, name, section)), projects, name,
                   Fill(coverage, section, Count(entries, name, section)))
  {
    var own := InSlot(entries, InProject(name, section));
    InSlotTexts(entries, InProject(name, section));
    TitlesAreTrimmed(section);
    D.SectionLine(D.Title(section));
    ScanSection(s, order, "#### " + D.Title(section), own);
    ManyBullets(own);
    FillInside(s, projects, name, coverage, section, |FlatMap(EntryBullets, own)|);
  }

  lemma {:induction false} FillInside(s: D.State, projects: map<string, D.Coverage>, name: string,
                                      coverage: D.Coverage, section: D.Section, n: nat)
    requires Inside(s, projects, name, coverage)
    requires D.SectionTitled(D.Title(section)) == Some(section)
    ensures Inside(if n == 0 then s else AfterBullets(D.Step(s, D.SectionHeading(D.Title(section))), n),
                   projects, name, Fill(coverage, section, n))
  {
    var t := D.Step(s, D.SectionHeading(D.Title(section)));
    assert s.projects[name] == coverage;
    assert t.projects == projects[name := D.WithSection(coverage, section)];
  }

  lemma {:induction false} ScanThree(s: D.State, a: string, b: string, c: string)
    ensures D.Scan(s, JoinParts([a, b, c])) == D.Scan(D.Scan(D.Scan(s, a), b), c)
  {
    assert [a, b, c][1..] == [b, c] && [b, c][1..] == [c] && [c][1..] == [];
    assert JoinParts([c]) == JoinPart(c, "");
    ScanJoin(s, a, JoinParts([b, c]));
    ScanJoin(D.Scan(s, a), b, JoinParts([c]));
    ScanJoin(D.Scan(D.Scan(s, a), b), c, "");
    ScanNothing(D.Scan(D.Scan(D.Scan(s, a), b), c));
  }

  ghost predicate HasProject(entries: seq<Entry>, name: string) {
    exists section :: InSlot(entries, InProject(name, section)) != []
  }

  predicate GoodName(name: string) {
    name != "" && IsTrimmed(name) && OneLine(name)
  }

  lemma {:induction false} ScanProject(s: D.State, order: Order, entries: seq<Entry>, name: string)
    requires Reorders(order) && PlainTexts(entries) && GoodName(name) && HasProject(entries, name)
    requires name !in s.projects
    ensures D.Scan(s, RenderProject(order, entries, name)).projects == s.projects[name := Covered(entries, name)]
  {
    var parts := JoinParts(ProjectParts(order, entries, name));
    PartsNotEmpty(order, entries, name);
    ScanJoin(s, "### " + name, parts);
    ScanHeading(s, name);
    var s0 := D.Scan(s, "### " + name);
    var p1, p2, p3 := SectionPart(order, entries, name, D.Overview),
      SectionPart(order, entries, name, D.MembersAndRoles), SectionPart(order, entries, name, D.RoadmapAndMilestones);
    var c1 := Fill(D.NO_COVERAGE, D.Overview, Count(entries, name, D.Overview));
    var c2 := Fill(c1, D.MembersAndRoles, Count(entries, name, D.MembersAndRoles));
    ScanPart(s0, order, entries, name, D.Overview, s.projects, D.NO_COVERAGE);
    ScanPart(D.Scan(s0, p1), order, entries, name, D.MembersAndRoles, s.projects, c1);
    ScanPart(D.Scan(D.Scan(s0, p1), p2), order, entries, name, D.RoadmapAndMilestones, s.projects, c2);
    ScanThree(s0, p1, p2, p3);
    FillAll(Count(entries, name, D.Overview), Count(entries, name, D.MembersAndRoles),
            Count(entries, name, D.RoadmapAndMilestones));
  }

  lemma {:induction false} ScanHeading(s: D.State, name: string)
    requires GoodName(name) && name !in s.projects
    ensures Inside(D.Scan(s, "### " + name), s.projects, name, D.NO_COVERAGE)
  {
    ScanLine(s, "### " + name);
    D.ProjectLine(name);
  }

  lemma {:induction false} JoinPartNotEmpty(part: string, rest: string)
    ensures JoinPart(part, rest) == "" <==> part == "" && rest == ""
  {
  }

  lemma {:induction false} SectionNotEmpty(order: Order, heading: string, entries: seq<Entry>)
    requires heading != "" && entries != []
    ensures RenderBulletSection(order, heading, entries) != ""
  {
  }

  lemma {:induction false} ThreeNotEmpty(a: string, b: string, c: string)
    requires a != "" || b != "" || c != ""
    ensures JoinParts([a, b, c]) != ""
  {
    assert [a, b, c][1..] == [b, c] && [b, c][1..] == [c] && [c][1..] == [];
    JoinPartNotEmpty(a, JoinParts([b, c]));
    JoinPartNotEmpty(b, JoinParts([c]));
    JoinPartNotEmpty(c, "");
  }

  lemma {:induction false} PartNotEmpty(order: Order, entries: seq<Entry>, name: string, section: D.Section)
    requires InSlot(entries, InProject(name, section)) != []
    ensures SectionPart(order, entries, name, section) != ""
  {
    hide InSlot, RenderBulletSection, D.Title;
    SectionNotEmpty(order, "#### " + D.Title(section), InSlot(entries, InProject(name, section)));
  }

  lemma {:induction false} PartsNotEmpty(order: Order, entries: seq<Entry>, name: string)
    requires HasProject(entries, name)
    ensures JoinParts(ProjectParts(order, entries, name)) != ""
  {
    hide InSlot, JoinParts, SectionPart;
    var section :| InSlot(entries, InProject(name, section)) != [];
    PartNotEmpty(order, entries, name, section);
    assert section == D.Overview || section == D.MembersAndRoles || section == D.RoadmapAndMilestones;
    ThreeNotEmpty(SectionPart(order, entries, name, D.Overview), SectionPart(order, entries, name, D.MembersAndRoles),
                  SectionPart(order, entries, name, D.RoadmapAndMilestones));
  }

  // --- all projects ---

  function CoveredAll(projects: map<string, D.Coverage>, entries: seq<Entry>, names: seq<string>): map<string, D.Coverage>
    decreases |names|
  {
    if names == [] then projects
    else CoveredAll(projects[names[0] := Covered(entries, names[0])], entries, names[1..])
  }

  ghost predicate GoodNames(entries: seq<Entry>, names: seq<string>) {
    && (forall i :: 0 <= i < |names| ==> GoodName(names[i]) && HasProject(entries, names[i]))
    && (forall i, j :: 0 <= i < j < |names| ==> names[i] != names[j])
  }

  lemma {:induction false} ScanProjects(s: D.State, order: Order, entries: seq<Entry>, names: seq<string>)
    requires Reorders(order) && PlainTexts(entries) && GoodNames(entries, names)
    requires forall i :: 0 <= i < |names| ==> names[i] !in s.projects
    ensures D.Scan(s, JoinParts(RenderProjects(order, entries, names))).projects == CoveredAll(s.projects, entries, names)
    decreases |names|
  {
    if names == [] {
      ScanNothing(s);
    } else {
      var first := RenderProject(order, entries, names[0]);
      var rest := JoinParts(RenderProjects(order, entries, names[1..]));
      assert RenderProjects(order, entries, names)[1..] == RenderProjects(order, entries, names[1..]);
      ScanJoin(s, first, rest);
      ScanProject(s, order, entries, names[0]);
      GoodTail(entries, names);
      ScanProjects(D.Scan(s, first), order, entries, names[1..]);
    }
  }

  lemma {:induction false} GoodTail(entries: seq<Entry>, names: seq<string>)
    requires GoodNames(entries, names) && names != []
    ensures GoodNames(entries, names[1..]) && names[0] !in names[1..]
  {
    assert forall i :: 0 <= i < |names| - 1 ==> names[1..][i] == names[i + 1];
  }

  lemma {:induction false} CoveredAllAt(projects: map<string, D.Coverage>, entries: seq<Entry>, names: seq<string>,
                                        name: string)
    ensures name in CoveredAll(projects, entries, names) <==> name in projects || name in names
    ensures name in names ==> CoveredAll(projects, entries, names)[name] == Covered(entries, name)
    ensures name !in names && name in projects ==> CoveredAll(projects, entries, names)[name] == projects[name]
    decreases |names|
  {
    if names != [] {
      CoveredAllAt(projects[names[0] := Covered(entries, names[0])], entries, names[1..], name);
    }
  }

  // --- the names of the projects ---

  lemma {:induction false} PickMember(slotOf: Entry -> Slot, entries: seq<Entry>, i: nat)
    requires i < |entries|
    ensures |Pick(slotOf, entries, slotOf(entries[i]))| > 0
  {
    if i > 0 {
      PickMember(slotOf, entries[1..], i - 1);
    }
  }

  lemma {:induction false} OrderedNames(order: Order, entries: seq<Entry>)
    requires Reorders(order)
    ensures
      var names := order.names(ProjectNames(entries));
      GoodNames(entries, names) && forall name :: name in names <==> name in ProjectNames(entries)
  {
    var given := ProjectNames(entries);
    var names := order.names(given);
    DistinctImagesSpec(ProjectOf, entries);
    assert multiset(names) == multiset(given);
    assert forall name :: name in names <==> name in multiset(names);
    forall i | 0 <= i < |names| ensures GoodName(names[i]) && HasProject(entries, names[i]) {
      assert names[i] in multiset(names);
      GoodProject(entries, names[i]);
    }
    DistinctReordered(given, names);
  }

  lemma {:induction false} NameIsGood(e: Entry, name: string)
    requires ProjectOf(e) == Some(name)
    ensures GoodName(name)
  {
    NormalizedIsOneLine(e.project.GetOr(""));
  }

  lemma {:induction false} GoodProject(entries: seq<Entry>, name: string)
    requires name in ProjectNames(entries)
    ensures GoodName(name) && HasProject(entries, name)
  {
    DistinctImagesSpec(ProjectOf, entries);
    var i :| 0 <= i < |entries| && ProjectOf(entries[i]) == Some(name);
    assert SlotOf(entries[i]) == InProject(name, SlotOf(entries[i]).section);
    NameIsGood(entries[i], name);
    hide SlotOf, Pick, GoodName;
    PickMember(SlotOf, entries, i);
    assert InSlot(entries, InProject(name, SlotOf(entries[i]).section)) != [];
  }

  lemma {:induction false} DistinctReordered(a: seq<string>, b: seq<string>)
    requires multiset(a) == multiset(b)
    requires AllDistinct(a)
    ensures AllDistinct(b)
  {
    forall i, j | 0 <= i < j < |b| ensures b[i] != b[j] {
      CountTwice(b, i, j);
      CountOnce(a, b[i]);
    }
  }

  lemma {:induction false} CountTwice(b: seq<string>, i: nat, j: nat)
    requires i < j < |b|
    ensures b[i] == b[j] ==> multiset(b)[b[i]] >= 2
  {
    assert b == b[..j] + b[j..];
    assert b[..j][i] == b[i] && b[j..][0] == b[j];
    assert multiset(b) == multiset(b[..j]) + multiset(b[j..]);
    assert b[i] in multiset(b[..j]) && b[j] in multiset(b[j..]);
  }

  lemma {:induction false} CountOnce(a: seq<string>, x: string)
    requires AllDistinct(a)
    ensures multiset(a)[x] <= 1
  {
    if a != [] {
      var n := |a| - 1;
      CountOnce(a[..n], x);
      assert a == a[..n] + [a[n]];
      assert multiset(a) == multiset(a[..n]) + multiset{a[n]};
      assert a[n] !in a[..n];
    }
  }

  // --- the whole file ---

  lemma {:induction false} ScanTop(s: D.State, title: string)
    requires title != "" && IsTrimmed(title) && OneLine(title)
    ensures D.Scan(s, "## " + title) == D.State(None, None, s.projects)
  {
    ScanLine(s, "## " + title);
    D.TopLine(title);
  }

  lemma {:induction false} ScanShared(s: D.State, order: Order, entries: seq<Entry>, title: string, slot: Slot)
    requires Reorders(order) && PlainTexts(entries)
    requires title != "" && IsTrimmed(title) && OneLine(title)
    ensures D.Scan(s, SharedSection(order, entries, title, slot)).projects == s.projects
  {
    InSlotTexts(entries, slot);
    D.TopLine(title);
    ScanSection(s, order, "## " + title, InSlot(entries, slot));
  }

  lemma {:induction false} ScanTitled(s: D.State, title: string, body: string)
    requires GoodName(title)
    ensures D.Scan(s, JoinPart("## " + title, body)) == D.Scan(D.State(None, None, s.projects), body)
  {
    ScanJoin(s, "## " + title, body);
    ScanTop(s, title);
  }

  lemma {:induction false} TitlesAreGood()
    ensures GoodName(PROJECTS) && GoodName("Shared Terminology") && GoodName("Shared Preferences")
    ensures GoodName("Shared Context") && GoodName("General Project Context")
  {
    TitleIsGood(PROJECTS);
    TitleIsGood("Shared Terminology");
    TitleIsGood("Shared Preferences");
    TitleIsGood("Shared Context");
    TitleIsGood("General Project Context");
  }

  lemma {:induction false} TitleIsGood(title: string)
    requires title != "" && 'A' <= title[0] <= 'z' && 'A' <= title[|title| - 1] <= 'z' && '\n' !in title
    ensures GoodName(title)
  {
  }

  lemma {:induction false} ScanProjectsSection(order: Order, entries: seq<Entry>)
    requires Reorders(order) && PlainTexts(entries)
    ensures D.Scan(D.START, ProjectsSection(order, entries)).projects
         == CoveredAll(map[], entries, order.names(ProjectNames(entries)))
  {
    var names := order.names(ProjectNames(entries));
    OrderedNames(order, entries);
    TitlesAreGood();
    ScanTitledProjects(PROJECTS, order, entries, names);
  }

  lemma {:induction false} ScanTitledProjects(title: string, order: Order, entries: seq<Entry>, names: seq<string>)
    requires Reorders(order) && PlainTexts(entries) && GoodNames(entries, names) && GoodName(title)
    ensures
      var projects := JoinParts(RenderProjects(order, entries, names));
      D.Scan(D.START, if projects == "" then "" else JoinPart("## " + title, projects)).projects
      == CoveredAll(map[], entries, names)
  {
    var projects := JoinParts(RenderProjects(order, entries, names));
    ScanProjects(D.START, order, entries, names);
    ScanTitled(D.START, title, projects);
  }

  lemma {:induction false} ScanFive(s: D.State, a: string, b: string, c: string, d: string, e: string)
    ensures D.Scan(s, JoinParts([a, b, c, d, e])) == D.Scan(D.Scan(D.Scan(D.Scan(D.Scan(s, a), b), c), d), e)
  {
    assert [a, b, c, d, e][1..] == [b, c, d, e] && [b, c, d, e][1..] == [c, d, e];
    ScanJoin(s, a, JoinParts([b, c, d, e]));
    ScanJoin(D.Scan(s, a), b, JoinParts([c, d, e]));
    ScanThree(D.Scan(D.Scan(s, a), b), c, d, e);
  }

  /**
   * As long as no text has a heading among its lines, the analyzer recovers from the printed file exactly
   * the projects of the entries, and for each the sections that have entries and the number of bullets
   * they are printed as.
   */
  lemma {:induction false} AnalyzeRecovers(order: Order, entries: seq<Entry>)
    requires Reorders(order) && ValidEntries(entries)
    requires forall i :: 0 <= i < |entries| ==> NoHeadingInside(entries[i])
    ensures
      var projects := D.Scan(D.START, RenderMemory(order, entries)).projects;
      && (forall name :: name in projects <==> exists i :: 0 <= i < |entries| && ProjectOf(entries[i]) == Some(name))
      && (forall name :: name in projects ==> projects[name] == Covered(entries, name))
  {
    ValidTextsArePlain(entries);
    hide ValidEntries, PlainTexts, NoHeadingInside, Covered, D.Scan, RenderMemory;
    forall name
      ensures var projects := D.Scan(D.START, RenderMemory(order, entries)).projects;
              (name in projects <==> HasImage(ProjectOf, entries, name))
              && (name in projects ==> projects[name] == Covered(entries, name))
    {
      ProjectRecovered(order, entries, name);
    }
    assert forall name :: HasImage(ProjectOf, entries, name) <==>
      exists i :: 0 <= i < |entries| && ProjectOf(entries[i]) == Some(name);
  }

  lemma {:induction false} ValidTextsArePlain(entries: seq<Entry>)
    requires ValidEntries(entries) && forall i :: 0 <= i < |entries| ==> NoHeadingInside(entries[i])
    ensures PlainTexts(entries)
  {
    forall i | 0 <= i < |entries| ensures ShowsFirstLine(entries[i]) {
      TrimmedShowsFirstLine(entries[i]);
    }
  }

  lemma {:induction false} ProjectRecovered(order: Order, entries: seq<Entry>, name: string)
    requires Reorders(order) && PlainTexts(entries)
    ensures
      var projects := D.Scan(D.START, RenderMemory(order, entries)).projects;
      && (name in projects <==> HasImage(ProjectOf, entries, name))
      && (name in projects ==> projects[name] == Covered(entries, name))
  {
    var names := order.names(ProjectNames(entries));
    ScanMemory(order, entries);
    OrderedNames(order, entries);
    DistinctImagesSpec(ProjectOf, entries);
    CoveredAllAt(map[], entries, names, name);
    hide PlainTexts, Covered, CoveredAll, D.Scan, RenderMemory, Reorders, GoodNames, HasImage;
  }

  /** A section's bullets are as many as its entries if and only if no further line of a text is a bullet. */
  lemma {:induction false} CountsEntriesIff(entries: seq<Entry>, name: string, section: D.Section)
    requires ValidEntries(entries)
    ensures
      var own := InSlot(entries, InProject(name, section));
      Count(entries, name, section) == |own| <==> forall i :: 0 <= i < |own| ==> MoreBullets(own[i]) == []
  {
    var own := InSlot(entries, InProject(name, section));
    forall i | 0 <= i < |own| ensures EntryBullets(own[i]) == [Printed(own[i])] + MoreBullets(own[i]) {
      PickedIsMember(SlotOf, entries, InProject(name, section), i);
      TrimmedShowsFirstLine(own[i]);
      EntryBulletsAre(own[i]);
    }
    OneEachIff(EntryBullets, Printed, MoreBullets, own);
  }

  lemma {:induction false} PickedIsMember(slotOf: Entry -> Slot, entries: seq<Entry>, slot: Slot, i: nat)
    requires i < |Pick(slotOf, entries, slot)|
    ensures Pick(slotOf, entries, slot)[i] in entries
  {
    if slotOf(entries[0]) != slot {
      PickedIsMember(slotOf, entries[1..], slot, i);
    } else if i > 0 {
      PickedIsMember(slotOf, entries[1..], slot, i - 1);
    }
  }

  lemma {:induction false} ScanMemory(order: Order, entries: seq<Entry>)
    requires Reorders(order) && PlainTexts(entries)
    ensures D.Scan(D.START, RenderMemory(order, entries)).projects
         == CoveredAll(map[], entries, order.names(ProjectNames(entries)))
  {
    TitlesAreGood();
    ScanProjectsSection(order, entries);
    ScanShareds(order, entries, ProjectsSection(order, entries), "Shared Terminology", "Shared Preferences",
                "Shared Context", "General Project Context");
  }

  /** The shared sections leave the projects found so far alone. */
  lemma {:induction false} ScanShareds(order: Order, entries: seq<Entry>, projects: string, t1: string, t2: string,
                                       t3: string, t4: string)
    requires Reorders(order) && PlainTexts(entries)
    requires GoodName(t1) && GoodName(t2) && GoodName(t3) && GoodName(t4)
    ensures D.Scan(D.START, JoinParts([projects, SharedSection(order, entries, t1, InTerminology),
                                       SharedSection(order, entries, t2, InPreferences),
                                       SharedSection(order, entries, t3, InContext),
                                       SharedSection(order, entries, t4, InGeneral)])).projects
         == D.Scan(D.START, projects).projects
  {
    var b, c := SharedSection(order, entries, t1, InTerminology), SharedSection(order, entries, t2, InPreferences);
    var d, e := SharedSection(order, entries, t3, InContext), SharedSection(order, entries, t4, InGeneral);
    var s := D.Scan(D.START, projects);
    ScanShared(s, order, entries, t1, InTerminology);
    ScanShared(D.Scan(s, b), order, entries, t2, InPreferences);
    ScanShared(D.Scan(D.Scan(s, b), c), order, entries, t3, InContext);
    ScanShared(D.Scan(D.Scan(D.Scan(s, b), c), d), order, entries, t4, InGeneral);
    ScanFive(D.START, projects, b, c, d, e);
  }
}
