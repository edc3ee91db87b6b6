/** Every promoted entry is printed as exactly one bullet of the memory file. */
module MemoryBullets {
  import opened Prelude
  import opened Text
  import opened Lists
  import opened PersonalizationLedger
  import opened MemoryRender
  import opened MemoryRoundTrip
  import opened Partition
  import D = MemoryDiagnostics

  /** The bullets of a text, in order. */
  function BulletsIn(text: string): seq<string> {
    FlatMap(BulletOf, SplitLines(text))
  }

  /** The bullets of a text, in any order. */
  function Shown(text: string): multiset<string> {
    multiset(BulletsIn(text))
  }

  /** The bullets that entries are printed as. */
  function Meant(entries: seq<Entry>): multiset<string> {
    Bag(EntryBullets, entries)
  }

  // --- bullets of the parts ---

  lemma {:induction false} NoBullets()
    ensures BulletsIn("") == []
  {
    SplitOneLine("");
    D.BlankLine();
    FlatMapOne(BulletOf, "");
  }

  /** A reading that adds up over joined parts. */
  ghost predicate Additive<B>(g: string -> seq<B>) {
    g("") == [] && forall a, b {:trigger JoinPart(a, b)} :: g(JoinPart(a, b)) == g(a) + g(b)
  }

  lemma {:induction false} AddsOverParts<B>(g: string -> seq<B>, parts: seq<string>)
    requires Additive(g)
    ensures g(JoinParts(parts)) == FlatMap(g, parts)
  {
    if parts != [] {
      AddsOverParts(g, parts[1..]);
    }
  }

  lemma {:induction false} OverThree<B>(g: string -> seq<B>, a: string, b: string, c: string)
    requires Additive(g)
    ensures g(JoinParts([a, b, c])) == g(a) + g(b) + g(c)
  {
    AddsOverParts(g, [a, b, c]);
    FlatMapOne(g, a);
    FlatMapSnoc(g, [a], b);
    FlatMapSnoc(g, [a, b], c);
    assert [a] + [b] == [a, b] && [a, b] + [c] == [a, b, c];
  }

  lemma {:induction false} OverFive<B>(g: string -> seq<B>, a: string, b: string, c: string, d: string, e: string)
    requires Additive(g)
    ensures g(JoinParts([a, b, c, d, e])) == g(a) + g(b) + g(c) + g(d) + g(e)
  {
    AddsOverParts(g, [a, b, c, d, e]);
    OverThree(g, a, b, c);
    AddsOverParts(g, [a, b, c]);
    FlatMapSnoc(g, [a, b, c], d);
    FlatMapSnoc(g, [a, b, c, d], e);
    assert [a, b, c] + [d] == [a, b, c, d] && [a, b, c, d] + [e] == [a, b, c, d, e];
  }

  lemma {:induction false} BulletsJoin(a: string, b: string)
    ensures BulletsIn(JoinPart(a, b)) == BulletsIn(a) + BulletsIn(b)
  {
    NoBullets();
    if a != "" && b != "" {
      SplitGap(a, b);
      FlatMapAppend(BulletOf, SplitLines(a) + [""], SplitLines(b));
      FlatMapSnoc(BulletOf, SplitLines(a), "");
      D.BlankLine();
    }
  }

  lemma {:induction false} BulletsAddUp()
    ensures Additive(BulletsIn)
  {
    NoBullets();
    forall a, b ensures BulletsIn(JoinPart(a, b)) == BulletsIn(a) + BulletsIn(b) {
      BulletsJoin(a, b);
    }
  }

  lemma {:induction false} ShownJoin(a: string, b: string)
    ensures Shown(JoinPart(a, b)) == Shown(a) + Shown(b)
  {
    BulletsJoin(a, b);
  }

  lemma {:induction false} ShownThree(a: string, b: string, c: string)
    ensures Shown(JoinParts([a, b, c])) == Shown(a) + Shown(b) + Shown(c)
  {
    BulletsAddUp();
    OverThree(BulletsIn, a, b, c);
    hide BulletsIn, JoinParts;
  }

  lemma {:induction false} ShownFive(a: string, b: string, c: string, d: string, e: string)
    ensures Shown(JoinParts([a, b, c, d, e])) == Shown(a) + Shown(b) + Shown(c) + Shown(d) + Shown(e)
  {
    BulletsAddUp();
    OverFive(BulletsIn, a, b, c, d, e);
    hide BulletsIn, JoinParts;
  }

  lemma {:induction false} BulletsOfHeading(line: string)
    requires OneLine(line) && !D.Classify(line).Bullet?
    ensures BulletsIn(line) == []
  {
    SplitOneLine(line);
    FlatMapOne(BulletOf, line);
  }

  /** A section prints its entries. */
  lemma {:induction false} SectionPrints(order: Order, heading: string, entries: seq<Entry>)
    requires Reorders(order) && OneLine(heading) && !D.Classify(heading).Bullet?
    ensures Shown(RenderBulletSection(order, heading, entries)) == Meant(entries)
  {
    if entries == [] {
      NoBullets();
    } else {
      var sorted := order.entries(entries);
      SectionText(order, heading, entries);
      FlatMapAppend(BulletOf, [heading], FlatMap(EntryLines, sorted));
      FlatMapOne(BulletOf, heading);
      BulletsOfLines(sorted);
      BagReordered(EntryBullets, sorted, entries);
      assert BulletsIn(RenderBulletSection(order, heading, entries)) == FlatMap(EntryBullets, sorted);
    }
  }

  // --- the printed slots ---

  /** The entries whose slot is in a list. */
  function InSlots(entries: seq<Entry>, slots: seq<Slot>): seq<Entry> {
    PickAny(SlotOf, entries, slots)
  }

  function SharedSlots(): seq<Slot> {
    [InTerminology] + ([InPreferences] + ([InContext] + [InGeneral]))
  }

  /** The slots of the printed projects, followed by more. */
  function ProjectSlots(names: seq<string>, more: seq<Slot>): seq<Slot>
    decreases |names|
  {
    if names == [] then more else
      [InProject(names[0], D.Overview)] + ([InProject(names[0], D.MembersAndRoles)]
      + ([InProject(names[0], D.RoadmapAndMilestones)] + ProjectSlots(names[1..], more)))
  }

  lemma {:induction false} ProjectSlotsMember(names: seq<string>, more: seq<Slot>, slot: Slot)
    ensures slot in ProjectSlots(names, more) <==> slot in more || (slot.InProject? && slot.name in names)
    decreases |names|
  {
    if names != [] {
      ProjectSlotsMember(names[1..], more, slot);
      assert names == [names[0]] + names[1..];
      if slot.InProject? && slot.name == names[0] {
        match slot.section
        case Overview =>
        case MembersAndRoles =>
        case RoadmapAndMilestones =>
      }
    }
  }

  lemma {:induction false} PartPrints(order: Order, entries: seq<Entry>, name: string, section: D.Section)
    requires Reorders(order)
    ensures Shown(SectionPart(order, entries, name, section))
         == Meant(InSlot(entries, InProject(name, section)))
  {
    TitlesAreTrimmed(section);
    D.SectionLine(D.Title(section));
    SectionPrints(order, "#### " + D.Title(section), InSlot(entries, InProject(name, section)));
  }

  /** What is shown of a heading and the parts under it is what is shown of the parts. */
  lemma {:induction false} HeadingShowsNothing(heading: string, parts: string)
    requires OneLine(heading) && !D.Classify(heading).Bullet?
    ensures Shown(if parts == "" then "" else JoinPart(heading, parts)) == Shown(parts)
  {
    BulletsOfHeading(heading);
    ShownJoin(heading, parts);
  }

  /** A project prints the entries of its three sections. */
  lemma {:induction false} ProjectPrints(order: Order, entries: seq<Entry>, name: string)
    requires Reorders(order) && GoodName(name)
    ensures Shown(RenderProject(order, entries, name))
         == Meant(InSlot(entries, InProject(name, D.Overview)))
          + Meant(InSlot(entries, InProject(name, D.MembersAndRoles)))
          + Meant(InSlot(entries, InProject(name, D.RoadmapAndMilestones)))
  {
    hide Shown, Meant, SectionPart, InSlot, Reorders, JoinParts;
    PartPrints(order, entries, name, D.Overview);
    PartPrints(order, entries, name, D.MembersAndRoles);
    PartPrints(order, entries, name, D.RoadmapAndMilestones);
    ShownThree(SectionPart(order, entries, name, D.Overview), SectionPart(order, entries, name, D.MembersAndRoles),
               SectionPart(order, entries, name, D.RoadmapAndMilestones));
    ProjectHeadingShowsNothing(name, JoinParts(ProjectParts(order, entries, name)));
  }

  lemma {:induction false} ProjectHeadingShowsNothing(name: string, parts: string)
    requires GoodName(name)
    ensures Shown(if parts == "" then "" else JoinPart("### " + name, parts)) == Shown(parts)
  {
    D.ProjectLine(name);
    hide Shown, D.Classify, JoinPart;
    HeadingShowsNothing("### " + name, parts);
  }

  lemma {:induction false} ProjectsPrint(order: Order, entries: seq<Entry>, names: seq<string>, more: seq<Slot>)
    requires Reorders(order) && GoodNames(entries, names)
    requires forall slot :: slot in more ==> !slot.InProject?
    ensures Shown(JoinParts(RenderProjects(order, entries, names))) + Meant(InSlots(entries, more))
         == Meant(InSlots(entries, ProjectSlots(names, more)))
    decreases |names|
  {
    if names == [] {
      NoBullets();
    } else {
      GoodTail(entries, names);
      ProjectsPrint(order, entries, names[1..], more);
      ProjectPrints(order, entries, names[0]);
      assert RenderProjects(order, entries, names)[1..] == RenderProjects(order, entries, names[1..]);
      ShownJoin(RenderProject(order, entries, names[0]), JoinParts(RenderProjects(order, entries, names[1..])));
      ThreeSlotsMore(entries, names, more);
    }
  }

  lemma {:induction false} ThreeSlotsMore(entries: seq<Entry>, names: seq<string>, more: seq<Slot>)
    requires names != [] && names[0] !in names[1..] && forall slot :: slot in more ==> !slot.InProject?
    ensures Meant(InSlots(entries, ProjectSlots(names, more)))
         == Meant(InSlot(entries, InProject(names[0], D.Overview)))
          + Meant(InSlot(entries, InProject(names[0], D.MembersAndRoles)))
          + Meant(InSlot(entries, InProject(names[0], D.RoadmapAndMilestones)))
          + Meant(InSlots(entries, ProjectSlots(names[1..], more)))
  {
    var name, rest := names[0], names[1..];
    ProjectSlotsMember(rest, more, InProject(name, D.Overview));
    ProjectSlotsMember(rest, more, InProject(name, D.MembersAndRoles));
    ProjectSlotsMember(rest, more, InProject(name, D.RoadmapAndMilestones));
    ThreeMore(SlotOf, EntryBullets, entries, InProject(name, D.Overview), InProject(name, D.MembersAndRoles),
              InProject(name, D.RoadmapAndMilestones), ProjectSlots(rest, more));
  }

  // --- the whole file ---

  lemma {:induction false} SharedPrints(order: Order, entries: seq<Entry>, title: string, slot: Slot)
    requires Reorders(order) && GoodName(title)
    ensures Shown(SharedSection(order, entries, title, slot)) == Meant(InSlot(entries, slot))
  {
    D.TopLine(title);
    SectionPrints(order, "## " + title, InSlot(entries, slot));
  }

  /** The shared sections print the entries of the four shared slots. */
  lemma {:induction false} SharedSlotsPrint(entries: seq<Entry>)
    ensures Meant(InSlots(entries, SharedSlots()))
         == Meant(InSlot(entries, InTerminology)) + Meant(InSlot(entries, InPreferences))
          + Meant(InSlot(entries, InContext)) + Meant(InSlot(entries, InGeneral))
  {
    ThreeMore(SlotOf, EntryBullets, entries, InTerminology, InPreferences, InContext, [InGeneral]);
    OneMore(SlotOf, EntryBullets, entries, InGeneral, []);
    PickNone(SlotOf, entries);
    assert [InGeneral] + [] == [InGeneral];
  }

  lemma {:induction false} ProjectsSectionPrints(order: Order, entries: seq<Entry>)
    requires Reorders(order) && GoodName(PROJECTS)
    ensures Shown(ProjectsSection(order, entries)) + Meant(InSlots(entries, SharedSlots()))
         == Meant(InSlots(entries, ProjectSlots(order.names(ProjectNames(entries)), SharedSlots())))
  {
    var names := order.names(ProjectNames(entries));
    OrderedNames(order, entries);
    ProjectsPrint(order, entries, names, SharedSlots());
    TitledShows(PROJECTS, JoinParts(RenderProjects(order, entries, names)));
  }

  lemma {:induction false} TitledShows(title: string, parts: string)
    requires GoodName(title)
    ensures Shown(if parts == "" then "" else JoinPart("## " + title, parts)) == Shown(parts)
  {
    D.TopLine(title);
    HeadingShowsNothing("## " + title, parts);
  }

  lemma {:induction false} PrintsItsSlots(order: Order, entries: seq<Entry>, t1: string, t2: string, t3: string,
                                          t4: string)
    requires Reorders(order)
    requires GoodName(PROJECTS) && GoodName(t1) && GoodName(t2) && GoodName(t3) && GoodName(t4)
    ensures Shown(JoinParts([ProjectsSection(order, entries),
                             SharedSection(order, entries, t1, InTerminology),
                             SharedSection(order, entries, t2, InPreferences),
                             SharedSection(order, entries, t3, InContext),
                             SharedSection(order, entries, t4, InGeneral)]))
         == Meant(InSlots(entries, ProjectSlots(order.names(ProjectNames(entries)), SharedSlots())))
  {
    SharedPrints(order, entries, t1, InTerminology);
    SharedPrints(order, entries, t2, InPreferences);
    SharedPrints(order, entries, t3, InContext);
    SharedPrints(order, entries, t4, InGeneral);
    ShownFive(ProjectsSection(order, entries), SharedSection(order, entries, t1, InTerminology),
              SharedSection(order, entries, t2, InPreferences), SharedSection(order, entries, t3, InContext),
              SharedSection(order, entries, t4, InGeneral));
    SharedSlotsPrint(entries);
    ProjectsSectionPrints(order, entries);
  }

  // --- entries that have a place ---

  predicate HasPlace(e: Entry) { !SlotOf(e).Nowhere? }

  /** The entries the printer has a section for. */
  function Placed(entries: seq<Entry>): seq<Entry> {
    Pick(HasPlace, entries, true)
  }

  lemma {:induction false} PlacesPrinted(order: Order, entries: seq<Entry>)
    requires Reorders(order)
    ensures InSlots(entries, ProjectSlots(order.names(ProjectNames(entries)), SharedSlots())) == Placed(entries)
  {
    var names := order.names(ProjectNames(entries));
    OrderedNames(order, entries);
    DistinctImagesSpec(ProjectOf, entries);
    forall i | 0 <= i < |entries|
      ensures SlotOf(entries[i]) in ProjectSlots(names, SharedSlots()) <==> HasPlace(entries[i])
    {
      ProjectSlotsMember(names, SharedSlots(), SlotOf(entries[i]));
      assert ProjectOf(entries[i]).Some? ==> HasImage(ProjectOf, entries, ProjectOf(entries[i]).value);
    }
    hide SlotOf;
    PickSame(SlotOf, HasPlace, entries, ProjectSlots(names, SharedSlots()));
  }

  /** Whatever the entries are, the bullets of the file are those of the entries that have a place. */
  lemma {:induction false} PlacedAreShown(order: Order, entries: seq<Entry>)
    requires Reorders(order)
    ensures Shown(RenderMemory(order, entries)) == Meant(Placed(entries))
  {
    TitlesAreGood();
    PrintsItsSlots(order, entries, "Shared Terminology", "Shared Preferences", "Shared Context",
                   "General Project Context");
    PlacesPrinted(order, entries);
  }

  /** The bullets a reader finds in the file are exactly those the entries are printed as. */
  lemma {:induction false} EveryEntryOnce(order: Order, entries: seq<Entry>)
    requires Reorders(order) && ValidEntries(entries)
    ensures Shown(RenderMemory(order, entries)) == Meant(entries)
  {
    PlacedAreShown(order, entries);
    forall i | 0 <= i < |entries| ensures HasPlace(entries[i]) {
      assert ValidMemoryEntry(entries[i]);
      ValidHasSlot(entries[i]);
    }
    PickEach(HasPlace, entries, true);
  }

  /** Every entry is exactly one bullet, that of its first line, and there are no others, if and only if no
      further line of an entry's text is a bullet. */
  lemma {:induction false} OneBulletEachIff(order: Order, entries: seq<Entry>)
    requires Reorders(order) && ValidEntries(entries)
    ensures Shown(RenderMemory(order, entries)) == multiset(Images(Printed, entries))
       <==> forall i :: 0 <= i < |entries| ==> MoreBullets(entries[i]) == []
  {
    EveryEntryOnce(order, entries);
    forall i | 0 <= i < |entries| ensures EntryBullets(entries[i]) == [Printed(entries[i])] + MoreBullets(entries[i]) {
      TrimmedShowsFirstLine(entries[i]);
      EntryBulletsAre(entries[i]);
    }
    OneEachIff(EntryBullets, Printed, MoreBullets, entries);
  }

  // --- texts of more than one line ---

  lemma {:induction false} TwoLines(e: Entry, a: string, b: string)
    requires OneLine(a) && OneLine(b) && e.text == a + "\n" + b
    ensures FirstLine(e) == a && MoreLines(e) == [b]
  {
    SplitConcat(a, b);
    SplitOneLine(a);
    SplitOneLine(b);
    assert [a] + [b] == [a, b];
  }

  /** A list typed into the text of one entry is found as two bullets. */
  lemma {:induction false} OneEntryTwoBullets(e: Entry, a: string, b: string)
    requires e.text == a + "\n" + ("- " + b) && OneLine(a) && OneLine(b) && TrimEnd(a) != "" && TrimEnd(b) != ""
    ensures EntryBullets(e) == ["- " + TrimEnd(a), "- " + TrimEnd(b)]
  {
    TwoLines(e, a, "- " + b);
    D.BulletLine(b);
    EntryBulletsAre(e);
    FlatMapOne(BulletOf, "- " + b);
    hide D.Classify, EntryBullets, TrimEnd;
  }

  lemma {:induction false} OnlyOne<T>(xs: seq<T>, x: T)
    requires multiset(xs) == multiset([x])
    ensures xs == [x]
  {
    assert |multiset(xs)| == |xs| && |multiset([x])| == 1;
    assert xs[0] in multiset(xs);
  }

  lemma {:induction false} OnlySlot(e: Entry, slot: Slot)
    ensures InSlot([e], slot) == if SlotOf(e) == slot then [e] else []
  {
    assert [e][1..] == [];
    assert Pick(SlotOf, [e], slot) == (if SlotOf(e) == slot then [e] else []) + Pick(SlotOf, [], slot);
  }

  lemma {:induction false} OnlyName(order: Order, e: Entry)
    requires Reorders(order) && SlotOf(e).InProject?
    ensures order.names(ProjectNames([e])) == [SlotOf(e).name]
  {
    var name := SlotOf(e).name;
    hide SlotOf;
    assert [e][..0] == [];
    assert ProjectOf(e) == Some(name);
    assert DistinctImages(ProjectOf, [e]) == DistinctImages(ProjectOf, []) + [name];
    assert ProjectNames([e]) == [name];
    OnlyOne(order.names([name]), name);
  }

  /** Scanning a section whose only entry ends with a heading. */
  lemma {:induction false} SectionStartsAProject(s: D.State, order: Order, e: Entry, heading: string,
                                                 a: string, name: string)
    requires Reorders(order) && OneLine(heading)
    requires e.text == a + "\n" + ("### " + name) && OneLine(a) && GoodName(name)
    ensures name in D.Scan(s, RenderBulletSection(order, heading, [e])).projects
  {
    var last := "### " + name;
    OnlyOne(order.entries([e]), e);
    TwoLines(e, a, last);
    EntryLinesAre(e);
    SectionText(order, heading, [e]);
    FlatMapOne(EntryLines, e);
    D.ProjectLine(name);
    LastKind(s, [heading, "- " + a], last);
    assert [heading] + (["- " + a] + [last]) == [heading, "- " + a] + [last];
    hide D.Classify, EntryLines, RenderBulletSection;
  }

  lemma {:induction false} LastKind(s: D.State, lines: seq<string>, line: string)
    ensures D.ScanKinds(s, D.Kinds(lines + [line])) == D.Step(D.ScanKinds(s, D.Kinds(lines)), D.Classify(line))
  {
    assert D.Kinds(lines + [line]) == D.Kinds(lines) + [D.Classify(line)];
    D.ScanKindsAppend(s, D.Kinds(lines), [D.Classify(line)]);
    OneKind(D.ScanKinds(s, D.Kinds(lines)), D.Classify(line));
  }

  lemma {:induction false} FirstPartScans(s: D.State, a: string)
    ensures D.Scan(s, JoinParts([a, "", ""])) == D.Scan(s, a)
    ensures D.Scan(s, JoinParts([a, "", "", "", ""])) == D.Scan(s, a)
  {
    ScanThree(s, a, "", "");
    ScanFive(s, a, "", "", "", "");
    ScanNothing(D.Scan(s, a));
  }

  lemma {:induction false} ProjectStartsAProject(s: D.State, order: Order, e: Entry, p: string, a: string, name: string)
    requires Reorders(order) && SlotOf(e) == InProject(p, D.Overview)
    requires e.text == a + "\n" + ("### " + name) && OneLine(a) && GoodName(name)
    ensures RenderProject(order, [e], p) != "" && name in D.Scan(s, RenderProject(order, [e], p)).projects
  {
    OnlySlot(e, InProject(p, D.Overview));
    OnlySlot(e, InProject(p, D.MembersAndRoles));
    OnlySlot(e, InProject(p, D.RoadmapAndMilestones));
    var s0, section := D.Scan(s, "### " + p), RenderBulletSection(order, "#### " + D.Title(D.Overview), [e]);
    TitlesAreTrimmed(D.Overview);
    SectionStartsAProject(s0, order, e, "#### " + D.Title(D.Overview), a, name);
    PartsNotEmpty(order, [e], p);
    hide D.Scan, InSlot, D.Title, SlotOf;
    assert ProjectParts(order, [e], p) == [section, "", ""];
    hide RenderBulletSection;
    FirstPartScans(s0, section);
    ScanJoin(s, "### " + p, JoinParts([section, "", ""]));
  }

  lemma {:induction false} OneProject(order: Order, e: Entry, p: string)
    requires Reorders(order) && SlotOf(e) == InProject(p, D.Overview) && RenderProject(order, [e], p) != ""
    ensures ProjectsSection(order, [e]) == JoinPart("## " + PROJECTS, RenderProject(order, [e], p))
  {
    OnlyName(order, e);
    var project := RenderProject(order, [e], p);
    hide RenderProject, SlotOf, ProjectNames;
    assert [p][1..] == [] && [project][1..] == [];
    assert RenderProjects(order, [e], [p]) == [project] + [];
    assert JoinParts([project]) == JoinPart(project, JoinParts([]));
  }

  lemma {:induction false} NothingShared(order: Order, e: Entry, title: string, slot: Slot)
    requires SlotOf(e) != slot
    ensures SharedSection(order, [e], title, slot) == ""
  {
    OnlySlot(e, slot);
  }

  /** A heading in the text of an entry of a project makes the analyzer find a project that no entry has. */
  lemma {:induction false} HeadingInsideIsAProject(order: Order, e: Entry, p: string, a: string, name: string)
    requires Reorders(order) && SlotOf(e) == InProject(p, D.Overview) && name != p
    requires e.text == a + "\n" + ("### " + name) && OneLine(a) && GoodName(name)
    ensures name in D.Scan(D.START, RenderMemory(order, [e])).projects && ProjectOf(e) != Some(name)
  {
    var project := RenderProject(order, [e], p);
    ProjectStartsAProject(D.Scan(D.START, "## " + PROJECTS), order, e, p, a, name);
    OneProject(order, e, p);
    NothingShared(order, e, "Shared Terminology", InTerminology);
    NothingShared(order, e, "Shared Preferences", InPreferences);
    NothingShared(order, e, "Shared Context", InContext);
    NothingShared(order, e, "General Project Context", InGeneral);
    assert ProjectOf(e) == Some(p);
    hide D.Scan, SharedSection, ProjectsSection, RenderProject, SlotOf;
    FirstPartScans(D.START, ProjectsSection(order, [e]));
    ScanJoin(D.START, "## " + PROJECTS, project);
  }
}
