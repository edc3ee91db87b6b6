/** Where the memory file prints an entry: under which heading, and with which others. */
module MemoryLayout {
  import opened Prelude
  import opened Lists
  import opened Text
  import opened Partition
  import opened PersonalizationLedger
  import opened MemoryRender
  import opened MemoryRoundTrip
  import D = MemoryDiagnostics

  /** What belongs into a section of the file: people-and-projects goes with project-overview, and entries
      without a project name go to the general section. */
  predicate Belongs(e: Entry, slot: Slot) {
    var project := NormalizeText(e.project.GetOr(""));
    match slot
    case InTerminology => e.category == Terminology
    case InPreferences => e.category == Preferences
    case InContext => e.category == Context
    case InGeneral => e.category in {ProjectOverview, PeopleAndProjects} && project == ""
    case InProject(name, section) =>
      && project == name != ""
      && (match section
          case Overview => e.category in {ProjectOverview, PeopleAndProjects}
          case MembersAndRoles => e.category == MembersAndRoles
          case RoadmapAndMilestones => e.category == RoadmapAndMilestones)
    case Nowhere => false
  }

  function TitleOf(slot: Slot): string {
    match slot
    case InTerminology => "Shared Terminology"
    case InPreferences => "Shared Preferences"
    case InContext => "Shared Context"
    case InGeneral => "General Project Context"
    case InProject(_, section) =>
      (match section
       case Overview => "Overview"
       case MembersAndRoles => "Members And Roles"
       case RoadmapAndMilestones => "Roadmap And Milestones")
    case Nowhere => ""
  }

  function HeadingOf(slot: Slot): string {
    (if slot.InProject? then "#### " else "## ") + TitleOf(slot)
  }

  /** The entries that belong to the slot, each as often as it is there, in some order. */
  ghost predicate IsListOf(printed: seq<Entry>, entries: seq<Entry>, slot: Slot) {
    forall e :: multiset(printed)[e] == if Belongs(e, slot) then multiset(entries)[e] else 0
  }

  /** The lines stand between others, set off from them by blank lines. */
  ghost predicate Framed(part: seq<string>, whole: seq<string>, front: seq<string>, back: seq<string>) {
    && whole == front + part + back
    && (front == [] || front[|front| - 1] == "") && (back == [] || back[0] == "")
  }

  ghost predicate StandsIn(part: seq<string>, whole: seq<string>) {
    exists front, back :: Framed(part, whole, front, back)
  }

  lemma {:induction false} StandsBehind(part: seq<string>, rest: seq<string>, whole: seq<string>, lead: seq<string>)
    requires StandsIn(part, rest) && whole == lead + [""] + rest
    ensures StandsIn(part, whole)
  {
    var front, back :| Framed(part, rest, front, back);
    assert whole == (lead + [""] + front) + part + back;
    assert front == [] ==> lead + [""] + front == lead + [""];
    assert Framed(part, whole, lead + [""] + front, back);
  }

  /** A non-empty part stands in the joined text. */
  lemma {:induction false} PartStands(parts: seq<string>, k: nat)
    requires k < |parts| && parts[k] != ""
    ensures StandsIn(SplitLines(parts[k]), SplitLines(JoinParts(parts)))
    decreases |parts|
  {
    var first, rest := parts[0], JoinParts(parts[1..]);
    if k == 0 {
      FirstStands(first, rest);
    } else {
      PartStands(parts[1..], k - 1);
      RestNotEmpty(parts[1..], k - 1);
      if first != "" {
        SplitGap(first, rest);
        StandsBehind(SplitLines(parts[k]), SplitLines(rest), SplitLines(JoinPart(first, rest)), SplitLines(first));
      }
    }
  }

  lemma {:induction false} RestNotEmpty(parts: seq<string>, k: nat)
    requires k < |parts| && parts[k] != ""
    ensures JoinParts(parts) != ""
    decreases |parts|
  {
    if k > 0 {
      RestNotEmpty(parts[1..], k - 1);
    }
  }

  lemma {:induction false} FirstStands(first: string, rest: string)
    requires first != ""
    ensures StandsIn(SplitLines(first), SplitLines(JoinPart(first, rest)))
  {
    var lines := SplitLines(first);
    if rest == "" {
      assert [] + lines + [] == lines;
      assert Framed(lines, SplitLines(JoinPart(first, rest)), [], []);
    } else {
      SplitGap(first, rest);
      var back := [""] + SplitLines(rest);
      assert SplitLines(JoinPart(first, rest)) == [] + lines + back;
      assert Framed(lines, SplitLines(JoinPart(first, rest)), [], back);
    }
  }

  // --- what is printed in a section ---

  lemma {:induction false} SlotIff(e: Entry, slot: Slot)
    requires slot != Nowhere
    ensures SlotOf(e) == slot <==> Belongs(e, slot)
  {
    NormalizedIsOneLine("");
    assert NormalizeText("") == "";
  }

  lemma {:induction false} PickCounts(entries: seq<Entry>, slot: Slot, e: Entry)
    ensures multiset(InSlot(entries, slot))[e] == if SlotOf(e) == slot then multiset(entries)[e] else 0
  {
    if entries != [] {
      var own := if SlotOf(entries[0]) == slot then [entries[0]] else [];
      PickCounts(entries[1..], slot, e);
      assert entries == [entries[0]] + entries[1..];
      assert InSlot(entries, slot) == own + InSlot(entries[1..], slot);
      hide SlotOf;
    }
  }

  lemma {:induction false} PrintedList(order: Order, entries: seq<Entry>, slot: Slot)
    requires Reorders(order) && slot != Nowhere
    ensures IsListOf(order.entries(InSlot(entries, slot)), entries, slot)
  {
    forall e
      ensures multiset(order.entries(InSlot(entries, slot)))[e] == if Belongs(e, slot) then multiset(entries)[e] else 0
    {
      PickCounts(entries, slot, e);
      SlotIff(e, slot);
      hide SlotOf, Belongs;
    }
  }

  lemma {:induction false} SomePicked(entries: seq<Entry>, slot: Slot, e: Entry)
    requires e in entries && Belongs(e, slot) && slot != Nowhere
    ensures InSlot(entries, slot) != []
  {
    PickCounts(entries, slot, e);
    SlotIff(e, slot);
    hide SlotOf, Belongs;
    assert multiset(entries)[e] > 0;
  }

  /** A section's lines: its heading, and then the lines of the entries that belong there. */
  lemma {:induction false} SectionLines(order: Order, entries: seq<Entry>, slot: Slot, heading: string, e: Entry)
    requires Reorders(order) && slot != Nowhere && e in entries && Belongs(e, slot) && OneLine(heading) && heading != ""
    ensures
      var text := RenderBulletSection(order, heading, InSlot(entries, slot));
      var printed := order.entries(InSlot(entries, slot));
      text != "" && IsListOf(printed, entries, slot) && SplitLines(text) == [heading] + FlatMap(EntryLines, printed)
  {
    hide IsListOf, InSlot, FlatMap, SlotOf, Belongs;
    SomePicked(entries, slot, e);
    PrintedList(order, entries, slot);
    SectionText(order, heading, InSlot(entries, slot));
    SectionNotEmpty(order, heading, InSlot(entries, slot));
  }

  // --- main results ---

  /** The lines of the section for a slot stand together, under its heading, in the text. */
  ghost predicate PrintsSlot(text: seq<string>, entries: seq<Entry>, slot: Slot) {
    exists printed :: IsListOf(printed, entries, slot) && StandsIn([HeadingOf(slot)] + FlatMap(EntryLines, printed), text)
  }

  lemma {:induction false} HeadingsAreLines(slot: Slot)
    requires slot != Nowhere
    ensures HeadingOf(slot) != "" && OneLine(HeadingOf(slot))
  {
    TitlesAreGood();
    if slot.InProject? {
      TitlesAreTrimmed(slot.section);
    }
  }

  /** A part that is the section of a slot. */
  lemma {:induction false} PartPrints(order: Order, entries: seq<Entry>, slot: Slot, e: Entry, parts: seq<string>, k: nat)
    requires Reorders(order) && slot != Nowhere && e in entries && Belongs(e, slot) && k < |parts|
    requires parts[k] == RenderBulletSection(order, HeadingOf(slot), InSlot(entries, slot))
    ensures PrintsSlot(SplitLines(JoinParts(parts)), entries, slot)
  {
    var heading, printed := HeadingOf(slot), order.entries(InSlot(entries, slot));
    HeadingsAreLines(slot);
    hide RenderBulletSection, InSlot, JoinParts, HeadingOf, StandsIn, FlatMap, SplitLines, IsListOf, Belongs, Reorders, OneLine;
    SectionLines(order, entries, slot, heading, e);
    PartStands(parts, k);
    assert IsListOf(printed, entries, slot) && StandsIn([heading] + FlatMap(EntryLines, printed), SplitLines(JoinParts(parts)));
  }

  lemma {:induction false} SharedHeadings()
    ensures HeadingOf(InTerminology) == "## " + "Shared Terminology" && HeadingOf(InPreferences) == "## " + "Shared Preferences"
    ensures HeadingOf(InContext) == "## " + "Shared Context" && HeadingOf(InGeneral) == "## " + "General Project Context"
  {
  }

  /** Each shared section of the file lists exactly the entries that belong there, under its heading. */
  lemma {:induction false} SharedIsPrinted(order: Order, entries: seq<Entry>, slot: Slot, e: Entry)
    requires Reorders(order) && !slot.InProject? && slot != Nowhere && e in entries && Belongs(e, slot)
    ensures PrintsSlot(SplitLines(RenderMemory(order, entries)), entries, slot)
  {
    SharedHeadings();
    hide ProjectsSection, RenderBulletSection, InSlot, JoinParts, HeadingOf, SplitLines, Belongs, Reorders, PrintsSlot;
    SharedPart(order, entries, slot, e, "Shared Terminology", "Shared Preferences", "Shared Context",
               "General Project Context");
  }

  lemma {:induction false} SharedPart(order: Order, entries: seq<Entry>, slot: Slot, e: Entry,
                                      t1: string, t2: string, t3: string, t4: string)
    requires Reorders(order) && !slot.InProject? && slot != Nowhere && e in entries && Belongs(e, slot)
    requires HeadingOf(InTerminology) == "## " + t1 && HeadingOf(InPreferences) == "## " + t2
    requires HeadingOf(InContext) == "## " + t3 && HeadingOf(InGeneral) == "## " + t4
    ensures PrintsSlot(SplitLines(JoinParts([ProjectsSection(order, entries),
                                             SharedSection(order, entries, t1, InTerminology),
                                             SharedSection(order, entries, t2, InPreferences),
                                             SharedSection(order, entries, t3, InContext),
                                             SharedSection(order, entries, t4, InGeneral)])), entries, slot)
  {
    var parts := [ProjectsSection(order, entries),
                  SharedSection(order, entries, t1, InTerminology), SharedSection(order, entries, t2, InPreferences),
                  SharedSection(order, entries, t3, InContext), SharedSection(order, entries, t4, InGeneral)];
    hide ProjectsSection, RenderBulletSection, InSlot, JoinParts, HeadingOf, SplitLines, Belongs, Reorders, PrintsSlot;
    match slot
    case InTerminology => PartPrints(order, entries, slot, e, parts, 1);
    case InPreferences => PartPrints(order, entries, slot, e, parts, 2);
    case InContext => PartPrints(order, entries, slot, e, parts, 3);
    case InGeneral => PartPrints(order, entries, slot, e, parts, 4);
  }

  // --- projects ---

  lemma {:induction false} ProjectHeadings(name: string, section: D.Section)
    ensures HeadingOf(InProject(name, section)) == "#### " + D.Title(section)
  {
    match section
    case Overview =>
    case MembersAndRoles =>
    case RoadmapAndMilestones =>
  }

  /** The three sections of a project. */
  lemma {:induction false} ProjectPartPrints(order: Order, entries: seq<Entry>, name: string, section: D.Section, e: Entry)
    requires Reorders(order) && e in entries && Belongs(e, InProject(name, section))
    ensures PrintsSlot(SplitLines(JoinParts(ProjectParts(order, entries, name))), entries, InProject(name, section))
  {
    var parts := ProjectParts(order, entries, name);
    ProjectHeadings(name, section);
    hide RenderBulletSection, InSlot, JoinParts, HeadingOf, SplitLines, Belongs, Reorders, PrintsSlot, D.Title;
    match section
    case Overview => PartPrints(order, entries, InProject(name, section), e, parts, 0);
    case MembersAndRoles => PartPrints(order, entries, InProject(name, section), e, parts, 1);
    case RoadmapAndMilestones => PartPrints(order, entries, InProject(name, section), e, parts, 2);
  }

  lemma {:induction false} StandsInside(part: seq<string>, mid: seq<string>, whole: seq<string>)
    requires StandsIn(part, mid) && StandsIn(mid, whole)
    ensures StandsIn(part, whole)
  {
    var f, b :| Framed(part, mid, f, b);
    var front, back :| Framed(mid, whole, front, back);
    assert whole == (front + f) + part + (b + back);
    assert f == [] ==> front + f == front;
    assert Framed(part, whole, front + f, b + back);
  }

  /** The text under a project's heading. */
  lemma {:induction false} ProjectLines(order: Order, entries: seq<Entry>, name: string, section: D.Section, e: Entry)
    requires Reorders(order) && GoodName(name) && e in entries && Belongs(e, InProject(name, section))
    ensures RenderProject(order, entries, name) != ""
    ensures
      var lines := SplitLines(RenderProject(order, entries, name));
      lines[0] == "### " + name && PrintsSlot(lines, entries, InProject(name, section))
  {
    var parts := JoinParts(ProjectParts(order, entries, name));
    SomePicked(entries, InProject(name, section), e);
    PartsNotEmpty(order, entries, name);
    ProjectPartPrints(order, entries, name, section, e);
    hide InSlot, JoinParts, ProjectParts, Belongs, Reorders, PrintsSlot;
    SplitGap("### " + name, parts);
    SplitOneLine("### " + name);
    assert SplitLines("### " + name + "\n\n" + parts) == ["### " + name] + [""] + SplitLines(parts);
    PrintsBehind(SplitLines(parts), ["### " + name], entries, InProject(name, section));
  }

  lemma {:induction false} PrintsBehind(rest: seq<string>, lead: seq<string>, entries: seq<Entry>, slot: Slot)
    requires PrintsSlot(rest, entries, slot)
    ensures PrintsSlot(lead + [""] + rest, entries, slot)
  {
    var printed :| IsListOf(printed, entries, slot) && StandsIn([HeadingOf(slot)] + FlatMap(EntryLines, printed), rest);
    hide StandsIn, IsListOf, HeadingOf;
    StandsBehind([HeadingOf(slot)] + FlatMap(EntryLines, printed), rest, lead + [""] + rest, lead);
  }

  /** The project's text stands in the section of all projects. */
  lemma {:induction false} ProjectStands(order: Order, entries: seq<Entry>, name: string)
    requires Reorders(order) && name in ProjectNames(entries) && RenderProject(order, entries, name) != ""
    ensures ProjectsSection(order, entries) != ""
    ensures StandsIn(SplitLines(RenderProject(order, entries, name)), SplitLines(ProjectsSection(order, entries)))
  {
    var names := order.names(ProjectNames(entries));
    var texts := RenderProjects(order, entries, names);
    OrderedNames(order, entries);
    var k: nat :| k < |names| && names[k] == name;
    ProjectAt(order, entries, names, k);
    hide ProjectNames, RenderProject, RenderProjects, JoinParts, StandsIn, Reorders;
    PartStands(texts, k);
    RestNotEmpty(texts, k);
    SplitGap("## " + PROJECTS, JoinParts(texts));
    StandsBehind(SplitLines(texts[k]), SplitLines(JoinParts(texts)), SplitLines(ProjectsSection(order, entries)),
                 SplitLines("## " + PROJECTS));
  }

  lemma {:induction false} ProjectAt(order: Order, entries: seq<Entry>, names: seq<string>, k: nat)
    requires k < |names|
    ensures |RenderProjects(order, entries, names)| == |names|
    ensures RenderProjects(order, entries, names)[k] == RenderProject(order, entries, names[k])
    decreases |names|
  {
    hide RenderProject;
    if |names| > 1 {
      ProjectAt(order, entries, names[1..], if k > 0 then k - 1 else 0);
    }
  }

  lemma {:induction false} HasItsName(entries: seq<Entry>, name: string, section: D.Section, e: Entry)
    requires e in entries && Belongs(e, InProject(name, section))
    ensures name in ProjectNames(entries)
  {
    var i :| 0 <= i < |entries| && entries[i] == e;
    SlotIff(e, InProject(name, section));
    DistinctImagesSpec(ProjectOf, entries);
    assert ProjectOf(entries[i]) == Some(name);
    hide SlotOf, Belongs;
    assert HasImage(ProjectOf, entries, name);
  }

  /** Each project of an entry has a text in the file that begins with its heading; the section of that text for the
      entry's category lists exactly the entries of that project and category. */
  lemma {:induction false} ProjectIsPrinted(order: Order, entries: seq<Entry>, name: string, section: D.Section, e: Entry)
    requires Reorders(order) && e in entries && Belongs(e, InProject(name, section))
    ensures exists project ::
      && StandsIn(project, SplitLines(RenderMemory(order, entries)))
      && project != [] && project[0] == "### " + name && PrintsSlot(project, entries, InProject(name, section))
  {
    var project := SplitLines(RenderProject(order, entries, name));
    var parts := [ProjectsSection(order, entries),
                  SharedSection(order, entries, "Shared Terminology", InTerminology),
                  SharedSection(order, entries, "Shared Preferences", InPreferences),
                  SharedSection(order, entries, "Shared Context", InContext),
                  SharedSection(order, entries, "General Project Context", InGeneral)];
    assert RenderMemory(order, entries) == JoinParts(parts);
    HasItsName(entries, name, section, e);
    hide RenderMemory, ProjectsSection, SharedSection, JoinParts, RenderProject, SplitLines, Belongs, Reorders, PrintsSlot;
    hide StandsIn, ProjectNames;
    OrderedNames(order, entries);
    GoodProject(entries, name);
    ProjectLines(order, entries, name, section, e);
    ProjectStands(order, entries, name);
    PartStands(parts, 0);
    StandsInside(project, SplitLines(parts[0]), SplitLines(JoinParts(parts)));
  }
}
