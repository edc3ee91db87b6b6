/** Printing promoted memory entries as Markdown. */
module MemoryRender {
  import opened Prelude
  import opened Lists
  import opened Text
  import opened Partition
  import opened PersonalizationLedger
  import D = MemoryDiagnostics

  /** The sorting of entries and project names: any reordering. */
  datatype Order = Order(entries: seq<Entry> -> seq<Entry>, names: seq<string> -> seq<string>)

  ghost predicate Reorders(order: Order) {
    && (forall xs {:trigger order.entries(xs)} :: multiset(order.entries(xs)) == multiset(xs))
    && (forall xs {:trigger order.names(xs)} :: multiset(order.names(xs)) == multiset(xs))
  }

  // --- where an entry is printed ---

  datatype Slot = InProject(name: string, section: D.Section) | InTerminology | InPreferences | InContext | InGeneral
                | Nowhere

  function ProjectName(e: Entry): string {
    match e.project
    case None => ""
    case Some(name) => NormalizeText(name)
  }

  /** people-and-projects counts as project-overview. */
  function SectionOf(category: Category): Option<D.Section> {
    match category
    case ProjectOverview => Some(D.Overview)
    case PeopleAndProjects => Some(D.Overview)
    case MembersAndRoles => Some(D.MembersAndRoles)
    case RoadmapAndMilestones => Some(D.RoadmapAndMilestones)
    case _ => None
  }

  function SlotOf(e: Entry): Slot {
    match e.category
    case Terminology => InTerminology
    case Preferences => InPreferences
    case Context => InContext
    case _ =>
      if SectionOf(e.category).None? then Nowhere
      else if ProjectName(e) != "" then InProject(ProjectName(e), SectionOf(e.category).value)
      else if SectionOf(e.category).value.Overview? then InGeneral
      else Nowhere
  }

  function InSlot(entries: seq<Entry>, slot: Slot): seq<Entry> {
    Pick(SlotOf, entries, slot)
  }

  // --- printing ---

  function Bullets(entries: seq<Entry>): seq<string> {
    if entries == [] then [] else ["- " + entries[0].text] + Bullets(entries[1..])
  }

  function RenderBulletSection(order: Order, heading: string, entries: seq<Entry>): string {
    if entries == [] then "" else JoinLines([heading] + Bullets(order.entries(entries)))
  }

  /** `parts.filter(Boolean).join("\n\n")` */
  function JoinParts(parts: seq<string>): string {
    if parts == [] then "" else JoinPart(parts[0], JoinParts(parts[1..]))
  }

  function JoinPart(part: string, rest: string): string {
    if part == "" then rest else if rest == "" then part else part + "\n\n" + rest
  }

  function SectionPart(order: Order, entries: seq<Entry>, name: string, section: D.Section): string {
    RenderBulletSection(order, "#### " + D.Title(section), InSlot(entries, InProject(name, section)))
  }

  function ProjectParts(order: Order, entries: seq<Entry>, name: string): seq<string> {
    [SectionPart(order, entries, name, D.Overview), SectionPart(order, entries, name, D.MembersAndRoles),
     SectionPart(order, entries, name, D.RoadmapAndMilestones)]
  }

  function RenderProject(order: Order, entries: seq<Entry>, name: string): string {
    var parts := JoinParts(ProjectParts(order, entries, name));
    if parts == "" then "" else JoinPart("### " + name, parts)
  }

  function RenderProjects(order: Order, entries: seq<Entry>, names: seq<string>): seq<string> {
    if names == [] then [] else [RenderProject(order, entries, names[0])] + RenderProjects(order, entries, names[1..])
  }

  /** The project an entry is printed under. */
  function ProjectOf(e: Entry): Option<string> {
    if SlotOf(e).InProject? then Some(SlotOf(e).name) else None
  }

  /** The names of the projects, each once, in the order of their first entries. */
  function ProjectNames(entries: seq<Entry>): seq<string> {
    DistinctImages(ProjectOf, entries)
  }

  const PROJECTS := "Projects"

  function ProjectsSection(order: Order, entries: seq<Entry>): string {
    var projects := JoinParts(RenderProjects(order, entries, order.names(ProjectNames(entries))));
    if projects == "" then "" else JoinPart("## " + PROJECTS, projects)
  }

  function SharedSection(order: Order, entries: seq<Entry>, title: string, slot: Slot): string {
    RenderBulletSection(order, "## " + title, InSlot(entries, slot))
  }

  function RenderMemory(order: Order, entries: seq<Entry>): string {
    JoinParts([ProjectsSection(order, entries),
               SharedSection(order, entries, "Shared Terminology", InTerminology),
               SharedSection(order, entries, "Shared Preferences", InPreferences),
               SharedSection(order, entries, "Shared Context", InContext),
               SharedSection(order, entries, "General Project Context", InGeneral)])
  }

  // --- entries the schema accepts ---

  /** A memory entry with a memory category, and a project name where its category needs one. */
  predicate ValidMemoryEntry(e: Entry) {
    && e.target.Memory?
    && e.category in {Terminology, ProjectOverview, MembersAndRoles, RoadmapAndMilestones, PeopleAndProjects,
                      Preferences, Context}
    && (e.category in {ProjectOverview, MembersAndRoles, RoadmapAndMilestones} ==> ProjectName(e) != "")
  }

  /** What the schema demands of an entry of the memory file. */
  ghost predicate ValidEntries(entries: seq<Entry>) {
    forall i :: 0 <= i < |entries| ==> ValidMemoryEntry(entries[i]) && entries[i].text != "" && IsTrimmed(entries[i].text)
  }

  /** Every valid entry has a place. */
  lemma {:induction false} ValidHasSlot(e: Entry)
    requires ValidMemoryEntry(e)
    ensures SlotOf(e) != Nowhere
    ensures SlotOf(e).InProject? ==> SlotOf(e).name == ProjectName(e) != ""
  {
  }

  // --- the lines of one entry ---

  /** The bullet a line is, if it is one. */
  function BulletOf(line: string): seq<string> {
    if D.Classify(line).Bullet? then [Trim(line)] else []
  }

  /** The lines an entry is printed as: one for each line of its text. */
  function EntryLines(e: Entry): seq<string> {
    SplitLines("- " + e.text)
  }

  function EntryBullets(e: Entry): seq<string> {
    FlatMap(BulletOf, EntryLines(e))
  }

  function FirstLine(e: Entry): string {
    SplitLines(e.text)[0]
  }

  function MoreLines(e: Entry): seq<string> {
    SplitLines(e.text)[1..]
  }

  /** The bullet an entry is meant to be. */
  function Printed(e: Entry): string {
    "- " + TrimEnd(FirstLine(e))
  }

  /** Bullets that a reader finds in the further lines of an entry's text. */
  function MoreBullets(e: Entry): seq<string> {
    FlatMap(BulletOf, MoreLines(e))
  }

  predicate ShowsFirstLine(e: Entry) {
    TrimEnd(FirstLine(e)) != ""
  }

  lemma {:induction false} EntryLinesAre(e: Entry)
    ensures EntryLines(e) == ["- " + FirstLine(e)] + MoreLines(e)
  {
    SplitCons(' ', e.text);
    SplitCons('-', " " + e.text);
    assert "- " + e.text == ['-'] + (" " + e.text);
    assert "- " + FirstLine(e) == ['-'] + ([' '] + FirstLine(e));
  }

  lemma {:induction false} EndsVisible(s: string)
    requires s != "" && !IsSpace(s[0])
    ensures TrimEnd(s) != ""
  {
    if IsSpace(s[|s| - 1]) {
      EndsVisible(s[..|s| - 1]);
    }
  }

  /** A text the schema accepts starts with a visible line. */
  lemma {:induction false} TrimmedShowsFirstLine(e: Entry)
    requires e.text != "" && IsTrimmed(e.text)
    ensures ShowsFirstLine(e)
  {
    EndsVisible(FirstLine(e));
  }

  /** An entry is the bullet of its first line, followed by the bullets in its further lines. */
  lemma {:induction false} EntryBulletsAre(e: Entry)
    requires ShowsFirstLine(e)
    ensures EntryBullets(e) == [Printed(e)] + MoreBullets(e)
  {
    EntryLinesAre(e);
    D.BulletLine(FirstLine(e));
    FlatMapAppend(BulletOf, ["- " + FirstLine(e)], MoreLines(e));
    FlatMapOne(BulletOf, "- " + FirstLine(e));
  }
}
