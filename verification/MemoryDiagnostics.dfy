/** Reading project coverage back from a memory file. */
module MemoryDiagnostics {
  import opened Prelude
  import opened Text

  datatype Section = Overview | MembersAndRoles | RoadmapAndMilestones

  function Title(section: Section): string {
    match section
    case Overview => "Overview"
    case MembersAndRoles => "Members And Roles"
    case RoadmapAndMilestones => "Roadmap And Milestones"
  }

  function SectionTitled(title: string): Option<Section> {
    if title == Title(Overview) then Some(Overview)
    else if title == Title(MembersAndRoles) then Some(MembersAndRoles)
    else if title == Title(RoadmapAndMilestones) then Some(RoadmapAndMilestones)
    else None
  }

  // --- lines ---

  /** What the analyzer takes a line for. */
  datatype LineKind = ProjectHeading(name: string) | SectionHeading(title: string) | TopHeading | Bullet | Other

  /** `/^##\s+/` and its longer forms, for the given hashes. */
  predicate HasHashes(trimmed: string, hashes: string) {
    |hashes| < |trimmed| && trimmed[..|hashes|] == hashes && IsSpace(trimmed[|hashes|])
  }

  predicate StartsBullet(trimmed: string) {
    |trimmed| >= 2 && trimmed[0] == '-' && trimmed[1] == ' '
  }

  function Classify(line: string): LineKind {
    var trimmed := Trim(line);
    if HasHashes(trimmed, "###") then ProjectHeading(TrimStart(trimmed[3..]))
    else if HasHashes(trimmed, "####") then SectionHeading(TrimStart(trimmed[4..]))
    else if HasHashes(trimmed, "##") then TopHeading
    else if StartsBullet(trimmed) then Bullet
    else Other
  }

  // --- coverage ---

  /** The sections of a project that have a heading, and the bullets counted under each. */
  datatype Coverage = Coverage(present: set<Section>, bullets: map<Section, nat>)

  const NO_COVERAGE := Coverage({}, map[Overview := 0, MembersAndRoles := 0, RoadmapAndMilestones := 0])

  datatype State = State(project: Option<string>, section: Option<Section>, projects: map<string, Coverage>)

  const START := State(None, None, map[])

  function WithSection(coverage: Coverage, section: Section): Coverage {
    Coverage(coverage.present + {section}, coverage.bullets)
  }

  function WithBullets(coverage: Coverage, section: Section, count: nat): Coverage {
    var sofar := if section in coverage.bullets then coverage.bullets[section] else 0;
    Coverage(coverage.present, coverage.bullets[section := sofar + count])
  }

  /** The analyzer after one more line. */
  function Step(s: State, kind: LineKind): State {
    match kind
    case ProjectHeading(name) =>
      State(Some(name), None, if name in s.projects then s.projects else s.projects[name := NO_COVERAGE])
    case SectionHeading(title) =>
      var section := if s.project.Some? && s.project.value != "" then SectionTitled(title) else None;
      if section.Some? && s.project.value in s.projects then
        var name := s.project.value;
        State(s.project, section, s.projects[name := WithSection(s.projects[name], section.value)])
      else State(s.project, section, s.projects)
    case TopHeading => State(None, None, s.projects)
    case Bullet =>
      if s.project.Some? && s.project.value != "" && s.section.Some? && s.project.value in s.projects then
        var name := s.project.value;
        State(s.project, s.section, s.projects[name := WithBullets(s.projects[name], s.section.value, 1)])
      else s
    case Other => s
  }

  function Kinds(lines: seq<string>): seq<LineKind> {
    seq(|lines|, i requires 0 <= i < |lines| => Classify(lines[i]))
  }

  lemma {:induction false} KindsCons(line: string, lines: seq<string>)
    ensures Kinds([line] + lines) == [Classify(line)] + Kinds(lines)
  {
  }

  function ScanKinds(s: State, kinds: seq<LineKind>): State
    decreases |kinds|
  {
    if kinds == [] then s else ScanKinds(Step(s, kinds[0]), kinds[1..])
  }

  /** The analyzer after a whole text. */
  function Scan(s: State, text: string): State {
    ScanKinds(s, Kinds(SplitLines(text)))
  }

  lemma {:induction false} ScanKindsAppend(s: State, a: seq<LineKind>, b: seq<LineKind>)
    ensures ScanKinds(s, a + b) == ScanKinds(ScanKinds(s, a), b)
    decreases |a|
  {
    if a == [] {
      assert a + b == b;
    } else {
      assert (a + b)[1..] == a[1..] + b;
      ScanKindsAppend(Step(s, a[0]), a[1..], b);
    }
  }

  /** `analyzeWorkspaceMemory`: the projects it lists, with their sections and bullet counts. */
  method AnalyzeWorkspaceMemory(value: string) returns (projects: map<string, Coverage>)
    ensures projects == Scan(START, value).projects
  {
    var lines := SplitLines(value);
    ghost var kinds := Kinds(lines);
    var currentProject: Option<string>, currentSection: Option<Section> := None, None;
    projects := map[];
    for i := 0 to |lines|
      invariant ScanKinds(State(currentProject, currentSection, projects), kinds[i..]) == ScanKinds(START, kinds)
    {
      assert kinds[i..][0] == Classify(lines[i]) && kinds[i..][1..] == kinds[i + 1..];
      match Classify(lines[i])
      case ProjectHeading(name) =>
        currentProject, currentSection := Some(name), None;
        if name !in projects {
          projects := projects[name := NO_COVERAGE];
        }
      case SectionHeading(title) =>
        currentSection := if currentProject.Some? && currentProject.value != "" then SectionTitled(title) else None;
        if currentSection.Some? && currentProject.value in projects {
          projects := projects[currentProject.value := WithSection(projects[currentProject.value], currentSection.value)];
        }
      case TopHeading =>
        currentProject, currentSection := None, None;
      case Bullet =>
        if currentProject.Some? && currentProject.value != "" && currentSection.Some? && currentProject.value in projects {
          projects := projects[currentProject.value := WithBullets(projects[currentProject.value], currentSection.value, 1)];
        }
      case Other =>
    }
    assert kinds[|lines|..] == [];
  }

  // --- lines a renderer writes ---

  lemma {:induction false} HeadingTrimmed(hashes: string, title: string)
    requires hashes != "" && hashes[0] == '#' && title != "" && IsTrimmed(title)
    ensures
      var line := hashes + " " + title;
      && Trim(line) == line && HasHashes(line, hashes) && TrimStart(line[|hashes|..]) == title
  {
    var line := hashes + " " + title;
    assert IsTrimmed(line);
    TrimOfTrimmed(line);
    assert line[..|hashes|] == hashes && line[|hashes|] == ' ';
    assert line[|hashes|..] == " " + title;
    assert (" " + title)[1..] == title;
    TrimOfTrimmed(title);
  }

  lemma {:induction false} ProjectLine(name: string)
    requires name != "" && IsTrimmed(name)
    ensures Classify("### " + name) == ProjectHeading(name)
  {
    HeadingTrimmed("###", name);
    assert "###" + " " + name == "### " + name;
  }

  lemma {:induction false} SectionLine(title: string)
    requires title != "" && IsTrimmed(title)
    ensures Classify("#### " + title) == SectionHeading(title)
  {
    HeadingTrimmed("####", title);
    var line := "#### " + title;
    assert "####" + " " + title == line;
    assert line[3] == '#';
  }

  lemma {:induction false} TopLine(title: string)
    requires title != "" && IsTrimmed(title)
    ensures Classify("## " + title) == TopHeading
  {
    HeadingTrimmed("##", title);
    var line := "## " + title;
    assert "##" + " " + title == line;
    assert line[2] == ' ' && line[..3][2] == ' ';
    assert |line| >= 4 ==> line[..4][2] == ' ';
  }

  lemma {:induction false} TrimEndBehind(front: string, text: string)
    requires TrimEnd(text) != ""
    ensures TrimEnd(front + text) == front + TrimEnd(text)
    decreases |text|
  {
    var s := front + text;
    if IsSpace(text[|text| - 1]) {
      assert s[..|s| - 1] == front + text[..|text| - 1];
      TrimEndBehind(front, text[..|text| - 1]);
    }
  }

  /** A trimmed line that begins with a dash and a space is a bullet. */
  lemma {:induction false} DashIsBullet(trimmed: string)
    requires StartsBullet(trimmed)
    ensures !HasHashes(trimmed, "##") && !HasHashes(trimmed, "###") && !HasHashes(trimmed, "####")
  {
    assert |trimmed| > 2 ==> trimmed[..2][0] == '-';
    assert |trimmed| > 3 ==> trimmed[..3][0] == '-';
    assert |trimmed| > 4 ==> trimmed[..4][0] == '-';
  }

  lemma {:induction false} BulletLine(text: string)
    requires TrimEnd(text) != ""
    ensures Classify("- " + text) == Bullet && Trim("- " + text) == "- " + TrimEnd(text)
  {
    var line, trimmed := "- " + text, "- " + TrimEnd(text);
    assert TrimStart(line) == line;
    TrimEndBehind("- ", text);
    hide TrimStart, TrimEnd, HasHashes, IsSpace;
    assert Trim(line) == trimmed;
    DashIsBullet(trimmed);
  }

  lemma {:induction false} BlankLine()
    ensures Classify("") == Other
  {
  }
}
