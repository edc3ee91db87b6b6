/** What the analyzer counts in any text, said of its headings and bullets instead of a running state. */
module MemoryCoverage {
  import opened Prelude
  import opened Text
  import opened MemoryDiagnostics

  predicate EndsProject(kind: LineKind) { kind.ProjectHeading? || kind.TopHeading? }

  predicate EndsSection(kind: LineKind) { EndsProject(kind) || kind.SectionHeading? }

  /** Line p is the heading of the project that line i is in. */
  ghost predicate OpensProject(kinds: seq<LineKind>, p: int, i: int, name: string) {
    && 0 <= p < i <= |kinds| && kinds[p] == ProjectHeading(name)
    && forall j :: p < j < i ==> !EndsProject(kinds[j])
  }

  ghost predicate UnderProject(kinds: seq<LineKind>, i: int, name: string) {
    exists p :: OpensProject(kinds, p, i, name)
  }

  /** Line h is a heading of one of the three sections, in a project with a name. */
  ghost predicate IsSectionOf(kinds: seq<LineKind>, h: int, name: string, section: Section) {
    && 0 <= h < |kinds| && kinds[h].SectionHeading? && kinds[h].title == Title(section)
    && name != "" && UnderProject(kinds, h, name)
  }

  /** Line h is the heading of the section that line i is in. */
  ghost predicate OpensSection(kinds: seq<LineKind>, h: int, i: int, name: string, section: Section) {
    && 0 <= h < i <= |kinds| && IsSectionOf(kinds, h, name, section)
    && forall j :: h < j < i ==> !EndsSection(kinds[j])
  }

  ghost predicate UnderSection(kinds: seq<LineKind>, i: int, name: string, section: Section) {
    exists h :: OpensSection(kinds, h, i, name, section)
  }

  /** How many of the lines are bullets in the section. */
  ghost function Counted(kinds: seq<LineKind>, name: string, section: Section): nat {
    if kinds == [] then 0 else
      var n := |kinds| - 1;
      Counted(kinds[..n], name, section)
      + (if kinds[n].Bullet? && UnderSection(kinds, n, name, section) then 1 else 0)
  }

  // --- one line more ---

  lemma {:induction false} ProjectInPrefix(kinds: seq<LineKind>, k: LineKind, i: int, name: string)
    requires i <= |kinds|
    ensures UnderProject(kinds + [k], i, name) <==> UnderProject(kinds, i, name)
  {
    var more := kinds + [k];
    assert forall j :: 0 <= j < |kinds| ==> more[j] == kinds[j];
    if p :| OpensProject(kinds, p, i, name) {
      assert OpensProject(more, p, i, name);
    }
    if p :| OpensProject(more, p, i, name) {
      assert OpensProject(kinds, p, i, name);
    }
  }

  lemma {:induction false} SectionInPrefix(kinds: seq<LineKind>, k: LineKind, h: int, name: string, section: Section)
    requires h < |kinds|
    ensures IsSectionOf(kinds + [k], h, name, section) <==> IsSectionOf(kinds, h, name, section)
  {
    if h >= 0 {
      ProjectInPrefix(kinds, k, h, name);
      hide UnderProject;
    }
  }

  lemma {:induction false} UnderInPrefix(kinds: seq<LineKind>, k: LineKind, i: int, name: string, section: Section)
    requires i <= |kinds|
    ensures UnderSection(kinds + [k], i, name, section) <==> UnderSection(kinds, i, name, section)
  {
    var more := kinds + [k];
    assert forall j :: 0 <= j < |kinds| ==> more[j] == kinds[j];
    hide IsSectionOf;
    if h :| OpensSection(kinds, h, i, name, section) {
      SectionInPrefix(kinds, k, h, name, section);
      assert OpensSection(more, h, i, name, section);
    }
    if h :| OpensSection(more, h, i, name, section) {
      SectionInPrefix(kinds, k, h, name, section);
      assert OpensSection(kinds, h, i, name, section);
    }
  }

  lemma {:induction false} NextProject(kinds: seq<LineKind>, k: LineKind, name: string)
    ensures UnderProject(kinds + [k], |kinds| + 1, name)
       <==> k == ProjectHeading(name) || (!EndsProject(k) && UnderProject(kinds, |kinds|, name))
  {
    var more, n, m := kinds + [k], |kinds|, |kinds| + 1;
    assert forall j :: 0 <= j < n ==> more[j] == kinds[j];
    assert more[n] == k;
    if k == ProjectHeading(name) {
      assert OpensProject(more, n, m, name);
    }
    if p :| OpensProject(kinds, p, n, name) {
      assert !EndsProject(k) ==> OpensProject(more, p, m, name);
    }
    if p :| OpensProject(more, p, m, name) {
      assert p < n ==> OpensProject(kinds, p, n, name);
    }
  }

  lemma {:induction false} StillOpen(kinds: seq<LineKind>, k: LineKind, h: int, name: string, section: Section)
    requires 0 <= h < |kinds|
    ensures OpensSection(kinds + [k], h, |kinds| + 1, name, section)
       <==> !EndsSection(k) && OpensSection(kinds, h, |kinds|, name, section)
  {
    var more, n := kinds + [k], |kinds|;
    assert forall j :: 0 <= j < n ==> more[j] == kinds[j];
    assert more[n] == k;
    SectionInPrefix(kinds, k, h, name, section);
    hide IsSectionOf, EndsSection;
  }

  lemma {:induction false} OpensNow(kinds: seq<LineKind>, k: LineKind, name: string, section: Section)
    ensures OpensSection(kinds + [k], |kinds|, |kinds| + 1, name, section)
       <==> k == SectionHeading(Title(section)) && name != "" && UnderProject(kinds, |kinds|, name)
  {
    assert (kinds + [k])[|kinds|] == k;
    ProjectInPrefix(kinds, k, |kinds|, name);
    hide UnderProject, Title;
  }

  lemma {:induction false} NextSection(kinds: seq<LineKind>, k: LineKind, name: string, section: Section)
    ensures UnderSection(kinds + [k], |kinds| + 1, name, section)
       <==> (k == SectionHeading(Title(section)) && name != "" && UnderProject(kinds, |kinds|, name))
            || (!EndsSection(k) && UnderSection(kinds, |kinds|, name, section))
  {
    var more, n, m := kinds + [k], |kinds|, |kinds| + 1;
    OpensNow(kinds, k, name, section);
    if h :| OpensSection(kinds, h, n, name, section) {
      StillOpen(kinds, k, h, name, section);
    }
    if h :| OpensSection(more, h, m, name, section) {
      if h < n {
        StillOpen(kinds, k, h, name, section);
      }
    }
    hide UnderProject, IsSectionOf, Title;
  }

  lemma {:induction false} NextCount(kinds: seq<LineKind>, k: LineKind, name: string, section: Section)
    ensures Counted(kinds + [k], name, section)
         == Counted(kinds, name, section) + if k.Bullet? && UnderSection(kinds, |kinds|, name, section) then 1 else 0
  {
    assert (kinds + [k])[..|kinds|] == kinds;
    UnderInPrefix(kinds, k, |kinds|, name, section);
    hide UnderSection;
  }

  // --- the running state ---

  ghost predicate TellsProject(kinds: seq<LineKind>, s: State, name: string) {
    && (s.project == Some(name) <==> UnderProject(kinds, |kinds|, name))
    && (name in s.projects <==> exists p :: 0 <= p < |kinds| && kinds[p] == ProjectHeading(name))
    && (s.project == Some(name) ==> name in s.projects)
  }

  ghost predicate TellsSection(kinds: seq<LineKind>, s: State, name: string, section: Section) {
    && (s.section == Some(section) && s.project == Some(name) <==> UnderSection(kinds, |kinds|, name, section))
    && (s.section.Some? ==> s.project.Some? && s.project.value != "")
  }

  ghost predicate TellsCount(kinds: seq<LineKind>, s: State, name: string, section: Section) {
    if name in s.projects then
      section in s.projects[name].bullets && s.projects[name].bullets[section] == Counted(kinds, name, section)
    else Counted(kinds, name, section) == 0
  }

  ghost predicate TellsPresent(kinds: seq<LineKind>, s: State, name: string, section: Section) {
    (exists h :: IsSectionOf(kinds, h, name, section)) <==> name in s.projects && section in s.projects[name].present
  }

  lemma {:induction false} Titles(title: string, section: Section)
    ensures SectionTitled(title) == Some(section) <==> title == Title(section)
  {
    assert |Title(Overview)| == 8 && |Title(MembersAndRoles)| == 17 && |Title(RoadmapAndMilestones)| == 22;
  }

  lemma {:induction false} HeadingsMore(kinds: seq<LineKind>, k: LineKind, name: string)
    ensures (exists p :: 0 <= p < |kinds + [k]| && (kinds + [k])[p] == ProjectHeading(name))
       <==> k == ProjectHeading(name) || exists p :: 0 <= p < |kinds| && kinds[p] == ProjectHeading(name)
  {
    var more := kinds + [k];
    assert more[|kinds|] == k;
    if p :| 0 <= p < |kinds| && kinds[p] == ProjectHeading(name) {
      assert more[p] == ProjectHeading(name);
    }
  }

  lemma {:induction false} StepTellsProject(kinds: seq<LineKind>, k: LineKind, s: State, name: string)
    requires TellsProject(kinds, s, name)
    ensures TellsProject(kinds + [k], Step(s, k), name)
  {
    NextProject(kinds, k, name);
    HeadingsMore(kinds, k, name);
    hide UnderProject, SectionTitled, Title;
  }

  lemma {:induction false} SectionsMore(kinds: seq<LineKind>, k: LineKind, name: string, section: Section)
    ensures (exists h :: IsSectionOf(kinds + [k], h, name, section))
       <==> (k == SectionHeading(Title(section)) && name != "" && UnderProject(kinds, |kinds|, name))
            || exists h :: IsSectionOf(kinds, h, name, section)
  {
    var more, n := kinds + [k], |kinds|;
    ProjectInPrefix(kinds, k, n, name);
    hide UnderProject, Title;
    assert IsSectionOf(more, n, name, section)
      <==> k == SectionHeading(Title(section)) && name != "" && UnderProject(kinds, n, name);
    if h :| IsSectionOf(kinds, h, name, section) {
      SectionInPrefix(kinds, k, h, name, section);
    }
    if h :| IsSectionOf(more, h, name, section) {
      if h < n {
        SectionInPrefix(kinds, k, h, name, section);
      }
    }
  }

  lemma {:induction false} StepTellsSection(kinds: seq<LineKind>, k: LineKind, s: State, name: string, section: Section)
    requires TellsProject(kinds, s, name) && TellsSection(kinds, s, name, section)
    requires s.project.Some? ==> s.project.value in s.projects
    ensures TellsSection(kinds + [k], Step(s, k), name, section)
  {
    NextSection(kinds, k, name, section);
    if k.SectionHeading? {
      Titles(k.title, section);
    }
    hide UnderProject, UnderSection, Title, SectionTitled, WithSection, WithBullets;
  }

  lemma {:induction false} StepTellsCount(kinds: seq<LineKind>, k: LineKind, s: State, name: string, section: Section)
    requires TellsSection(kinds, s, name, section) && TellsCount(kinds, s, name, section)
    requires s.project.Some? ==> s.project.value in s.projects
    ensures TellsCount(kinds + [k], Step(s, k), name, section)
  {
    NextCount(kinds, k, name, section);
    hide UnderSection, Counted, Title, SectionTitled;
  }

  lemma {:induction false} StepTellsPresent(kinds: seq<LineKind>, k: LineKind, s: State, name: string, section: Section)
    requires TellsProject(kinds, s, name) && TellsPresent(kinds, s, name, section)
    requires s.project.Some? ==> s.project.value in s.projects
    ensures TellsPresent(kinds + [k], Step(s, k), name, section)
  {
    SectionsMore(kinds, k, name, section);
    if k.SectionHeading? {
      Titles(k.title, section);
    }
    hide UnderProject, IsSectionOf, Title, SectionTitled;
  }

  lemma {:induction false} StepKeepsProject(s: State, k: LineKind)
    requires s.project.Some? ==> s.project.value in s.projects
    ensures Step(s, k).project.Some? ==> Step(s, k).project.value in Step(s, k).projects
  {
  }

  lemma {:induction false} ScanSnoc(s: State, kinds: seq<LineKind>, k: LineKind)
    ensures ScanKinds(s, kinds + [k]) == Step(ScanKinds(s, kinds), k)
  {
    ScanKindsAppend(s, kinds, [k]);
    assert [k][1..] == [];
    assert ScanKinds(ScanKinds(s, kinds), [k]) == ScanKinds(Step(ScanKinds(s, kinds), k), []);
  }

  lemma {:induction false} ScanTells(kinds: seq<LineKind>, name: string, section: Section)
    ensures
      var s := ScanKinds(START, kinds);
      && TellsProject(kinds, s, name) && TellsSection(kinds, s, name, section) && TellsCount(kinds, s, name, section)
      && TellsPresent(kinds, s, name, section) && (s.project.Some? ==> s.project.value in s.projects)
    decreases |kinds|
  {
    if kinds != [] {
      var front, k := kinds[..|kinds| - 1], kinds[|kinds| - 1];
      var s := ScanKinds(START, front);
      assert front + [k] == kinds;
      ScanTells(front, name, section);
      ScanSnoc(START, front, k);
      StepTellsProject(front, k, s, name);
      StepTellsSection(front, k, s, name, section);
      StepTellsCount(front, k, s, name, section);
      StepTellsPresent(front, k, s, name, section);
      StepKeepsProject(s, k);
      hide TellsProject, TellsSection, TellsCount, TellsPresent, Step, ScanKinds;
    }
  }

  /** For every text: the projects are those with a heading; a section is present if it has a heading in its project,
      and its count is the number of bullets that stand in it. */
  lemma {:induction false} CoverageOfText(text: string, name: string, section: Section)
    ensures
      var kinds, projects := Kinds(SplitLines(text)), Scan(START, text).projects;
      && (name in projects <==> exists p :: 0 <= p < |kinds| && kinds[p] == ProjectHeading(name))
      && (name in projects ==>
           && section in projects[name].bullets && projects[name].bullets[section] == Counted(kinds, name, section)
           && (section in projects[name].present <==> exists h :: IsSectionOf(kinds, h, name, section)))
  {
    ScanTells(Kinds(SplitLines(text)), name, section);
    hide Counted, IsSectionOf, UnderProject, UnderSection, ScanKinds, Kinds;
  }
}
