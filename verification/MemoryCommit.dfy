/**
 Committing batches of observations to the memory file: the ledger, its printing and the splice together.
 What the file shows to a reader of its bullets are the user's own and those of the promoted entries.
 */
module MemoryCommit {
  import opened Prelude
  import opened Text
  import opened Lists
  import opened VisibleLines
  import opened Partition
  import opened PersonalizationLedger
  import opened PersonalizationCommit
  import opened GeneratedBlock
  import opened MemoryRender
  import opened MemoryRoundTrip
  import opened MemoryBullets
  import D = MemoryDiagnostics

  // --- white space and markers show no bullets ---

  lemma {:induction false} BulletOfTrimmed(line: string)
    ensures FlatMap(BulletOf, TrimmedLine(line)) == BulletOf(line)
  {
    var trimmed := Trim(line);
    TrimOfTrimmed(trimmed);
    if trimmed != "" {
      FlatMapOne(BulletOf, trimmed);
    }
  }

  lemma {:induction false} BulletsOfTrimmed(lines: seq<string>)
    ensures FlatMap(BulletOf, FlatMap(TrimmedLine, lines)) == FlatMap(BulletOf, lines)
  {
    if lines != [] {
      BulletsOfTrimmed(lines[1..]);
      BulletOfTrimmed(lines[0]);
      FlatMapAppend(BulletOf, TrimmedLine(lines[0]), FlatMap(TrimmedLine, lines[1..]));
    }
  }

  /** Texts with the same trimmed lines show the same bullets. */
  lemma {:induction false} SameLinesShow(a: string, b: string)
    requires LinesOf(a) == LinesOf(b)
    ensures BulletsIn(a) == BulletsIn(b)
  {
    BulletsOfTrimmed(SplitLines(a));
    BulletsOfTrimmed(SplitLines(b));
  }

  lemma {:induction false} BulletsConcat(a: string, b: string)
    ensures BulletsIn(a + "\n" + b) == BulletsIn(a) + BulletsIn(b)
  {
    SplitConcat(a, b);
    FlatMapAppend(BulletOf, SplitLines(a), SplitLines(b));
  }

  lemma {:induction false} BreakBehindShows(a: string)
    ensures BulletsIn(a + "\n") == BulletsIn(a)
  {
    NoBullets();
    BulletsConcat(a, "");
    assert a + "\n" + "" == a + "\n";
  }

  lemma {:induction false} MarkerShowsNothing(marker: string)
    requires OneLine(marker) && IsTrimmed(marker) && marker != "" && marker[0] == '<'
    ensures BulletsIn(marker) == []
  {
    TrimOfTrimmed(marker);
    BulletsOfHeading(marker);
  }

  /** What the proofs use of the source's markers. */
  lemma {:induction false} MarkersShowNothing()
    ensures BulletsIn(MARKERS.start) == [] && BulletsIn(MARKERS.end) == []
  {
    MarkersAreGood();
    StartsWithBracket();
    MarkerShowsNothing(MARKERS.start);
    MarkerShowsNothing(MARKERS.end);
  }

  lemma {:induction false} StartsWithBracket()
    ensures MARKERS.start[0] == '<' && MARKERS.end[0] == '<'
  {
  }

  lemma {:induction false} BlockShows(body: string)
    ensures BulletsIn(Block(MARKERS, body)) == BulletsIn(body)
  {
    LinesTrim(body);
    SameLinesShow(Trim(body), body);
    NoBullets();
    if Trim(body) != "" {
      MarkersShowNothing();
      BulletsConcat(MARKERS.start, Trim(body));
      BulletsConcat(MARKERS.start + "\n" + Trim(body), MARKERS.end);
    }
  }

  /** The user's bullets: those in front of the block and behind it. */
  function Users(file: string): multiset<string> {
    Shown(Before(MARKERS, file)) + Shown(After(MARKERS, file))
  }

  lemma {:induction false} JoinedShow(before: string, block: string, after: string)
    ensures Shown(Render(before, block, after)) == Shown(before) + Shown(block) + Shown(after)
  {
    assert JoinSections(before, block) == JoinPart(before, block);
    var joined := JoinSections(before, block);
    assert JoinSections(joined, after) == JoinPart(joined, after);
    ShownJoin(before, block);
    ShownJoin(joined, after);
    hide BulletsIn, JoinPart, JoinSections;
    BreakBehindShows(JoinSections(joined, after));
  }

  /** A merged file shows the user's bullets and those of the body, whatever it showed before. */
  lemma {:induction false} MergeShows(file: string, body: string)
    ensures Shown(Merge(MARKERS, file, body)) == Users(file) + Shown(body)
  {
    JoinedShow(Before(MARKERS, file), Block(MARKERS, body), After(MARKERS, file));
    BlockShows(body);
    hide BulletsIn, Before, After, Block, Render;
  }

  // --- files and texts without stray markers ---

  /** A marker of the file: one line that begins with an angle bracket. */
  ghost predicate MarkerLike(p: string) { p != "" && OneLine(p) && p[0] == '<' }

  /** No marker is left in the user's text but those of the block. */
  ghost predicate NoStrayMarkers(file: string) {
    && NoStrayEnd(MARKERS, file)
    && Without(After(MARKERS, file), MARKERS.start) && Without(After(MARKERS, file), MARKERS.end)
  }

  lemma {:induction false} TrimEndWithout(s: string, p: string)
    requires Without(s, p)
    ensures Without(TrimEnd(s), p)
  {
    TrimEndPart(s);
    var n := |TrimEnd(s)|;
    assert s[0..n] == TrimEnd(s);
    forall i ensures !OccursAt(TrimEnd(s), p, i) {
      if OccursAt(s[0..n], p, i) {
        PartOccurs(s, p, 0, n, i);
      }
    }
  }

  lemma {:induction false} TrimStartWithout(s: string, p: string)
    requires Without(s, p)
    ensures Without(TrimStart(s), p)
  {
    TrimStartPart(s);
    var n := |s| - |TrimStart(s)|;
    assert s[n..|s|] == TrimStart(s);
    forall i ensures !OccursAt(TrimStart(s), p, i) {
      if OccursAt(s[n..|s|], p, i) {
        PartOccurs(s, p, n, |s|, i);
      }
    }
  }

  lemma {:induction false} TrimWithout(s: string, p: string)
    requires Without(s, p)
    ensures Without(Trim(s), p)
  {
    TrimStartWithout(s, p);
    TrimEndWithout(TrimStart(s), p);
  }

  lemma {:induction false} JoinPartWithout(a: string, b: string, p: string)
    requires MarkerLike(p) && Without(a, p) && Without(b, p)
    ensures Without(JoinPart(a, b), p)
  {
    WithoutBreakAfter(a, p);
    WithoutAcrossLines(a + "\n", b, p);
    assert a + "\n" + "\n" + b == a + "\n\n" + b;
  }

  lemma {:induction false} MarkersAreLike()
    ensures MarkerLike(MARKERS.start) && MarkerLike(MARKERS.end)
  {
    MarkersAreGood();
    StartsWithBracket();
  }

  lemma {:induction false} JoinedWithout(before: string, after: string, p: string)
    requires MarkerLike(p) && Without(before, p) && Without(after, p)
    ensures Without(Render(before, "", after), p)
  {
    JoinPartWithout(before, after, p);
    WithoutBreakAfter(JoinPart(before, after), p);
    assert JoinSections(JoinSections(before, ""), after) == JoinPart(before, after);
  }

  /** Without a block everything is the user's text in front. */
  lemma {:induction false} NoBlock(file: string)
    requires Without(file, MARKERS.start) && Without(file, MARKERS.end)
    ensures NoStrayMarkers(file) && Users(file) == Shown(file)
  {
    assert Before(MARKERS, file) == TrimEnd(file) && After(MARKERS, file) == "";
    TrimEndWithout(file, MARKERS.end);
    LinesTrimEnd(file);
    SameLinesShow(TrimEnd(file), file);
    NoBullets();
    NothingOccurs(MARKERS.start);
    NothingOccurs(MARKERS.end);
  }

  lemma {:induction false} NothingOccurs(p: string)
    ensures p != "" ==> Without("", p)
  {
  }

  /** A blank body removes the block. */
  lemma {:induction false} BlankMergeKeepsUsers(file: string, body: string)
    requires NoStrayMarkers(file) && Trim(body) == ""
    ensures NoStrayMarkers(Merge(MARKERS, file, body)) && Users(Merge(MARKERS, file, body)) == Users(file)
  {
    var before, after := Before(MARKERS, file), After(MARKERS, file);
    MarkersAreLike();
    BeforeHasNoStart(MARKERS, file);
    JoinedWithout(before, after, MARKERS.start);
    JoinedWithout(before, after, MARKERS.end);
    NoBullets();
    JoinedShow(before, "", after);
    hide Before, After, Render, BulletsIn;
    NoBlock(Merge(MARKERS, file, body));
  }

  /** A body replaces the block. */
  lemma {:induction false} BodyMergeKeepsUsers(file: string, body: string)
    requires NoStrayMarkers(file) && Trim(body) != "" && Without(body, MARKERS.end)
    ensures NoStrayMarkers(Merge(MARKERS, file, body)) && Users(Merge(MARKERS, file, body)) == Users(file)
  {
    var after := After(MARKERS, file);
    MarkersAreGood();
    TrimWithout(body, MARKERS.end);
    SidesSurvive(MARKERS, file, body);
    hide Before, After, Merge, BulletsIn, IsTrimmed;
    BreakBehindShows(after);
    WithoutBreakAfter(after, MARKERS.start);
    WithoutBreakAfter(after, MARKERS.end);
    assert after + "" == after;
  }

  /** The user's bullets survive every commit. */
  lemma {:induction false} MergeKeepsUsers(file: string, body: string)
    requires NoStrayMarkers(file) && Without(body, MARKERS.end)
    ensures NoStrayMarkers(Merge(MARKERS, file, body)) && Users(Merge(MARKERS, file, body)) == Users(file)
  {
    if Trim(body) == "" {
      BlankMergeKeepsUsers(file, body);
    } else {
      BodyMergeKeepsUsers(file, body);
    }
  }

  // --- the printed entries have no marker when their texts and projects have none ---

  predicate UnmarkedEntry(e: Entry, p: string) {
    IndexOf(e.text, p) < 0 && IndexOf(ProjectName(e), p) < 0
  }

  ghost predicate UnmarkedEntries(entries: seq<Entry>, p: string) {
    forall e :: e in entries ==> UnmarkedEntry(e, p)
  }

  lemma {:induction false} NotFoundIsWithout(s: string, p: string)
    ensures IndexOf(s, p) < 0 <==> Without(s, p)
  {
  }

  /** A marker cannot begin in front text without its first character. */
  lemma {:induction false} BehindWithout(front: string, s: string, p: string)
    requires p != "" && p[0] !in front && Without(s, p)
    ensures Without(front + s, p)
  {
    forall i ensures !OccursAt(front + s, p, i) {
      if OccursAt(front + s, p, i) {
        FoundBehind(front, s, p, i);
      }
    }
  }

  lemma {:induction false} FoundBehind(front: string, s: string, p: string, i: int)
    requires p != "" && p[0] !in front && OccursAt(front + s, p, i)
    ensures OccursAt(s, p, i - |front|)
  {
    assert (front + s)[i..i + |p|][0] == (front + s)[i];
    assert i >= |front|;
    assert s[i - |front|..i - |front| + |p|] == (front + s)[i..i + |p|];
  }

  lemma {:induction false} LinesWithout(lines: seq<string>, p: string)
    requires MarkerLike(p) && forall i :: 0 <= i < |lines| ==> Without(lines[i], p)
    ensures Without(JoinLines(lines), p)
  {
    if |lines| > 1 {
      LinesWithout(lines[1..], p);
      WithoutAcrossLines(lines[0], JoinLines(lines[1..]), p);
    }
  }

  lemma {:induction false} BulletsWithout(entries: seq<Entry>, p: string)
    requires MarkerLike(p) && UnmarkedEntries(entries, p)
    ensures forall i :: 0 <= i < |Bullets(entries)| ==> Without(Bullets(entries)[i], p)
  {
    if entries != [] {
      BulletsWithout(entries[1..], p);
      assert UnmarkedEntry(entries[0], p);
      NotFoundIsWithout(entries[0].text, p);
      BehindWithout("- ", entries[0].text, p);
    }
  }

  lemma {:induction false} ReorderedUnmarked(order: Order, entries: seq<Entry>, p: string)
    requires Reorders(order) && UnmarkedEntries(entries, p)
    ensures UnmarkedEntries(order.entries(entries), p)
  {
    forall e | e in order.entries(entries) ensures UnmarkedEntry(e, p) {
      assert e in multiset(order.entries(entries));
      assert e in multiset(entries);
    }
  }

  lemma {:induction false} SectionWithout(order: Order, heading: string, entries: seq<Entry>, p: string)
    requires Reorders(order) && MarkerLike(p) && Without(heading, p) && UnmarkedEntries(entries, p)
    ensures Without(RenderBulletSection(order, heading, entries), p)
  {
    var sorted := order.entries(entries);
    ReorderedUnmarked(order, entries, p);
    BulletsWithout(sorted, p);
    LinesWithout([heading] + Bullets(sorted), p);
  }

  lemma {:induction false} SlotUnmarked(entries: seq<Entry>, slot: Slot, p: string)
    requires UnmarkedEntries(entries, p)
    ensures UnmarkedEntries(InSlot(entries, slot), p)
  {
    forall e | e in InSlot(entries, slot) ensures UnmarkedEntry(e, p) {
      PickedFrom(SlotOf, entries, slot, e);
    }
  }

  lemma {:induction false} TitleWithout(title: string, p: string)
    requires MarkerLike(p) && '<' !in title
    ensures Without(title, p)
  {
    BehindWithout(title, "", p);
    assert title + "" == title;
  }

  lemma {:induction false} PartWithout(order: Order, entries: seq<Entry>, name: string, section: D.Section, p: string)
    requires Reorders(order) && MarkerLike(p) && UnmarkedEntries(entries, p)
    ensures Without(SectionPart(order, entries, name, section), p)
  {
    var slot, heading := InProject(name, section), "#### " + D.Title(section);
    SlotUnmarked(entries, slot, p);
    assert '<' !in heading;
    TitleWithout(heading, p);
    hide D.Title;
    SectionWithout(order, heading, InSlot(entries, slot), p);
  }

  lemma {:induction false} PartsWithout(parts: seq<string>, p: string)
    requires MarkerLike(p) && forall i :: 0 <= i < |parts| ==> Without(parts[i], p)
    ensures Without(JoinParts(parts), p)
  {
    if parts != [] {
      PartsWithout(parts[1..], p);
      JoinPartWithout(parts[0], JoinParts(parts[1..]), p);
    }
  }

  lemma {:induction false} ProjectWithout(order: Order, entries: seq<Entry>, name: string, p: string)
    requires Reorders(order) && MarkerLike(p) && UnmarkedEntries(entries, p) && Without(name, p)
    ensures Without(RenderProject(order, entries, name), p)
  {
    PartWithout(order, entries, name, D.Overview, p);
    PartWithout(order, entries, name, D.MembersAndRoles, p);
    PartWithout(order, entries, name, D.RoadmapAndMilestones, p);
    hide SectionPart, JoinParts;
    PartsWithout(ProjectParts(order, entries, name), p);
    BehindWithout("### ", name, p);
    JoinPartWithout("### " + name, JoinParts(ProjectParts(order, entries, name)), p);
  }

  lemma {:induction false} NamesWithout(order: Order, entries: seq<Entry>, names: seq<string>, p: string)
    requires Reorders(order) && MarkerLike(p) && UnmarkedEntries(entries, p)
    requires forall i :: 0 <= i < |names| ==> Without(names[i], p)
    ensures Without(JoinParts(RenderProjects(order, entries, names)), p)
  {
    if names == [] {
      TitleWithout("", p);
    } else {
      ProjectWithout(order, entries, names[0], p);
      NamesWithout(order, entries, names[1..], p);
      var first, rest := RenderProject(order, entries, names[0]), RenderProjects(order, entries, names[1..]);
      hide RenderProject;
      assert ([first] + rest)[1..] == rest;
      JoinPartWithout(first, JoinParts(rest), p);
    }
  }

  lemma {:induction false} ProjectNamesUnmarked(order: Order, entries: seq<Entry>, p: string)
    requires Reorders(order) && UnmarkedEntries(entries, p)
    ensures var names := order.names(ProjectNames(entries));
            forall i :: 0 <= i < |names| ==> Without(names[i], p)
  {
    var names := order.names(ProjectNames(entries));
    OrderedNames(order, entries);
    DistinctImagesSpec(ProjectOf, entries);
    forall i | 0 <= i < |names| ensures Without(names[i], p) {
      assert names[i] in ProjectNames(entries);
      var k :| 0 <= k < |entries| && ProjectOf(entries[k]) == Some(names[i]);
      assert UnmarkedEntry(entries[k], p) && names[i] == ProjectName(entries[k]);
      NotFoundIsWithout(names[i], p);
    }
  }

  lemma {:induction false} TitledWithout(title: string, parts: string, p: string)
    requires MarkerLike(p) && '<' !in title && Without(parts, p)
    ensures Without(if parts == "" then "" else JoinPart(title, parts), p)
  {
    TitleWithout(title, p);
    hide JoinPart, Without, MarkerLike;
    JoinPartWithout(title, parts, p);
  }

  lemma {:induction false} ProjectsWithout(order: Order, entries: seq<Entry>, p: string)
    requires Reorders(order) && MarkerLike(p) && UnmarkedEntries(entries, p)
    ensures Without(ProjectsSection(order, entries), p)
  {
    var names := order.names(ProjectNames(entries));
    assert '<' !in "## " + PROJECTS;
    hide RenderProjects, ProjectNames, JoinParts, JoinPart, Without, MarkerLike, Reorders;
    ProjectNamesUnmarked(order, entries, p);
    NamesWithout(order, entries, names, p);
    TitledWithout("## " + PROJECTS, JoinParts(RenderProjects(order, entries, names)), p);
  }

  lemma {:induction false} SharedWithout(order: Order, entries: seq<Entry>, title: string, slot: Slot, p: string)
    requires Reorders(order) && MarkerLike(p) && UnmarkedEntries(entries, p) && '<' !in title
    ensures Without(SharedSection(order, entries, title, slot), p)
  {
    SlotUnmarked(entries, slot, p);
    TitleWithout("## " + title, p);
    hide InSlot;
    SectionWithout(order, "## " + title, InSlot(entries, slot), p);
  }

  /** The printed file has no marker if no text and no project name has one. */
  lemma {:induction false} MemoryWithout(order: Order, entries: seq<Entry>, p: string)
    requires Reorders(order) && MarkerLike(p) && UnmarkedEntries(entries, p)
    ensures Without(RenderMemory(order, entries), p)
  {
    ProjectsWithout(order, entries, p);
    SharedWithout(order, entries, "Shared Terminology", InTerminology, p);
    SharedWithout(order, entries, "Shared Preferences", InPreferences, p);
    SharedWithout(order, entries, "Shared Context", InContext, p);
    SharedWithout(order, entries, "General Project Context", InGeneral, p);
    hide ProjectsSection, SharedSection, JoinParts;
    PartsWithout([ProjectsSection(order, entries),
                  SharedSection(order, entries, "Shared Terminology", InTerminology),
                  SharedSection(order, entries, "Shared Preferences", InPreferences),
                  SharedSection(order, entries, "Shared Context", InContext),
                  SharedSection(order, entries, "General Project Context", InGeneral)], p);
  }

  // --- batches ---

  /** The ledger and the memory file. */
  datatype Workspace = Workspace(ledger: Ledger, file: string)

  /** Observations applied together, with the ids of the entries they may add. */
  datatype Batch = Batch(observations: seq<Observation>, now: int, ids: seq<string>)

  type Batches = bs: seq<Batch> | forall i :: 0 <= i < |bs| ==> |bs[i].ids| == |bs[i].observations|

  predicate IsPromotedMemory(e: Entry) { e.status.Promoted? && e.target.Memory? }

  function PromotedMemory(ledger: Ledger): seq<Entry> {
    Pick(IsPromotedMemory, ledger, true)
  }

  /** The ledger after a batch is saved; the file is written only if some memory entry is promoted. */
  function Commit(rules: Rules, order: Order, s: Workspace, b: Batch): Workspace
    requires |b.ids| == |b.observations|
  {
    var ledger := ApplyAll(rules, s.ledger, b.observations, b.now, b.ids);
    var promoted := PromotedMemory(ledger);
    Workspace(ledger, if promoted == [] then s.file else Merge(MARKERS, s.file, RenderMemory(order, promoted)))
  }

  function CommitAll(rules: Rules, order: Order, s: Workspace, batches: Batches): Workspace
    decreases |batches|
  {
    if batches == [] then s else
      var n := |batches| - 1;
      Commit(rules, order, CommitAll(rules, order, s, batches[..n]), batches[n])
  }

  /** The entries written last: those promoted after the last batch that left any promoted. */
  function LastWritten(rules: Rules, order: Order, s: Workspace, batches: Batches): Option<seq<Entry>>
    decreases |batches|
  {
    if batches == [] then None else
      var promoted := PromotedMemory(CommitAll(rules, order, s, batches).ledger);
      if promoted != [] then Some(promoted) else LastWritten(rules, order, s, batches[..|batches| - 1])
  }

  /** What a file that does not exist yet is taken to hold. */
  const MISSING := "\n"

  /** The memory file on disk. */
  class MemoryFile {
    var content: string

    /** Puts a generated text into the file in place of the one before it. */
    method WriteGenerated(rendered: string)
      modifies this
      ensures content == Merge(MARKERS, old(content), rendered)
    {
      content := Merge(MARKERS, content, rendered);
    }
  }

  /** Applies a batch to the ledger's entries and then writes the memory file. */
  method ApplyPersonalizationObservations(rules: Rules, order: Order, file: MemoryFile, ledger: seq<LedgerEntry>,
                                          b: Batch)
    returns (next: seq<LedgerEntry>, promoted: set<string>)
    requires Distinct(ledger) && |b.ids| == |b.observations|
    modifies file, ledger
    ensures Distinct(next) && ledger <= next
    ensures Workspace(Values(next), file.content)
         == Commit(rules, order, old(Workspace(Values(ledger), file.content)), b)
    ensures promoted == Reported(rules, old(Values(ledger)), b.observations, b.now, b.ids)
  {
    next, promoted := ApplyObservations(rules, ledger, b.observations, b.now, b.ids);
    var promotedMemory := PromotedMemory(Values(next));
    hide PromotedMemory, ApplyAll, Reported, Values, Merge, RenderMemory;
    if promotedMemory != [] {
      file.WriteGenerated(RenderMemory(order, promotedMemory));
    }
  }

  // --- texts without the end marker stay without it ---

  /** Neither the text nor the project of the observation has the end marker. */
  predicate UnmarkedObservation(o: Observation) {
    IndexOf(o.text, MARKERS.end) < 0 && IndexOf(NormalizeText(o.project.GetOr("")), MARKERS.end) < 0
  }

  ghost predicate UnmarkedBatches(batches: Batches) {
    forall i, k :: 0 <= i < |batches| && 0 <= k < |batches[i].observations| ==>
      UnmarkedObservation(batches[i].observations[k])
  }

  lemma {:induction false} ProjectStaysUnmarked(lower: string -> string, e: Entry, o: Observation)
    requires UnmarkedObservation(o)
    requires e.project == NormalizedProject(SourceRules(lower), o.project)
    ensures IndexOf(ProjectName(e), MARKERS.end) < 0
  {
    var name := o.project.GetOr("");
    NormalizeIsIdempotent(name);
    MarkersAreLike();
    hide NormalizeText;
    TitleWithout("", MARKERS.end);
    NotFoundIsWithout("", MARKERS.end);
  }

  lemma {:induction false} SeenUnmarked(lower: string -> string, e: Entry, o: Observation, now: int)
    requires UnmarkedEntry(e, MARKERS.end) && UnmarkedObservation(o)
    ensures UnmarkedEntry(Seen(SourceRules(lower), e, o, now), MARKERS.end)
  {
    var seen := Seen(SourceRules(lower), e, o, now);
    if ProjectPart(SourceRules(lower), o.project) != "" {
      ProjectStaysUnmarked(lower, seen, o);
    }
    hide IndexOf, NormalizeText, ProjectPart, SeenStatus;
  }

  lemma {:induction false} UpsertUnmarked(lower: string -> string, ledger: Ledger, o: Observation, now: int, id: string)
    requires UnmarkedEntries(ledger, MARKERS.end) && UnmarkedObservation(o)
    ensures UnmarkedEntries(Upsert(SourceRules(lower), ledger, o, now, id), MARKERS.end)
  {
    var rules := SourceRules(lower);
    var i := ExactIndex(rules, ledger, o);
    if i < |ledger| {
      SeenUnmarked(lower, ledger[i], o, now);
      hide Seen, UnmarkedEntry;
    } else {
      ProjectStaysUnmarked(lower, New(rules, o, now, id), o);
      RetiredUnmarked(rules, ledger, ObservedKey(rules, o), now);
      hide UnmarkedEntry, New, RetireAll;
      assert UnmarkedEntry(New(rules, o, now, id), MARKERS.end) by { NewUnmarked(lower, o, now, id); }
    }
  }

  lemma {:induction false} NewUnmarked(lower: string -> string, o: Observation, now: int, id: string)
    requires UnmarkedObservation(o)
    ensures UnmarkedEntry(New(SourceRules(lower), o, now, id), MARKERS.end)
  {
    ProjectStaysUnmarked(lower, New(SourceRules(lower), o, now, id), o);
    hide IndexOf, NormalizeText, NormalizedProject;
  }

  lemma {:induction false} RetiredUnmarked(rules: Rules, ledger: Ledger, key: string, now: int)
    requires UnmarkedEntries(ledger, MARKERS.end)
    ensures UnmarkedEntries(RetireAll(rules, ledger, key, now), MARKERS.end)
  {
    var retired := RetireAll(rules, ledger, key, now);
    hide IndexOf;
    forall e | e in retired ensures UnmarkedEntry(e, MARKERS.end) {
      var i :| 0 <= i < |retired| && retired[i] == e;
      assert e == Retire(rules, ledger[i], key, now) && UnmarkedEntry(ledger[i], MARKERS.end);
    }
  }

  lemma {:induction false} ApplyUnmarked(lower: string -> string, ledger: Ledger, observations: seq<Observation>,
                                         now: int, ids: seq<string>)
    requires |ids| == |observations| && UnmarkedEntries(ledger, MARKERS.end)
    requires forall k :: 0 <= k < |observations| ==> UnmarkedObservation(observations[k])
    ensures UnmarkedEntries(ApplyAll(SourceRules(lower), ledger, observations, now, ids), MARKERS.end)
    decreases |observations|
  {
    if observations != [] {
      var n := |observations| - 1;
      ApplyUnmarked(lower, ledger, observations[..n], now, ids[..n]);
      hide UnmarkedEntries, UnmarkedObservation, Upsert, SourceRules;
      var before := ApplyAll(SourceRules(lower), ledger, observations[..n], now, ids[..n]);
      UpsertUnmarked(lower, before, observations[n], now, ids[n]);
    }
  }

  // --- main results ---

  /** A file without stray markers, and entries without the end marker. */
  ghost predicate Sound(s: Workspace) {
    NoStrayMarkers(s.file) && UnmarkedEntries(s.ledger, MARKERS.end)
  }

  /** One batch that leaves memory entries promoted: the file shows them, and the user's bullets. */
  lemma {:induction false} WriteShows(order: Order, file: string, ledger: Ledger)
    requires Reorders(order) && NoStrayMarkers(file) && UnmarkedEntries(ledger, MARKERS.end)
    ensures
      var promoted := PromotedMemory(ledger);
      var after := Merge(MARKERS, file, RenderMemory(order, promoted));
      && NoStrayMarkers(after) && Users(after) == Users(file)
      && Shown(after) == Users(file) + Meant(Placed(promoted))
  {
    var promoted := PromotedMemory(ledger);
    forall e | e in promoted ensures UnmarkedEntry(e, MARKERS.end) {
      PickedFrom(IsPromotedMemory, ledger, true, e);
    }
    MarkersAreLike();
    MemoryWithout(order, promoted, MARKERS.end);
    PlacedAreShown(order, promoted);
    hide Users, Shown, Meant, Placed, NoStrayMarkers, Merge, RenderMemory, PromotedMemory;
    MergeKeepsUsers(file, RenderMemory(order, promoted));
    MergeShows(file, RenderMemory(order, promoted));
  }

  lemma {:induction false} CommitShows(lower: string -> string, order: Order, s: Workspace, b: Batch)
    requires Reorders(order) && Sound(s) && |b.ids| == |b.observations|
    requires forall k :: 0 <= k < |b.observations| ==> UnmarkedObservation(b.observations[k])
    ensures
      var after := Commit(SourceRules(lower), order, s, b);
      && Sound(after) && Users(after.file) == Users(s.file)
      && (PromotedMemory(after.ledger) == [] ==> after.file == s.file)
      && (PromotedMemory(after.ledger) != [] ==>
          Shown(after.file) == Users(s.file) + Meant(Placed(PromotedMemory(after.ledger))))
  {
    var ledger := ApplyAll(SourceRules(lower), s.ledger, b.observations, b.now, b.ids);
    ApplyUnmarked(lower, s.ledger, b.observations, b.now, b.ids);
    WriteShows(order, s.file, ledger);
    hide Users, Shown, Meant, Placed, NoStrayMarkers, UnmarkedEntries, Merge, RenderMemory, PromotedMemory, ApplyAll;
  }

  /** After any batches the file is untouched, or its bullets are the user's own and exactly those of the
      memory entries that were promoted after the last batch that left any, whatever blocks there were before. */
  lemma {:induction false} FileShowsLastWritten(lower: string -> string, order: Order, s: Workspace, batches: Batches)
    requires Reorders(order) && Sound(s) && UnmarkedBatches(batches)
    ensures
      var after := CommitAll(SourceRules(lower), order, s, batches);
      && Sound(after) && Users(after.file) == Users(s.file)
      && match LastWritten(SourceRules(lower), order, s, batches)
         case None => after.file == s.file
         case Some(written) => Shown(after.file) == Users(s.file) + Meant(Placed(written))
    decreases |batches|
  {
    if batches != [] {
      var n := |batches| - 1;
      FileShowsLastWritten(lower, order, s, batches[..n]);
      hide Users, Shown, Meant, Placed, Sound, UnmarkedObservation, PromotedMemory, Commit;
      CommitShows(lower, order, CommitAll(SourceRules(lower), order, s, batches[..n]), batches[n]);
    }
  }

  /** The file's bullets are the user's own and those of the memory entries promoted now. */
  ghost predicate InStep(s: Workspace) {
    Shown(s.file) == Users(s.file) + Meant(Placed(PromotedMemory(s.ledger)))
  }

  /** Once a file was written it is in step with the ledger if and only if some memory entry is still promoted,
      or nothing was shown of those written last. */
  lemma {:induction false} InStepIff(lower: string -> string, order: Order, s: Workspace, batches: Batches)
    requires Reorders(order) && Sound(s) && UnmarkedBatches(batches)
    requires LastWritten(SourceRules(lower), order, s, batches).Some?
    ensures
      var after := CommitAll(SourceRules(lower), order, s, batches);
      var written := LastWritten(SourceRules(lower), order, s, batches).value;
      InStep(after) <==> PromotedMemory(after.ledger) != [] || Meant(Placed(written)) == multiset{}
  {
    var after := CommitAll(SourceRules(lower), order, s, batches);
    var written := LastWritten(SourceRules(lower), order, s, batches).value;
    FileShowsLastWritten(lower, order, s, batches);
    NothingMeant();
    hide Users, Shown, Meant, Placed, Sound, PromotedMemory, CommitAll;
    var users, meant := Users(s.file), Meant(Placed(written));
    assert users + meant == users ==> meant == multiset{} by { assert users + meant - users == meant; }
  }

  lemma {:induction false} NothingMeant()
    ensures Meant(Placed([])) == multiset{}
  {
  }

  // --- a file that falls behind ---

  /** A preference about something, stated or guessed. */
  function Preference(source: Source, summary: string, text: string): Observation {
    Observation(PreferenceOrFact, source, Preferences, None, summary, text, 1.0)
  }

  function StatedThenGuessed(summary: string, first: string, second: string): Batches {
    [Batch([Preference(Explicit, summary, first)], 0, ["1"]), Batch([Preference(Inferred, summary, second)], 1, ["2"])]
  }

  lemma {:induction false} ApplyOne(rules: Rules, ledger: Ledger, o: Observation, now: int, id: string)
    ensures ApplyAll(rules, ledger, [o], now, [id]) == Upsert(rules, ledger, o, now, id)
  {
    assert [o][..0] == [] && [id][..0] == [];
  }

  /** The guess supersedes what was stated, and is itself only a candidate. */
  lemma {:induction false} GuessSupersedes(rules: Rules, summary: string, first: string, second: string)
    requires Idempotent(rules) && rules.normalize(first) != rules.normalize(second)
    ensures
      var o1, o2 := Preference(Explicit, summary, first), Preference(Inferred, summary, second);
      var e1, e2 := New(rules, o1, 0, "1"), New(rules, o2, 1, "2");
      && Upsert(rules, [], o1, 0, "1") == [e1]
      && Upsert(rules, [e1], o2, 1, "2") == [e1.(status := Superseded, lastSeen := 1), e2]
  {
    var o1, o2 := Preference(Explicit, summary, first), Preference(Inferred, summary, second);
    var e1 := New(rules, o1, 0, "1");
    NewHasKey(rules, o1, 0, "1");
    assert !IsExact(rules, e1, o2);
    assert [e1][1..] == [];
    assert ExactIndex(rules, [e1], o2) == 1;
    assert Retire(rules, e1, ObservedKey(rules, o2), 1) == e1.(status := Superseded, lastSeen := 1);
  }

  lemma {:induction false} PickOne(e: Entry)
    ensures PromotedMemory([e]) == if IsPromotedMemory(e) then [e] else []
    ensures Placed([e]) == if HasPlace(e) then [e] else []
  {
    assert [e][1..] == [];
    assert PromotedMemory([e]) == (if IsPromotedMemory(e) then [e] else []) + PromotedMemory([]);
    assert Placed([e]) == (if HasPlace(e) then [e] else []) + Placed([]);
  }

  lemma {:induction false} PickNeither(a: Entry, b: Entry)
    requires !IsPromotedMemory(a) && !IsPromotedMemory(b)
    ensures PromotedMemory([a, b]) == []
  {
    PickOne(b);
    assert [a, b][1..] == [b];
    hide IsPromotedMemory;
  }

  lemma {:induction false} OneLineMeans(e: Entry)
    requires OneLine(e.text) && TrimEnd(e.text) != ""
    ensures Meant([e]) == multiset{"- " + TrimEnd(e.text)}
  {
    SplitOneLine(e.text);
    EntryBulletsAre(e);
    BagOne(EntryBullets, e);
    hide EntryBullets, Meant, TrimEnd, SplitLines;
    assert MoreLines(e) == [];
    hide MoreLines;
    assert MoreBullets(e) == [];
  }

  lemma {:induction false} NobodysFile()
    ensures NoStrayMarkers(MISSING) && Users(MISSING) == multiset{}
  {
    MarkersAreLike();
    TitleWithout(MISSING, MARKERS.start);
    TitleWithout(MISSING, MARKERS.end);
    NoBlock(MISSING);
    NoBullets();
    BreakBehindShows("");
    assert "" + "\n" == MISSING;
  }

  /** The first file written for one promoted preference. */
  lemma {:induction false} FirstIsShown(order: Order, e: Entry)
    requires Reorders(order) && e.category.Preferences? && IsPromotedMemory(e) && UnmarkedEntry(e, MARKERS.end)
    requires OneLine(e.text) && TrimEnd(e.text) != ""
    ensures
      var file := Merge(MARKERS, MISSING, RenderMemory(order, PromotedMemory([e])));
      Shown(file) == multiset{"- " + TrimEnd(e.text)} && Users(file) == multiset{}
  {
    assert HasPlace(e);
    hide Users, Shown, Meant, Placed, PromotedMemory, NoStrayMarkers, Merge, RenderMemory, TrimEnd, IndexOf, HasPlace,
         Reorders, UnmarkedEntry, ProjectName, OneLine;
    NobodysFile();
    PickOne(e);
    OneLineMeans(e);
    WriteShows(order, MISSING, [e]);
  }

  lemma {:induction false} CommitTwo(rules: Rules, order: Order, s: Workspace, a: Batch, b: Batch)
    requires |a.ids| == |a.observations| && |b.ids| == |b.observations|
    ensures CommitAll(rules, order, s, [a, b]) == Commit(rules, order, Commit(rules, order, s, a), b)
  {
    hide Commit;
    assert [a, b][..1] == [a] && [a][..0] == [];
    assert CommitAll(rules, order, s, [a]) == Commit(rules, order, s, a);
  }

  lemma {:induction false} AfterTheGuess(rules: Rules, order: Order, summary: string, first: string, second: string)
    requires Idempotent(rules) && rules.normalize(first) != rules.normalize(second)
    ensures
      var o1, o2 := Preference(Explicit, summary, first), Preference(Inferred, summary, second);
      var e1, e2 := New(rules, o1, 0, "1"), New(rules, o2, 1, "2");
      CommitAll(rules, order, Workspace([], MISSING), StatedThenGuessed(summary, first, second))
      == Workspace([e1.(status := Superseded, lastSeen := 1), e2], Merge(MARKERS, MISSING, RenderMemory(order, [e1])))
  {
    var o1, o2 := Preference(Explicit, summary, first), Preference(Inferred, summary, second);
    var e1, e2 := New(rules, o1, 0, "1"), New(rules, o2, 1, "2");
    assert IsPromotedMemory(e1) && !IsPromotedMemory(e2);
    GuessSupersedes(rules, summary, first, second);
    hide New, Upsert, ApplyAll, CommitAll, PromotedMemory, Merge, RenderMemory, Preference, Idempotent;
    ApplyOne(rules, [], o1, 0, "1");
    ApplyOne(rules, [e1], o2, 1, "2");
    PickOne(e1);
    PickNeither(e1.(status := Superseded, lastSeen := 1), e2);
    CommitTwo(rules, order, Workspace([], MISSING), Batch([o1], 0, ["1"]), Batch([o2], 1, ["2"]));
  }

  lemma {:induction false} NewPreference(rules: Rules, source: Source, summary: string, text: string, now: int,
                                         id: string)
    ensures
      var e := New(rules, Preference(source, summary, text), now, id);
      && e.status == (if source.Explicit? then Promoted else Candidate)
      && e.target.Memory? && e.category.Preferences? && e.text == text
      && (IndexOf(text, MARKERS.end) < 0 ==> UnmarkedEntry(e, MARKERS.end))
  {
    NobodysName(New(rules, Preference(source, summary, text), now, id));
    hide IndexOf, ProjectName;
  }

  /** The file still shows the entry, and no memory entry is promoted. */
  lemma {:induction false} BehindTheLedger(order: Order, e1: Entry, ledger: Ledger)
    requires Reorders(order) && e1.category.Preferences? && IsPromotedMemory(e1) && UnmarkedEntry(e1, MARKERS.end)
    requires OneLine(e1.text) && TrimEnd(e1.text) != "" && PromotedMemory(ledger) == []
    ensures
      var s := Workspace(ledger, Merge(MARKERS, MISSING, RenderMemory(order, [e1])));
      Shown(s.file) == multiset{"- " + TrimEnd(e1.text)} && !InStep(s)
  {
    hide Users, Shown, Meant, Placed, PromotedMemory, Merge, RenderMemory, TrimEnd, IsPromotedMemory, UnmarkedEntry,
         OneLine, Reorders;
    PickOne(e1);
    NothingMeant();
    FirstIsShown(order, e1);
  }

  /** A preference is stated, and then another is guessed under the same summary. The first is superseded, the
      guess is not promoted, and the file still shows the first. */
  lemma {:induction false} GuessLeavesTheFileBehind(lower: string -> string, order: Order, summary: string,
                                                    first: string, second: string)
    requires Reorders(order) && NormalizeText(first) != NormalizeText(second)
    requires OneLine(first) && TrimEnd(first) != "" && IndexOf(first, MARKERS.end) < 0
    ensures
      var batches := StatedThenGuessed(summary, first, second);
      var after := CommitAll(SourceRules(lower), order, Workspace([], MISSING), batches);
      && |after.ledger| == 2 && after.ledger[0].status.Superseded? && after.ledger[1].status.Candidate?
      && Shown(after.file) == multiset{"- " + TrimEnd(first)} && !InStep(after)
  {
    var rules := SourceRules(lower);
    var e1 := New(rules, Preference(Explicit, summary, first), 0, "1");
    var e2 := New(rules, Preference(Inferred, summary, second), 1, "2");
    hide New, Upsert, CommitAll, Shown, PromotedMemory, Merge, RenderMemory, TrimEnd, InStep, NormalizeText, IndexOf,
         Preference, OneLine, Idempotent, Reorders, UnmarkedEntry, StatedThenGuessed;
    SourceRulesIdempotent(lower);
    NewPreference(rules, Explicit, summary, first, 0, "1");
    NewPreference(rules, Inferred, summary, second, 1, "2");
    AfterTheGuess(rules, order, summary, first, second);
    PickNeither(e1.(status := Superseded, lastSeen := 1), e2);
    BehindTheLedger(order, e1, [e1.(status := Superseded, lastSeen := 1), e2]);
  }

  lemma {:induction false} NobodysName(e: Entry)
    requires e.project.None?
    ensures IndexOf(ProjectName(e), MARKERS.end) < 0
  {
    NothingOccurs(MARKERS.end);
    MarkersAreLike();
    NotFoundIsWithout("", MARKERS.end);
  }
}
