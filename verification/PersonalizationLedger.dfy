/** Observations about how the user works, counted and promoted in a ledger. */
module PersonalizationLedger {
  import opened Prelude
  import Text

  datatype Kind = OperatingRule | PreferenceOrFact

  datatype Source = Explicit | Inferred

  datatype Category =
    | Workflow | ReplyStyle | Priority | Terminology | ProjectOverview | MembersAndRoles
    | RoadmapAndMilestones | PeopleAndProjects | Preferences | Context

  datatype Status = Candidate | Promoted | Rejected | Superseded

  datatype Target = Agents | Memory

  datatype Observation = Observation(kind: Kind, source: Source, category: Category, project: Option<string>,
                                     summary: string, text: string, confidence: real)

  datatype Entry = Entry(id: string, kind: Kind, source: Source, category: Category, project: Option<string>,
                         summary: string, text: string, confidence: real, evidence: nat, lastSeen: int,
                         status: Status, target: Target)

  type Ledger = seq<Entry>

  /** White-space normalization and lower-casing, as functions on text. */
  datatype Rules = Rules(normalize: string -> string, lower: string -> string)

  ghost predicate Idempotent(rules: Rules) {
    forall s :: rules.normalize(rules.normalize(s)) == rules.normalize(s)
  }

  /** The rules of the source; lower-casing stays arbitrary. */
  function SourceRules(lower: string -> string): Rules {
    Rules((s: string) => Text.NormalizeText(s), lower)
  }

  lemma {:induction false} SourceRulesIdempotent(lower: string -> string)
    ensures Idempotent(SourceRules(lower))
  {
    var rules := SourceRules(lower);
    forall s ensures rules.normalize(rules.normalize(s)) == rules.normalize(s) {
      Text.NormalizeIsIdempotent(s);
    }
  }

  const EVIDENCE_COUNT := 2
  const CONFIDENCE := 0.8

  // --- observation keys ---

  function TargetOf(kind: Kind): Target {
    if kind.OperatingRule? then Agents else Memory
  }

  function TargetName(target: Target): string {
    if target.Agents? then "agents" else "memory"
  }

  function CategoryName(category: Category): string {
    match category
    case Workflow => "workflow"
    case ReplyStyle => "reply-style"
    case Priority => "priority"
    case Terminology => "terminology"
    case ProjectOverview => "project-overview"
    case MembersAndRoles => "members-and-roles"
    case RoadmapAndMilestones => "roadmap-and-milestones"
    case PeopleAndProjects => "project-overview"
    case Preferences => "preferences"
    case Context => "context"
  }

  /** The normalized project name, or the empty text when there is none. */
  function ProjectPart(rules: Rules, project: Option<string>): string {
    match project
    case None => ""
    case Some(name) => if name == "" then "" else rules.normalize(name)
  }

  function NormalizedProject(rules: Rules, project: Option<string>): Option<string> {
    if ProjectPart(rules, project) == "" then None else Some(ProjectPart(rules, project))
  }

  function Key(rules: Rules, target: Target, category: Category, project: Option<string>, summary: string): string {
    TargetName(target) + ":" + (CategoryName(category) + ":"
    + (ProjectPart(rules, project) + ":" + rules.lower(rules.normalize(summary))))
  }

  function EntryKey(rules: Rules, e: Entry): string {
    Key(rules, e.target, e.category, e.project, e.summary)
  }

  function ObservedKey(rules: Rules, o: Observation): string {
    Key(rules, TargetOf(o.kind), o.category, o.project, o.summary)
  }

  predicate IsLive(e: Entry) {
    e.status.Candidate? || e.status.Promoted?
  }

  predicate HasKey(rules: Rules, e: Entry, key: string) {
    IsLive(e) && EntryKey(rules, e) == key
  }

  predicate IsExact(rules: Rules, e: Entry, o: Observation) {
    HasKey(rules, e, ObservedKey(rules, o)) && rules.normalize(e.text) == rules.normalize(o.text)
  }

  // --- one observation ---

  predicate MeetsBar(source: Source, evidence: nat, confidence: real) {
    source.Explicit? || (evidence >= EVIDENCE_COUNT && confidence >= CONFIDENCE)
  }

  function Max(a: real, b: real): real {
    if a >= b then a else b
  }

  /** The status of a live entry once it has been seen again. */
  function SeenStatus(e: Entry, source: Source, evidence: nat, confidence: real): Status {
    if e.status.Candidate? && MeetsBar(source, evidence, confidence) then Promoted else e.status
  }

  /** An entry whose text was observed again. */
  function Seen(rules: Rules, e: Entry, o: Observation, now: int): Entry {
    var source := if o.source.Explicit? then Explicit else e.source;
    var confidence := Max(e.confidence, o.confidence);
    var project := if ProjectPart(rules, o.project) == "" then e.project else NormalizedProject(rules, o.project);
    Entry(e.id, e.kind, source, e.category, project, e.summary, e.text, confidence, e.evidence + 1, now,
          SeenStatus(e, source, e.evidence + 1, confidence), e.target)
  }

  /** An entry for a text that was not observed before. */
  function New(rules: Rules, o: Observation, now: int, id: string): Entry {
    Entry(id, o.kind, o.source, o.category, NormalizedProject(rules, o.project), o.summary, o.text, o.confidence, 1,
          now, if o.source.Explicit? then Promoted else Candidate, TargetOf(o.kind))
  }

  function Retire(rules: Rules, e: Entry, key: string, now: int): Entry {
    if HasKey(rules, e, key) then
      Entry(e.id, e.kind, e.source, e.category, e.project, e.summary, e.text, e.confidence, e.evidence, now,
            Superseded, e.target)
    else e
  }

  function RetireAll(rules: Rules, ledger: Ledger, key: string, now: int): Ledger {
    seq(|ledger|, i requires 0 <= i < |ledger| => Retire(rules, ledger[i], key, now))
  }

  /** The first live entry with the observation's key and text, or the length of the ledger. */
  function ExactIndex(rules: Rules, ledger: Ledger, o: Observation): (i: nat)
    ensures i <= |ledger|
    ensures i < |ledger| ==> IsExact(rules, ledger[i], o)
  {
    if ledger == [] || IsExact(rules, ledger[0], o) then 0 else 1 + ExactIndex(rules, ledger[1..], o)
  }

  function Upsert(rules: Rules, ledger: Ledger, o: Observation, now: int, id: string): Ledger {
    var i := ExactIndex(rules, ledger, o);
    if i < |ledger| then ledger[i := Seen(rules, ledger[i], o, now)]
    else RetireAll(rules, ledger, ObservedKey(rules, o), now) + [New(rules, o, now, id)]
  }

  // --- what one observation keeps ---

  /** No entry is promoted without an explicit statement or enough evidence. */
  ghost predicate PromotionsEarned(ledger: Ledger) {
    forall i :: 0 <= i < |ledger| && ledger[i].status.Promoted? ==>
      MeetsBar(ledger[i].source, ledger[i].evidence, ledger[i].confidence)
  }

  ghost predicate OnePerKey(rules: Rules, ledger: Ledger) {
    forall i, j :: 0 <= i < j < |ledger| && IsLive(ledger[i]) && IsLive(ledger[j]) ==>
      EntryKey(rules, ledger[i]) != EntryKey(rules, ledger[j])
  }

  function TotalEvidence(ledger: Ledger): nat {
    if ledger == [] then 0 else TotalEvidence(ledger[..|ledger| - 1]) + ledger[|ledger| - 1].evidence
  }

  lemma {:induction false} EvidenceAt(ledger: Ledger, i: nat, e: Entry)
    requires i < |ledger|
    ensures TotalEvidence(ledger[i := e]) == TotalEvidence(ledger) - ledger[i].evidence + e.evidence
    decreases |ledger|
  {
    var n := |ledger| - 1;
    if i < n {
      assert ledger[i := e][..n] == ledger[..n][i := e];
      EvidenceAt(ledger[..n], i, e);
    } else {
      assert ledger[i := e][..n] == ledger[..n];
    }
  }

  lemma {:induction false} EvidenceRetired(rules: Rules, ledger: Ledger, key: string, now: int)
    ensures TotalEvidence(RetireAll(rules, ledger, key, now)) == TotalEvidence(ledger)
  {
    if ledger != [] {
      var n := |ledger| - 1;
      EvidenceRetired(rules, ledger[..n], key, now);
      assert RetireAll(rules, ledger, key, now)[..n] == RetireAll(rules, ledger[..n], key, now);
    }
  }

  /** Every observation adds exactly one piece of evidence. */
  lemma {:induction false} OneMoreEvidence(rules: Rules, ledger: Ledger, o: Observation, now: int, id: string)
    ensures TotalEvidence(Upsert(rules, ledger, o, now, id)) == TotalEvidence(ledger) + 1
  {
    var i := ExactIndex(rules, ledger, o);
    if i < |ledger| {
      EvidenceAt(ledger, i, Seen(rules, ledger[i], o, now));
    } else {
      var key := ObservedKey(rules, o);
      EvidenceRetired(rules, ledger, key, now);
      var retired := RetireAll(rules, ledger, key, now);
      assert (retired + [New(rules, o, now, id)])[..|retired|] == retired;
    }
  }

  lemma {:induction false} PromotionsStayEarned(rules: Rules, ledger: Ledger, o: Observation, now: int, id: string)
    requires PromotionsEarned(ledger)
    ensures PromotionsEarned(Upsert(rules, ledger, o, now, id))
  {
  }

  /** A superseded or rejected entry is never touched again; ids and texts of all entries stay. */
  lemma {:induction false} ClosedStaysClosed(rules: Rules, ledger: Ledger, o: Observation, now: int, id: string, i: nat)
    requires i < |ledger|
    ensures
      var after := Upsert(rules, ledger, o, now, id);
      && i < |after| && after[i].id == ledger[i].id && after[i].text == ledger[i].text
      && (!IsLive(ledger[i]) ==> after[i] == ledger[i])
  {
  }

  // --- one live entry per key ---

  /** A live entry other than the i-th has the key. */
  predicate TakenByOther(rules: Rules, ledger: Ledger, i: nat, key: string) {
    exists j :: 0 <= j < |ledger| && j != i && HasKey(rules, ledger[j], key)
  }

  /**
   * The observation relabels the entry it repeats so that it gets the key of another live entry:
   * what a caller can look for before the call.
   */
  predicate Clashes(rules: Rules, ledger: Ledger, o: Observation, now: int) {
    var i := ExactIndex(rules, ledger, o);
    i < |ledger| && TakenByOther(rules, ledger, i, EntryKey(rules, Seen(rules, ledger[i], o, now)))
  }

  lemma {:induction false} NewHasKey(rules: Rules, o: Observation, now: int, id: string)
    requires Idempotent(rules)
    ensures EntryKey(rules, New(rules, o, now, id)) == ObservedKey(rules, o)
  {
    var part := ProjectPart(rules, o.project);
    assert part != "" ==> rules.normalize(part) == part;
  }

  /** The keys of live entries stay distinct exactly when the observation does not clash. */
  lemma {:induction false} OnePerKeyIff(rules: Rules, ledger: Ledger, o: Observation, now: int, id: string)
    requires Idempotent(rules) && OnePerKey(rules, ledger)
    ensures OnePerKey(rules, Upsert(rules, ledger, o, now, id)) <==> !Clashes(rules, ledger, o, now)
  {
    var i := ExactIndex(rules, ledger, o);
    if i < |ledger| {
      RelabelIff(rules, ledger, i, Seen(rules, ledger[i], o, now));
    } else {
      NewHasKey(rules, o, now, id);
    }
  }

  lemma {:induction false} RelabelIff(rules: Rules, ledger: Ledger, i: nat, e: Entry)
    requires OnePerKey(rules, ledger) && i < |ledger| && IsLive(e)
    ensures OnePerKey(rules, ledger[i := e])
       <==> !TakenByOther(rules, ledger, i, EntryKey(rules, e))
  {
    var after := ledger[i := e];
    assert forall j :: 0 <= j < |ledger| && j != i ==> after[j] == ledger[j];
    if TakenByOther(rules, ledger, i, EntryKey(rules, e)) {
      var j :| 0 <= j < |ledger| && j != i && HasKey(rules, ledger[j], EntryKey(rules, e));
      assert after[j] == ledger[j] && after[i] == e;
    }
  }

  // --- when keys cannot be confused ---

  predicate NoColon(s: string) {
    ':' !in s
  }

  ghost predicate PlainProject(rules: Rules, project: Option<string>) {
    NoColon(ProjectPart(rules, project))
  }

  ghost predicate PlainProjects(rules: Rules, ledger: Ledger) {
    forall i :: 0 <= i < |ledger| ==> PlainProject(rules, ledger[i].project)
  }

  lemma {:induction false} SplitAtColon(a: string, x: string, b: string, y: string)
    requires NoColon(a) && NoColon(b) && a + ":" + x == b + ":" + y
    ensures a == b && x == y
    decreases |a|
  {
    var s, t := a + ":" + x, b + ":" + y;
    if a == "" || b == "" {
      assert s[0] == t[0];
      assert a == "" && b == "" ==> s[1..] == x && t[1..] == y;
    } else {
      assert s[0] == a[0] && t[0] == b[0];
      assert s[1..] == a[1..] + ":" + x && t[1..] == b[1..] + ":" + y;
      SplitAtColon(a[1..], x, b[1..], y);
      assert a == [a[0]] + a[1..] && b == [b[0]] + b[1..];
    }
  }

  lemma {:induction false} NamesArePlain(target: Target, category: Category)
    ensures NoColon(TargetName(target)) && NoColon(CategoryName(category))
  {
    match category
    case Workflow =>
    case ReplyStyle =>
    case Priority =>
    case Terminology =>
    case ProjectOverview =>
    case MembersAndRoles =>
    case RoadmapAndMilestones =>
    case PeopleAndProjects =>
    case Preferences =>
    case Context =>
  }

  /** Without a colon in the project names, equal keys mean equal projects. */
  lemma {:induction false} KeysTellProjects(rules: Rules, e: Entry, o: Observation)
    requires EntryKey(rules, e) == ObservedKey(rules, o)
    requires PlainProject(rules, e.project) && PlainProject(rules, o.project)
    ensures ProjectPart(rules, e.project) == ProjectPart(rules, o.project)
  {
    NamesArePlain(e.target, e.category);
    NamesArePlain(TargetOf(o.kind), o.category);
    var p, q := ProjectPart(rules, e.project), ProjectPart(rules, o.project);
    var x, y := rules.lower(rules.normalize(e.summary)), rules.lower(rules.normalize(o.summary));
    SplitAtColon(TargetName(e.target), CategoryName(e.category) + ":" + (p + ":" + x),
                 TargetName(TargetOf(o.kind)), CategoryName(o.category) + ":" + (q + ":" + y));
    SplitAtColon(CategoryName(e.category), p + ":" + x, CategoryName(o.category), q + ":" + y);
    SplitAtColon(p, x, q, y);
  }

  lemma {:induction false} SeenKeepsKey(rules: Rules, e: Entry, o: Observation, now: int)
    requires Idempotent(rules) && EntryKey(rules, e) == ObservedKey(rules, o)
    requires PlainProject(rules, e.project) && PlainProject(rules, o.project)
    ensures EntryKey(rules, Seen(rules, e, o, now)) == EntryKey(rules, e)
    ensures PlainProject(rules, Seen(rules, e, o, now).project)
  {
    KeysTellProjects(rules, e, o);
    var part := ProjectPart(rules, o.project);
    assert part != "" ==> rules.normalize(part) == part;
  }

  /**
   * With colon-free project names no observation clashes, and afterwards exactly one live entry
   * has the observation's key: the one with its text.
   */
  lemma {:induction false} LatestTextIsLive(rules: Rules, ledger: Ledger, o: Observation, now: int, id: string)
    returns (k: nat)
    requires Idempotent(rules) && OnePerKey(rules, ledger)
    requires PlainProjects(rules, ledger) && PlainProject(rules, o.project)
    ensures !Clashes(rules, ledger, o, now)
    ensures
      var after := Upsert(rules, ledger, o, now, id);
      && OnePerKey(rules, after) && PlainProjects(rules, after)
      && k < |after| && IsExact(rules, after[k], o)
      && forall j :: 0 <= j < |after| && HasKey(rules, after[j], ObservedKey(rules, o)) ==> j == k
  {
    OnePerKeyIff(rules, ledger, o, now, id);
    k := ExactIndex(rules, ledger, o);
    if k < |ledger| {
      SeenKeepsKey(rules, ledger[k], o, now);
      OnlyLive(rules, ledger, k);
    } else {
      NewHasKey(rules, o, now, id);
      NewIsPlain(rules, o, now, id);
    }
    OneWithKey(rules, Upsert(rules, ledger, o, now, id), k);
  }

  lemma {:induction false} NewIsPlain(rules: Rules, o: Observation, now: int, id: string)
    requires Idempotent(rules) && PlainProject(rules, o.project)
    ensures PlainProject(rules, New(rules, o, now, id).project)
  {
    var part := ProjectPart(rules, o.project);
    assert part != "" ==> rules.normalize(part) == part;
  }

  lemma {:induction false} OnlyLive(rules: Rules, ledger: Ledger, k: nat)
    requires OnePerKey(rules, ledger) && k < |ledger| && IsLive(ledger[k])
    ensures forall j :: 0 <= j < |ledger| && j != k && IsLive(ledger[j]) ==>
      EntryKey(rules, ledger[j]) != EntryKey(rules, ledger[k])
  {
  }

  lemma {:induction false} OneWithKey(rules: Rules, ledger: Ledger, k: nat)
    requires OnePerKey(rules, ledger) && k < |ledger| && IsLive(ledger[k])
    ensures forall j :: 0 <= j < |ledger| && HasKey(rules, ledger[j], EntryKey(rules, ledger[k])) ==> j == k
  {
  }

  // --- lists of observations ---

  function ApplyAll(rules: Rules, ledger: Ledger, observations: seq<Observation>, now: int, ids: seq<string>): Ledger
    requires |ids| == |observations|
    decreases |observations|
  {
    if observations == [] then ledger else
      var n := |observations| - 1;
      Upsert(rules, ApplyAll(rules, ledger, observations[..n], now, ids[..n]), observations[n], now, ids[n])
  }

  /** Evidence counts observations, and promotions are earned, after any list of observations. */
  lemma {:induction false} RunKeeps(rules: Rules, ledger: Ledger, observations: seq<Observation>, now: int,
                                    ids: seq<string>)
    requires |ids| == |observations| && PromotionsEarned(ledger)
    ensures
      var after := ApplyAll(rules, ledger, observations, now, ids);
      && PromotionsEarned(after)
      && TotalEvidence(after) == TotalEvidence(ledger) + |observations|
    decreases |observations|
  {
    if observations != [] {
      var n := |observations| - 1;
      var before := ApplyAll(rules, ledger, observations[..n], now, ids[..n]);
      RunKeeps(rules, ledger, observations[..n], now, ids[..n]);
      PromotionsStayEarned(rules, before, observations[n], now, ids[n]);
      OneMoreEvidence(rules, before, observations[n], now, ids[n]);
    }
  }

  /** A superseded or rejected entry is still the same after any list of observations. */
  lemma {:induction false} ClosedNeverComesBack(rules: Rules, ledger: Ledger, observations: seq<Observation>, now: int,
                                                ids: seq<string>, i: nat)
    requires |ids| == |observations| && i < |ledger|
    ensures
      var after := ApplyAll(rules, ledger, observations, now, ids);
      i < |after| && after[i].id == ledger[i].id && (!IsLive(ledger[i]) ==> after[i] == ledger[i])
    decreases |observations|
  {
    if observations != [] {
      var n := |observations| - 1;
      var before := ApplyAll(rules, ledger, observations[..n], now, ids[..n]);
      ClosedNeverComesBack(rules, ledger, observations[..n], now, ids[..n], i);
      ClosedStaysClosed(rules, before, observations[n], now, ids[n], i);
    }
  }

  ghost predicate PlainObservations(rules: Rules, observations: seq<Observation>) {
    forall i :: 0 <= i < |observations| ==> PlainProject(rules, observations[i].project)
  }

  /** With colon-free project names any list of observations keeps one live entry per key. */
  lemma {:induction false} RunKeepsOnePerKey(rules: Rules, ledger: Ledger, observations: seq<Observation>, now: int,
                                             ids: seq<string>)
    requires |ids| == |observations| && Idempotent(rules)
    requires OnePerKey(rules, ledger) && PlainProjects(rules, ledger) && PlainObservations(rules, observations)
    ensures
      var after := ApplyAll(rules, ledger, observations, now, ids);
      OnePerKey(rules, after) && PlainProjects(rules, after)
    decreases |observations|
  {
    if observations != [] {
      var n := |observations| - 1;
      var before := ApplyAll(rules, ledger, observations[..n], now, ids[..n]);
      RunKeepsOnePerKey(rules, ledger, observations[..n], now, ids[..n]);
      var k := LatestTextIsLive(rules, before, observations[n], now, ids[n]);
    }
  }

  // --- what a batch reports as promoted ---

  /** The entry an observation touched: the one it repeats, or the new one at the end. */
  function Touched(rules: Rules, ledger: Ledger, o: Observation, now: int, id: string): Entry {
    var i := ExactIndex(rules, ledger, o);
    if i < |ledger| then Seen(rules, ledger[i], o, now) else New(rules, o, now, id)
  }

  /** The ids reported by a batch: entries promoted at the moment one of its observations touched them. */
  function Reported(rules: Rules, ledger: Ledger, observations: seq<Observation>, now: int, ids: seq<string>): set<string>
    requires |ids| == |observations|
    decreases |observations|
  {
    if observations == [] then {} else
      var n := |observations| - 1;
      var touched := Touched(rules, ApplyAll(rules, ledger, observations[..n], now, ids[..n]), observations[n], now, ids[n]);
      Reported(rules, ledger, observations[..n], now, ids[..n])
      + (if touched.status.Promoted? then {touched.id} else {})
  }

  /** A batch that states one thing and then another under the same key reports both as promoted. */
  lemma {:induction false} ReportsSupersededToo(rules: Rules, project: string, summary: string, first: string,
                                                second: string, now: int, id1: string, id2: string)
    requires Idempotent(rules) && rules.normalize(first) != rules.normalize(second)
    ensures
      var observations := [Stated(project, summary, first), Stated(project, summary, second)];
      var after := ApplyAll(rules, [], observations, now, [id1, id2]);
      && |after| == 2 && after[0].id == id1 && after[0].status == Superseded && after[1].status == Promoted
      && Reported(rules, [], observations, now, [id1, id2]) == {id1, id2}
  {
    var o1, o2 := Stated(project, summary, first), Stated(project, summary, second);
    var observations, ids := [o1, o2], [id1, id2];
    var e1, e2 := New(rules, o1, now, id1), New(rules, o2, now, id2);
    assert observations[..1] == [o1] && ids[..1] == [id1];
    assert [o1][..0] == [] && [id1][..0] == [];
    assert ApplyAll(rules, [], [o1], now, [id1]) == Upsert(rules, [], o1, now, id1) == [e1];
    NewHasKey(rules, o1, now, id1);
    assert !IsExact(rules, e1, o2);
    assert [e1][1..] == [];
    assert ExactIndex(rules, [e1], o2) == 1;
    assert ApplyAll(rules, [], observations, now, ids) == Upsert(rules, [e1], o2, now, id2);
    assert Reported(rules, [], [o1], now, [id1]) == {id1};
    assert Touched(rules, [e1], o2, now, id2) == e2;
  }

  lemma {:induction false} ExactIndexEarned(rules: Rules, ledger: Ledger, o: Observation)
    requires PromotionsEarned(ledger) && ExactIndex(rules, ledger, o) < |ledger|
    ensures
      var e := ledger[ExactIndex(rules, ledger, o)];
      IsLive(e) && (e.status.Promoted? ==> MeetsBar(e.source, e.evidence, e.confidence))
  {
    assert IsExact(rules, ledger[ExactIndex(rules, ledger, o)], o);
  }

  /** The entry an observation touches ends up promoted exactly when it is explicit or has enough evidence. */
  lemma {:induction false} TouchedIsPromotedIff(rules: Rules, ledger: Ledger, o: Observation, now: int, id: string)
    requires PromotionsEarned(ledger)
    ensures
      var touched := Touched(rules, ledger, o, now, id);
      && touched in Upsert(rules, ledger, o, now, id)
      && (touched.status.Promoted? <==> MeetsBar(touched.source, touched.evidence, touched.confidence))
  {
    var i := ExactIndex(rules, ledger, o);
    var after := Upsert(rules, ledger, o, now, id);
    if i < |ledger| {
      ExactIndexEarned(rules, ledger, o);
      assert after[i] == Seen(rules, ledger[i], o, now);
    } else {
      assert after[|ledger|] == New(rules, o, now, id);
    }
  }

  // --- what an observation does to the entry it repeats, to a new entry, and to the others ---

  /** An entry after it was observed again, said of the entry before and the observation. */
  ghost predicate Repeated(rules: Rules, before: Entry, o: Observation, now: int, after: Entry) {
    && after.id == before.id && after.kind == before.kind && after.category == before.category
    && after.summary == before.summary && after.text == before.text && after.target == before.target
    && after.evidence == before.evidence + 1 && after.lastSeen == now
    && (after.source.Explicit? <==> before.source.Explicit? || o.source.Explicit?)
    && after.confidence >= before.confidence && after.confidence >= o.confidence
    && (after.confidence == before.confidence || after.confidence == o.confidence)
    && (o.project.Some? && o.project.value != "" && rules.normalize(o.project.value) != "" ==>
          after.project == Some(rules.normalize(o.project.value)))
    && (o.project.None? || o.project.value == "" || rules.normalize(o.project.value) == "" ==>
          after.project == before.project)
    && (after.status.Promoted? <==>
          || before.status.Promoted? || before.source.Explicit? || o.source.Explicit?
          || (before.evidence >= 1 && (before.confidence >= 0.8 || o.confidence >= 0.8)))
    && (!after.status.Promoted? ==> after.status == before.status)
  }

  /** A new entry, said of the observation. */
  ghost predicate Noted(rules: Rules, o: Observation, now: int, id: string, e: Entry) {
    && e.id == id && e.kind == o.kind && e.source == o.source && e.category == o.category
    && e.summary == o.summary && e.text == o.text && e.confidence == o.confidence
    && e.evidence == 1 && e.lastSeen == now
    && (e.target.Memory? <==> o.kind.PreferenceOrFact?)
    && e.project == (if o.project.Some? && o.project.value != "" && rules.normalize(o.project.value) != ""
                     then Some(rules.normalize(o.project.value)) else None)
    && e.status == if o.source.Explicit? then Promoted else Candidate
  }

  /** A live entry about the same thing: same file, category and project, and the same summary in lower case.
      people-and-projects counts as project-overview. */
  ghost predicate SameThing(rules: Rules, e: Entry, o: Observation) {
    && (e.status.Candidate? || e.status.Promoted?)
    && (e.target.Memory? <==> o.kind.PreferenceOrFact?)
    && (e.category == o.category || {e.category, o.category} == {ProjectOverview, PeopleAndProjects})
    && ProjectPart(rules, e.project) == ProjectPart(rules, o.project)
    && rules.lower(rules.normalize(e.summary)) == rules.lower(rules.normalize(o.summary))
  }

  lemma {:induction false} CategoryNames(a: Category, b: Category)
    ensures CategoryName(a) == CategoryName(b) <==> a == b || {a, b} == {ProjectOverview, PeopleAndProjects}
  {
    FirstLetters(a);
    FirstLetters(b);
  }

  /** Different names differ in their length or in one of two letters. */
  lemma {:induction false} FirstLetters(a: Category)
    ensures var n := CategoryName(a);
            match a
            case Workflow => |n| == 8 && n[0] == 'w'
            case ReplyStyle => |n| == 11 && n[0] == 'r'
            case Priority => |n| == 8 && n[0] == 'p'
            case Terminology => |n| == 11 && n[0] == 't'
            case ProjectOverview => |n| == 16 && n[0] == 'p'
            case MembersAndRoles => |n| == 17 && n[0] == 'm'
            case RoadmapAndMilestones => |n| == 22 && n[0] == 'r'
            case PeopleAndProjects => n == CategoryName(ProjectOverview) && |n| == 16 && n[0] == 'p'
            case Preferences => |n| == 11 && n[0] == 'p'
            case Context => |n| == 7 && n[0] == 'c'
  {
  }

  lemma {:induction false} JoinedKeys(t1: string, c1: string, p1: string, x1: string,
                                      t2: string, c2: string, p2: string, x2: string)
    requires NoColon(t1) && NoColon(c1) && NoColon(p1) && NoColon(t2) && NoColon(c2) && NoColon(p2)
    ensures t1 + ":" + (c1 + ":" + (p1 + ":" + x1)) == t2 + ":" + (c2 + ":" + (p2 + ":" + x2))
       <==> t1 == t2 && c1 == c2 && p1 == p2 && x1 == x2
  {
    var y1, y2 := p1 + ":" + x1, p2 + ":" + x2;
    var z1, z2 := c1 + ":" + y1, c2 + ":" + y2;
    if t1 + ":" + z1 == t2 + ":" + z2 {
      SplitAtColon(t1, z1, t2, z2);
      SplitAtColon(c1, y1, c2, y2);
      SplitAtColon(p1, x1, p2, x2);
    }
  }

  /** Without colons in project names, equal keys mean the same thing. */
  lemma {:induction false} SameKeyIff(rules: Rules, e: Entry, o: Observation)
    requires PlainProject(rules, e.project) && PlainProject(rules, o.project)
    ensures HasKey(rules, e, ObservedKey(rules, o)) <==> SameThing(rules, e, o)
  {
    NamesArePlain(e.target, e.category);
    NamesArePlain(TargetOf(o.kind), o.category);
    CategoryNames(e.category, o.category);
    assert TargetName(e.target) == TargetName(TargetOf(o.kind)) <==> (e.target.Memory? <==> o.kind.PreferenceOrFact?) by {
      assert |TargetName(Agents)| == 6 && TargetName(Agents)[0] == 'a' && TargetName(Memory)[0] == 'm';
    }
    hide CategoryName, TargetName, ProjectPart;
    JoinedKeys(TargetName(e.target), CategoryName(e.category), ProjectPart(rules, e.project),
               rules.lower(rules.normalize(e.summary)),
               TargetName(TargetOf(o.kind)), CategoryName(o.category), ProjectPart(rules, o.project),
               rules.lower(rules.normalize(o.summary)));
  }

  /** What one observation does. It repeats the first live entry about the same thing whose text is the same, and
      leaves all others as they are; or else it adds an entry and supersedes every live one about that thing. */
  ghost predicate Observed(rules: Rules, ledger: Ledger, o: Observation, now: int, id: string, after: Ledger) {
    || (exists i :: 0 <= i < |ledger| && RepeatsAt(rules, ledger, o, now, after, i))
    || (&& (forall j :: 0 <= j < |ledger| ==> !SaysTheSame(rules, ledger[j], o))
        && |after| == |ledger| + 1 && Noted(rules, o, now, id, after[|ledger|])
        && forall j :: 0 <= j < |ledger| ==>
             after[j] == if SameThing(rules, ledger[j], o) then ledger[j].(status := Superseded, lastSeen := now)
                         else ledger[j])
  }

  ghost predicate SaysTheSame(rules: Rules, e: Entry, o: Observation) {
    SameThing(rules, e, o) && rules.normalize(e.text) == rules.normalize(o.text)
  }

  ghost predicate RepeatsAt(rules: Rules, ledger: Ledger, o: Observation, now: int, after: Ledger, i: int)
    requires 0 <= i < |ledger|
  {
    && |after| == |ledger| && SaysTheSame(rules, ledger[i], o) && Repeated(rules, ledger[i], o, now, after[i])
    && (forall j :: 0 <= j < i ==> !SaysTheSame(rules, ledger[j], o))
    && (forall j :: 0 <= j < |ledger| && j != i ==> after[j] == ledger[j])
  }

  lemma {:induction false} SeenIsRepeated(rules: Rules, e: Entry, o: Observation, now: int)
    requires IsLive(e)
    ensures Repeated(rules, e, o, now, Seen(rules, e, o, now))
  {
  }

  lemma {:induction false} NewIsNoted(rules: Rules, o: Observation, now: int, id: string)
    ensures Noted(rules, o, now, id, New(rules, o, now, id))
  {
  }

  lemma {:induction false} ExactIndexIsFirst(rules: Rules, ledger: Ledger, o: Observation)
    ensures forall j :: 0 <= j < ExactIndex(rules, ledger, o) ==> !IsExact(rules, ledger[j], o)
  {
    if ledger != [] && !IsExact(rules, ledger[0], o) {
      ExactIndexIsFirst(rules, ledger[1..], o);
    }
  }

  /** With colon-free project names an observation does exactly what it should. */
  lemma {:induction false} UpsertObserves(rules: Rules, ledger: Ledger, o: Observation, now: int, id: string)
    requires PlainProjects(rules, ledger) && PlainProject(rules, o.project)
    ensures Observed(rules, ledger, o, now, id, Upsert(rules, ledger, o, now, id))
  {
    var i, after := ExactIndex(rules, ledger, o), Upsert(rules, ledger, o, now, id);
    forall j | 0 <= j < |ledger|
      ensures HasKey(rules, ledger[j], ObservedKey(rules, o)) <==> SameThing(rules, ledger[j], o)
    {
      SameKeyIff(rules, ledger[j], o);
    }
    ExactIndexIsFirst(rules, ledger, o);
    assert forall j :: 0 <= j < |ledger| ==> (IsExact(rules, ledger[j], o) <==> SaysTheSame(rules, ledger[j], o));
    if i < |ledger| {
      SeenIsRepeated(rules, ledger[i], o, now);
      hide Repeated, SameThing, Seen, HasKey, Noted;
      assert RepeatsAt(rules, ledger, o, now, after, i);
    } else {
      NewIsNoted(rules, o, now, id);
      hide Repeated, SameThing, New, HasKey, Noted;
    }
  }

  // --- colons in project names ---

  function Stated(project: string, summary: string, text: string): Observation {
    Observation(PreferenceOrFact, Explicit, MembersAndRoles, Some(project), summary, text, 1.0)
  }

  /** Rules that leave the example's texts alone, as the source's do. */
  ghost predicate LeavesAlone(rules: Rules, texts: set<string>) {
    forall s :: s in texts ==> rules.normalize(s) == s && rules.lower(s) == s
  }

  function Shadowed(project: string, summary: string, text: string, id: string): Entry {
    Entry(id, PreferenceOrFact, Explicit, MembersAndRoles, Some(project), summary, text, 1.0, 1, 0, Promoted, Memory)
  }

  /**
   * With a colon the claim fails. The third observation, about project "a", has the key of the
   * second entry, about "a:b", and moves it to project "a", where the first entry lives.
   */
  lemma {:induction false} ColonBreaksOnePerKey(rules: Rules)
    requires LeavesAlone(rules, {"a", "a:b", "b:c", "c", "t", "u"})
    ensures
      var ledger := [Shadowed("a", "c", "t", "1"), Shadowed("a:b", "c", "u", "2")];
      && OnePerKey(rules, ledger)
      && !OnePerKey(rules, Upsert(rules, ledger, Stated("a", "b:c", "u"), 0, "3"))
  {
    var x, y, o := Shadowed("a", "c", "t", "1"), Shadowed("a:b", "c", "u", "2"), Stated("a", "b:c", "u");
    var ledger := [x, y];
    ExampleKeys(rules, x, y, o);
    assert !IsExact(rules, x, o) && IsExact(rules, y, o);
    assert ledger[1..] == [y];
    assert ExactIndex(rules, [y], o) == 0;
    assert ExactIndex(rules, ledger, o) == 1;
    var after := Upsert(rules, ledger, o, 0, "3");
    assert after[0] == x && after[1] == Seen(rules, y, o, 0);
  }

  lemma {:induction false} ExampleKeys(rules: Rules, x: Entry, y: Entry, o: Observation)
    requires LeavesAlone(rules, {"a", "a:b", "b:c", "c", "t", "u"})
    requires x == Shadowed("a", "c", "t", "1") && y == Shadowed("a:b", "c", "u", "2") && o == Stated("a", "b:c", "u")
    ensures EntryKey(rules, y) == ObservedKey(rules, o) != EntryKey(rules, x)
    ensures EntryKey(rules, Seen(rules, y, o, 0)) == EntryKey(rules, x)
  {
    var prefix := TargetName(Memory) + ":" + (CategoryName(MembersAndRoles) + ":");
    assert rules.normalize("a") == "a" && rules.normalize("a:b") == "a:b" && rules.normalize("c") == "c";
    assert rules.normalize("b:c") == "b:c" && rules.lower("c") == "c" && rules.lower("b:c") == "b:c";
    assert EntryKey(rules, x) == prefix + "a:c";
    assert EntryKey(rules, y) == prefix + "a:b:c";
    assert ObservedKey(rules, o) == prefix + "a:b:c";
    assert |prefix + "a:c"| != |prefix + "a:b:c"|;
  }

  lemma {:induction false} SourceLeavesAlone(lower: string -> string, texts: set<string>)
    requires forall s :: s in texts ==> lower(s) == s && forall i :: 0 <= i < |s| ==> !Text.IsSpace(s[i])
    ensures LeavesAlone(SourceRules(lower), texts)
  {
    forall s | s in texts ensures Text.NormalizeText(s) == s {
      Text.NoSpaceIsNormal(s);
    }
  }

  /** It fails for the source's own normalization, with any lower-casing that leaves small letters alone. */
  lemma {:induction false} ColonBreaksTheSource(lower: string -> string)
    requires forall s :: s in {"a", "a:b", "b:c", "c", "t", "u"} ==> lower(s) == s
    ensures
      var rules, ledger := SourceRules(lower), [Shadowed("a", "c", "t", "1"), Shadowed("a:b", "c", "u", "2")];
      && OnePerKey(rules, ledger)
      && !OnePerKey(rules, Upsert(rules, ledger, Stated("a", "b:c", "u"), 0, "3"))
  {
    hide LeavesAlone, OnePerKey, Upsert, SourceRules;
    SourceLeavesAlone(lower, {"a", "a:b", "b:c", "c", "t", "u"});
    ColonBreaksOnePerKey(SourceRules(lower));
  }
}
