/** The ledger as the program holds it: entry objects changed in place. */
module PersonalizationCommit {
  import opened Prelude
  import opened PersonalizationLedger

  class LedgerEntry {
    const id: string
    const kind: Kind
    const category: Category
    const summary: string
    const text: string
    const target: Target
    var source: Source
    var project: Option<string>
    var confidence: real
    var evidence: nat
    var lastSeen: int
    var status: Status

    function Value(): Entry
      reads this
    {
      Entry(id, kind, source, category, project, summary, text, confidence, evidence, lastSeen, status, target)
    }

    constructor (e: Entry)
      ensures Value() == e
    {
      id, kind, category, summary, text, target := e.id, e.kind, e.category, e.summary, e.text, e.target;
      source, project, confidence, evidence, lastSeen, status :=
        e.source, e.project, e.confidence, e.evidence, e.lastSeen, e.status;
    }

    /** Another sighting of the same text. */
    method See(rules: Rules, o: Observation, now: int)
      modifies this
      ensures Value() == Seen(rules, old(Value()), o, now)
    {
      evidence := evidence + 1;
      lastSeen := now;
      confidence := Max(confidence, o.confidence);
      if ProjectPart(rules, o.project) != "" {
        project := NormalizedProject(rules, o.project);
      }
      if o.source.Explicit? && !source.Explicit? {
        source := Explicit;
      }
      if status.Candidate? && MeetsBar(source, evidence, confidence) {
        status := Promoted;
      }
    }

    /** Another text took this entry's place. */
    method Supersede(now: int)
      modifies this
      ensures Value() == old(Value()).(status := Superseded, lastSeen := now)
    {
      status := Superseded;
      lastSeen := now;
    }
  }

  ghost predicate Distinct(ledger: seq<LedgerEntry>) {
    forall i, j :: 0 <= i < j < |ledger| ==> ledger[i] != ledger[j]
  }

  function Values(ledger: seq<LedgerEntry>): Ledger
    reads ledger
  {
    seq(|ledger|, i requires 0 <= i < |ledger| reads ledger => ledger[i].Value())
  }

  /** Counts an observation: on the entry it repeats, or on a new one that supersedes others with its key. */
  method UpsertObservation(rules: Rules, ledger: seq<LedgerEntry>, o: Observation, now: int, id: string)
    returns (next: seq<LedgerEntry>, promoted: Option<LedgerEntry>)
    requires Distinct(ledger)
    modifies ledger
    ensures Distinct(next) && ledger <= next
    ensures forall i :: |ledger| <= i < |next| ==> fresh(next[i])
    ensures Values(next) == Upsert(rules, old(Values(ledger)), o, now, id)
    ensures
      var touched := Touched(rules, old(Values(ledger)), o, now, id);
      if touched.status.Promoted? then promoted.Some? && promoted.value in next && promoted.value.Value() == touched
      else promoted == None
  {
    ghost var before := Values(ledger);
    var i := FindExact(rules, ledger, o);
    if i < |ledger| {
      ledger[i].See(rules, o, now);
      assert Values(ledger) == before[i := Seen(rules, before[i], o, now)];
      return ledger, if ledger[i].status.Promoted? then Some(ledger[i]) else None;
    }
    SupersedeAll(rules, ledger, ObservedKey(rules, o), now);
    var entry := new LedgerEntry(New(rules, o, now, id));
    next := ledger + [entry];
    assert Values(next) == RetireAll(rules, before, ObservedKey(rules, o), now) + [New(rules, o, now, id)];
    promoted := if entry.status.Promoted? then Some(entry) else None;
    assert promoted.Some? ==> next[|ledger|] == promoted.value;
  }

  method FindExact(rules: Rules, ledger: seq<LedgerEntry>, o: Observation) returns (i: nat)
    ensures i == ExactIndex(rules, Values(ledger), o)
  {
    ghost var values := Values(ledger);
    i := 0;
    while i < |ledger| && !IsExact(rules, ledger[i].Value(), o)
      invariant i <= |ledger|
      invariant ExactIndex(rules, values, o) == i + ExactIndex(rules, values[i..], o)
    {
      assert values[i..][0] == ledger[i].Value();
      assert values[i..][1..] == values[i + 1..];
      i := i + 1;
    }
    assert i < |ledger| ==> values[i..][0] == ledger[i].Value();
  }

  method SupersedeAll(rules: Rules, ledger: seq<LedgerEntry>, key: string, now: int)
    requires Distinct(ledger)
    modifies ledger
    ensures Values(ledger) == RetireAll(rules, old(Values(ledger)), key, now)
  {
    hide HasKey;
    ghost var before := Values(ledger);
    for i := 0 to |ledger|
      invariant forall j :: 0 <= j < i ==> ledger[j].Value() == Retire(rules, before[j], key, now)
      invariant forall j :: i <= j < |ledger| ==> ledger[j].Value() == before[j]
    {
      if HasKey(rules, ledger[i].Value(), key) {
        ledger[i].Supersede(now);
      }
    }
  }

  /** Counts a list of observations and collects the ids of what was promoted. */
  method ApplyObservations(rules: Rules, ledger: seq<LedgerEntry>, observations: seq<Observation>, now: int,
                           ids: seq<string>)
    returns (next: seq<LedgerEntry>, promoted: set<string>)
    requires Distinct(ledger) && |ids| == |observations|
    modifies ledger
    ensures Distinct(next) && ledger <= next
    ensures Values(next) == ApplyAll(rules, old(Values(ledger)), observations, now, ids)
    ensures promoted == Reported(rules, old(Values(ledger)), observations, now, ids)
  {
    next, promoted := ledger, {};
    ghost var before := Values(ledger);
    assert observations[..0] == [] && ids[..0] == [];
    assert observations[..|observations|] == observations && ids[..|observations|] == ids;
    BatchStart(rules, before, now);
    hide ApplyAll, Reported, Upsert, Touched, Values, Distinct;
    for n := 0 to |observations|
      invariant Distinct(next) && ledger <= next
      invariant forall i :: |ledger| <= i < |next| ==> fresh(next[i])
      invariant Values(next) == ApplyAll(rules, before, observations[..n], now, ids[..n])
      invariant promoted == Reported(rules, before, observations[..n], now, ids[..n])
    {
      BatchStep(rules, before, observations, now, ids, n);
      var hit: set<string>;
      next, hit := ApplyObservation(rules, next, observations[n], now, ids[n]);
      promoted := promoted + hit;
    }
  }

  /** One observation of a list, and the id of the entry it promoted, if any. */
  method ApplyObservation(rules: Rules, ledger: seq<LedgerEntry>, o: Observation, now: int, id: string)
    returns (next: seq<LedgerEntry>, promoted: set<string>)
    requires Distinct(ledger)
    modifies ledger
    ensures Distinct(next) && ledger <= next
    ensures forall i :: |ledger| <= i < |next| ==> fresh(next[i])
    ensures Values(next) == Upsert(rules, old(Values(ledger)), o, now, id)
    ensures promoted
         == var touched := Touched(rules, old(Values(ledger)), o, now, id);
            if touched.status.Promoted? then {touched.id} else {}
  {
    hide Distinct, Upsert, Touched, Values;
    var hit;
    next, hit := UpsertObservation(rules, ledger, o, now, id);
    promoted := if hit.Some? then {hit.value.id} else {};
  }

  lemma {:induction false} BatchStart(rules: Rules, ledger: Ledger, now: int)
    ensures ApplyAll(rules, ledger, [], now, []) == ledger && Reported(rules, ledger, [], now, []) == {}
  {
  }

  lemma {:induction false} BatchStep(rules: Rules, ledger: Ledger, observations: seq<Observation>, now: int,
                                     ids: seq<string>, n: nat)
    requires |ids| == |observations| && n < |observations|
    ensures
      var before := ApplyAll(rules, ledger, observations[..n], now, ids[..n]);
      var touched := Touched(rules, before, observations[n], now, ids[n]);
      && ApplyAll(rules, ledger, observations[..n + 1], now, ids[..n + 1])
         == Upsert(rules, before, observations[n], now, ids[n])
      && Reported(rules, ledger, observations[..n + 1], now, ids[..n + 1])
         == Reported(rules, ledger, observations[..n], now, ids[..n])
          + (if touched.status.Promoted? then {touched.id} else {})
  {
    assert observations[..n + 1][..n] == observations[..n] && ids[..n + 1][..n] == ids[..n];
  }
}
