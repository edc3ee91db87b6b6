/** The ledger of webhook deliveries and the functions that rewrite it. */
module WebhookLedger {
  import opened Prelude

  datatype Status = Received | IgnoredDuplicate | IgnoredLoop | IgnoredUnsupported | Noop | Committed | Failed

  /** One delivery; times are milliseconds. */
  datatype Entry = Entry(id: string, issueId: string, identifier: string, receivedAt: int, status: Status,
                         created: seq<string>)

  type Ledger = seq<Entry>

  const RETENTION_MS := 30 * 24 * 60 * 60 * 1000
  const MAX_ENTRIES := 1000

  /** The first entry of a delivery. */
  function Find(ledger: Ledger, id: string): Option<Entry> {
    if ledger == [] then None
    else if ledger[0].id == id then Some(ledger[0])
    else Find(ledger[1..], id)
  }

  predicate IsDuplicate(ledger: Ledger, id: string) {
    exists i :: 0 <= i < |ledger| && ledger[i].id == id
  }

  /** Whether an issue known by one of the (trimmed, non-empty) names was created by an earlier delivery. */
  predicate IsLooped(ledger: Ledger, names: set<string>) {
    exists i, k :: 0 <= i < |ledger| && 0 <= k < |ledger[i].created| && ledger[i].created[k] in names
  }

  function Upsert(ledger: Ledger, next: Entry): Ledger {
    if ledger == [] then [next]
    else if ledger[0].id == next.id then [next] + ledger[1..]
    else [ledger[0]] + Upsert(ledger[1..], next)
  }

  function Patched(entry: Entry, status: Status, created: Option<seq<string>>): Entry {
    Entry(entry.id, entry.issueId, entry.identifier, entry.receivedAt, status, created.GetOr(entry.created))
  }

  function Update(ledger: Ledger, id: string, status: Status, created: Option<seq<string>>): Ledger {
    if ledger == [] then [] else
      var first := if ledger[0].id == id then Patched(ledger[0], status, created) else ledger[0];
      [first] + Update(ledger[1..], id, status, created)
  }

  function Recent(ledger: Ledger, cutoff: int): Ledger {
    if ledger == [] then []
    else (if ledger[0].receivedAt >= cutoff then [ledger[0]] else []) + Recent(ledger[1..], cutoff)
  }

  function LastEntries(ledger: Ledger): Ledger {
    if |ledger| <= MAX_ENTRIES then ledger else ledger[|ledger| - MAX_ENTRIES..]
  }

  /** What a save at a given time keeps. */
  function Trim(ledger: Ledger, now: int): Ledger {
    LastEntries(Recent(ledger, now - RETENTION_MS))
  }

  ghost predicate UniqueIds(ledger: Ledger) {
    forall i, j :: 0 <= i < j < |ledger| ==> ledger[i].id != ledger[j].id
  }

  // --- what the functions do to the entry of one delivery ---

  lemma {:induction false} FindIndex(ledger: Ledger, id: string)
    ensures Find(ledger, id).Some? <==> IsDuplicate(ledger, id)
    ensures Find(ledger, id).Some? ==> Find(ledger, id).value in ledger && Find(ledger, id).value.id == id
  {
    if ledger != [] {
      FindIndex(ledger[1..], id);
      if ledger[0].id != id && IsDuplicate(ledger, id) {
        var i :| 0 <= i < |ledger| && ledger[i].id == id;
        assert ledger[1..][i - 1].id == id;
      }
    }
  }

  lemma {:induction false} FindOnly(ledger: Ledger, i: nat)
    requires UniqueIds(ledger) && i < |ledger|
    ensures Find(ledger, ledger[i].id) == Some(ledger[i])
  {
    if i > 0 {
      FindOnly(ledger[1..], i - 1);
    }
  }

  lemma {:induction false} FindUpdate(ledger: Ledger, d: string, status: Status, created: Option<seq<string>>, id: string)
    ensures Find(Update(ledger, d, status, created), id)
         == if id == d && Find(ledger, id).Some? then Some(Patched(Find(ledger, id).value, status, created))
            else Find(ledger, id)
  {
    if ledger != [] {
      FindUpdate(ledger[1..], d, status, created, id);
      assert Update(ledger, d, status, created)[1..] == Update(ledger[1..], d, status, created);
    }
  }

  lemma {:induction false} FindUpsert(ledger: Ledger, next: Entry, id: string)
    ensures Find(Upsert(ledger, next), id) == if id == next.id then Some(next) else Find(ledger, id)
  {
    if ledger != [] {
      FindUpsert(ledger[1..], next, id);
      assert Upsert(ledger, next)[1..] == if ledger[0].id == next.id then ledger[1..] else Upsert(ledger[1..], next);
    }
  }

  lemma {:induction false} UpdateIds(ledger: Ledger, d: string, status: Status, created: Option<seq<string>>)
    ensures |Update(ledger, d, status, created)| == |ledger|
    ensures forall i :: 0 <= i < |ledger| ==> Update(ledger, d, status, created)[i].id == ledger[i].id
  {
    if ledger != [] {
      UpdateIds(ledger[1..], d, status, created);
      assert forall i :: 0 < i < |ledger| ==> ledger[i] == ledger[1..][i - 1];
    }
  }

  lemma {:induction false} UpsertIds(ledger: Ledger, next: Entry)
    ensures IsDuplicate(ledger, next.id) ==> |Upsert(ledger, next)| == |ledger|
    ensures !IsDuplicate(ledger, next.id) ==> Upsert(ledger, next) == ledger + [next]
    ensures forall i :: 0 <= i < |ledger| && i < |Upsert(ledger, next)| ==> Upsert(ledger, next)[i].id == ledger[i].id
  {
    if ledger != [] {
      UpsertIds(ledger[1..], next);
      assert forall i :: 0 < i < |ledger| ==> ledger[i] == ledger[1..][i - 1];
      if ledger[0].id != next.id && IsDuplicate(ledger, next.id) {
        var i :| 0 <= i < |ledger| && ledger[i].id == next.id;
        assert ledger[1..][i - 1].id == next.id;
      }
    }
  }

  lemma {:induction false} RecentIds(ledger: Ledger, cutoff: int)
    ensures forall e :: e in Recent(ledger, cutoff) <==> e in ledger && e.receivedAt >= cutoff
    ensures UniqueIds(ledger) ==> UniqueIds(Recent(ledger, cutoff))
  {
    if ledger != [] {
      var tail := ledger[1..];
      RecentIds(tail, cutoff);
      assert ledger == [ledger[0]] + tail;
      if UniqueIds(ledger) {
        assert UniqueIds(tail) by { assert forall i :: 0 <= i < |tail| ==> tail[i] == ledger[i + 1]; }
        assert forall e :: e in tail ==> e.id != ledger[0].id;
        var kept := Recent(tail, cutoff);
        assert forall i :: 0 <= i < |kept| ==> kept[i] in tail;
      }
    }
  }

  lemma {:induction false} RecentAll(ledger: Ledger, cutoff: int)
    ensures |Recent(ledger, cutoff)| <= |ledger|
    ensures Recent(ledger, cutoff) == ledger <==> forall i :: 0 <= i < |ledger| ==> ledger[i].receivedAt >= cutoff
  {
    if ledger != [] {
      RecentAll(ledger[1..], cutoff);
      assert forall i :: 0 < i < |ledger| ==> ledger[i] == ledger[1..][i - 1];
      if ledger[0].receivedAt >= cutoff {
        assert Recent(ledger, cutoff)[1..] == Recent(ledger[1..], cutoff);
        assert forall i :: 0 <= i < |ledger| - 1 ==> ledger[1..][i] == ledger[i + 1];
      }
    }
  }

  /** A save keeps every entry exactly when all are at most 30 days old and there are at most 1000. */
  lemma {:induction false} TrimKeepsAllIff(ledger: Ledger, now: int)
    ensures Trim(ledger, now) == ledger
      <==> (|ledger| <= MAX_ENTRIES && forall i :: 0 <= i < |ledger| ==> ledger[i].receivedAt >= now - RETENTION_MS)
  {
    RecentAll(ledger, now - RETENTION_MS);
  }

  lemma {:induction false} LastIds(ledger: Ledger)
    requires UniqueIds(ledger)
    ensures UniqueIds(LastEntries(ledger))
    ensures forall e :: e in LastEntries(ledger) ==> e in ledger
  {
  }

  lemma {:induction false} TrimIds(ledger: Ledger, now: int)
    requires UniqueIds(ledger)
    ensures UniqueIds(Trim(ledger, now))
    ensures forall e :: e in Trim(ledger, now) ==> e in ledger
  {
    RecentIds(ledger, now - RETENTION_MS);
    LastIds(Recent(ledger, now - RETENTION_MS));
  }

  lemma {:induction false} FindMember(ledger: Ledger, e: Entry)
    requires UniqueIds(ledger) && e in ledger
    ensures Find(ledger, e.id) == Some(e)
  {
    var i :| 0 <= i < |ledger| && ledger[i] == e;
    FindOnly(ledger, i);
  }

  /** A save drops an entry or leaves it as it is. */
  lemma {:induction false} FindTrim(ledger: Ledger, now: int, id: string)
    requires UniqueIds(ledger)
    ensures Find(Trim(ledger, now), id).Some? ==> Find(Trim(ledger, now), id) == Find(ledger, id)
  {
    TrimIds(ledger, now);
    FindIndex(Trim(ledger, now), id);
    if Find(Trim(ledger, now), id).Some? {
      FindMember(ledger, Find(Trim(ledger, now), id).value);
    }
  }

  lemma {:induction false} UniqueKept(ledger: Ledger, other: Ledger)
    requires UniqueIds(ledger) && |other| == |ledger|
    requires forall i :: 0 <= i < |ledger| ==> other[i].id == ledger[i].id
    ensures UniqueIds(other)
  {
  }

  /** Rewriting functions and saves keep delivery ids unique. */
  lemma {:induction false} IdsStayUnique(ledger: Ledger, next: Entry, status: Status, created: Option<seq<string>>)
    requires UniqueIds(ledger)
    ensures UniqueIds(Upsert(ledger, next)) && UniqueIds(Update(ledger, next.id, status, created))
  {
    UpdateIds(ledger, next.id, status, created);
    UniqueKept(ledger, Update(ledger, next.id, status, created));
    UpsertIds(ledger, next);
    if IsDuplicate(ledger, next.id) {
      UniqueKept(ledger, Upsert(ledger, next));
    }
  }

  lemma {:induction false} RecentAppend(a: Ledger, b: Ledger, cutoff: int)
    ensures Recent(a + b, cutoff) == Recent(a, cutoff) + Recent(b, cutoff)
  {
    if a == [] {
      assert a + b == b;
    } else {
      var own := if a[0].receivedAt >= cutoff then [a[0]] else [];
      assert (a + b)[1..] == a[1..] + b;
      RecentAppend(a[1..], b, cutoff);
      assert own + (Recent(a[1..], cutoff) + Recent(b, cutoff)) == own + Recent(a[1..], cutoff) + Recent(b, cutoff);
    }
  }

  lemma {:induction false} RecentThree(front: Ledger, e: Entry, back: Ledger, cutoff: int)
    ensures Recent(front + ([e] + back), cutoff)
         == Recent(front, cutoff) + ((if e.receivedAt >= cutoff then [e] else []) + Recent(back, cutoff))
  {
    RecentAppend(front, [e] + back, cutoff);
    assert ([e] + back)[1..] == back;
  }

  lemma {:induction false} OtherEntries(ledger: Ledger, i: nat)
    requires UniqueIds(ledger) && i < |ledger|
    ensures ledger[i] !in ledger[..i] && ledger[i] !in ledger[i + 1..]
    ensures ledger == ledger[..i] + ([ledger[i]] + ledger[i + 1..])
  {
  }

  /** A save keeps an entry exactly when it is recent and fewer than 1000 recent entries follow it. */
  lemma {:induction false} TrimKeepsIff(ledger: Ledger, now: int, i: nat)
    requires UniqueIds(ledger) && i < |ledger|
    ensures ledger[i] in Trim(ledger, now)
      <==> (ledger[i].receivedAt >= now - RETENTION_MS
        && |Recent(ledger[i + 1..], now - RETENTION_MS)| < MAX_ENTRIES)
  {
    var cutoff, e := now - RETENTION_MS, ledger[i];
    OtherEntries(ledger, i);
    RecentThree(ledger[..i], e, ledger[i + 1..], cutoff);
    RecentIds(ledger[..i], cutoff);
    RecentIds(ledger[i + 1..], cutoff);
    hide Recent, LastEntries, UniqueIds;
    LastOfThree(Recent(ledger[..i], cutoff), if e.receivedAt >= cutoff then [e] else [],
                Recent(ledger[i + 1..], cutoff), e);
  }

  lemma {:induction false} LastOfThree(front: Ledger, own: Ledger, back: Ledger, e: Entry)
    requires own == [] || own == [e]
    requires e !in front && e !in back
    ensures e in LastEntries(front + (own + back)) <==> own == [e] && |back| < MAX_ENTRIES
  {
    var all := front + (own + back);
    var kept := LastEntries(all);
    var drop := |all| - |kept|;
    assert forall k :: 0 <= k < |kept| ==> kept[k] == all[drop + k];
    assert forall k :: 0 <= k < |front| ==> all[k] != e;
    assert forall k :: |front| + |own| <= k < |all| ==> all[k] != e;
    if own == [e] && |back| < MAX_ENTRIES {
      assert kept[|front| - drop] == e;
    }
  }
}
