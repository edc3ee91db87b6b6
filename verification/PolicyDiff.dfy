/** The difference between a rejected policy and the restored one, read as a patch. */
module PolicyDiff {
  import opened Prelude

  /** A JSON value; the fields of an object keep their order. */
  datatype Json =
    | Null
    | Bool(value: bool)
    | Number(n: int)
    | Text(text: string)
    | Array(items: seq<Json>)
    | Object(fields: Fields)

  datatype Fields = End | Field(key: string, value: Json, rest: Fields)

  function Size(j: Json): nat {
    match j
    case Object(fields) => 1 + FieldsSize(fields)
    case _ => 0
  }

  function FieldsSize(fields: Fields): nat {
    match fields
    case End => 0
    case Field(_, value, rest) => 1 + Size(value) + FieldsSize(rest)
  }

  function Get(fields: Fields, key: string): (r: Option<Json>)
    ensures r.Some? ==> Size(r.value) < FieldsSize(fields)
  {
    match fields
    case End => None
    case Field(k, value, rest) => if k == key then Some(value) else Get(rest, key)
  }

  /** No object, outside arrays, has a key twice. */
  ghost predicate DistinctKeys(j: Json) {
    j.Object? ==> DistinctFields(j.fields)
  }

  ghost predicate DistinctFields(fields: Fields) {
    match fields
    case End => true
    case Field(key, value, rest) => DistinctKeys(value) && Get(rest, key).None? && DistinctFields(rest)
  }

  /** Equal up to the order of object keys outside arrays. */
  ghost predicate Same(a: Json, b: Json)
    decreases Size(a)
  {
    if a.Object? && b.Object? then forall key :: SameAt(a.fields, b.fields, key)
    else a == b
  }

  ghost predicate SameAt(a: Fields, b: Fields, key: string)
    decreases FieldsSize(a)
  {
    match Get(a, key)
    case None => Get(b, key).None?
    case Some(value) => Get(b, key).Some? && Same(value, Get(b, key).value)
  }

  // --- the difference ---

  datatype Change = Added(value: Json) | Changed(previous: Json, value: Json) | Removed(previous: Json)

  /** One reported difference; the path is the list of keys the source joins with dots. */
  datatype Entry = Entry(path: seq<string>, change: Change)

  function Under(key: string, entries: seq<Entry>): seq<Entry> {
    Prefixed([key], entries)
  }

  function Prefixed(prefix: seq<string>, entries: seq<Entry>): seq<Entry> {
    seq(|entries|, i requires 0 <= i < |entries| => Entry(prefix + entries[i].path, entries[i].change))
  }

  function Diff(previous: Json, restored: Json): seq<Entry>
    decreases restored, 0
  {
    if previous.Object? && restored.Object? then
      RestoredDiff(previous.fields, restored.fields) + RemovedDiff(previous.fields, restored.fields)
    else if previous == restored then []
    else [Entry([], Changed(previous, restored))]
  }

  /** One key of the restored object. */
  function KeyDiff(previous: Fields, key: string, value: Json): seq<Entry>
    decreases value, 1
  {
    match Get(previous, key)
    case None => [Entry([key], Added(value))]
    case Some(old_) => Under(key, Diff(old_, value))
  }

  function RestoredDiff(previous: Fields, restored: Fields): seq<Entry>
    decreases restored
  {
    match restored
    case End => []
    case Field(key, value, rest) => KeyDiff(previous, key, value) + RestoredDiff(previous, rest)
  }

  function RemovedDiff(previous: Fields, restored: Fields): seq<Entry>
    decreases previous
  {
    match previous
    case End => []
    case Field(key, value, rest) =>
      (if Get(restored, key).None? then [Entry([key], Removed(value))] else []) + RemovedDiff(rest, restored)
  }

  // --- the difference as a patch ---

  function SetField(fields: Fields, key: string, value: Json): Fields {
    match fields
    case End => Field(key, value, End)
    case Field(k, v, rest) => if k == key then Field(k, value, rest) else Field(k, v, SetField(rest, key, value))
  }

  function DeleteField(fields: Fields, key: string): Fields {
    match fields
    case End => End
    case Field(k, v, rest) =>
      if k == key then DeleteField(rest, key) else Field(k, v, DeleteField(rest, key))
  }

  function FieldsOf(j: Json): Fields {
    if j.Object? then j.fields else End
  }

  function Child(j: Json, key: string): Json {
    Get(FieldsOf(j), key).GetOr(Null)
  }

  function Put(j: Json, path: seq<string>, value: Json): Json
    decreases |path|
  {
    if path == [] then value
    else Object(SetField(FieldsOf(j), path[0], Put(Child(j, path[0]), path[1..], value)))
  }

  function Drop(j: Json, path: seq<string>): Json
    decreases |path|
  {
    if path == [] then j
    else if |path| == 1 then Object(DeleteField(FieldsOf(j), path[0]))
    else Object(SetField(FieldsOf(j), path[0], Drop(Child(j, path[0]), path[1..])))
  }

  function ApplyOne(j: Json, e: Entry): Json {
    match e.change
    case Added(value) => Put(j, e.path, value)
    case Changed(_, value) => Put(j, e.path, value)
    case Removed(_) => Drop(j, e.path)
  }

  function Apply(j: Json, entries: seq<Entry>): Json
    decreases |entries|
  {
    if entries == [] then j else Apply(ApplyOne(j, entries[0]), entries[1..])
  }

  // --- fields ---

  lemma {:induction false} GetSet(fields: Fields, key: string, value: Json, k: string)
    ensures Get(SetField(fields, key, value), k) == if k == key then Some(value) else Get(fields, k)
  {
    if fields.Field? {
      GetSet(fields.rest, key, value, k);
    }
  }

  lemma {:induction false} GetDelete(fields: Fields, key: string, k: string)
    ensures Get(DeleteField(fields, key), k) == if k == key then None else Get(fields, k)
  {
    if fields.Field? {
      GetDelete(fields.rest, key, k);
    }
  }

  lemma {:induction false} SetSame(fields: Fields, key: string)
    requires Get(fields, key).Some?
    ensures SetField(fields, key, Get(fields, key).value) == fields
  {
    if fields.key != key {
      SetSame(fields.rest, key);
    }
  }

  lemma {:induction false} SetTwice(fields: Fields, key: string, a: Json, b: Json)
    ensures SetField(SetField(fields, key, a), key, b) == SetField(fields, key, b)
  {
    if fields.Field? && fields.key != key {
      SetTwice(fields.rest, key, a, b);
    }
  }

  lemma {:induction false} SameReflexive(j: Json)
    ensures Same(j, j)
    decreases Size(j)
  {
    if j.Object? {
      forall key ensures SameAt(j.fields, j.fields, key) {
        if Get(j.fields, key).Some? {
          SameReflexive(Get(j.fields, key).value);
        }
      }
    }
  }

  // --- applying the difference ---

  lemma {:induction false} ApplyAppend(j: Json, a: seq<Entry>, b: seq<Entry>)
    ensures Apply(j, a + b) == Apply(Apply(j, a), b)
    decreases |a|
  {
    if a == [] {
      assert a + b == b;
    } else {
      assert (a + b)[1..] == a[1..] + b;
      ApplyAppend(ApplyOne(j, a[0]), a[1..], b);
    }
  }

  ghost predicate RemovesBelow(entries: seq<Entry>) {
    forall i :: 0 <= i < |entries| ==> entries[i].change.Removed? ==> entries[i].path != []
  }

  lemma {:induction false} DiffRemovesBelow(previous: Json, restored: Json)
    ensures RemovesBelow(Diff(previous, restored))
  {
    if previous.Object? && restored.Object? {
      RestoredNonEmpty(previous.fields, restored.fields);
      RemovedNonEmpty(previous.fields, restored.fields);
    }
  }

  ghost predicate AllPathsBelow(entries: seq<Entry>) {
    forall i :: 0 <= i < |entries| ==> entries[i].path != []
  }

  lemma {:induction false} RestoredNonEmpty(previous: Fields, restored: Fields)
    ensures AllPathsBelow(RestoredDiff(previous, restored))
  {
    if restored.Field? {
      RestoredNonEmpty(previous, restored.rest);
    }
  }

  lemma {:induction false} RemovedNonEmpty(previous: Fields, restored: Fields)
    ensures AllPathsBelow(RemovedDiff(previous, restored))
  {
    if previous.Field? {
      RemovedNonEmpty(previous.rest, restored);
    }
  }

  /** One entry under a key changes the value of that key. */
  lemma {:induction false} ApplyOneUnder(fields: Fields, key: string, e: Entry)
    requires Get(fields, key).Some? && (e.change.Removed? ==> e.path != [])
    ensures ApplyOne(Object(fields), Entry([key] + e.path, e.change))
         == Object(SetField(fields, key, ApplyOne(Get(fields, key).value, e)))
  {
    var path := [key] + e.path;
    assert path[0] == key && path[1..] == e.path;
  }

  lemma {:induction false} ApplyUnder(fields: Fields, key: string, entries: seq<Entry>)
    requires Get(fields, key).Some? && RemovesBelow(entries)
    ensures Apply(Object(fields), Under(key, entries))
         == Object(SetField(fields, key, Apply(Get(fields, key).value, entries)))
    decreases |entries|
  {
    var old_ := Get(fields, key).value;
    if entries == [] {
      SetSame(fields, key);
    } else {
      var value := ApplyOne(old_, entries[0]);
      var next := SetField(fields, key, value);
      ApplyOneUnder(fields, key, entries[0]);
      assert Under(key, entries)[1..] == Under(key, entries[1..]);
      GetSet(fields, key, value, key);
      ApplyUnder(next, key, entries[1..]);
      SetTwice(fields, key, value, Apply(value, entries[1..]));
    }
  }

  /** The fields after applying the restored part: restored keys as restored, the others untouched. */
  ghost predicate Restores(before: Fields, after: Fields, restored: Fields, key: string) {
    match Get(restored, key)
    case None => Get(after, key) == Get(before, key)
    case Some(value) => Get(after, key).Some? && Same(Get(after, key).value, value)
  }

  ghost predicate AgreeOn(a: Fields, b: Fields, keys: Fields) {
    forall key :: Get(keys, key).Some? ==> Get(a, key) == Get(b, key)
  }

  lemma {:induction false} ApplyRestored(previous: Fields, now: Fields, restored: Fields) returns (after: Fields)
    requires DistinctFields(restored) && AgreeOn(now, previous, restored)
    ensures Apply(Object(now), RestoredDiff(previous, restored)) == Object(after)
    ensures forall key :: Restores(now, after, restored, key)
    decreases restored
  {
    if restored.End? {
      after := now;
    } else {
      var key, value, rest := restored.key, restored.value, restored.rest;
      var x := ApplyKey(previous, now, key, value);
      var next := SetField(now, key, x);
      forall k ensures Get(next, k) == if k == key then Some(x) else Get(now, k) {
        GetSet(now, key, x, k);
      }
      assert AgreeOn(next, previous, rest) by {
        forall k | Get(rest, k).Some? ensures Get(next, k) == Get(previous, k) {
          assert Get(restored, k).Some?;
        }
      }
      after := ApplyRestored(previous, next, rest);
      ApplyAppend(Object(now), KeyDiff(previous, key, value), RestoredDiff(previous, rest));
      forall k ensures Restores(now, after, restored, k) {
        assert Restores(next, after, rest, k);
      }
    }
  }

  lemma {:induction false} ApplyKey(previous: Fields, now: Fields, key: string, value: Json) returns (x: Json)
    requires DistinctKeys(value) && Get(now, key) == Get(previous, key)
    ensures Apply(Object(now), KeyDiff(previous, key, value)) == Object(SetField(now, key, x))
    ensures Same(x, value)
    decreases value, 1
  {
    match Get(previous, key)
    case None =>
      x := value;
      SameReflexive(value);
      var e := Entry([key], Added(value));
      assert [e][1..] == [] && [key][1..] == [];
      assert Put(Child(Object(now), key), [], value) == value;
      assert ApplyOne(Object(now), e) == Object(SetField(now, key, value));
    case Some(old_) =>
      x := Apply(old_, Diff(old_, value));
      DiffRemovesBelow(old_, value);
      ApplyUnder(now, key, Diff(old_, value));
      PatchRestores(old_, value);
  }

  /** Removing the keys that the restored object does not have. */
  lemma {:induction false} ApplyRemoved(previous: Fields, now: Fields, restored: Fields) returns (after: Fields)
    ensures Apply(Object(now), RemovedDiff(previous, restored)) == Object(after)
    ensures forall key :: Get(after, key)
                 == if Get(previous, key).Some? && Get(restored, key).None? then None else Get(now, key)
    decreases previous
  {
    if previous.End? {
      after := now;
    } else {
      var key := previous.key;
      var own := if Get(restored, key).None? then [Entry([key], Removed(previous.value))] else [];
      var next := if Get(restored, key).None? then DeleteField(now, key) else now;
      assert Apply(Object(now), own) == Object(next) by {
        assert own != [] ==> own[1..] == [];
      }
      forall k ensures Get(next, k) == if k == key && Get(restored, key).None? then None else Get(now, k) {
        GetDelete(now, key, k);
      }
      after := ApplyRemoved(previous.rest, next, restored);
      ApplyAppend(Object(now), own, RemovedDiff(previous.rest, restored));
    }
  }

  /** Applied to the previous value, the difference gives the restored one, up to key order. */
  lemma {:induction false} PatchRestores(previous: Json, restored: Json)
    requires DistinctKeys(restored)
    ensures Same(Apply(previous, Diff(previous, restored)), restored)
    decreases restored, 0
  {
    if previous.Object? && restored.Object? {
      var p, r := previous.fields, restored.fields;
      var middle := ApplyRestored(p, p, r);
      var after := ApplyRemoved(p, middle, r);
      ApplyAppend(previous, RestoredDiff(p, r), RemovedDiff(p, r));
      forall key ensures SameAt(after, r, key) {
        assert Restores(p, middle, r, key);
      }
    } else {
      SameReflexive(restored);
      var entries := Diff(previous, restored);
      if entries != [] {
        assert entries[1..] == [];
      }
    }
  }

  // --- when nothing is reported ---

  lemma {:induction false} NothingRestored(previous: Fields, restored: Fields)
    requires DistinctFields(restored)
    ensures RestoredDiff(previous, restored) == []
       <==> forall key :: Get(restored, key).Some? ==>
              Get(previous, key).Some? && Same(Get(previous, key).value, Get(restored, key).value)
    decreases restored
  {
    if restored.Field? {
      var key, value, rest := restored.key, restored.value, restored.rest;
      NothingRestored(previous, rest);
      assert Get(restored, key) == Some(value);
      if Get(previous, key).Some? {
        EmptyIffSame(Get(previous, key).value, value);
        assert Under(key, Diff(Get(previous, key).value, value)) == [] <==> Diff(Get(previous, key).value, value) == [];
      }
      assert forall k :: k != key ==> Get(restored, k) == Get(rest, k);
    }
  }

  lemma {:induction false} NothingRemoved(previous: Fields, restored: Fields)
    ensures RemovedDiff(previous, restored) == []
       <==> forall key :: Get(previous, key).Some? ==> Get(restored, key).Some?
    decreases previous
  {
    if previous.Field? {
      NothingRemoved(previous.rest, restored);
      assert Get(previous, previous.key).Some?;
    }
  }

  /** Nothing is reported exactly when the two agree up to the order of keys outside arrays. */
  lemma {:induction false} EmptyIffSame(previous: Json, restored: Json)
    requires DistinctKeys(restored)
    ensures Diff(previous, restored) == [] <==> Same(previous, restored)
    decreases restored
  {
    if previous.Object? && restored.Object? {
      var p, r := previous.fields, restored.fields;
      NothingRestored(p, r);
      NothingRemoved(p, r);
      if Diff(previous, restored) == [] {
        assert RestoredDiff(p, r) == [] && RemovedDiff(p, r) == [];
        forall key ensures SameAt(p, r, key) {
        }
      }
      if Same(previous, restored) {
        forall key | Get(r, key).Some? ensures Get(p, key).Some? && Same(Get(p, key).value, Get(r, key).value) {
          assert SameAt(p, r, key);
        }
        forall key | Get(p, key).Some? ensures Get(r, key).Some? {
          assert SameAt(p, r, key);
        }
      }
    }
  }

  /** Inside arrays the order of keys does matter: the same list of records is reported as changed. */
  lemma {:induction false} KeyOrderInArraysIsReported(k: string, l: string, x: Json, y: Json)
    requires k != l && DistinctKeys(x) && DistinctKeys(y)
    ensures
      var one, other := Object(Field(k, x, Field(l, y, End))), Object(Field(l, y, Field(k, x, End)));
      && Same(one, other) && Diff(one, other) == []
      && Diff(Array([one]), Array([other])) != []
  {
    var one, other := Field(k, x, Field(l, y, End)), Field(l, y, Field(k, x, End));
    SameReflexive(x);
    SameReflexive(y);
    forall key ensures SameAt(one, other, key) {
      assert Get(one, key) == Get(other, key) == if key == k then Some(x) else if key == l then Some(y) else None;
    }
    assert DistinctFields(other) by { assert Get(other.rest, l).None?; }
    EmptyIffSame(Object(one), Object(other));
    assert [Object(one)][0] != [Object(other)][0];
  }

  // --- paths ---

  ghost predicate PrefixFree(entries: seq<Entry>) {
    forall i, j :: 0 <= i < |entries| && 0 <= j < |entries| && i != j ==> !(entries[i].path <= entries[j].path)
  }

  ghost predicate StartsWith(entries: seq<Entry>, keys: Fields) {
    forall i :: 0 <= i < |entries| ==> entries[i].path != [] && Get(keys, entries[i].path[0]).Some?
  }

  lemma {:induction false} PrefixUnder(key: string, a: seq<string>, b: seq<string>)
    ensures [key] + a <= [key] + b <==> a <= b
  {
    var x, y := [key] + a, [key] + b;
    assert x[1..] == a && y[1..] == b;
    if x <= y {
      assert a == y[..|x|][1..] == b[..|a|];
    }
    if a <= b {
      assert x == y[..|x|];
    }
  }

  lemma {:induction false} UnderPrefixFree(key: string, entries: seq<Entry>)
    requires PrefixFree(entries)
    ensures PrefixFree(Under(key, entries))
  {
    var under := Under(key, entries);
    forall i, j | 0 <= i < |under| && 0 <= j < |under| && i != j ensures !(under[i].path <= under[j].path) {
      PrefixUnder(key, entries[i].path, entries[j].path);
    }
  }

  /** Entries whose first keys differ cannot be prefixes of each other. */
  lemma {:induction false} AppendPrefixFree(a: seq<Entry>, b: seq<Entry>)
    requires PrefixFree(a) && PrefixFree(b) && AllPathsBelow(a) && AllPathsBelow(b)
    requires forall i, j :: 0 <= i < |a| && 0 <= j < |b| ==> a[i].path[0] != b[j].path[0]
    ensures PrefixFree(a + b)
  {
  }

  lemma {:induction false} KeyPrefixFree(previous: Fields, key: string, value: Json)
    requires DistinctFields(previous) && DistinctKeys(value)
    ensures PrefixFree(KeyDiff(previous, key, value))
    ensures AllPathsBelow(KeyDiff(previous, key, value))
    ensures forall i :: 0 <= i < |KeyDiff(previous, key, value)| ==> KeyDiff(previous, key, value)[i].path[0] == key
    decreases value, 1
  {
    match Get(previous, key)
    case None =>
    case Some(old_) =>
      DistinctGet(previous, key);
      PathsArePrefixFree(old_, value);
      UnderPrefixFree(key, Diff(old_, value));
  }

  lemma {:induction false} DistinctGet(fields: Fields, key: string)
    requires DistinctFields(fields) && Get(fields, key).Some?
    ensures DistinctKeys(Get(fields, key).value)
  {
    if fields.key != key {
      DistinctGet(fields.rest, key);
    }
  }

  lemma {:induction false} RestoredPrefixFree(previous: Fields, restored: Fields)
    requires DistinctFields(previous) && DistinctFields(restored)
    ensures PrefixFree(RestoredDiff(previous, restored))
    ensures StartsWith(RestoredDiff(previous, restored), restored)
    decreases restored
  {
    if restored.Field? {
      KeyPrefixFree(previous, restored.key, restored.value);
      RestoredPrefixFree(previous, restored.rest);
      AppendPrefixFree(KeyDiff(previous, restored.key, restored.value), RestoredDiff(previous, restored.rest));
    }
  }

  ghost predicate StartsOutside(entries: seq<Entry>, keys: Fields) {
    forall i :: 0 <= i < |entries| ==> entries[i].path != [] && Get(keys, entries[i].path[0]).None?
  }

  lemma {:induction false} RemovedStarts(previous: Fields, restored: Fields)
    ensures StartsWith(RemovedDiff(previous, restored), previous)
    ensures StartsOutside(RemovedDiff(previous, restored), restored)
    decreases previous
  {
    if previous.Field? {
      RemovedStarts(previous.rest, restored);
      OneRemoved(previous, restored);
    }
  }

  lemma {:induction false} StartsAppend(own: seq<Entry>, rest: seq<Entry>, keys: Fields)
    ensures StartsWith(own, keys) && StartsWith(rest, keys) ==> StartsWith(own + rest, keys)
    ensures StartsOutside(own, keys) && StartsOutside(rest, keys) ==> StartsOutside(own + rest, keys)
  {
    hide Get;
  }

  lemma {:induction false} StartsInRest(entries: seq<Entry>, keys: Fields)
    requires keys.Field? && StartsWith(entries, keys.rest)
    ensures StartsWith(entries, keys)
  {
    forall i | 0 <= i < |entries| ensures entries[i].path != [] && Get(keys, entries[i].path[0]).Some? {
      assert Get(keys.rest, entries[i].path[0]).Some?;
    }
  }

  lemma {:induction false} OwnStarts(previous: Fields, restored: Fields)
    requires previous.Field?
    ensures StartsWith(RemovedKey(restored, previous.key, previous.value), previous)
    ensures StartsOutside(RemovedKey(restored, previous.key, previous.value), restored)
  {
  }

  lemma {:induction false} OneRemoved(previous: Fields, restored: Fields)
    requires previous.Field?
    requires StartsWith(RemovedDiff(previous.rest, restored), previous.rest)
    requires StartsOutside(RemovedDiff(previous.rest, restored), restored)
    ensures StartsWith(RemovedDiff(previous, restored), previous)
    ensures StartsOutside(RemovedDiff(previous, restored), restored)
  {
    var own, rest := RemovedKey(restored, previous.key, previous.value), RemovedDiff(previous.rest, restored);
    assert RemovedDiff(previous, restored) == own + rest;
    hide RemovedDiff, RemovedKey, StartsWith, StartsOutside, Get;
    OwnStarts(previous, restored);
    StartsInRest(rest, previous);
    StartsAppend(own, rest, previous);
    StartsAppend(own, rest, restored);
  }

  lemma {:induction false} RemovedPrefixFree(previous: Fields, restored: Fields)
    requires DistinctFields(previous)
    ensures PrefixFree(RemovedDiff(previous, restored))
    ensures StartsWith(RemovedDiff(previous, restored), previous)
    ensures StartsOutside(RemovedDiff(previous, restored), restored)
    decreases previous
  {
    RemovedStarts(previous, restored);
    if previous.Field? {
      RemovedPrefixFree(previous.rest, restored);
      OwnPrefixFree(previous, restored);
    }
    hide PrefixFree, StartsWith, StartsOutside;
  }

  lemma {:induction false} OwnPrefixFree(previous: Fields, restored: Fields)
    requires previous.Field? && DistinctFields(previous) && PrefixFree(RemovedDiff(previous.rest, restored))
    requires StartsWith(RemovedDiff(previous.rest, restored), previous.rest)
    ensures PrefixFree(RemovedDiff(previous, restored))
  {
    var own, rest := RemovedKey(restored, previous.key, previous.value), RemovedDiff(previous.rest, restored);
    assert RemovedDiff(previous, restored) == own + rest;
    RemovedNonEmpty(previous.rest, restored);
    assert PrefixFree(own);
    hide RemovedDiff, PrefixFree;
    AppendPrefixFree(own, rest);
  }

  /** No reported path is a prefix of another. */
  lemma {:induction false} PathsArePrefixFree(previous: Json, restored: Json)
    requires DistinctKeys(previous) && DistinctKeys(restored)
    ensures PrefixFree(Diff(previous, restored))
    decreases restored, 0
  {
    if previous.Object? && restored.Object? {
      RestoredPrefixFree(previous.fields, restored.fields);
      RemovedPrefixFree(previous.fields, restored.fields);
      AppendPrefixFree(RestoredDiff(previous.fields, restored.fields), RemovedDiff(previous.fields, restored.fields));
    }
  }

  // --- every entry is true ---

  /** The value at a path of keys, if there is one. */
  function At(j: Json, path: seq<string>): Option<Json>
    decreases |path|
  {
    if path == [] then Some(j)
    else if j.Object? && Get(j.fields, path[0]).Some? then At(Get(j.fields, path[0]).value, path[1..])
    else None
  }

  /** The entry says what the two values have at its path. */
  ghost predicate IsTrue(previous: Json, restored: Json, e: Entry) {
    match e.change
    case Added(value) => At(previous, e.path) == None && At(restored, e.path) == Some(value)
    case Changed(before, value) =>
      At(previous, e.path) == Some(before) && At(restored, e.path) == Some(value) && before != value
    case Removed(before) => At(previous, e.path) == Some(before) && At(restored, e.path) == None
  }

  ghost predicate AllTrue(previous: Json, restored: Json, entries: seq<Entry>) {
    forall i :: 0 <= i < |entries| ==> IsTrue(previous, restored, entries[i])
  }

  lemma {:induction false} AtUnder(fields: Fields, key: string, path: seq<string>)
    ensures At(Object(fields), [key] + path)
         == if Get(fields, key).Some? then At(Get(fields, key).value, path) else None
  {
    assert ([key] + path)[1..] == path;
  }

  lemma {:induction false} TrueUnder(previous: Fields, restored: Fields, key: string, entries: seq<Entry>)
    requires Get(previous, key).Some? && Get(restored, key).Some?
    requires AllTrue(Get(previous, key).value, Get(restored, key).value, entries)
    ensures AllTrue(Object(previous), Object(restored), Under(key, entries))
  {
    forall i | 0 <= i < |entries| ensures IsTrue(Object(previous), Object(restored), Under(key, entries)[i]) {
      AtUnder(previous, key, entries[i].path);
      AtUnder(restored, key, entries[i].path);
      assert IsTrue(Get(previous, key).value, Get(restored, key).value, entries[i]);
    }
  }

  lemma {:induction false} TrueAppend(previous: Json, restored: Json, a: seq<Entry>, b: seq<Entry>)
    requires AllTrue(previous, restored, a) && AllTrue(previous, restored, b)
    ensures AllTrue(previous, restored, a + b)
  {
  }

  /** The fields still to be walked are fields of the whole object. */
  ghost predicate PartOf(part: Fields, whole: Fields) {
    forall key :: Get(part, key).Some? ==> Get(whole, key) == Get(part, key)
  }

  lemma {:induction false} RestOfPart(part: Fields, whole: Fields)
    requires part.Field? && DistinctFields(part) && PartOf(part, whole)
    ensures PartOf(part.rest, whole) && Get(whole, part.key) == Some(part.value)
  {
    forall key | Get(part.rest, key).Some? ensures Get(part, key) == Get(part.rest, key) {
      assert key != part.key;
    }
    assert Get(part, part.key) == Some(part.value);
  }

  lemma {:induction false} RestoredTrue(previous: Fields, todo: Fields, restored: Fields)
    requires DistinctFields(previous) && DistinctFields(todo) && PartOf(todo, restored)
    ensures AllTrue(Object(previous), Object(restored), RestoredDiff(previous, todo))
    decreases todo
  {
    if todo.Field? {
      RestOfPart(todo, restored);
      RestoredTrue(previous, todo.rest, restored);
      KeyTrue(previous, restored, todo.key, todo.value);
      TrueAppend(Object(previous), Object(restored), KeyDiff(previous, todo.key, todo.value),
                 RestoredDiff(previous, todo.rest));
    }
  }

  lemma {:induction false} KeyTrue(previous: Fields, restored: Fields, key: string, value: Json)
    requires DistinctFields(previous) && Get(restored, key) == Some(value) && DistinctKeys(value)
    ensures AllTrue(Object(previous), Object(restored), KeyDiff(previous, key, value))
    decreases value, 1
  {
    if Get(previous, key).None? {
      AtUnder(previous, key, []);
      AtUnder(restored, key, []);
      assert [key] + [] == [key];
    } else {
      DistinctGet(previous, key);
      EntriesAreTrue(Get(previous, key).value, value);
      TrueUnder(previous, restored, key, Diff(Get(previous, key).value, value));
    }
  }

  lemma {:induction false} RemovedTrue(todo: Fields, previous: Fields, restored: Fields)
    requires PartOf(todo, previous) && DistinctFields(todo)
    ensures AllTrue(Object(previous), Object(restored), RemovedDiff(todo, restored))
    decreases todo
  {
    if todo.Field? {
      RestOfPart(todo, previous);
      RemovedTrue(todo.rest, previous, restored);
      AtUnder(previous, todo.key, []);
      AtUnder(restored, todo.key, []);
      assert [todo.key] + [] == [todo.key];
      hide PartOf, Get, DistinctFields;
      TrueAppend(Object(previous), Object(restored), RemovedKey(restored, todo.key, todo.value),
                 RemovedDiff(todo.rest, restored));
    }
  }

  /** Every reported entry gives its path's value before, or that there was none, and its value afterwards, or that
      there is none, and the two are different. */
  lemma {:induction false} EntriesAreTrue(previous: Json, restored: Json)
    requires DistinctKeys(previous) && DistinctKeys(restored)
    ensures AllTrue(previous, restored, Diff(previous, restored))
    decreases restored, 0
  {
    if previous.Object? && restored.Object? {
      RestoredTrue(previous.fields, restored.fields, restored.fields);
      RemovedTrue(previous.fields, previous.fields, restored.fields);
      TrueAppend(previous, restored, RestoredDiff(previous.fields, restored.fields),
                 RemovedDiff(previous.fields, restored.fields));
    }
  }

  // --- the source's collector ---

  /** The difference against a value that may be missing altogether. */
  function DiffOf(previous: Option<Json>, restored: Json): seq<Entry> {
    match previous
    case None => [Entry([], Added(restored))]
    case Some(value) => Diff(value, restored)
  }

  lemma {:induction false} PrefixedAppend(prefix: seq<string>, a: seq<Entry>, b: seq<Entry>)
    ensures Prefixed(prefix, a + b) == Prefixed(prefix, a) + Prefixed(prefix, b)
  {
  }

  lemma {:induction false} PrefixedUnder(prefix: seq<string>, key: string, entries: seq<Entry>)
    ensures Prefixed(prefix + [key], entries) == Prefixed(prefix, Under(key, entries))
  {
    forall i | 0 <= i < |entries| ensures prefix + [key] + entries[i].path == prefix + ([key] + entries[i].path) {
    }
  }

  /** Collects the entries under a path prefix, walking the keys of both objects. */
  method CollectDiff(previous: Option<Json>, restored: Json, prefix: seq<string>) returns (entries: seq<Entry>)
    ensures entries == Prefixed(prefix, DiffOf(previous, restored))
    decreases restored, 0
  {
    assert prefix + [] == prefix;
    if previous.None? {
      return [Entry(prefix, Added(restored))];
    }
    if previous.value.Object? && restored.Object? {
      var restoredEntries := CollectRestored(previous.value.fields, restored.fields, prefix);
      var removedEntries := CollectRemoved(previous.value.fields, restored.fields, prefix);
      PrefixedAppend(prefix, RestoredDiff(previous.value.fields, restored.fields),
                     RemovedDiff(previous.value.fields, restored.fields));
      return restoredEntries + removedEntries;
    }
    if previous.value == restored {
      return [];
    }
    return [Entry(prefix, Changed(previous.value, restored))];
  }

  lemma {:induction false} RestoredStep(prefix: seq<string>, previous: Fields, todo: Fields, entries: seq<Entry>,
                                        child: seq<Entry>)
    requires todo.Field? && child == Prefixed(prefix, KeyDiff(previous, todo.key, todo.value))
    ensures entries + Prefixed(prefix, RestoredDiff(previous, todo))
         == entries + child + Prefixed(prefix, RestoredDiff(previous, todo.rest))
  {
    PrefixedAppend(prefix, KeyDiff(previous, todo.key, todo.value), RestoredDiff(previous, todo.rest));
    var rest := Prefixed(prefix, RestoredDiff(previous, todo.rest));
    assert entries + (child + rest) == entries + child + rest;
  }

  /** One key of the restored object: missing before, or compared further down. */
  method CollectKey(previous: Fields, key: string, value: Json, prefix: seq<string>) returns (entries: seq<Entry>)
    ensures entries == Prefixed(prefix, KeyDiff(previous, key, value))
    decreases value, 1
  {
    if Get(previous, key).None? {
      return [Entry(prefix + [key], Added(value))];
    }
    entries := CollectDiff(Get(previous, key), value, prefix + [key]);
    PrefixedUnder(prefix, key, Diff(Get(previous, key).value, value));
  }

  /** The loop over the restored object's keys. */
  method CollectRestored(previous: Fields, restored: Fields, prefix: seq<string>) returns (entries: seq<Entry>)
    ensures entries == Prefixed(prefix, RestoredDiff(previous, restored))
    decreases restored
  {
    entries := [];
    var todo := restored;
    while todo.Field?
      invariant todo == restored || todo < restored
      invariant entries + Prefixed(prefix, RestoredDiff(previous, todo))
             == Prefixed(prefix, RestoredDiff(previous, restored))
      decreases todo
    {
      var child := CollectKey(previous, todo.key, todo.value, prefix);
      RestoredStep(prefix, previous, todo, entries, child);
      entries := entries + child;
      todo := todo.rest;
    }
  }

  /** What one key of the previous object adds. */
  function RemovedKey(restored: Fields, key: string, value: Json): seq<Entry> {
    if Get(restored, key).None? then [Entry([key], Removed(value))] else []
  }

  lemma {:induction false} RemovedStep(prefix: seq<string>, todo: Fields, restored: Fields, entries: seq<Entry>)
    requires todo.Field?
    ensures entries + Prefixed(prefix, RemovedDiff(todo, restored))
         == entries + Prefixed(prefix, RemovedKey(restored, todo.key, todo.value))
            + Prefixed(prefix, RemovedDiff(todo.rest, restored))
  {
    var own, rest := RemovedKey(restored, todo.key, todo.value), RemovedDiff(todo.rest, restored);
    assert RemovedDiff(todo, restored) == own + rest;
    hide Prefixed, RemovedDiff, RemovedKey;
    PrefixedAppend(prefix, own, rest);
    assert entries + (Prefixed(prefix, own) + Prefixed(prefix, rest))
        == entries + Prefixed(prefix, own) + Prefixed(prefix, rest);
  }

  lemma {:induction false} RemovedKeyIs(prefix: seq<string>, restored: Fields, key: string, value: Json)
    ensures Prefixed(prefix, RemovedKey(restored, key, value))
         == if Get(restored, key).None? then [Entry(prefix + [key], Removed(value))] else []
  {
  }

  /** The loop over the keys the restored object does not have. */
  method CollectRemoved(previous: Fields, restored: Fields, prefix: seq<string>) returns (entries: seq<Entry>)
    ensures entries == Prefixed(prefix, RemovedDiff(previous, restored))
  {
    entries := [];
    var todo := previous;
    while todo.Field?
      invariant entries + Prefixed(prefix, RemovedDiff(todo, restored))
             == Prefixed(prefix, RemovedDiff(previous, restored))
      decreases todo
    {
      RemovedStep(prefix, todo, restored, entries);
      RemovedKeyIs(prefix, restored, todo.key, todo.value);
      if Get(restored, todo.key).None? {
        entries := entries + [Entry(prefix + [todo.key], Removed(todo.value))];
      } else {
        assert entries + [] == entries;
      }
      todo := todo.rest;
    }
  }
}
