/** The backlog of scripts/repipe/needs.py: files by name, and merging a filing into the stored one. */
module NeedBacklog {
  import opened NeedValues
  import opened NeedText
  import opened NeedRecord
  import opened NeedRoundTrip
  import opened NeedParsed

  /** The files of the backlog, by name without extension. */
  type Store = map<string, string>

  datatype Outcome<+T> = Ok(value: T) | Raise

  /** Everything of the surroundings a merge depends on: the number conversions, the value Python's == and
      hash identify a list item by, str() of a list, and the pattern and range checks of validate() on
      credibility, probe_id and acceptance_id. */
  datatype Env = Env(
    py: Numbers, same: Scalar -> Scalar, listText: seq<Scalar> -> string, rest: (Scalar, Scalar, Scalar) -> bool)

  // ---------- list union ----------

  /** Items whose key was not seen before; same gives the value Python's == and hash identify items by. */
  function Dedupe(same: Scalar -> Scalar, items: seq<Scalar>, seen: set<Scalar>): seq<Scalar> {
    if items == [] then []
    else if same(items[0]) in seen then Dedupe(same, items[1..], seen)
    else [items[0]] + Dedupe(same, items[1..], seen + {same(items[0])})
  }

  function Union(same: Scalar -> Scalar, old_: seq<Scalar>, new_: seq<Scalar>): seq<Scalar> {
    Dedupe(same, old_ + new_, {})
  }

  method UnionLoop(same: Scalar -> Scalar, old_: seq<Scalar>, new_: seq<Scalar>) returns (out: seq<Scalar>)
    ensures out == Union(same, old_, new_)
  {
    var items, seen := old_ + new_, {};
    out := [];
    for i := 0 to |items|
      invariant out + Dedupe(same, items[i..], seen) == Union(same, old_, new_)
    {
      var item := items[i];
      assert items[i..][1..] == items[i + 1..];
      if same(item) in seen {
        continue;
      }
      seen := seen + {same(item)};
      out := out + [item];
    }
  }

  function Keys(same: Scalar -> Scalar, items: seq<Scalar>): set<Scalar> {
    if items == [] then {} else {same(items[0])} + Keys(same, items[1..])
  }

  predicate DupFree(same: Scalar -> Scalar, items: seq<Scalar>) {
    items == [] || (same(items[0]) !in Keys(same, items[1..]) && DupFree(same, items[1..]))
  }

  lemma {:induction false} DedupeAppend(same: Scalar -> Scalar, a: seq<Scalar>, b: seq<Scalar>, seen: set<Scalar>)
    ensures Dedupe(same, a + b, seen) == Dedupe(same, a, seen) + Dedupe(same, b, seen + Keys(same, a))
    decreases |a|
  {
    if a == [] {
      assert a + b == b && seen + {} == seen;
    } else {
      assert (a + b)[1..] == a[1..] + b;
      var k := same(a[0]);
      if k in seen {
        DedupeAppend(same, a[1..], b, seen);
        assert seen + Keys(same, a[1..]) == seen + Keys(same, a);
      } else {
        DedupeAppend(same, a[1..], b, seen + {k});
        assert (seen + {k}) + Keys(same, a[1..]) == seen + Keys(same, a);
      }
    }
  }

  lemma {:induction false} DedupeIsDupFree(same: Scalar -> Scalar, a: seq<Scalar>, seen: set<Scalar>)
    ensures Keys(same, Dedupe(same, a, seen)) == Keys(same, a) - seen && DupFree(same, Dedupe(same, a, seen))
    decreases |a|
  {
    if a != [] {
      DedupeIsDupFree(same, a[1..], seen);
      DedupeIsDupFree(same, a[1..], seen + {same(a[0])});
      var rest := Dedupe(same, a[1..], seen + {same(a[0])});
      assert ([a[0]] + rest)[1..] == rest;
    }
  }

  lemma {:induction false} DedupeOfDupFree(same: Scalar -> Scalar, a: seq<Scalar>, seen: set<Scalar>)
    requires DupFree(same, a) && Keys(same, a) !! seen
    ensures Dedupe(same, a, seen) == a
    decreases |a|
  {
    if a != [] {
      DedupeOfDupFree(same, a[1..], seen + {same(a[0])});
      assert a == [a[0]] + a[1..];
    }
  }

  lemma {:induction false} DedupeOfSeen(same: Scalar -> Scalar, a: seq<Scalar>, seen: set<Scalar>)
    requires Keys(same, a) <= seen
    ensures Dedupe(same, a, seen) == []
  {
    if a != [] {
      DedupeOfSeen(same, a[1..], seen);
    }
  }

  lemma {:induction false} KeysAppend(same: Scalar -> Scalar, a: seq<Scalar>, b: seq<Scalar>)
    ensures Keys(same, a + b) == Keys(same, a) + Keys(same, b)
  {
    if a == [] {
      assert a + b == b;
    } else {
      assert (a + b)[1..] == a[1..] + b;
      KeysAppend(same, a[1..], b);
    }
  }

  lemma UnionTwice(same: Scalar -> Scalar, a: seq<Scalar>, b: seq<Scalar>)
    ensures Union(same, Union(same, a, b), b) == Union(same, a, b)
  {
    var u := Union(same, a, b);
    DedupeIsDupFree(same, a + b, {});
    KeysAppend(same, a, b);
    DedupeAppend(same, u, b, {});
    DedupeOfDupFree(same, u, {});
    DedupeOfSeen(same, b, {} + Keys(same, u));
  }

  lemma UnionOfSelf(same: Scalar -> Scalar, a: seq<Scalar>)
    ensures Union(same, a, a) == a <==> DupFree(same, a)
  {
    DedupeAppend(same, a, a, {});
    DedupeOfSeen(same, a, {} + Keys(same, a));
    DedupeIsDupFree(same, a, {});
    assert Union(same, a, a) == Dedupe(same, a, {}) + [];
    assert Dedupe(same, a, {}) + [] == Dedupe(same, a, {});
    if DupFree(same, a) {
      DedupeOfDupFree(same, a, {});
    }
  }

  // ---------- validation ----------

  const TRACKS: seq<string> := ["tooling", "quality", "perf", "loader"]
  const STATUSES: seq<string> :=
    ["open", "claimed", "building", "proposal", "closed", "regressed", "blocked", "rejected"]
  const SEVERITIES: seq<string> := ["blocker", "major", "minor"]
  const VERDICTS: seq<string> := ["upheld", "overturned", "inconclusive"]
  const SCOPES: seq<string> := ["small", "large"]

  function Str1(s: string): Value { One(Str(s)) }

  /** The defaults a new record is filled up with. */
  const DEFAULTS: Dict<Value> := [
    Entry("track", Str1("tooling")), Entry("status", Str1("open")), Entry("severity", Str1("minor")),
    Entry("hypothesis_status", Str1("inconclusive")), Entry("credibility", One(Float("0.0"))),
    Entry("instances", One(Int(0))), Entry("challenges", List([])), Entry("rounds", List([])),
    Entry("first_seen_round", One(Int(0))), Entry("attempts", One(Int(0))), Entry("covered_by_option", One(Null)),
    Entry("touches", List([])), Entry("scope", Str1("small")), Entry("regression_of", One(Null)), Entry("pr", One(Null)),
    Entry("closed_in_round", One(Null)), Entry("closing_pr", One(Null)), Entry("reject_reason", One(Null))]

  function Default(key: string): Value {
    match Get(DEFAULTS, key) case Some(v) => v case None => One(Null)
  }

  function Field(fields: Dict<Value>, key: string): Value {
    match Get(fields, key) case Some(v) => v case None => Default(key)
  }

  predicate Allowed(v: Value, allowed: seq<string>) { v == One(Null) || (v.One? && v.scalar.Str? && v.scalar.s in allowed) }

  const CREDIBILITY: string := "credibility"
  const PROBE: string := "probe_id"
  const ACCEPTANCE: string := "acceptance_id"

  /** validate(need) finds nothing; a list passes none of its checks. */
  predicate Valid(env: Env, fields: Dict<Value>) {
    && IdOk(Get(fields, ID))
    && Allowed(Field(fields, "track"), TRACKS) && Allowed(Field(fields, "status"), STATUSES)
    && Allowed(Field(fields, "severity"), SEVERITIES)
    && Allowed(Field(fields, "hypothesis_status"), VERDICTS) && Allowed(Field(fields, "scope"), SCOPES)
    && Field(fields, CREDIBILITY).One? && Field(fields, PROBE).One? && Field(fields, ACCEPTANCE).One?
    && env.rest(Field(fields, CREDIBILITY).scalar, Field(fields, PROBE).scalar, Field(fields, ACCEPTANCE).scalar)
  }

  /** "%s" % v */
  function Shown(env: Env, v: Value): string {
    match v
    case One(Str(s)) => s
    case One(Int(n)) => IntToText(n)
    case One(Float(r)) => r
    case One(Bool(b)) => if b then "True" else "False"
    case One(Null) => "None"
    case List(items) => env.listText(items)
  }

  /** The name of the file a need is kept in. */
  function FileName(env: Env, fields: Dict<Value>): string { Shown(env, Field(fields, ID)) }

  // ---------- merging one filing ----------

  /** int(v); Raise for what Python refuses. */
  function IntOf(py: Numbers, v: Value): Outcome<int> {
    match v
    case One(Int(n)) => Ok(n)
    case One(Bool(b)) => Ok(if b then 1 else 0)
    case One(Float(r)) => Ok(py.intOfFloat(r))
    case One(Str(s)) => if py.intOfText(s).Some? then Ok(py.intOfText(s).value) else Raise
    case _ => Raise
  }

  /** v or 0 */
  function OrZero(v: Value): Value { if Truthy(Some(v)) then v else One(Int(0)) }

  function Items(v: Value): seq<Scalar> { if v.List? then v.items else [] }

  predicate IsCounter(key: string) { key == "instances" || key == "attempts" }

  const FIRST: string := "first_seen_round"

  function Max(a: int, b: int): int { if a < b then b else a }

  function Min(a: int, b: int): int { if b < a then b else a }

  /** The stored field after a filing gives value for it; cur is the stored field, None if absent. */
  function MergeField(env: Env, key: string, cur: Option<Value>, value: Value): Outcome<Option<Value>> {
    var was := if cur.Some? then cur.value else Default(key);
    if key in LIST_FIELDS then Ok(Some(List(Union(env.same, Items(was), Items(value)))))
    else if IsCounter(key) then
      var a, b := IntOf(env.py, OrZero(was)), IntOf(env.py, OrZero(value));
      if a.Raise? || b.Raise? then Raise else Ok(Some(One(Int(Max(a.value, b.value)))))
    else if key == FIRST then
      if was == One(Null) then
        var a := IntOf(env.py, value);
        if a.Raise? then Raise else Ok(Some(One(Int(a.value))))
      else
        var a, b := IntOf(env.py, was), IntOf(env.py, OrZero(value));
        if a.Raise? || b.Raise? then Raise else Ok(Some(One(Int(Min(a.value, b.value)))))
    else if value != One(Null) then Ok(Some(Coerce(env.py, key, value)))
    else Ok(cur)
  }

  /** The filed fields f merged one after the other; e is the stored record, acc what it has become. */
  function MergeFields(env: Env, e: Dict<Value>, f: Dict<Value>, acc: Dict<Value>): Outcome<Dict<Value>> {
    if f == [] then Ok(acc)
    else
      match MergeField(env, f[0].key, Get(e, f[0].key), f[0].value)
      case Raise => Raise
      case Ok(None) => MergeFields(env, e, f[1..], acc)
      case Ok(Some(v)) => MergeFields(env, e, f[1..], Put(acc, f[0].key, v))
  }

  /** A section that says something replaces the stored one; an empty one only leaves its name. */
  function MergeSection(acc: Dict<string>, x: Entry<string>): Dict<string> {
    if Strip(x.value) != "" then Put(acc, x.key, x.value)
    else if Get(acc, x.key).Some? then acc
    else Put(acc, x.key, "")
  }

  function MergeSections(f: Dict<string>, acc: Dict<string>): Dict<string> {
    if f == [] then acc else MergeSections(f[1..], MergeSection(acc, f[0]))
  }

  /** setdefault for every default. */
  function FillUp(defaults: Dict<Value>, fields: Dict<Value>): Dict<Value> {
    if defaults == [] then fields
    else
      var x := defaults[0];
      FillUp(defaults[1..], if Get(fields, x.key).Some? then fields else Put(fields, x.key, x.value))
  }

  // ---------- the backlog ----------

  datatype Loaded = Missing | Broken | Found(need: Need)

  /** load(id): no file, a file without front matter, which raises, or a record. */
  function Load(env: Env, store: Store, id: string): Loaded {
    if id !in store then Missing
    else match Parse(env.py, id, store[id]) case NoFrontMatter => Broken case Parsed(n) => Found(n)
  }

  /** The record a filing writes. */
  function Filed(env: Env, store: Store, f: Need): Outcome<Need> {
    match Load(env, store, FileName(env, f.fields))
    case Missing => Ok(Need(FillUp(DEFAULTS, f.fields), f.sections))
    case Broken => Raise
    case Found(e) =>
      match MergeFields(env, e.fields, f.fields, e.fields)
      case Raise => Raise
      case Ok(fields) => Ok(Need(fields, MergeSections(f.sections, e.sections)))
  }

  function Write(env: Env, store: Store, id: string, r: Need): Outcome<Store> {
    if Valid(env, r.fields) then Ok(store[id := Render(r)]) else Raise
  }

  /** upsert(f): the files after a filing, or the exception. */
  function Upsert(env: Env, store: Store, f: Need): Outcome<Store> {
    match Filed(env, store, f)
    case Raise => Raise
    case Ok(r) => Write(env, store, FileName(env, f.fields), r)
  }

  /** A filing touches no other file. */
  lemma FilingIsLocal(env: Env, store: Store, f: Need, other: string)
    requires Upsert(env, store, f).Ok? && other != FileName(env, f.fields)
    ensures Load(env, Upsert(env, store, f).value, other) == Load(env, store, other)
  {
    hide Filed, Valid, Parse, Render, FileName;
  }

  // ---------- the code ----------

  method FillUpLoop(need: Dict<Value>) returns (fields: Dict<Value>)
    ensures fields == FillUp(DEFAULTS, need)
  {
    hide DEFAULTS, Put, Get;
    fields := need;
    for i := 0 to |DEFAULTS|
      invariant FillUp(DEFAULTS[i..], fields) == FillUp(DEFAULTS, need)
    {
      assert DEFAULTS[i..][1..] == DEFAULTS[i + 1..];
      if Get(fields, DEFAULTS[i].key).None? {
        fields := Put(fields, DEFAULTS[i].key, DEFAULTS[i].value);
      }
    }
  }

  method MergeFieldsLoop(env: Env, existing: Dict<Value>, need: Dict<Value>) returns (raised: bool, fields: Dict<Value>)
    ensures MergeFields(env, existing, need, existing) == if raised then Raise else Ok(fields)
  {
    hide MergeField, Put;
    raised, fields := false, existing;
    for i := 0 to |need|
      invariant MergeFields(env, existing, need[i..], fields) == MergeFields(env, existing, need, existing)
    {
      assert need[i..][1..] == need[i + 1..];
      var value := MergeField(env, need[i].key, Get(existing, need[i].key), need[i].value);
      if value.Raise? {
        return true, fields;
      }
      if value.value.Some? {
        fields := Put(fields, need[i].key, value.value.value);
      }
    }
  }

  method MergeSectionsLoop(existing: Dict<string>, need: Dict<string>) returns (sections: Dict<string>)
    ensures sections == MergeSections(need, existing)
  {
    hide Strip, Put, Get;
    sections := existing;
    for i := 0 to |need|
      invariant MergeSections(need[i..], sections) == MergeSections(need, existing)
    {
      assert need[i..][1..] == need[i + 1..];
      if Strip(need[i].value) != "" {
        sections := Put(sections, need[i].key, need[i].value);
      } else if Get(sections, need[i].key).None? {
        sections := Put(sections, need[i].key, "");
      }
    }
  }

  /** The record files on disk. */
  class Backlog {
    var store: Store

    constructor (files: Store)
      ensures store == files
    {
      store := files;
    }

    method UpsertNeed(env: Env, need: Need) returns (raised: bool)
      modifies this
      ensures match Upsert(env, old(store), need)
        case Ok(s) => !raised && store == s
        case Raise => raised && store == old(store)
    {
      hide Valid, DEFAULTS, MergeFields, MergeSections, FillUp, Parse, Render, FileName, ID;
      var id := FileName(env, need.fields);
      var fields, sections;
      match Load(env, store, id) {
        case Missing =>
          fields := FillUpLoop(need.fields);
          sections := need.sections;
        case Broken =>
          return true;
        case Found(existing) =>
          raised, fields := MergeFieldsLoop(env, existing.fields, need.fields);
          if raised {
            return;
          }
          sections := MergeSectionsLoop(existing.sections, need.sections);
      }
      var merged := Need(fields, sections);
      assert Filed(env, store, need) == Ok(merged);
      raised := !Valid(env, merged.fields);
      if !raised {
        store := store[id := Render(merged)];
      }
    }
  }

  // ---------- what a merge does to each field ----------

  /** The stored field after the whole filing. */
  function After(env: Env, e: Dict<Value>, f: Dict<Value>, key: string): Outcome<Option<Value>> {
    match Get(f, key)
    case None => Ok(Get(e, key))
    case Some(v) => MergeField(env, key, Get(e, key), v)
  }

  lemma MergeFieldKeeps(env: Env, key: string, cur: Option<Value>, value: Value)
    ensures MergeField(env, key, cur, value) == Ok(None) ==> cur == None
  {
    hide LIST_FIELDS, DEFAULTS, Coerce, Truthy, FIRST, IsCounter, IntOf, Union;
  }

  function Left(env: Env, e: Dict<Value>, f: Dict<Value>, acc: Dict<Value>, key: string): Option<Value> {
    match Get(f, key)
    case None => Get(acc, key)
    case Some(v) =>
      var r := MergeField(env, key, Get(e, key), v);
      if r.Ok? && r.value.Some? then r.value else Get(acc, key)
  }

  lemma {:induction false} MergeFieldsAre(env: Env, e: Dict<Value>, f: Dict<Value>, acc: Dict<Value>)
    requires Distinct(f)
    ensures MergeFields(env, e, f, acc).Ok? <==> forall x | x in f :: MergeField(env, x.key, Get(e, x.key), x.value).Ok?
    ensures MergeFields(env, e, f, acc).Ok? ==>
      forall key :: Get(MergeFields(env, e, f, acc).value, key) == Left(env, e, f, acc, key)
    ensures MergeFields(env, e, f, acc).Ok? && Distinct(acc) ==> Distinct(MergeFields(env, e, f, acc).value)
    decreases |f|
  {
    hide MergeField;
    if f != [] {
      var x := f[0];
      assert f == [x] + f[1..];
      GetIsEntry(f[1..], x.key);
      var r := MergeField(env, x.key, Get(e, x.key), x.value);
      if r.Ok? {
        var more := if r.value.Some? then Put(acc, x.key, r.value.value) else acc;
        MergeFieldsAre(env, e, f[1..], more);
        if r.value.Some? {
          if Distinct(acc) {
            PutDistinct(acc, x.key, r.value.value);
          }
          forall k ensures Get(more, k) == if k == x.key then r.value else Get(acc, k) {
            GetPut(acc, x.key, r.value.value, k);
          }
        }
      }
    }
  }

  /** A merge is the merge of each field. */
  lemma Merged(env: Env, e: Dict<Value>, f: Dict<Value>)
    requires Distinct(f)
    ensures MergeFields(env, e, f, e).Ok? <==> forall x | x in f :: MergeField(env, x.key, Get(e, x.key), x.value).Ok?
    ensures MergeFields(env, e, f, e).Ok? ==>
      forall key :: After(env, e, f, key) == Ok(Get(MergeFields(env, e, f, e).value, key))
    ensures MergeFields(env, e, f, e).Ok? && Distinct(e) ==> Distinct(MergeFields(env, e, f, e).value)
  {
    MergeFieldsAre(env, e, f, e);
    if MergeFields(env, e, f, e).Ok? {
      var m := MergeFields(env, e, f, e).value;
      forall key ensures After(env, e, f, key) == Ok(Get(m, key)) {
        if Get(f, key).Some? {
          GetIsEntry(f, key);
          assert Entry(key, Get(f, key).value) in f;
          MergeFieldKeeps(env, key, Get(e, key), Get(f, key).value);
        }
      }
    }
  }

  /** Every scalar of the field satisfies p. */
  predicate Holds(p: (string, Scalar) -> bool, key: string, v: Value) {
    match v
    case One(s) => p(key, s)
    case List(items) => forall s | s in items :: p(key, s)
  }

  lemma {:induction false} DedupeItems(same: Scalar -> Scalar, items: seq<Scalar>, seen: set<Scalar>)
    ensures forall s | s in Dedupe(same, items, seen) :: s in items
  {
    if items != [] {
      DedupeItems(same, items[1..], seen);
      DedupeItems(same, items[1..], seen + {same(items[0])});
    }
  }

  lemma KeyKinds(key: string)
    ensures IsCounter(key) || key == FIRST ==> key !in LIST_FIELDS && key in INT_FIELDS
    ensures !(IsCounter(key) && key == FIRST)
  {
    assert |"challenges"| == 10 && |"rounds"| == 6 && |"touches"| == 7 && |"instances"| == 9 && |"attempts"| == 8 && |FIRST| == 16;
    assert "instances" == INT_FIELDS[0] && FIRST == INT_FIELDS[1] && "attempts" == INT_FIELDS[2];
  }

  lemma IntCoerced(env: Env, key: string, n: int)
    requires key in INT_FIELDS && key !in LIST_FIELDS
    ensures Coerce(env.py, key, One(Int(n))) == One(Int(n))
  {
  }

  lemma ListCoerced(env: Env, key: string, items: seq<Scalar>)
    ensures Coerce(env.py, key, List(items)) == List(items)
  {
    hide LIST_FIELDS, INT_FIELDS, FLOAT_FIELDS;
  }

  /** A merged field is typed, and has no property of scalars that neither side has. */
  lemma MergeFieldHolds(env: Env, p: (string, Scalar) -> bool, key: string, cur: Option<Value>, value: Value)
    requires cur.Some? ==> Holds(p, key, cur.value) && Coerce(env.py, key, cur.value) == cur.value
    requires Holds(p, key, value) && Coerce(env.py, key, value) == value && forall n :: p(key, Int(n))
    ensures var r := MergeField(env, key, cur, value);
      r.Ok? && r.value.Some? ==> Holds(p, key, r.value.value) && Coerce(env.py, key, r.value.value) == r.value.value
  {
    KeyKinds(key);
    var r := MergeField(env, key, cur, value);
    if r.Ok? && r.value.Some? {
      if key in LIST_FIELDS {
        var was := if cur.Some? then cur.value else Default(key);
        var items := Union(env.same, Items(was), Items(value));
        DefaultList(key);
        hide LIST_FIELDS, DEFAULTS, Coerce, INT_FIELDS, FIRST, IsCounter, Default;
        ListCoerced(env, key, items);
        DedupeItems(env.same, Items(was) + Items(value), {});
      } else {
        hide LIST_FIELDS, DEFAULTS, Coerce, INT_FIELDS, FIRST, IsCounter, IntOf, OrZero, Max, Min, Default;
        if IsCounter(key) || key == FIRST {
          IntCoerced(env, key, r.value.value.scalar.n);
        }
      }
    }
  }

  lemma DefaultList(key: string)
    requires key in LIST_FIELDS
    ensures Items(Default(key)) == []
  {
    forall i | 0 <= i < |DEFAULTS| ensures DEFAULTS[i].key == key ==> DEFAULTS[i].value == List([]) {
      if DEFAULTS[i].key == key {
        DefaultListAt(key, i);
      }
    }
    hide DEFAULTS, LIST_FIELDS;
    GetIsEntry(DEFAULTS, key);
  }

  lemma DefaultListAt(key: string, i: nat)
    requires key in LIST_FIELDS && i < |DEFAULTS| && DEFAULTS[i].key == key
    ensures DEFAULTS[i].value == List([])
  {
    assert |"challenges"| == 10 && |"rounds"| == 6 && |"touches"| == 7;
    assert key == "challenges" || key == "rounds" || key == "touches";
  }

  // ---------- what a merge does to each section ----------

  lemma {:induction false} MergeSectionsAre(f: Dict<string>, acc: Dict<string>, name: string)
    requires Distinct(f)
    ensures Get(MergeSections(f, acc), name) ==
      match Get(f, name)
      case None => Get(acc, name)
      case Some(b) => if Strip(b) != "" then Some(b) else if Get(acc, name).Some? then Get(acc, name) else Some("")
    ensures Distinct(acc) ==> Distinct(MergeSections(f, acc))
    decreases |f|
  {
    hide Strip;
    if f != [] {
      var x := f[0];
      assert f == [x] + f[1..];
      GetIsEntry(f[1..], x.key);
      MergeSectionsAre(f[1..], MergeSection(acc, x), name);
      GetPut(acc, x.key, x.value, name);
      GetPut(acc, x.key, "", name);
      if Distinct(acc) {
        PutDistinct(acc, x.key, x.value);
        PutDistinct(acc, x.key, "");
      }
    }
  }

  // ---------- filling up ----------

  lemma {:induction false} FillUpAre(defaults: Dict<Value>, fields: Dict<Value>, key: string)
    ensures Get(FillUp(defaults, fields), key) == if Get(fields, key).Some? then Get(fields, key) else Get(defaults, key)
    ensures Distinct(fields) ==> Distinct(FillUp(defaults, fields))
    decreases |defaults|
  {
    if defaults != [] {
      var x := defaults[0];
      var more := if Get(fields, x.key).Some? then fields else Put(fields, x.key, x.value);
      FillUpAre(defaults[1..], more, key);
      GetPut(fields, x.key, x.value, key);
      if Distinct(fields) {
        PutDistinct(fields, x.key, x.value);
      }
    }
  }
}
