/** What an upsert of scripts/repipe/needs.py makes of each kind of field, in the merge and on the next load. */
module NeedUpsert {
  import opened NeedValues
  import opened NeedText
  import opened NeedRecord
  import opened NeedRoundTrip
  import opened NeedParsed
  import opened NeedBacklog
  import opened NeedMerge
  import opened NeedFiling

  // ---------- numbers ----------

  /** int(v) is n. */
  predicate Reads(py: Numbers, v: Value, n: int) {
    match v
    case One(Int(m)) => n == m
    case One(Bool(b)) => n == if b then 1 else 0
    case One(Float(r)) => n == py.intOfFloat(r)
    case One(Str(s)) => py.intOfText(s) == Some(n)
    case _ => false
  }

  /** int(v or 0) is n: nothing, an empty text and an empty list count as 0. */
  predicate Counts(py: Numbers, v: Value, n: int) {
    match v
    case One(Null) => n == 0
    case One(Str(s)) => if s == "" then n == 0 else py.intOfText(s) == Some(n)
    case One(Float(r)) => n == if r == "0.0" || r == "-0.0" then 0 else py.intOfFloat(r)
    case List(items) => items == [] && n == 0
    case _ => Reads(py, v, n)
  }

  ghost predicate IsNumber(py: Numbers, v: Value) { exists n :: Reads(py, v, n) }

  ghost predicate IsCount(py: Numbers, v: Value) { exists n :: Counts(py, v, n) }

  /** A stored number, 0 when the record has none. */
  function Number(e: Dict<Value>, key: string): Value {
    match Get(e, key) case Some(v) => v case None => One(Int(0))
  }

  lemma IntOfReads(py: Numbers, v: Value, n: int)
    ensures IntOf(py, v) == Ok(n) <==> Reads(py, v, n)
    ensures IntOf(py, OrZero(v)) == Ok(n) <==> Counts(py, v, n)
  {
  }

  lemma IntOfOk(py: Numbers, v: Value)
    ensures IntOf(py, v).Ok? <==> IsNumber(py, v)
    ensures IntOf(py, OrZero(v)).Ok? <==> IsCount(py, v)
  {
    forall n {:trigger Reads(py, v, n)} ensures IntOf(py, v) == Ok(n) <==> Reads(py, v, n) {
      IntOfReads(py, v, n);
    }
    forall n {:trigger Counts(py, v, n)} ensures IntOf(py, OrZero(v)) == Ok(n) <==> Counts(py, v, n) {
      IntOfReads(py, v, n);
    }
    hide Reads, Counts, IntOf, OrZero;
    if IntOf(py, v).Ok? {
      assert Reads(py, v, IntOf(py, v).value);
    }
    if IntOf(py, OrZero(v)).Ok? {
      assert Counts(py, v, IntOf(py, OrZero(v)).value);
    }
  }

  lemma ZeroDefaults(key: string)
    requires key == "instances" || key == "attempts" || key == "first_seen_round"
    ensures Default(key) == One(Int(0)) && key !in LIST_FIELDS && (key == FIRST <==> key == "first_seen_round")
    ensures IsCounter(key) <==> key != "first_seen_round"
  {
    var i := if key == "instances" then 5 else if key == "attempts" then 9 else 8;
    assert DEFAULTS[i] == Entry(key, One(Int(0)));
    KeyKinds(key);
    DefaultAt(i);
    hide DEFAULTS;
  }

  lemma DefaultNames(i: nat)
    requires i < |DEFAULTS|
    ensures DEFAULTS[i].key == ["track", "status", "severity", "hypothesis_status", "credibility", "instances", "challenges",
      "rounds", "first_seen_round", "attempts", "covered_by_option", "touches", "scope", "regression_of", "pr",
      "closed_in_round", "closing_pr", "reject_reason"][i]
  {
  }

  lemma DefaultsDistinct(i: nat, j: nat)
    requires i < j < |DEFAULTS|
    ensures DEFAULTS[i].key != DEFAULTS[j].key
  {
    DefaultNames(i);
    DefaultNames(j);
    hide DEFAULTS;
  }

  /** A default is found under its name. */
  lemma DefaultAt(i: nat)
    requires i < |DEFAULTS|
    ensures Get(DEFAULTS, DEFAULTS[i].key) == Some(DEFAULTS[i].value)
  {
    forall j, k | 0 <= j < k < |DEFAULTS| ensures DEFAULTS[j].key != DEFAULTS[k].key {
      DefaultsDistinct(j, k);
    }
    hide DEFAULTS;
    GetEntry(DEFAULTS, DEFAULTS[i]);
  }

  // ---------- the merge, field by field ----------

  /** Merged, and given in the filing. */
  predicate MergesTo(env: Env, e: Dict<Value>, f: Dict<Value>, m: Dict<Value>, key: string, v: Value) {
    Distinct(f) && MergeFields(env, e, f, e) == Ok(m) && Get(f, key) == Some(v)
  }

  lemma MergedAs(env: Env, e: Dict<Value>, f: Dict<Value>, m: Dict<Value>, key: string, v: Value)
    requires MergesTo(env, e, f, m, key, v)
    ensures MergeField(env, key, Get(e, key), v) == Ok(Get(m, key))
  {
    hide MergeField, Distinct, MergeFields;
    Merged(env, e, f);
    assert After(env, e, f, key) == Ok(Get(m, key));
  }

  /** instances and attempts: the larger of the stored and the filed number. */
  lemma CounterMerged(env: Env, e: Dict<Value>, f: Dict<Value>, m: Dict<Value>, key: string, v: Value, a: int, b: int)
    requires MergesTo(env, e, f, m, key, v) && (key == "instances" || key == "attempts")
    requires Counts(env.py, Number(e, key), a) && Counts(env.py, v, b)
    ensures Get(m, key).Some? && Get(m, key).value.One? && Get(m, key).value.scalar.Int?
    ensures var r := Get(m, key).value.scalar.n; r >= a && r >= b && (r == a || r == b)
  {
    MergedAs(env, e, f, m, key, v);
    ZeroDefaults(key);
    IntOfReads(env.py, Number(e, key), a);
    IntOfReads(env.py, v, b);
    hide MergesTo, DEFAULTS, Default, LIST_FIELDS, FIRST, IntOf, OrZero, Counts, Reads, IsCounter;
  }

  /** first_seen_round: the smaller of the two, or the filed number where null was stored. */
  lemma FirstSeenMerged(env: Env, e: Dict<Value>, f: Dict<Value>, m: Dict<Value>, v: Value, a: int, b: int)
    requires MergesTo(env, e, f, m, "first_seen_round", v)
    ensures var was := Number(e, "first_seen_round");
      was != One(Null) && Reads(env.py, was, a) && Counts(env.py, v, b) ==>
        && Get(m, "first_seen_round").Some? && Get(m, "first_seen_round").value.One? && Get(m, "first_seen_round").value.scalar.Int?
        && var r := Get(m, "first_seen_round").value.scalar.n; r <= a && r <= b && (r == a || r == b)
    ensures Number(e, "first_seen_round") == One(Null) && Reads(env.py, v, b) ==>
      Get(m, "first_seen_round") == Some(One(Int(b)))
  {
    var key := "first_seen_round";
    MergedAs(env, e, f, m, key, v);
    ZeroDefaults(key);
    IntOfReads(env.py, Number(e, key), a);
    IntOfReads(env.py, v, b);
    hide MergesTo, DEFAULTS, Default, LIST_FIELDS, FIRST, IntOf, OrZero, Counts, Reads, IsCounter;
  }

  /** Any other field: the filed value, unless it is null; and a field that is not filed stays. */
  lemma PlainMerged(env: Env, e: Dict<Value>, f: Dict<Value>, m: Dict<Value>, key: string)
    requires Distinct(f) && MergeFields(env, e, f, e) == Ok(m)
    ensures Get(f, key).None? ==> Get(m, key) == Get(e, key)
    ensures key !in ["challenges", "rounds", "touches", "instances", "attempts", "first_seen_round"] && Get(f, key).Some? ==>
      var v := Get(f, key).value;
      && (v == One(Null) ==> Get(m, key) == Get(e, key))
      && (v != One(Null) && Coerce(env.py, key, v) == v ==> Get(m, key) == Some(v))
  {
    hide MergeField, Distinct, MergeFields, Coerce, DEFAULTS;
    Merged(env, e, f);
    assert After(env, e, f, key) == Ok(Get(m, key));
    if Get(f, key).Some? && key !in ["challenges", "rounds", "touches", "instances", "attempts", "first_seen_round"] {
      SpecialKeys(key);
      PlainIs(env, key, Get(e, key), Get(f, key).value);
    }
  }

  lemma SpecialKeys(key: string)
    ensures Plainly(key) <==> key !in ["challenges", "rounds", "touches", "instances", "attempts", "first_seen_round"]
  {
    assert LIST_FIELDS == ["challenges", "rounds", "touches"] && FIRST == "first_seen_round";
  }

  lemma PlainIs(env: Env, key: string, cur: Option<Value>, v: Value)
    requires Plainly(key)
    ensures v == One(Null) ==> MergeField(env, key, cur, v) == Ok(cur)
    ensures v != One(Null) && Coerce(env.py, key, v) == v ==> MergeField(env, key, cur, v) == Ok(Some(v))
  {
    hide LIST_FIELDS, DEFAULTS, Coerce, FIRST, IsCounter, Default;
  }

  /** u takes from all, in order, the first of each kind and nothing else. */
  ghost predicate Firsts(same: Scalar -> Scalar, all: seq<Scalar>, u: seq<Scalar>, pos: seq<nat>) {
    && |pos| == |u| && (forall i, j | 0 <= i < j < |pos| :: pos[i] < pos[j])
    && (forall i | 0 <= i < |u| :: pos[i] < |all| && u[i] == all[pos[i]])
    && (forall i, j: nat | 0 <= i < |u| && j < pos[i] :: same(all[j]) != same(u[i]))
    && (forall j | 0 <= j < |all| :: exists i | 0 <= i < |u| :: same(u[i]) == same(all[j]))
  }

  /** The positions a union takes, counted from off, when the kinds in seen were met before. */
  function Taken(same: Scalar -> Scalar, items: seq<Scalar>, seen: set<Scalar>, off: nat): seq<nat> {
    if items == [] then []
    else if same(items[0]) in seen then Taken(same, items[1..], seen, off + 1)
    else [off] + Taken(same, items[1..], seen + {same(items[0])}, off + 1)
  }

  lemma TakenStep(same: Scalar -> Scalar, items: seq<Scalar>, seen: set<Scalar>, off: nat)
    requires items != []
    ensures var k, rest := same(items[0]), items[1..];
      if k in seen then
        Dedupe(same, items, seen) == Dedupe(same, rest, seen) && Taken(same, items, seen, off) == Taken(same, rest, seen, off + 1)
      else
        && Dedupe(same, items, seen) == [items[0]] + Dedupe(same, rest, seen + {k})
        && Taken(same, items, seen, off) == [off] + Taken(same, rest, seen + {k}, off + 1)
  {
  }

  lemma {:induction false} TakenAt(same: Scalar -> Scalar, items: seq<Scalar>, seen: set<Scalar>, off: nat)
    ensures var u, pos := Dedupe(same, items, seen), Taken(same, items, seen, off);
      && |pos| == |u| && (forall i | 0 <= i < |pos| :: off <= pos[i] < off + |items| && u[i] == items[pos[i] - off])
      && (forall i, j | 0 <= i < j < |pos| :: pos[i] < pos[j]) && forall i | 0 <= i < |u| :: same(u[i]) !in seen
    decreases |items|
  {
    if items != [] {
      TakenStep(same, items, seen, off);
      TakenAt(same, items[1..], if same(items[0]) in seen then seen else seen + {same(items[0])}, off + 1);
      hide Dedupe, Taken;
    }
  }

  lemma {:induction false} TakenFirst(same: Scalar -> Scalar, items: seq<Scalar>, seen: set<Scalar>, off: nat, i: nat, j: nat)
    requires i < |Dedupe(same, items, seen)| && |Taken(same, items, seen, off)| == |Dedupe(same, items, seen)|
    requires j < |items| && off + j < Taken(same, items, seen, off)[i]
    ensures same(items[j]) != same(Dedupe(same, items, seen)[i])
    decreases |items|
  {
    var k, rest := same(items[0]), items[1..];
    var more := if k in seen then seen else seen + {k};
    TakenStep(same, items, seen, off);
    TakenAt(same, items, seen, off);
    TakenAt(same, rest, more, off + 1);
    hide Dedupe, Taken;
    var d := if k in seen then 0 else 1;
    if i >= d && j > 0 {
      TakenFirst(same, rest, more, off + 1, i - d, j - 1);
    }
  }

  lemma {:induction false} TakenCover(same: Scalar -> Scalar, items: seq<Scalar>, seen: set<Scalar>, j: nat)
    requires j < |items| && same(items[j]) !in seen
    ensures exists i | 0 <= i < |Dedupe(same, items, seen)| :: same(Dedupe(same, items, seen)[i]) == same(items[j])
    decreases |items|
  {
    var k, rest := same(items[0]), items[1..];
    var more := if k in seen then seen else seen + {k};
    var u, v := Dedupe(same, items, seen), Dedupe(same, rest, more);
    if j > 0 && same(items[j]) !in more {
      TakenCover(same, rest, more, j - 1);
      var i :| 0 <= i < |v| && same(v[i]) == same(rest[j - 1]);
      assert u[if k in seen then i else i + 1] == v[i];
    } else {
      assert u[0] == items[0] && same(u[0]) == same(items[j]);
    }
  }

  lemma NoneBefore(same: Scalar -> Scalar, all: seq<Scalar>, u: seq<Scalar>, pos: seq<nat>)
    requires u == Dedupe(same, all, {}) && pos == Taken(same, all, {}, 0) && |pos| == |u|
    requires forall i | 0 <= i < |u| :: pos[i] <= |all|
    ensures forall i, j: nat | 0 <= i < |u| && j < pos[i] :: same(all[j]) != same(u[i])
  {
    forall i, j: nat | 0 <= i < |u| && j < pos[i] ensures same(all[j]) != same(u[i]) {
      TakenFirst(same, all, {}, 0, i, j);
    }
  }

  lemma AllCovered(same: Scalar -> Scalar, all: seq<Scalar>, u: seq<Scalar>)
    requires u == Dedupe(same, all, {})
    ensures forall j | 0 <= j < |all| :: exists i | 0 <= i < |u| :: same(u[i]) == same(all[j])
  {
    forall j | 0 <= j < |all| ensures exists i | 0 <= i < |u| :: same(u[i]) == same(all[j]) {
      TakenCover(same, all, {}, j);
    }
  }

  lemma UnionTakesFirsts(same: Scalar -> Scalar, all: seq<Scalar>)
    ensures Firsts(same, all, Dedupe(same, all, {}), Taken(same, all, {}, 0))
  {
    var u, pos := Dedupe(same, all, {}), Taken(same, all, {}, 0);
    TakenAt(same, all, {}, 0);
    NoneBefore(same, all, u, pos);
    AllCovered(same, all, u);
  }

  /** A list field: of the stored and then the filed items the first of each kind, in order. So it begins with the stored
      list, if that repeats nothing. */
  lemma ListMerged(env: Env, e: Dict<Value>, f: Dict<Value>, m: Dict<Value>, key: string, v: Value)
    requires MergesTo(env, e, f, m, key, v) && key in ["challenges", "rounds", "touches"]
    requires v.List? && (Get(e, key).Some? ==> Get(e, key).value.List?)
    ensures Get(m, key).Some? && Get(m, key).value.List?
    ensures var stored := if Get(e, key).Some? then Get(e, key).value.items else [];
      var u := Get(m, key).value.items;
      && (exists pos :: Firsts(env.same, stored + v.items, u, pos))
      && ((forall i, j | 0 <= i < j < |stored| :: env.same(stored[i]) != env.same(stored[j])) ==> stored <= u)
  {
    MergedAs(env, e, f, m, key, v);
    assert key in LIST_FIELDS;
    DefaultList(key);
    hide MergesTo, DEFAULTS, Default, LIST_FIELDS;
    var stored := if Get(e, key).Some? then Get(e, key).value.items else [];
    var all, u := stored + v.items, Get(m, key).value.items;
    assert u == Dedupe(env.same, all, {});
    UnionTakesFirsts(env.same, all);
    hide Firsts;
    if forall i, j | 0 <= i < j < |stored| :: env.same(stored[i]) != env.same(stored[j]) {
      ApartDupFree(env.same, stored);
      DedupeAppend(env.same, stored, v.items, {});
      DedupeOfDupFree(env.same, stored, {});
    }
  }

  lemma {:induction false} NotAmongKeys(same: Scalar -> Scalar, items: seq<Scalar>, k: Scalar)
    requires forall j | 0 <= j < |items| :: same(items[j]) != k
    ensures k !in Keys(same, items)
  {
    if items != [] {
      NotAmongKeys(same, items[1..], k);
    }
  }

  lemma {:induction false} ApartDupFree(same: Scalar -> Scalar, items: seq<Scalar>)
    requires forall i, j | 0 <= i < j < |items| :: same(items[i]) != same(items[j])
    ensures DupFree(same, items)
  {
    if items != [] {
      ApartDupFree(same, items[1..]);
      NotAmongKeys(same, items[1..], same(items[0]));
    }
  }

  /** A filing raises exactly when it gives a counter, or first_seen_round, that is no number or where none is stored. */
  lemma MergeRaises(env: Env, e: Dict<Value>, f: Dict<Value>)
    requires Distinct(f)
    ensures MergeFields(env, e, f, e).Raise? <==> exists x | x in f ::
      || ((x.key == "instances" || x.key == "attempts") && !(IsCount(env.py, Number(e, x.key)) && IsCount(env.py, x.value)))
      || (x.key == "first_seen_round" &&
           if Number(e, x.key) == One(Null) then !IsNumber(env.py, x.value)
           else !(IsNumber(env.py, Number(e, x.key)) && IsCount(env.py, x.value)))
  {
    hide MergeField, Distinct, MergeFields, DEFAULTS, IsCount, IsNumber, Number;
    Merged(env, e, f);
    forall x | x in f ensures MergeField(env, x.key, Get(e, x.key), x.value).Raise? <==> Refused(env, e, x) {
      FieldRaises(env, e, x);
    }
  }

  ghost predicate Refused(env: Env, e: Dict<Value>, x: Entry<Value>) {
    || ((x.key == "instances" || x.key == "attempts") && !(IsCount(env.py, Number(e, x.key)) && IsCount(env.py, x.value)))
    || (x.key == "first_seen_round" &&
         if Number(e, x.key) == One(Null) then !IsNumber(env.py, x.value)
         else !(IsNumber(env.py, Number(e, x.key)) && IsCount(env.py, x.value)))
  }

  lemma FieldRaises(env: Env, e: Dict<Value>, x: Entry<Value>)
    ensures MergeField(env, x.key, Get(e, x.key), x.value).Raise? <==> Refused(env, e, x)
  {
    var was := Number(e, x.key);
    IntOfOk(env.py, was);
    IntOfOk(env.py, x.value);
    if x.key == "instances" || x.key == "attempts" || x.key == "first_seen_round" {
      ZeroDefaults(x.key);
    }
    assert IsCounter(x.key) <==> x.key == "instances" || x.key == "attempts";
    assert FIRST == "first_seen_round";
    hide DEFAULTS, Default, LIST_FIELDS, IntOf, OrZero, IsCount, IsNumber, Union, Coerce, FIRST;
  }

  // ---------- on the next load ----------

  /** A field that splits is loaded from the file as it was merged. */
  lemma LoadedAsKept(env: Env, store: Store, f: Need, key: string)
    requires FilingOk(env, store, f)
    requires Get(Kept(env, store, f).fields, key).Some? ==> Splits(Get(Kept(env, store, f).fields, key).value)
    ensures var loaded := Load(env, Upsert(env, store, f).value, FileName(env, f.fields));
      loaded.Found? && Get(loaded.need.fields, key) == Get(Kept(env, store, f).fields, key)
  {
    FilingUpserts(env, store, f);
    LoadedAgain(env, store, f);
    KeptIsLegible(env, store, f);
    var r := Kept(env, store, f);
    FrontIs(env, r);
    GetReadBacks(env.py, Front(r), key);
    if Get(r.fields, key).Some? {
      var x := Entry(key, Get(r.fields, key).value);
      GetIsEntry(Front(r), key);
      assert FieldOk(env.py, x);
      ReadBackExact(env.py, x);
    }
    hide Kept, FilingOk, WellFormed, Legible, Front, LineOk, ReadBack, Splits, Upsert, Load;
  }

  /** The field a stored need is loaded with after the filing. */
  function Reloaded(env: Env, store: Store, f: Need, key: string): Option<Value>
    requires Upsert(env, store, f).Ok?
  {
    match Load(env, Upsert(env, store, f).value, FileName(env, f.fields)) case Found(n) => Get(n.fields, key) case _ => None
  }

  ghost predicate FiledOn(env: Env, store: Store, f: Need, e: Need) {
    FilingOk(env, store, f) && Load(env, store, FileName(env, f.fields)) == Found(e)
  }

  lemma ReloadedAsKept(env: Env, store: Store, f: Need, key: string)
    requires FilingOk(env, store, f)
    requires Get(Kept(env, store, f).fields, key).Some? ==> Splits(Get(Kept(env, store, f).fields, key).value)
    ensures Upsert(env, store, f).Ok? && Reloaded(env, store, f, key) == Get(Kept(env, store, f).fields, key)
  {
    hide FilingOk, Kept, Upsert, Load, FileName, Splits, Get;
    FilingUpserts(env, store, f);
    LoadedAsKept(env, store, f, key);
  }

  lemma FiledOnMerges(env: Env, store: Store, f: Need, e: Need)
    requires FiledOn(env, store, f, e)
    ensures Upsert(env, store, f).Ok? && FilingOk(env, store, f) && Distinct(f.fields)
    ensures MergeFields(env, e.fields, f.fields, e.fields) == Ok(Kept(env, store, f).fields)
  {
    FilingUpserts(env, store, f);
    FilingDistinct(env, store, f);
    hide FilingOk, Kept, Upsert, Load, FileName;
    StoredMerge(env, store, f, e);
  }

  lemma IntNumber(py: Numbers, e: Dict<Value>, key: string, a: int)
    requires Get(e, key) == Some(One(Int(a)))
    ensures Number(e, key) == One(Int(a)) && Number(e, key) != One(Null)
    ensures Reads(py, One(Int(a)), a) && Counts(py, One(Int(a)), a)
  {
    hide Get;
  }

  lemma OneSplits(v: Value)
    requires v.One?
    ensures Splits(v)
  {
  }

  /** After a filing on a stored need the next load reads the larger instances and attempts. */
  lemma CounterReloaded(env: Env, store: Store, f: Need, e: Need, key: string, a: int, b: int)
    requires FiledOn(env, store, f, e) && Get(e.fields, key) == Some(One(Int(a))) && Get(f.fields, key) == Some(One(Int(b)))
    requires key == "instances" || key == "attempts"
    ensures Upsert(env, store, f).Ok? && Reloaded(env, store, f, key) == Some(One(Int(if a >= b then a else b)))
  {
    FiledOnMerges(env, store, f, e);
    hide FiledOn, FilingOk, Kept, Upsert, MergeFields, Distinct, Load, FileName, Reloaded, Get, Number, Counts, Reads, Splits;
    var r := Kept(env, store, f).fields;
    IntNumber(env.py, e.fields, key, a);
    IntNumber(env.py, f.fields, key, b);
    CounterMerged(env, e.fields, f.fields, r, key, One(Int(b)), a, b);
    OneSplits(Get(r, key).value);
    ReloadedAsKept(env, store, f, key);
  }

  /** And the smaller first_seen_round. */
  lemma FirstSeenReloaded(env: Env, store: Store, f: Need, e: Need, a: int, b: int)
    requires FiledOn(env, store, f, e)
    requires Get(e.fields, "first_seen_round") == Some(One(Int(a))) && Get(f.fields, "first_seen_round") == Some(One(Int(b)))
    ensures Upsert(env, store, f).Ok?
    ensures Reloaded(env, store, f, "first_seen_round") == Some(One(Int(if a <= b then a else b)))
  {
    var key := "first_seen_round";
    FiledOnMerges(env, store, f, e);
    hide FiledOn, FilingOk, Kept, Upsert, MergeFields, Distinct, Load, FileName, Reloaded, Get, Number, Counts, Reads, Splits;
    var r := Kept(env, store, f).fields;
    IntNumber(env.py, e.fields, key, a);
    IntNumber(env.py, f.fields, key, b);
    FirstSeenMerged(env, e.fields, f.fields, r, One(Int(b)), a, b);
    OneSplits(Get(r, key).value);
    ReloadedAsKept(env, store, f, key);
  }

  /** Any other filed value that is not null is read, one that is null or was not filed leaves what was stored. */
  lemma PlainReloaded(env: Env, store: Store, f: Need, e: Need, key: string)
    requires FiledOn(env, store, f, e)
    requires key !in ["challenges", "rounds", "touches", "instances", "attempts", "first_seen_round"]
    ensures Upsert(env, store, f).Ok?
    ensures Get(f.fields, key).Some? && Get(f.fields, key).value.One? && Get(f.fields, key) != Some(One(Null)) ==>
      Reloaded(env, store, f, key) == Get(f.fields, key)
    ensures Get(e.fields, key).Some? && Get(e.fields, key).value.One? && Get(f.fields, key) in {None, Some(One(Null))} ==>
      Reloaded(env, store, f, key) == Get(e.fields, key)
  {
    FiledOnMerges(env, store, f, e);
    hide FiledOn, FilingOk, Kept, Upsert, MergeFields, Distinct, Load, FileName, Reloaded, Coerce;
    var r := Kept(env, store, f).fields;
    PlainMerged(env, e.fields, f.fields, r, key);
    if Get(f.fields, key).Some? {
      FiledTyped(env, store, f, key);
    }
    if Get(r, key).Some? ==> Splits(Get(r, key).value) {
      ReloadedAsKept(env, store, f, key);
    }
  }

  /** A list that splits is read as the first of each kind of the stored and then the filed items. */
  lemma ListReloaded(env: Env, store: Store, f: Need, e: Need, key: string)
    requires FiledOn(env, store, f, e) && key in ["challenges", "rounds", "touches"]
    requires Get(f.fields, key).Some? && Get(f.fields, key).value.List? && Get(e.fields, key).Some? && Get(e.fields, key).value.List?
    ensures Upsert(env, store, f).Ok?
    ensures var kept := Get(Kept(env, store, f).fields, key);
      kept.Some? && Splits(kept.value) ==>
        && Reloaded(env, store, f, key).Some? && Reloaded(env, store, f, key).value.List?
        && exists pos :: Firsts(env.same, Get(e.fields, key).value.items + Get(f.fields, key).value.items,
                                Reloaded(env, store, f, key).value.items, pos)
  {
    FiledOnMerges(env, store, f, e);
    hide FiledOn, FilingOk, Kept, Upsert, MergeFields, Distinct, Load, FileName, Reloaded, Firsts, Splits;
    var r := Kept(env, store, f).fields;
    ListMerged(env, e.fields, f.fields, r, key, Get(f.fields, key).value);
    if Splits(Get(r, key).value) {
      ReloadedAsKept(env, store, f, key);
    }
  }

  lemma StoredMerge(env: Env, store: Store, f: Need, e: Need)
    requires Upsert(env, store, f).Ok? && Load(env, store, FileName(env, f.fields)) == Found(e)
    ensures MergeFields(env, e.fields, f.fields, e.fields) == Ok(Kept(env, store, f).fields)
    ensures MergeSections(f.sections, e.sections) == Kept(env, store, f).sections
  {
    hide MergeFields, MergeSections, Load, FileName, Valid, Render;
  }

  lemma FiledTyped(env: Env, store: Store, f: Need, key: string)
    requires FilingOk(env, store, f) && Get(f.fields, key).Some?
    ensures Coerce(env.py, key, Get(f.fields, key).value) == Get(f.fields, key).value
  {
    FiledField(env, store, f, key);
  }

  // ---------- a new need ----------

  /** What a default is filled in with. */
  lemma FilledAt(d: Dict<Value>, i: nat)
    requires i < |DEFAULTS| && Get(d, DEFAULTS[i].key).None?
    ensures Get(FillUp(DEFAULTS, d), DEFAULTS[i].key) == Some(DEFAULTS[i].value)
  {
    DefaultAt(i);
    hide DEFAULTS;
    FillUpAre(DEFAULTS, d, DEFAULTS[i].key);
  }

  lemma WordsFilled(d: Dict<Value>)
    ensures var r := FillUp(DEFAULTS, d);
      && (Get(d, "track").None? ==> Get(r, "track") == Some(One(Str("tooling"))))
      && (Get(d, "status").None? ==> Get(r, "status") == Some(One(Str("open"))))
      && (Get(d, "severity").None? ==> Get(r, "severity") == Some(One(Str("minor"))))
      && (Get(d, "hypothesis_status").None? ==> Get(r, "hypothesis_status") == Some(One(Str("inconclusive"))))
      && (Get(d, "scope").None? ==> Get(r, "scope") == Some(One(Str("small"))))
      && (Get(d, "credibility").None? ==> Get(r, "credibility") == Some(One(Float("0.0"))))
  {
    assert DEFAULTS[0] == Entry("track", One(Str("tooling"))) && DEFAULTS[1] == Entry("status", One(Str("open")));
    assert DEFAULTS[2] == Entry("severity", One(Str("minor"))) && DEFAULTS[3] == Entry("hypothesis_status", One(Str("inconclusive")));
    assert DEFAULTS[12] == Entry("scope", One(Str("small"))) && DEFAULTS[4] == Entry("credibility", One(Float("0.0")));
    assert |DEFAULTS| == 18;
    hide DEFAULTS, FillUp, Get;
    forall i | i in {0, 1, 2, 3, 4, 12} && Get(d, DEFAULTS[i].key).None?
      ensures Get(FillUp(DEFAULTS, d), DEFAULTS[i].key) == Some(DEFAULTS[i].value)
    {
      FilledAt(d, i);
    }
  }

  lemma NumbersFilled(d: Dict<Value>, key: string)
    requires Get(d, key).None?
    ensures key in ["instances", "first_seen_round", "attempts"] ==> Get(FillUp(DEFAULTS, d), key) == Some(One(Int(0)))
    ensures key in ["challenges", "rounds", "touches"] ==> Get(FillUp(DEFAULTS, d), key) == Some(List([]))
  {
    assert DEFAULTS[5] == Entry("instances", One(Int(0))) && DEFAULTS[8] == Entry("first_seen_round", One(Int(0)));
    assert DEFAULTS[9] == Entry("attempts", One(Int(0))) && DEFAULTS[6] == Entry("challenges", List([]));
    assert DEFAULTS[7] == Entry("rounds", List([])) && DEFAULTS[11] == Entry("touches", List([]));
    assert |DEFAULTS| == 18;
    hide DEFAULTS, FillUp, Get;
    forall i | i in {5, 6, 7, 8, 9, 11} && DEFAULTS[i].key == key
      ensures Get(FillUp(DEFAULTS, d), key) == Some(DEFAULTS[i].value)
    {
      FilledAt(d, i);
    }
  }

  lemma NullsFilled(d: Dict<Value>, key: string)
    requires Get(d, key).None?
    requires key in ["covered_by_option", "regression_of", "pr", "closed_in_round", "closing_pr", "reject_reason"]
    ensures Get(FillUp(DEFAULTS, d), key) == Some(One(Null))
  {
    assert DEFAULTS[10] == Entry("covered_by_option", One(Null)) && DEFAULTS[13] == Entry("regression_of", One(Null));
    assert DEFAULTS[14] == Entry("pr", One(Null)) && DEFAULTS[15] == Entry("closed_in_round", One(Null));
    assert DEFAULTS[16] == Entry("closing_pr", One(Null)) && DEFAULTS[17] == Entry("reject_reason", One(Null));
    assert |DEFAULTS| == 18;
    hide DEFAULTS, FillUp, Get;
    forall i | i in {10, 13, 14, 15, 16, 17} && DEFAULTS[i].key == key
      ensures Get(FillUp(DEFAULTS, d), key) == Some(DEFAULTS[i].value)
    {
      FilledAt(d, i);
    }
  }

  /** A new need is what was filed; where nothing was filed it is an open, minor and small tooling need of inconclusive
      hypothesis, with empty lists, zero counts and nulls. */
  lemma NewNeedIs(env: Env, store: Store, f: Need, key: string)
    requires Upsert(env, store, f).Ok? && FileName(env, f.fields) !in store
    ensures var r := Kept(env, store, f);
      && r.sections == f.sections && (Get(f.fields, key).Some? ==> Get(r.fields, key) == Get(f.fields, key))
      && (Get(f.fields, "track").None? ==> Get(r.fields, "track") == Some(One(Str("tooling"))))
      && (Get(f.fields, "status").None? ==> Get(r.fields, "status") == Some(One(Str("open"))))
      && (Get(f.fields, "severity").None? ==> Get(r.fields, "severity") == Some(One(Str("minor"))))
      && (Get(f.fields, "hypothesis_status").None? ==> Get(r.fields, "hypothesis_status") == Some(One(Str("inconclusive"))))
      && (Get(f.fields, "scope").None? ==> Get(r.fields, "scope") == Some(One(Str("small"))))
      && (Get(f.fields, "credibility").None? ==> Get(r.fields, "credibility") == Some(One(Float("0.0"))))
      && (Get(f.fields, key).None? && key in ["instances", "first_seen_round", "attempts"] ==>
            Get(r.fields, key) == Some(One(Int(0))))
      && (Get(f.fields, key).None? && key in ["challenges", "rounds", "touches"] ==> Get(r.fields, key) == Some(List([])))
      && (Get(f.fields, key).None?
            && key in ["covered_by_option", "regression_of", "pr", "closed_in_round", "closing_pr", "reject_reason"] ==>
            Get(r.fields, key) == Some(One(Null)))
  {
    NewIs(env, store, f);
    hide Upsert, Kept, FileName, DEFAULTS, FillUp, Get;
    FillUpAre(DEFAULTS, f.fields, key);
    WordsFilled(f.fields);
    if Get(f.fields, key).None? {
      NumbersFilled(f.fields, key);
      if key in ["covered_by_option", "regression_of", "pr", "closed_in_round", "closing_pr", "reject_reason"] {
        NullsFilled(f.fields, key);
      }
    }
  }

  lemma NewIs(env: Env, store: Store, f: Need)
    requires Upsert(env, store, f).Ok? && FileName(env, f.fields) !in store
    ensures Kept(env, store, f) == Need(FillUp(DEFAULTS, f.fields), f.sections)
  {
    hide Valid, Render, FileName, FillUp, DEFAULTS;
  }
}
