/** What one filing makes of a record of scripts/repipe/needs.py: the setting of NeedFiling and the lemmas it rests
    on. Merging a field with a value twice or with itself; when two values, two dictionaries and two files have
    the same text; that what a filing writes is well formed and legible if the filing was; and what is read back
    from the file it writes. */
module NeedMerge {
  import opened NeedValues
  import opened NeedText
  import opened NeedRecord
  import opened NeedRoundTrip
  import opened NeedParsed
  import opened NeedBacklog

  // ---------- one field ----------

  /** A filing that is already merged with itself: no list repeats an item and the three counters, where
      present, are numbers. */
  predicate SelfMerged(env: Env, f: Dict<Value>) {
    forall x | x in f :: SelfMergedField(env, x.key, x.value)
  }

  predicate SelfMergedField(env: Env, key: string, v: Value) {
    && (key in LIST_FIELDS ==> DupFree(env.same, Items(v)))
    && (IsCounter(key) || key == FIRST ==> v.One? && v.scalar.Int?)
  }

  lemma TypedList(env: Env, key: string, v: Value)
    requires key in LIST_FIELDS && Coerce(env.py, key, v) == v
    ensures v.List?
  {
    hide LIST_FIELDS;
  }

  lemma ZeroOrInt(env: Env, n: int)
    ensures IntOf(env.py, OrZero(One(Int(n)))) == Ok(n)
  {
  }

  /** A coerced value int() accepts is an Int. */
  lemma FirstFromNothing(env: Env, value: Value)
    requires Coerce(env.py, FIRST, value) == value && IntOf(env.py, value).Ok?
    ensures IntOf(env.py, OrZero(value)) == IntOf(env.py, value)
  {
    KeyKinds(FIRST);
    hide LIST_FIELDS, INT_FIELDS, FLOAT_FIELDS, FIRST;
  }

  /** Merging the same value again changes nothing. */
  lemma MergeFieldTwice(env: Env, key: string, cur: Option<Value>, value: Value)
    requires MergeField(env, key, cur, value).Ok? && Coerce(env.py, key, value) == value
    ensures var once := MergeField(env, key, cur, value).value; MergeField(env, key, once, value) == Ok(once)
  {
    KeyKinds(key);
    hide LIST_FIELDS, DEFAULTS, Coerce, Truthy, INT_FIELDS, FIRST, IsCounter, Default;
    var once := MergeField(env, key, cur, value).value;
    var was := if cur.Some? then cur.value else Default(key);
    if key in LIST_FIELDS {
      UnionTwice(env.same, Items(was), Items(value));
    } else if IsCounter(key) || key == FIRST {
      ZeroOrInt(env, once.value.scalar.n);
      if key == FIRST && was == One(Null) {
        FirstFromNothing(env, value);
      }
    }
  }

  /** A field kept as it was filed, merged with itself. */
  lemma MergeFieldSelf(env: Env, key: string, value: Value)
    requires Coerce(env.py, key, value) == value
    ensures MergeField(env, key, Some(value), value) == Ok(Some(value)) <==> SelfMergedField(env, key, value)
  {
    KeyKinds(key);
    if key in LIST_FIELDS {
      TypedList(env, key, value);
      UnionOfSelf(env.same, value.items);
    }
    hide LIST_FIELDS, DEFAULTS, Coerce, INT_FIELDS, FIRST, IsCounter;
    if value.One? && value.scalar.Int? {
      ZeroOrInt(env, value.scalar.n);
    }
  }

  /** Neither a list field nor a counter: a filed value that is not null replaces the stored one. */
  predicate Plainly(key: string) { key !in LIST_FIELDS && !IsCounter(key) && key != FIRST }

  lemma MergePlain(env: Env, key: string, cur: Option<Value>, value: Value)
    requires Plainly(key) && Coerce(env.py, key, value) == value
    ensures MergeField(env, key, cur, value) == Ok(if value != One(Null) then Some(value) else cur)
  {
    hide LIST_FIELDS, DEFAULTS, Coerce, FIRST, IsCounter, Default;
  }

  // ---------- the text of a value ----------

  /** Values with the same text are the same. */
  lemma SameValueText(py: Numbers, v: Value, w: Value)
    requires FiniteValue(py, v) && FiniteValue(py, w) && EmitValue(v) == EmitValue(w)
    ensures v == w
  {
    hide EmitScalar, EmitItems, Join, ListText, Finite, ParseScalar, Strip;
    match v
    case One(s) =>
      ScalarNotBracketed(py, s);
      if w.One? {
        ScalarRoundTrip(py, s, false);
        ScalarRoundTrip(py, w.scalar, false);
      }
    case List(items) =>
      if w.One? {
        ScalarNotBracketed(py, w.scalar);
      } else {
        SameItemText(py, items, w.items);
        forall i | 0 <= i < |items| ensures items[i] == w.items[i] {
          ScalarRoundTrip(py, items[i], true);
          ScalarRoundTrip(py, w.items[i], true);
        }
      }
  }

  lemma SameItemText(py: Numbers, u: seq<Scalar>, w: seq<Scalar>)
    requires KnownValue(py, List(u)) && KnownValue(py, List(w)) && EmitValue(List(u)) == EmitValue(List(w))
    ensures |u| == |w| && forall i | 0 <= i < |u| :: EmitScalar(u[i], true) == EmitScalar(w[i], true)
  {
    hide EmitScalar, EmitItems, Join, ListText, Known;
    JoinIsListText(u);
    JoinIsListText(w);
    var a, b := EmitValue(List(u)), EmitValue(List(w));
    assert a[1..|a| - 1] == ListText(u) && b[1..|b| - 1] == ListText(w);
    SameListText(py, u, w);
  }

  // ---------- what the second filing makes of a field ----------

  /** The stored field x, read back and merged with what is filed again. */
  function Again(env: Env, f: Dict<Value>, x: Entry<Value>): Outcome<Option<Value>> {
    match Get(f, x.key)
    case None => Ok(Some(ReadBack(env.py, x).value))
    case Some(v) => MergeField(env, x.key, Some(ReadBack(env.py, x).value), v)
  }

  /** It prints as it printed before. */
  predicate Settles(env: Env, f: Dict<Value>, x: Entry<Value>) {
    var r := Again(env, f, x);
    r.Ok? && r.value.Some? && EmitValue(r.value.value) == EmitValue(x.value)
  }

  // ---------- the texts of two dictionaries ----------

  predicate SameKeys<T, U>(a: Dict<T>, b: Dict<U>) {
    |a| == |b| && forall i | 0 <= i < |a| :: a[i].key == b[i].key
  }

  predicate SameTexts(a: Dict<Value>, b: Dict<Value>) {
    SameKeys(a, b) && forall i | 0 <= i < |a| :: EmitValue(a[i].value) == EmitValue(b[i].value)
  }

  lemma {:induction false} SameTextsGet(a: Dict<Value>, b: Dict<Value>, key: string)
    requires SameTexts(a, b)
    ensures Get(a, key).Some? <==> Get(b, key).Some?
    ensures Get(a, key).Some? ==> EmitValue(Get(a, key).value) == EmitValue(Get(b, key).value)
  {
    if a != [] {
      hide EmitValue;
      SameTextsGet(a[1..], b[1..], key);
    }
  }

  lemma SameTextsCons(x: Entry<Value>, a: Dict<Value>, y: Entry<Value>, b: Dict<Value>)
    requires x.key == y.key && EmitValue(x.value) == EmitValue(y.value) && SameTexts(a, b)
    ensures SameTexts([x] + a, [y] + b)
  {
  }

  lemma {:induction false} SameTextsOrdered(known: seq<string>, a: Dict<Value>, b: Dict<Value>)
    requires SameTexts(a, b)
    ensures SameTexts(Ordered(known, a), Ordered(known, b))
  {
    if known != [] {
      hide EmitValue, SameTexts;
      SameTextsOrdered(known[1..], a, b);
      SameTextsGet(a, b, known[0]);
      var x, y := Get(a, known[0]), Get(b, known[0]);
      if x.Some? {
        SameTextsCons(Entry(known[0], x.value), Ordered(known[1..], a), Entry(known[0], y.value), Ordered(known[1..], b));
      } else {
        assert [] + Ordered(known[1..], a) == Ordered(known[1..], a) && [] + Ordered(known[1..], b) == Ordered(known[1..], b);
      }
    }
  }

  lemma {:induction false} SameTextsOthers(known: seq<string>, a: Dict<Value>, b: Dict<Value>)
    requires SameTexts(a, b)
    ensures SameTexts(Others(known, a), Others(known, b))
  {
    if a != [] {
      hide EmitValue;
      SameTextsOthers(known, a[1..], b[1..]);
      if a[0].key in known {
        assert [] + Others(known, a[1..]) == Others(known, a[1..]) && [] + Others(known, b[1..]) == Others(known, b[1..]);
      } else {
        SameTextsCons(a[0], Others(known, a[1..]), b[0], Others(known, b[1..]));
      }
    }
  }

  lemma {:induction false} SameTextsLines(a: Dict<Value>, b: Dict<Value>)
    requires SameTexts(a, b)
    ensures FieldLines(a) == FieldLines(b)
  {
    if a != [] {
      hide EmitValue;
      SameTextsLines(a[1..], b[1..]);
    }
  }

  lemma SameTextsAppend(a: Dict<Value>, x: Dict<Value>, b: Dict<Value>, y: Dict<Value>)
    requires SameTexts(a, b) && SameTexts(x, y)
    ensures SameTexts(a + x, b + y)
  {
    hide EmitValue;
  }

  lemma SameTextsReordered(known: seq<string>, a: Dict<Value>, b: Dict<Value>)
    requires SameTexts(a, b)
    ensures FieldLines(Reorder(known, a)) == FieldLines(Reorder(known, b))
  {
    SameTextsOrdered(known, a, b);
    SameTextsOthers(known, a, b);
    SameTextsAppend(Ordered(known, a), Others(known, a), Ordered(known, b), Others(known, b));
    hide EmitValue, Ordered, Others, FieldLines, SameTexts;
    SameTextsLines(Reorder(known, a), Reorder(known, b));
  }

  lemma LineApart(x: Entry<Value>, y: Entry<Value>)
    requires LineOk(x) && LineOk(y) && FieldLine(x) == FieldLine(y)
    ensures x.key == y.key && EmitValue(x.value) == EmitValue(y.value)
  {
    hide EmitValue, NoBreaks, Trimmed, KeyOk, KeyAndRest;
    KeyAndRestOf(x.key, EmitValue(x.value));
    KeyAndRestOf(y.key, EmitValue(y.value));
  }

  lemma TextsOfLines(l: Dict<Value>, a: Dict<Value>, b: Dict<Value>, i: nat)
    requires SameKeys(a, b) && Distinct(a) && (forall x | x in l :: x in a) && i < |b| && |l| == |b|
    requires LineOk(l[i]) && LineOk(b[i]) && FieldLine(l[i]) == FieldLine(b[i])
    ensures EmitValue(a[i].value) == EmitValue(b[i].value)
  {
    hide LineOk, EmitValue, FieldLine;
    LineApart(l[i], b[i]);
    assert l[i] in l;
    var j :| 0 <= j < |a| && a[j] == l[i];
    assert a[i].key == a[j].key;
  }

  /** Two dictionaries with the same names in the printer's order print the same lines exactly when their
      fields have the same texts. */
  lemma LinesAreTexts(a: Dict<Value>, b: Dict<Value>)
    requires SameKeys(a, b) && FrontOk(a) && FrontOk(b) && Reorder(FIELDS, b) == b
    ensures FieldLines(Reorder(FIELDS, a)) == FieldLines(b) <==> SameTexts(a, b)
  {
    hide LineOk, EmitValue, FieldLine, Reorder, FIELDS, FieldLines, Distinct;
    if SameTexts(a, b) {
      SameTextsReordered(FIELDS, a, b);
    }
    var l := Reorder(FIELDS, a);
    if FieldLines(l) == FieldLines(b) {
      KnownFields();
      ReorderAre(FIELDS, a);
      FieldLinesWhole(l);
      FieldLinesWhole(b);
      forall i | 0 <= i < |b| ensures EmitValue(a[i].value) == EmitValue(b[i].value) {
        assert l[i] in l && b[i] in b;
        TextsOfLines(l, a, b, i);
      }
    }
  }

  // ---------- sections ----------

  lemma {:induction false} NormAllPut(d: Dict<string>, key: string, value: string)
    ensures NormAll(Put(d, key, value)) == Put(NormAll(d), key, Norm(value))
  {
    hide Norm;
    if d == [] {
      assert NormAll([Entry(key, value)]) == [Entry(key, Norm(value))] + NormAll([]);
    } else if d[0].key == key {
      NormAllCons(Entry(key, value), d[1..]);
      NormAllCons(d[0], d[1..]);
    } else {
      NormAllPut(d[1..], key, value);
      NormAllCons(d[0], Put(d[1..], key, value));
    }
  }

  /** Sections that are there already, up to trimming. */
  predicate HasSection(acc: Dict<string>, x: Entry<string>) {
    Get(acc, x.key).Some? && (Strip(x.value) != "" ==> Norm(Get(acc, x.key).value) == Norm(x.value))
  }

  lemma {:induction false} SectionsSettle(f: Dict<string>, acc: Dict<string>)
    requires Distinct(f) && forall x | x in f :: HasSection(acc, x)
    ensures NormAll(MergeSections(f, acc)) == NormAll(acc)
    decreases |f|
  {
    hide Strip, Norm, NormAll, Put;
    if f != [] {
      var x := f[0];
      assert HasSection(acc, x);
      var more := MergeSection(acc, x);
      forall y | y in f[1..] ensures HasSection(more, y) {
        assert HasSection(acc, y) && y.key != x.key;
        GetPut(acc, x.key, x.value, y.key);
      }
      SectionsSettle(f[1..], more);
      if Strip(x.value) != "" {
        NormAllPut(acc, x.key, x.value);
        NormAllGet(acc, x.key);
        PutSame(NormAll(acc), x.key, Norm(x.value));
      }
    }
  }

  lemma NormTwice(s: string)
    ensures Norm(Norm(s)) == Norm(s)
  {
    NormIsNorm(s);
    NormBetweenBlankLines(Norm(s));
  }

  lemma {:induction false} NormAllNormed(d: Dict<string>)
    ensures NormAll(NormAll(d)) == NormAll(d)
  {
    hide Norm;
    if d != [] {
      NormTwice(d[0].value);
      NormAllNormed(d[1..]);
      NormAllCons(Entry(d[0].key, Norm(d[0].value)), NormAll(d[1..]));
    }
  }

  lemma NormAllDistinct(d: Dict<string>)
    requires Distinct(d)
    ensures Distinct(NormAll(d))
  {
    hide Norm, NormAll;
    NormAllAre(d);
  }

  /** Sections that agree with the read-back ones up to trimming print the same lines as the stored ones. */
  lemma BackSettles(sections: Dict<string>, again: Dict<string>)
    requires Distinct(sections) && NormAll(again) == NormAll(Reorder(SECTIONS, sections))
    ensures AllSectionLines(Reorder(SECTIONS, again)) == AllSectionLines(Reorder(SECTIONS, sections))
  {
    hide Norm, NormAll, Reorder, SECTIONS, AllSectionLines, Distinct;
    var s := Reorder(SECTIONS, sections);
    KnownSections();
    NormAllReorder(SECTIONS, sections);
    NormAllDistinct(sections);
    ReorderTwice(SECTIONS, NormAll(sections));
    NormAllTwice(Reorder(SECTIONS, again));
    NormAllReorder(SECTIONS, again);
    NormAllTwice(s);
  }

  // ---------- the stored record is well formed ----------

  /** A field with a legal name and a typed value whose scalars all satisfy p. */
  predicate EntryOk(env: Env, p: (string, Scalar) -> bool, x: Entry<Value>) {
    KeyOk(x.key) && Coerce(env.py, x.key, x.value) == x.value && Holds(p, x.key, x.value)
  }

  predicate EntriesOk(env: Env, p: (string, Scalar) -> bool, d: Dict<Value>) {
    Distinct(d) && forall x | x in d :: EntryOk(env, p, x)
  }

  lemma MergedEntries(env: Env, p: (string, Scalar) -> bool, e: Dict<Value>, f: Dict<Value>)
    requires EntriesOk(env, p, e) && EntriesOk(env, p, f) && (forall k, n :: p(k, Int(n)))
    requires MergeFields(env, e, f, e).Ok?
    ensures EntriesOk(env, p, MergeFields(env, e, f, e).value)
  {
    hide Distinct, Coerce, Holds, MergeField, KeyOk;
    Merged(env, e, f);
    var m := MergeFields(env, e, f, e).value;
    forall x | x in m ensures EntryOk(env, p, x) {
      GetEntry(m, x);
      GetIsEntry(e, x.key);
      GetIsEntry(f, x.key);
      assert After(env, e, f, x.key) == Ok(Some(x.value));
      if Get(f, x.key).Some? {
        assert EntryOk(env, p, Entry(x.key, Get(f, x.key).value));
        assert Get(e, x.key).Some? ==> EntryOk(env, p, Entry(x.key, Get(e, x.key).value));
        MergeFieldHolds(env, p, x.key, Get(e, x.key), Get(f, x.key).value);
      }
    }
  }

  lemma FilledEntries(env: Env, p: (string, Scalar) -> bool, f: Dict<Value>)
    requires EntriesOk(env, p, f) && forall x | x in DEFAULTS :: EntryOk(env, p, x)
    ensures EntriesOk(env, p, FillUp(DEFAULTS, f))
  {
    hide Distinct, Coerce, Holds, KeyOk, DEFAULTS;
    var m := FillUp(DEFAULTS, f);
    assert Distinct(m) by { FillUpAre(DEFAULTS, f, ""); }
    forall x | x in m ensures EntryOk(env, p, x) {
      FillUpAre(DEFAULTS, f, x.key);
      GetEntry(m, x);
      GetIsEntry(f, x.key);
      GetIsEntry(DEFAULTS, x.key);
    }
  }

  lemma ZeroFloat(py: Numbers)
    requires py.canon("0.0") == "0.0"
    ensures Finite(py, Float("0.0"))
  {
    var s := "0.0";
    assert Unsigned(s) == s && SkipDigits("0.0") == ".0" && s[1] == '.';
    assert SkipDigits("0") == "" && ".0"[1..] == "0" && s[1..] == ".0";
    assert ExponentText("");
  }

  predicate Word(key: string) { key != "" && KeyStart(key[0]) && forall i | 0 <= i < |key| :: KeyChar(key[i]) }

  lemma DefaultKeys1(i: nat)
    requires i < 6
    ensures Word(DEFAULTS[i].key)
  {
    assert Word("track") && Word("status") && Word("severity");
    assert Word("hypothesis_status") && Word("credibility") && Word("instances");
    hide Word;
  }

  lemma DefaultKeys2(i: nat)
    requires 6 <= i < 12
    ensures Word(DEFAULTS[i].key)
  {
    assert Word("challenges") && Word("rounds") && Word("first_seen_round");
    assert Word("attempts") && Word("covered_by_option") && Word("touches");
    hide Word;
  }

  lemma DefaultKeys3(i: nat)
    requires 12 <= i < 18
    ensures Word(DEFAULTS[i].key)
  {
    assert Word("scope") && Word("regression_of") && Word("pr");
    assert Word("closed_in_round") && Word("closing_pr") && Word("reject_reason");
    hide Word;
  }

  lemma DefaultTyped(env: Env, i: nat)
    requires i < |DEFAULTS|
    ensures Coerce(env.py, DEFAULTS[i].key, DEFAULTS[i].value) == DEFAULTS[i].value
  {
  }

  lemma LettersClean(s: string)
    requires forall c | c in s :: 'a' <= c <= 'z'
    ensures CleanScalar(Str(s))
  {
    forall c: char | 'a' <= c <= 'z' ensures !IsExotic(c) {
      assert 0x61 <= c as int <= 0x7a by { assert 'a' as int == 0x61 && 'z' as int == 0x7a; }
    }
    hide IsExotic;
  }

  predicate PlainDefault(v: Value) {
    match v
    case List(items) => items == []
    case One(Str(s)) => s in ["tooling", "open", "minor", "inconclusive", "small"]
    case One(Float(r)) => r == "0.0"
    case One(_) => true
  }

  lemma DefaultIsPlain(i: nat)
    requires i < |DEFAULTS|
    ensures PlainDefault(DEFAULTS[i].value)
  {
  }

  lemma PlainDefaultOk(env: Env, v: Value)
    requires PlainDefault(v) && env.py.canon("0.0") == "0.0"
    ensures FiniteValue(env.py, v) && Clean(v)
  {
    ZeroFloat(env.py);
    LettersClean("tooling");
    LettersClean("open");
    LettersClean("minor");
    LettersClean("inconclusive");
    LettersClean("small");
    hide IsExotic, FloatText, IntText;
  }

  lemma DefaultValue(env: Env, i: nat)
    requires i < |DEFAULTS| && env.py.canon("0.0") == "0.0"
    ensures FiniteValue(env.py, DEFAULTS[i].value) && Clean(DEFAULTS[i].value)
  {
    DefaultIsPlain(i);
    hide DEFAULTS, PlainDefault, FiniteValue, Clean;
    PlainDefaultOk(env, DEFAULTS[i].value);
  }

  /** Finite, and clean unless it is an id, which may come from the file name. */
  function StoredScalar(py: Numbers): (string, Scalar) -> bool {
    (key: string, s: Scalar) => Finite(py, s) && (key == ID || CleanScalar(s))
  }

  lemma StoredHolds(py: Numbers, key: string, v: Value)
    ensures Holds(StoredScalar(py), key, v) <==> FiniteValue(py, v) && (key == ID || Clean(v))
  {
    hide Finite, CleanScalar, ID;
    match v
    case One(_) =>
    case List(items) =>
      if Holds(StoredScalar(py), key, v) {
        assert forall i | 0 <= i < |items| :: items[i] in items;
      }
  }

  lemma DefaultsOk(env: Env)
    requires env.py.canon("0.0") == "0.0"
    ensures forall x | x in DEFAULTS :: EntryOk(env, StoredScalar(env.py), x)
  {
    forall i: nat | i < |DEFAULTS| ensures EntryOk(env, StoredScalar(env.py), DEFAULTS[i]) {
      if i < 6 {
        DefaultKeys1(i);
      } else if i < 12 {
        DefaultKeys2(i);
      } else {
        DefaultKeys3(i);
      }
      DefaultTyped(env, i);
      DefaultValue(env, i);
      hide DEFAULTS, Coerce, FiniteValue, Clean, KeyChar, KeyStart, StoredScalar;
      StoredHolds(env.py, DEFAULTS[i].key, DEFAULTS[i].value);
    }
    hide DEFAULTS, EntryOk;
  }

  // ---------- the setting ----------

  /** Nothing in the record is changed or split by printing, but for lists that do not split. */
  predicate Legible(n: Need) {
    (forall x | x in n.fields :: Clean(x.value)) && forall x | x in n.sections :: SectionSurvives(x)
  }

  predicate AllFinite(py: Numbers, d: Dict<Value>) { forall x | x in d :: FiniteValue(py, x.value) }

  /** Python's == tells a string from everything else. */
  ghost predicate StringsApart(same: Scalar -> Scalar) {
    forall s, v :: same(Str(s)) == same(v) ==> v == Str(s)
  }

  /** A well-formed filing on a store whose record of that need, if any, holds finite floats; and it is written. */
  ghost predicate FilingMade(env: Env, store: Store, f: Need) {
    && Lawful(env.py) && StringsApart(env.same)
    && Shaped(env.py, f) && Upsert(env, store, f).Ok?
    && var loaded := Load(env, store, FileName(env, f.fields)); (loaded.Found? ==> AllFinite(env.py, loaded.need.fields))
  }

  ghost predicate FilingOk(env: Env, store: Store, f: Need) { FilingMade(env, store, f) && Legible(f) }

  /** The record the filing writes. */
  function Kept(env: Env, store: Store, f: Need): Need
    requires Upsert(env, store, f).Ok?
  {
    Filed(env, store, f).value
  }

  lemma FilingUpserts(env: Env, store: Store, f: Need)
    requires FilingOk(env, store, f)
    ensures Upsert(env, store, f).Ok?
  {
  }

  lemma ShapedEntries(env: Env, n: Need)
    requires Shaped(env.py, n) && forall x | x in n.fields :: Clean(x.value)
    ensures EntriesOk(env, StoredScalar(env.py), n.fields)
  {
    hide KeyOk, FiniteValue, Coerce, Clean, StoredScalar, NameOk, Distinct;
    forall x | x in n.fields ensures EntryOk(env, StoredScalar(env.py), x) {
      assert FieldOk(env.py, x);
      StoredHolds(env.py, x.key, x.value);
    }
  }

  /** The stored record a filing is merged into. */
  lemma LoadedEntries(env: Env, store: Store, id: string)
    requires Lawful(env.py) && Load(env, store, id).Found? && AllFinite(env.py, Load(env, store, id).need.fields)
    ensures var e := Load(env, store, id).need;
      && EntriesOk(env, StoredScalar(env.py), e.fields) && NamesReadOk(e.sections)
      && forall x | x in e.sections :: SectionSurvives(x)
  {
    var e := Load(env, store, id).need;
    hide Parse, Lawful, FiniteValue, Clean, StoredScalar, Coerce, KeyOk, KnownValue, Distinct, ID, SectionSurvives,
      NameOk;
    ParsedShape(env.py, id, store[id]);
    ParsedRecords(env.py, id, store[id]);
    forall x | x in e.fields ensures EntryOk(env, StoredScalar(env.py), x) {
      assert ReadOk(env.py, x);
      StoredHolds(env.py, x.key, x.value);
    }
    forall x | x in e.sections ensures SectionSurvives(x) {
      assert BodyRead(x.value);
      ReadSurvives(x);
    }
  }

  lemma ReadSurvives(x: Entry<string>)
    requires BodyRead(x.value)
    ensures SectionSurvives(x)
  {
    hide Norm, Plain;
    NormIsNorm(x.value);
    PlainNorm(x.value);
  }

  lemma EmptySurvives(key: string)
    ensures SectionSurvives(Entry(key, ""))
  {
    assert Norm("") == "";
  }

  lemma MergedSections(e: Dict<string>, f: Dict<string>)
    requires NamesReadOk(e) && NamesReadOk(f)
    requires (forall x | x in e :: SectionSurvives(x)) && (forall x | x in f :: SectionSurvives(x))
    ensures NamesReadOk(MergeSections(f, e)) && forall x | x in MergeSections(f, e) :: SectionSurvives(x)
  {
    hide Strip, NameOk, SectionSurvives, Distinct;
    var m := MergeSections(f, e);
    MergeSectionsAre(f, e, "");
    forall x | x in m ensures NameOk(x.key) && SectionSurvives(x) {
      MergeSectionsAre(f, e, x.key);
      GetEntry(m, x);
      GetIsEntry(e, x.key);
      GetIsEntry(f, x.key);
      EmptySurvives(x.key);
    }
  }

  lemma UpsertOk(env: Env, store: Store, f: Need)
    requires Upsert(env, store, f).Ok?
    ensures Filed(env, store, f) == Ok(Kept(env, store, f)) && Valid(env, Kept(env, store, f).fields)
    ensures IdOk(Get(Kept(env, store, f).fields, ID))
    ensures Upsert(env, store, f).value == store[FileName(env, f.fields) := Render(Kept(env, store, f))]
  {
    hide Filed, IdOk, Render, FileName, ID, DEFAULTS, Field;
  }

  lemma NewEntries(env: Env, store: Store, f: Need)
    requires FilingOk(env, store, f) && Load(env, store, FileName(env, f.fields)).Missing?
    ensures var r := Kept(env, store, f);
      && EntriesOk(env, StoredScalar(env.py), r.fields) && NamesReadOk(r.sections)
      && forall x | x in r.sections :: SectionSurvives(x)
  {
    assert env.py.canon("0.0") == "0.0";
    hide Lawful, ID, FileName, EntriesOk, FillUp, DEFAULTS, Distinct, NameOk, SectionSurvives, FiniteValue, Clean,
      StoredScalar, Valid, StringsApart;
    ShapedEntries(env, f);
    DefaultsOk(env);
    FilledEntries(env, StoredScalar(env.py), f.fields);
  }

  lemma StoredEntries(env: Env, store: Store, f: Need)
    requires FilingOk(env, store, f) && Load(env, store, FileName(env, f.fields)).Found?
    ensures var r := Kept(env, store, f);
      && EntriesOk(env, StoredScalar(env.py), r.fields) && NamesReadOk(r.sections)
      && forall x | x in r.sections :: SectionSurvives(x)
  {
    hide Lawful, ID, FileName, EntriesOk, MergeFields, MergeSections, Distinct, NameOk, SectionSurvives, FiniteValue,
      Clean, StoredScalar, Valid, StringsApart, Load, DEFAULTS;
    var id := FileName(env, f.fields);
    ShapedEntries(env, f);
    LoadedEntries(env, store, id);
    var e := Load(env, store, id).need;
    IntsStored(env.py);
    MergedEntries(env, StoredScalar(env.py), e.fields, f.fields);
    MergedSections(e.sections, f.sections);
  }

  lemma NotBroken(env: Env, store: Store, f: Need)
    requires Upsert(env, store, f).Ok?
    ensures !Load(env, store, FileName(env, f.fields)).Broken?
  {
    hide Load, FileName, Valid, MergeFields, MergeSections, FillUp, DEFAULTS;
  }

  lemma EntriesRecord(env: Env, r: Need)
    requires EntriesOk(env, StoredScalar(env.py), r.fields) && NamesReadOk(r.sections) && IdOk(Get(r.fields, ID))
    requires forall x | x in r.sections :: SectionSurvives(x)
    ensures WellFormed(env.py, r) && Legible(r)
  {
    hide EntriesOk, SectionSurvives, Distinct, NameOk, FieldOk, Clean, IdOk, ID, StoredScalar;
    EntriesLegible(env, r.fields);
  }

  /** What is written is well formed and legible. */
  lemma KeptIsLegible(env: Env, store: Store, f: Need)
    requires FilingOk(env, store, f)
    ensures WellFormed(env.py, Kept(env, store, f)) && Legible(Kept(env, store, f))
  {
    FilingUpserts(env, store, f);
    hide *;
    UpsertOk(env, store, f);
    NotBroken(env, store, f);
    if Load(env, store, FileName(env, f.fields)).Missing? {
      NewEntries(env, store, f);
    } else {
      StoredEntries(env, store, f);
    }
    EntriesRecord(env, Kept(env, store, f));
  }

  lemma IntsStored(py: Numbers)
    ensures forall k, n :: StoredScalar(py)(k, Int(n))
  {
    forall k, n ensures StoredScalar(py)(k, Int(n)) {
      StoredHolds(py, k, One(Int(n)));
    }
  }

  lemma EntriesLegible(env: Env, d: Dict<Value>)
    requires EntriesOk(env, StoredScalar(env.py), d) && IdOk(Get(d, ID))
    ensures Distinct(d) && forall x | x in d :: FieldOk(env.py, x) && Clean(x.value)
  {
    hide FiniteValue, Clean, Coerce, KeyOk, IdOk, ID, StoredScalar, Distinct;
    forall x | x in d ensures FieldOk(env.py, x) && Clean(x.value) {
      assert EntryOk(env, StoredScalar(env.py), x);
      StoredHolds(env.py, x.key, x.value);
      if x.key == ID {
        GetEntry(d, x);
        IdSurvives(x.value);
      }
    }
  }

  // ---------- the record read back ----------

  function Front(r: Need): Dict<Value> { Reorder(FIELDS, r.fields) }

  function Back(r: Need): Dict<string> { Reorder(SECTIONS, r.sections) }

  /** The printer's order has the same, well-formed, fields. */
  lemma FrontIs(env: Env, r: Need)
    requires WellFormed(env.py, r) && Legible(r)
    ensures var d := Front(r);
      && FrontOk(d) && Reorder(FIELDS, d) == d && (forall x :: x in d <==> x in r.fields)
      && (forall key :: Get(d, key) == Get(r.fields, key))
      && (forall x | x in d :: FieldOk(env.py, x) && Clean(x.value)) && IdOk(Get(d, ID)) && r.fields != []
  {
    hide Reorder, FIELDS, SECTIONS, FieldOk, LineOk, Clean, SectionSurvives, NameOk, IdOk, ID, NoRepeats, Distinct;
    ReorderedOk(env.py, r);
    KnownFields();
    ReorderTwice(FIELDS, r.fields);
    forall x | x in Front(r) ensures LineOk(x) {
      FieldOkLine(env.py, x);
    }
    forall key ensures Get(Front(r), key) == Get(r.fields, key) {
      GetReorder(FIELDS, r.fields, key);
    }
    IdIsSome(r.fields);
    GetIsEntry(r.fields, ID);
  }

  lemma BackIs(env: Env, r: Need)
    requires WellFormed(env.py, r) && Legible(r)
    ensures BodiesOk(Back(r)) && Distinct(r.sections) && forall name :: Get(Back(r), name) == Get(r.sections, name)
  {
    hide Reorder, FIELDS, SECTIONS, FieldOk, Clean, SectionSurvives, NameOk, IdOk, ID, NoRepeats, Distinct;
    ReorderedOk(env.py, r);
    KnownSections();
    forall name ensures Get(Back(r), name) == Get(r.sections, name) {
      GetReorder(SECTIONS, r.sections, name);
    }
  }

  /** The file of a legible record, loaded. */
  lemma KeptIsRead(env: Env, id: string, r: Need)
    requires WellFormed(env.py, r) && Legible(r)
    ensures Parse(env.py, id, Render(r)) == Parsed(Need(ReadBacks(env.py, Front(r)), NormAll(Back(r))))
  {
    FrontIs(env, r);
    BackIs(env, r);
    hide Reorder, FIELDS, SECTIONS, LineOk, Clean, IdOk, ID, FieldOk, Parse, Render, NormAll, ReadBacks, Named, BodyOk,
      Distinct, WellFormed, Legible;
    RenderedParses(env.py, id, r, Front(r), Back(r));
    IdReadBack(env.py, Front(r), id);
  }

  function ReadScalar(py: Numbers): (string, Scalar) -> bool {
    (key: string, s: Scalar) => Known(py, s) && CleanScalar(s)
  }

  lemma ReadHolds(py: Numbers, key: string, v: Value)
    ensures Holds(ReadScalar(py), key, v) <==> KnownValue(py, v) && Clean(v)
  {
    hide Known, CleanScalar;
  }

  lemma BreaksExotic(s: string)
    requires NoBreaks(s)
    ensures NoExotic(s)
  {
    hide IsBreak;
  }

  /** What is read back is typed, known and clean. */
  lemma ReadBackOk(env: Env, x: Entry<Value>)
    requires Lawful(env.py) && LineOk(x)
    ensures EntryOk(env, ReadScalar(env.py), ReadBack(env.py, x))
  {
    hide Lawful, KeyOk, NoBreaks, Trimmed, EmitValue, ParseValue, Coerce, KnownValue, Clean, Holds, ReadScalar;
    var text := EmitValue(x.value);
    BreaksExotic(text);
    var v := ParseValue(env.py, text);
    ValueParsedKnown(env.py, text);
    ValueParsedClean(env.py, text);
    CoercedKnown(env.py, x.key, v);
    CoercedClean(env.py, x.key, v);
    ReadHolds(env.py, x.key, Coerce(env.py, x.key, v));
  }

  lemma ReadBacksOk(env: Env, d: Dict<Value>)
    requires Lawful(env.py) && FrontOk(d)
    ensures EntriesOk(env, ReadScalar(env.py), ReadBacks(env.py, d)) && SameKeys(ReadBacks(env.py, d), d)
  {
    hide Lawful, LineOk, ReadBacks, ReadBack, EntryOk, ReadScalar, Distinct;
    ReadBacksAre(env.py, d);
    ReadBacksKeys(env.py, d);
    var r := ReadBacks(env.py, d);
    forall i | 0 <= i < |d| ensures EntryOk(env, ReadScalar(env.py), r[i]) && r[i].key == d[i].key {
      assert d[i] in d;
      ReadBackKey(env.py, d[i]);
      ReadBackOk(env, d[i]);
    }
  }

  lemma FilingReadOk(env: Env, f: Need)
    requires Shaped(env.py, f) && Legible(f)
    ensures EntriesOk(env, ReadScalar(env.py), f.fields)
  {
    hide KeyOk, FiniteValue, Coerce, Clean, ReadScalar, NameOk, Distinct, KnownValue, Holds, SectionSurvives;
    forall x | x in f.fields ensures EntryOk(env, ReadScalar(env.py), x) {
      assert FieldOk(env.py, x);
      FiniteIsKnown(env.py, x.value);
      ReadHolds(env.py, x.key, x.value);
    }
  }

  lemma EntryLine(env: Env, x: Entry<Value>)
    requires EntryOk(env, ReadScalar(env.py), x)
    ensures LineOk(x)
  {
    hide KeyOk, Coerce, ReadScalar, NoBreaks, Trimmed, EmitValue, Holds, Clean, KnownValue;
    ReadHolds(env.py, x.key, x.value);
    ValueLine(env.py, x.value);
  }

  lemma IntsRead(py: Numbers)
    ensures forall k, n :: ReadScalar(py)(k, Int(n))
  {
    forall k, n ensures ReadScalar(py)(k, Int(n)) {
      ReadHolds(py, k, One(Int(n)));
    }
  }

  /** Merging known fields only keeps the names and their order. */
  lemma {:induction false} MergeKeepsKeys(env: Env, e: Dict<Value>, f: Dict<Value>, acc: Dict<Value>)
    requires MergeFields(env, e, f, acc).Ok?
    requires forall x | x in f :: Get(acc, x.key).Some? || MergeField(env, x.key, Get(e, x.key), x.value) == Ok(None)
    ensures SameKeys(MergeFields(env, e, f, acc).value, acc)
    decreases |f|
  {
    hide MergeField;
    if f != [] {
      var x := f[0];
      var r := MergeField(env, x.key, Get(e, x.key), x.value);
      if r.value.Some? {
        assert Get(acc, x.key).Some?;
        PutKeepsKeys(acc, x.key, r.value.value);
        var more := Put(acc, x.key, r.value.value);
        forall y | y in f[1..] ensures Get(more, y.key).Some? || MergeField(env, y.key, Get(e, y.key), y.value) == Ok(None) {
          GetPut(acc, x.key, r.value.value, y.key);
        }
        MergeKeepsKeys(env, e, f[1..], more);
      } else {
        MergeKeepsKeys(env, e, f[1..], acc);
      }
    }
  }

  /** A filed field that the stored record does not have was a null that is not stored. */
  lemma NotKept(env: Env, store: Store, f: Need, x: Entry<Value>)
    requires FilingOk(env, store, f) && x in f.fields && Get(Kept(env, store, f).fields, x.key).None?
    ensures MergeField(env, x.key, None, x.value) == Ok(None)
  {
    hide MergeField, IdOk, ID, FileName, DEFAULTS, Valid, Lawful, NameOk, FieldOk, Clean, SectionSurvives, FiniteValue,
      Render, StringsApart, MergeSections;
    GetEntry(f.fields, x);
    var id := FileName(env, f.fields);
    if Load(env, store, id).Missing? {
      FillUpAre(DEFAULTS, f.fields, x.key);
    } else {
      var e := Load(env, store, id).need;
      Merged(env, e.fields, f.fields);
      assert After(env, e.fields, f.fields, x.key) == Ok(None);
      MergeFieldKeeps(env, x.key, Get(e.fields, x.key), x.value);
    }
  }
}
