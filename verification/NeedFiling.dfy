/** Filing the same need twice, through the file: when the second filing leaves the file as it is. */
module NeedFiling {
  import opened NeedValues
  import opened NeedText
  import opened NeedRecord
  import opened NeedRoundTrip
  import opened NeedParsed
  import opened NeedBacklog
  import opened NeedMerge

  // ---------- the second filing ----------

  function ReadFront(env: Env, r: Need): Dict<Value> { ReadBacks(env.py, Front(r)) }

  function SectionsAgain(f: Need, r: Need): Dict<string> { MergeSections(f.sections, NormAll(Back(r))) }

  lemma LoadedAgain(env: Env, store: Store, f: Need)
    requires FilingOk(env, store, f)
    ensures var id, r := FileName(env, f.fields), Kept(env, store, f);
      Load(env, Upsert(env, store, f).value, id) == Found(Need(ReadFront(env, r), NormAll(Back(r))))
  {
    var id, r := FileName(env, f.fields), Kept(env, store, f);
    UpsertOk(env, store, f);
    KeptIsLegible(env, store, f);
    KeptIsRead(env, id, r);
    hide Kept, Upsert, FilingOk, Render, ReadBacks, Back, Front, NormAll, WellFormed, Legible, FileName, Parse, Valid,
      Filed;
  }

  lemma GetReadFront(env: Env, r: Need, x: Entry<Value>)
    requires WellFormed(env.py, r) && Legible(r) && x in Front(r)
    ensures Get(ReadFront(env, r), x.key) == Some(ReadBack(env.py, x).value)
  {
    FrontIs(env, r);
    hide WellFormed, Legible, Front, LineOk, FieldOk, ReadBacks, ReadBack;
    GetEntry(Front(r), x);
    GetReadBacks(env.py, Front(r), x.key);
  }

  /** The read-back fields p of d, and what the filing holds beyond them. */
  ghost predicate ReadOf(env: Env, d: Dict<Value>, p: Dict<Value>, f: Dict<Value>) {
    && Distinct(d) && Distinct(f) && (forall x | x in d :: Get(p, x.key) == Some(ReadBack(env.py, x).value))
    && forall y | y in f && Get(d, y.key).None? :: Get(p, y.key).None? && MergeField(env, y.key, None, y.value) == Ok(None)
  }

  lemma AgainIsAfter(env: Env, d: Dict<Value>, p: Dict<Value>, f: Dict<Value>, x: Entry<Value>)
    requires ReadOf(env, d, p, f) && x in d
    ensures After(env, p, f, x.key) == Again(env, f, x)
    ensures Get(f, x.key).Some? ==> Entry(x.key, Get(f, x.key).value) in f
  {
    hide MergeField, ReadBack, Distinct;
    GetIsEntry(f, x.key);
  }

  lemma FiledIsAgain(env: Env, d: Dict<Value>, p: Dict<Value>, f: Dict<Value>, y: Entry<Value>)
    requires ReadOf(env, d, p, f) && y in f
    ensures Get(d, y.key).None? ==> MergeField(env, y.key, Get(p, y.key), y.value) == Ok(None)
    ensures Get(d, y.key).Some? ==>
      var x := Entry(y.key, Get(d, y.key).value);
      x in d && Again(env, f, x) == MergeField(env, y.key, Get(p, y.key), y.value)
  {
    hide MergeField, ReadBack, Distinct;
    GetEntry(f, y);
    GetIsEntry(d, y.key);
  }

  lemma MergeOfRead(env: Env, d: Dict<Value>, p: Dict<Value>, f: Dict<Value>)
    requires ReadOf(env, d, p, f)
    ensures var m := MergeFields(env, p, f, p);
      && (m.Ok? <==> forall x | x in d :: Again(env, f, x).Ok?)
      && (m.Ok? ==> forall x | x in d :: Again(env, f, x) == Ok(Get(m.value, x.key)))
  {
    assert Distinct(f);
    hide MergeField, MergeFields, Again;
    Merged(env, p, f);
    var m := MergeFields(env, p, f, p);
    forall x | x in d ensures m.Ok? ==> Again(env, f, x) == Ok(Get(m.value, x.key)) {
      AgainIsAfter(env, d, p, f, x);
    }
    if forall x | x in d :: Again(env, f, x).Ok? {
      forall y | y in f ensures MergeField(env, y.key, Get(p, y.key), y.value).Ok? {
        FiledIsAgain(env, d, p, f, y);
      }
    }
  }

  lemma NotReadNotKept(env: Env, store: Store, f: Need, y: Entry<Value>)
    requires FilingOk(env, store, f) && y in f.fields && Get(Front(Kept(env, store, f)), y.key).None?
    ensures Get(ReadFront(env, Kept(env, store, f)), y.key).None? && MergeField(env, y.key, None, y.value) == Ok(None)
  {
    FilingUpserts(env, store, f);
    KeptIsLegible(env, store, f);
    var r := Kept(env, store, f);
    FrontIs(env, r);
    hide FilingOk, Kept, WellFormed, Legible, Front, LineOk, FieldOk, MergeField, IdOk, ID, Clean, Distinct, Upsert;
    NotKept(env, store, f, y);
    GetReadBacks(env.py, Front(r), y.key);
  }

  lemma FilingIsRead(env: Env, store: Store, f: Need)
    requires FilingOk(env, store, f)
    ensures var r := Kept(env, store, f); ReadOf(env, Front(r), ReadFront(env, r), f.fields)
  {
    FilingUpserts(env, store, f);
    KeptIsLegible(env, store, f);
    FilingDistinct(env, store, f);
    KeptDistinct(env, store, f);
    hide FilingOk, Kept, WellFormed, Legible, Shaped, Front, ReadFront, ReadBack, MergeField, Distinct, Upsert;
    var r := Kept(env, store, f);
    forall x | x in Front(r) ensures Get(ReadFront(env, r), x.key) == Some(ReadBack(env.py, x).value) {
      GetReadFront(env, r, x);
    }
    forall y | y in f.fields && Get(Front(r), y.key).None?
      ensures Get(ReadFront(env, r), y.key).None? && MergeField(env, y.key, None, y.value) == Ok(None)
    {
      NotReadNotKept(env, store, f, y);
    }
  }

  /** The second merge, field by field: it raises when some field does, and keeps the names in their order. */
  lemma MergeAgain(env: Env, store: Store, f: Need)
    requires FilingOk(env, store, f)
    ensures var r := Kept(env, store, f);
      var m := MergeFields(env, ReadFront(env, r), f.fields, ReadFront(env, r));
      && (m.Ok? <==> forall x | x in Front(r) :: Again(env, f.fields, x).Ok?)
      && (m.Ok? ==> SameKeys(m.value, Front(r)))
      && (m.Ok? ==> FrontOk(m.value))
      && (m.Ok? ==> forall x | x in Front(r) :: Again(env, f.fields, x) == Ok(Get(m.value, x.key)))
  {
    var r := Kept(env, store, f);
    KeptIsLegible(env, store, f);
    FrontIs(env, r);
    FilingDistinct(env, store, f);
    FilingIsRead(env, store, f);
    ReadBacksOk(env, Front(r));
    FilingReadOk(env, f);
    hide FilingOk, Kept, WellFormed, Legible, Front, LineOk, FieldOk, ReadBacks, ReadBack, MergeField, IdOk, ID, Clean,
      EntryOk, ReadScalar, Distinct, Again, MergeFields;
    MergeOfRead(env, Front(r), ReadFront(env, r), f.fields);
    if MergeFields(env, ReadFront(env, r), f.fields, ReadFront(env, r)).Ok? {
      MergedFront(env, Front(r), ReadFront(env, r), f.fields);
    }
  }

  lemma FilingDistinct(env: Env, store: Store, f: Need)
    requires FilingOk(env, store, f)
    ensures Shaped(env.py, f) && Legible(f) && Lawful(env.py) && Distinct(f.fields) && Distinct(f.sections)
  {
  }

  lemma SameKeysNone<T(!new), U(!new)>(a: Dict<T>, b: Dict<U>, key: string)
    requires SameKeys(a, b) && Get(b, key).None?
    ensures Get(a, key).None?
  {
    GetIsEntry(a, key);
    GetIsEntry(b, key);
    forall i | 0 <= i < |a| ensures a[i].key != key {
      assert b[i] in b;
    }
  }

  lemma MergedFront(env: Env, d: Dict<Value>, p: Dict<Value>, f: Dict<Value>)
    requires MergeFields(env, p, f, p).Ok? && SameKeys(p, d)
    requires EntriesOk(env, ReadScalar(env.py), p) && EntriesOk(env, ReadScalar(env.py), f)
    requires forall y | y in f && Get(d, y.key).None? :: Get(p, y.key).None? && MergeField(env, y.key, None, y.value) == Ok(None)
    requires forall x | x in d :: Get(p, x.key).Some?
    ensures var m := MergeFields(env, p, f, p).value; SameKeys(m, d) && FrontOk(m)
  {
    hide MergeField, EntryOk, ReadScalar, LineOk, Distinct;
    IntsRead(env.py);
    MergedEntries(env, ReadScalar(env.py), p, f);
    var m := MergeFields(env, p, f, p).value;
    forall x | x in m ensures LineOk(x) {
      EntryLine(env, x);
    }
    forall y | y in f ensures Get(p, y.key).Some? || MergeField(env, y.key, Get(p, y.key), y.value) == Ok(None) {
      GetIsEntry(d, y.key);
    }
    MergeKeepsKeys(env, p, f, p);
  }

  /** The second filing prints the same fields exactly when each field settles. */
  lemma SettlesIsSameTexts(env: Env, f: Dict<Value>, d: Dict<Value>, m: Dict<Value>)
    requires SameKeys(m, d) && Distinct(m) && Distinct(d)
    requires forall x | x in d :: Again(env, f, x) == Ok(Get(m, x.key))
    ensures (forall x | x in d :: Settles(env, f, x)) <==> SameTexts(m, d)
  {
    hide Again, EmitValue;
    forall i | 0 <= i < |d| ensures Again(env, f, d[i]) == Ok(Some(m[i].value)) {
      assert d[i] in d && m[i] in m;
      GetEntry(m, m[i]);
    }
    forall i | 0 <= i < |d| ensures Settles(env, f, d[i]) <==> EmitValue(m[i].value) == EmitValue(d[i].value) {
    }
    if forall x | x in d :: Settles(env, f, x) {
      forall i | 0 <= i < |d| ensures EmitValue(m[i].value) == EmitValue(d[i].value) {
        assert d[i] in d;
      }
    }
  }

  /** A plain field is stored as it was filed. */
  lemma PlainKept(env: Env, store: Store, f: Need, y: Entry<Value>)
    requires FilingOk(env, store, f) && y in f.fields && Plainly(y.key) && y.value != One(Null)
    ensures Get(Kept(env, store, f).fields, y.key) == Some(y.value)
  {
    hide MergeField, IdOk, ID, FileName, DEFAULTS, Valid, Lawful, NameOk, Clean, SectionSurvives, FiniteValue, Render,
      StringsApart, MergeSections, KeyOk, Coerce, Plainly;
    GetEntry(f.fields, y);
    assert FieldOk(env.py, y);
    var id := FileName(env, f.fields);
    if Load(env, store, id).Missing? {
      FillUpAre(DEFAULTS, f.fields, y.key);
    } else {
      var e := Load(env, store, id).need;
      Merged(env, e.fields, f.fields);
      MergePlain(env, y.key, Get(e.fields, y.key), y.value);
    }
  }

  /** A plain field that is no list is the same after the second filing. */
  lemma PlainSettles(env: Env, store: Store, f: Need, x: Entry<Value>)
    requires FilingOk(env, store, f) && x in Front(Kept(env, store, f)) && Plainly(x.key)
    requires x.value.One? || (Get(f.fields, x.key).Some? && Get(f.fields, x.key) != Some(One(Null)))
    ensures Again(env, f.fields, x) == Ok(Some(x.value))
  {
    var r := Kept(env, store, f);
    KeptIsLegible(env, store, f);
    FrontIs(env, r);
    FilingDistinct(env, store, f);
    GetEntry(Front(r), x);
    GetIsEntry(f.fields, x.key);
    hide Kept, WellFormed, Front, LineOk, ReadBack, MergeField, IdOk, ID, Clean, Coerce, Plainly, KeyOk, FiniteValue,
      SectionSurvives, NameOk;
    if x.value.One? {
      ReadBackExact(env.py, x);
    }
    if Get(f.fields, x.key).Some? {
      var y := Entry(x.key, Get(f.fields, x.key).value);
      assert FieldOk(env.py, y);
      MergePlain(env, x.key, Some(ReadBack(env.py, x).value), y.value);
      if y.value != One(Null) {
        PlainKept(env, store, f, y);
      }
    }
  }

  lemma PlainSame(env: Env, store: Store, f: Need, m: Dict<Value>, key: string)
    requires FilingOk(env, store, f) && SameKeys(m, Front(Kept(env, store, f))) && Plainly(key)
    requires forall x | x in Front(Kept(env, store, f)) :: Again(env, f.fields, x) == Ok(Get(m, x.key))
    requires var v := Get(Kept(env, store, f).fields, key); (v.Some? ==> v.value.One?)
    ensures Get(m, key) == Get(Kept(env, store, f).fields, key)
  {
    var r := Kept(env, store, f);
    KeptIsLegible(env, store, f);
    FrontIs(env, r);
    hide Kept, WellFormed, Legible, Front, LineOk, IdOk, Again, Plainly, FieldOk, Clean, Reorder, FIELDS;
    var d := Front(r);
    if Get(d, key).Some? {
      GetIsEntry(d, key);
      PlainSettles(env, store, f, Entry(key, Get(d, key).value));
    } else {
      SameKeysNone(m, d, key);
    }
  }

  predicate Checked(key: string) {
    key == "track" || key == "status" || key == "severity" || key == "hypothesis_status" || key == "scope"
    || key == CREDIBILITY || key == PROBE || key == ACCEPTANCE || key == ID
  }

  lemma CheckedIsPlain(key: string)
    requires Checked(key)
    ensures Plainly(key)
  {
  }

  lemma ValidReads(env: Env, a: Dict<Value>, b: Dict<Value>)
    requires forall key | Checked(key) :: Get(a, key) == Get(b, key)
    ensures Valid(env, a) == Valid(env, b)
  {
    forall key | Checked(key) ensures Field(a, key) == Field(b, key) {
    }
    hide Field, IdOk, CREDIBILITY, PROBE, ACCEPTANCE, ID, TRACKS, STATUSES, SEVERITIES, VERDICTS, SCOPES, Allowed;
  }

  lemma ValidIsOne(env: Env, a: Dict<Value>, key: string)
    requires Valid(env, a) && Checked(key)
    ensures Get(a, key).Some? ==> Get(a, key).value.One?
  {
    IdIsOne(a);
    hide DEFAULTS, CREDIBILITY, PROBE, ACCEPTANCE, ID, TRACKS, STATUSES, SEVERITIES, VERDICTS, SCOPES, IdOk;
  }

  /** So a valid record stays valid. */
  lemma ValidAgain(env: Env, store: Store, f: Need, m: Dict<Value>)
    requires FilingOk(env, store, f) && SameKeys(m, Front(Kept(env, store, f)))
    requires forall x | x in Front(Kept(env, store, f)) :: Again(env, f.fields, x) == Ok(Get(m, x.key))
    ensures Valid(env, m)
  {
    var r := Kept(env, store, f);
    UpsertOk(env, store, f);
    hide FilingOk, Kept, Front, Again, Checked, Valid, SameKeys, Upsert, Filed, Plainly, Get, IdOk;
    forall key | Checked(key) ensures Get(m, key) == Get(r.fields, key) {
      CheckedIsPlain(key);
      ValidIsOne(env, r.fields, key);
      PlainSame(env, store, f, m, key);
    }
    ValidReads(env, m, r.fields);
  }

  lemma IdIsOne(d: Dict<Value>)
    requires IdOk(Get(d, ID))
    ensures Get(d, ID).Some? && Get(d, ID).value.One?
  {
    hide ID;
  }

  /** The second filing writes the same sections. */
  lemma SectionsAgainSettle(env: Env, store: Store, f: Need)
    requires FilingOk(env, store, f)
    ensures var r := Kept(env, store, f);
      AllSectionLines(Reorder(SECTIONS, SectionsAgain(f, r))) == AllSectionLines(Back(r))
  {
    var r := Kept(env, store, f);
    KeptIsLegible(env, store, f);
    BackIs(env, r);
    var s := Back(r);
    hide WellFormed, Legible, Back, Norm, NormAll, Reorder, SECTIONS, AllSectionLines, BodiesOk, Strip;
    forall x | x in f.sections ensures HasSection(NormAll(s), x) {
      KeptSection(env, store, f, x);
      NormAllGet(s, x.key);
      NormTwice(Get(r.sections, x.key).value);
    }
    FilingDistinct(env, store, f);
    hide FilingOk, Kept;
    SectionsSettle(f.sections, NormAll(s));
    NormAllNormed(s);
    assert NormAll(SectionsAgain(f, r)) == NormAll(s);
    BackIsReordered(r);
    BackSettles(r.sections, SectionsAgain(f, r));
  }

  lemma BackIsReordered(r: Need)
    ensures Back(r) == Reorder(SECTIONS, r.sections)
  {
    hide Reorder, SECTIONS;
  }

  lemma KeptSection(env: Env, store: Store, f: Need, x: Entry<string>)
    requires FilingOk(env, store, f) && x in f.sections
    ensures var r := Kept(env, store, f);
      Get(r.sections, x.key).Some? && (Strip(x.value) != "" ==> Get(r.sections, x.key) == Some(x.value))
  {
    FilingDistinct(env, store, f);
    hide IdOk, ID, FileName, DEFAULTS, Valid, Lawful, NameOk, Clean, SectionSurvives, FiniteValue, Render, StringsApart,
      MergeFields, FillUp, Strip, Distinct;
    GetEntry(f.sections, x);
    var id := FileName(env, f.fields);
    if Load(env, store, id).Found? {
      MergeSectionsAre(f.sections, Load(env, store, id).need.sections, x.key);
    }
  }

  lemma RenderedFrom(a: Need, b: Need)
    requires FieldLines(Reorder(FIELDS, a.fields)) == FieldLines(Reorder(FIELDS, b.fields))
    requires AllSectionLines(Reorder(SECTIONS, a.sections)) == AllSectionLines(Reorder(SECTIONS, b.sections))
    ensures Render(a) == Render(b)
  {
    hide FieldLines, AllSectionLines, Reorder, FIELDS, SECTIONS, FENCE, Join;
  }

  /** The file written again is the same exactly when the field texts are. */
  lemma SameFile(env: Env, store: Store, f: Need, m: Dict<Value>)
    requires FilingOk(env, store, f)
    requires SameKeys(m, Front(Kept(env, store, f))) && FrontOk(m)
    ensures var r := Kept(env, store, f);
      Render(Need(m, SectionsAgain(f, r))) == Render(r) <==> SameTexts(m, Front(r))
  {
    var r := Kept(env, store, f);
    var again := Need(m, SectionsAgain(f, r));
    KeptIsLegible(env, store, f);
    FrontIs(env, r);
    SectionsAgainSettle(env, store, f);
    BackIsReordered(r);
    var d := Front(r);
    assert d == Reorder(FIELDS, r.fields);
    hide FilingOk, Kept, WellFormed, Legible, Front, Back, LineOk, IdOk, SameTexts, Render, FieldLines, FIELDS,
      SECTIONS, Reorder, AllSectionLines, SectionsAgain, FieldOk, Clean;
    LinesAreTexts(m, d);
    if SameTexts(m, d) {
      RenderedFrom(again, r);
    }
    if Render(again) == Render(r) {
      ReorderedFront(m);
      FrontSome(m, d, r);
      SameTextSameFront(again, r);
    }
  }

  lemma ReorderedFront(m: Dict<Value>)
    requires FrontOk(m)
    ensures FrontOk(Reorder(FIELDS, m))
  {
    hide LineOk, Reorder, FIELDS;
    KnownFields();
    ReorderAre(FIELDS, m);
  }

  lemma FrontSome(m: Dict<Value>, d: Dict<Value>, r: Need)
    requires SameKeys(m, d) && r.fields != [] && forall x :: x in d <==> x in r.fields
    ensures m != []
  {
    assert r.fields[0] in d;
  }

  /** What the second filing writes, if it merges. */
  lemma SettlingMerged(env: Env, store: Store, f: Need, m: Dict<Value>)
    requires FilingOk(env, store, f)
    requires var p := ReadFront(env, Kept(env, store, f)); MergeFields(env, p, f.fields, p) == Ok(m)
    ensures var r := Kept(env, store, f);
      Valid(env, m) &&
      (Render(Need(m, SectionsAgain(f, r))) == Render(r) <==> forall x | x in Front(r) :: Settles(env, f.fields, x))
  {
    FilingUpserts(env, store, f);
    hide *;
    MergeAgain(env, store, f);
    KeptDistinct(env, store, f);
    FrontDistinct(m);
    SettlesIsSameTexts(env, f.fields, Front(Kept(env, store, f)), m);
    ValidAgain(env, store, f, m);
    SameFile(env, store, f, m);
  }

  /** When every field settles, the second merge does not raise. */
  lemma SettlingMerges(env: Env, store: Store, f: Need)
    requires FilingOk(env, store, f) && forall x | x in Front(Kept(env, store, f)) :: Settles(env, f.fields, x)
    ensures var p := ReadFront(env, Kept(env, store, f)); MergeFields(env, p, f.fields, p).Ok?
  {
    FilingUpserts(env, store, f);
    hide *;
    MergeAgain(env, store, f);
    forall x | x in Front(Kept(env, store, f)) ensures Again(env, f.fields, x).Ok? {
      SettlesOk(env, f.fields, x);
    }
  }

  /** Filing again leaves the backlog as it is exactly when every stored field settles: read back and merged
      with what is filed, it prints as it was printed. */
  lemma Settling(env: Env, store: Store, f: Need)
    requires FilingOk(env, store, f)
    ensures var once := Upsert(env, store, f).value;
      Upsert(env, once, f) == Ok(once) <==> forall x | x in Front(Kept(env, store, f)) :: Settles(env, f.fields, x)
  {
    FilingUpserts(env, store, f);
    hide *;
    var once, id, r := Upsert(env, store, f).value, FileName(env, f.fields), Kept(env, store, f);
    UpsertOk(env, store, f);
    LoadedAgain(env, store, f);
    FiledAgain(env, once, f, id, r);
    var m := MergeFields(env, ReadFront(env, r), f.fields, ReadFront(env, r));
    if m.Ok? {
      SettlingMerged(env, store, f, m.value);
      WrittenTwice(store, id, Render(r), Render(Need(m.value, SectionsAgain(f, r))));
    } else if forall x | x in Front(r) :: Settles(env, f.fields, x) {
      SettlingMerges(env, store, f);
    }
  }

  lemma WrittenTwice(store: Store, id: string, a: string, b: string)
    ensures store[id := a][id := b] == store[id := a] <==> a == b
  {
    assert store[id := a][id := b][id] == b;
    if a == b {
      assert store[id := a][id := a] == store[id := a];
    }
  }

  lemma FrontDistinct(d: Dict<Value>)
    requires FrontOk(d)
    ensures Distinct(d)
  {
  }

  lemma SettlesOk(env: Env, f: Dict<Value>, x: Entry<Value>)
    requires Settles(env, f, x)
    ensures Again(env, f, x).Ok?
  {
  }

  /** A filing on the file of r. */
  lemma FiledAgain(env: Env, once: Store, f: Need, id: string, r: Need)
    requires id == FileName(env, f.fields) && Load(env, once, id) == Found(Need(ReadFront(env, r), NormAll(Back(r))))
    ensures var m := MergeFields(env, ReadFront(env, r), f.fields, ReadFront(env, r));
      Upsert(env, once, f) ==
        if m.Ok? && Valid(env, m.value) then Ok(once[id := Render(Need(m.value, SectionsAgain(f, r)))]) else Raise
  {
    hide ReadFront, Back, Render, Valid, FileName, MergeSections, NormAll, Load, DEFAULTS, MergeFields;
  }

  lemma KeptDistinct(env: Env, store: Store, f: Need)
    requires FilingOk(env, store, f)
    ensures Distinct(Front(Kept(env, store, f)))
  {
    KeptIsLegible(env, store, f);
    FrontIs(env, Kept(env, store, f));
  }

  // ---------- when a field settles ----------

  /** There is a file for the need. */
  predicate Stored(env: Env, store: Store, f: Need) { FileName(env, f.fields) in store }

  /** The filing replaces the field, whatever is read back for it. */
  predicate Overwritten(f: Dict<Value>, x: Entry<Value>) {
    Plainly(x.key) && Get(f, x.key).Some? && Get(f, x.key) != Some(One(Null))
  }

  predicate Rereads(f: Dict<Value>, x: Entry<Value>) { Overwritten(f, x) || Splits(x.value) }

  /** Every field of the record is either read back as it is or replaced by the next filing. */
  predicate AllReread(f: Need, r: Need) { forall x | x in r.fields :: Rereads(f.fields, x) }

  lemma SurvivorsReread(f: Need, r: Need)
    requires Survives(r)
    ensures AllReread(f, r)
  {
    hide Splits, Clean, Overwritten, SectionSurvives;
    forall x | x in r.fields ensures Rereads(f.fields, x) {
      assert FieldSurvives(x);
    }
  }

  /** A filed field of a new need is stored as it was filed. */
  lemma NewKept(env: Env, store: Store, f: Need, key: string)
    requires FilingOk(env, store, f) && !Stored(env, store, f) && Get(f.fields, key).Some?
    ensures Get(Kept(env, store, f).fields, key) == Get(f.fields, key)
  {
    hide IdOk, ID, FileName, DEFAULTS, Valid, Lawful, NameOk, Clean, SectionSurvives, FiniteValue, Render, StringsApart,
      MergeFields;
    FillUpAre(DEFAULTS, f.fields, key);
  }

  /** A filed field of a stored need is stored merged, and stays when it is merged again. */
  lemma StoredKept(env: Env, store: Store, f: Need, x: Entry<Value>, v: Value)
    requires FilingOk(env, store, f) && Stored(env, store, f) && Get(f.fields, x.key) == Some(v)
    requires Get(Kept(env, store, f).fields, x.key) == Some(x.value)
    ensures MergeField(env, x.key, Some(x.value), v) == Ok(Some(x.value))
  {
    hide IdOk, ID, FileName, DEFAULTS, Valid, Lawful, NameOk, Clean, SectionSurvives, FiniteValue, Render, StringsApart,
      MergeSections, MergeField, KeyOk, Coerce;
    var e := Load(env, store, FileName(env, f.fields)).need;
    GetIsEntry(f.fields, x.key);
    assert FieldOk(env.py, Entry(x.key, v));
    Merged(env, e.fields, f.fields);
    assert After(env, e.fields, f.fields, x.key) == Ok(Some(x.value));
    MergeFieldTwice(env, x.key, Get(e.fields, x.key), v);
  }

  function FiniteScalar(py: Numbers): (string, Scalar) -> bool { (key: string, s: Scalar) => Finite(py, s) }

  lemma FiniteHolds(py: Numbers, key: string, v: Value)
    ensures Holds(FiniteScalar(py), key, v) <==> FiniteValue(py, v)
  {
    hide Finite;
    if v.List? && Holds(FiniteScalar(py), key, v) {
      assert forall i | 0 <= i < |v.items| :: v.items[i] in v.items;
    }
  }

  /** A new field prints the same after merging with itself only if it is the same. */
  lemma SelfTexts(env: Env, key: string, v: Value)
    requires Coerce(env.py, key, v) == v && FiniteValue(env.py, v)
    ensures var r := MergeField(env, key, Some(v), v);
      r.Ok? && r.value.Some? && EmitValue(r.value.value) == EmitValue(v) ==> r == Ok(Some(v))
  {
    FiniteHolds(env.py, key, v);
    forall k, n ensures FiniteScalar(env.py)(k, Int(n)) {
      FiniteHolds(env.py, k, One(Int(n)));
    }
    hide MergeField, Holds, Coerce, FiniteValue, FiniteScalar, EmitValue;
    MergeFieldHolds(env, FiniteScalar(env.py), key, Some(v), v);
    var r := MergeField(env, key, Some(v), v);
    if r.Ok? && r.value.Some? && EmitValue(r.value.value) == EmitValue(v) {
      FiniteHolds(env.py, key, r.value.value);
      SameValueText(env.py, r.value.value, v);
    }
  }

  predicate SelfMergedIn(env: Env, f: Dict<Value>, key: string) {
    Get(f, key).Some? ==> SelfMergedField(env, key, Get(f, key).value)
  }

  /** A filed field has a typed, finite value. */
  lemma FiledField(env: Env, store: Store, f: Need, key: string)
    requires FilingOk(env, store, f) && Get(f.fields, key).Some?
    ensures var v := Get(f.fields, key).value; Coerce(env.py, key, v) == v && FiniteValue(env.py, v)
  {
    FilingDistinct(env, store, f);
    GetIsEntry(f.fields, key);
    assert FieldOk(env.py, Entry(key, Get(f.fields, key).value));
  }

  lemma KeptField(env: Env, store: Store, f: Need, x: Entry<Value>)
    requires FilingOk(env, store, f) && x in Front(Kept(env, store, f))
    ensures FieldOk(env.py, x) && Get(Kept(env, store, f).fields, x.key) == Some(x.value)
  {
    KeptIsLegible(env, store, f);
    FrontIs(env, Kept(env, store, f));
    GetEntry(Front(Kept(env, store, f)), x);
  }

  lemma SettlesTo(env: Env, f: Dict<Value>, x: Entry<Value>)
    requires Again(env, f, x) == Ok(Some(x.value))
    ensures Settles(env, f, x)
  {
    hide EmitValue;
  }

  lemma OverwrittenSettles(env: Env, store: Store, f: Need, x: Entry<Value>)
    requires FilingOk(env, store, f) && x in Front(Kept(env, store, f)) && Overwritten(f.fields, x)
    ensures Settles(env, f.fields, x) && SelfMergedIn(env, f.fields, x.key)
  {
    FilingUpserts(env, store, f);
    hide FilingOk, Kept, Front, Again, LIST_FIELDS, FIRST, IsCounter, Upsert;
    PlainSettles(env, store, f, x);
    SettlesTo(env, f.fields, x);
  }

  /** Of a field that is read back as it is, the second filing makes what merging v with it gives. */
  lemma SplitAgain(env: Env, f: Dict<Value>, x: Entry<Value>)
    requires FieldOk(env.py, x) && Splits(x.value)
    ensures Get(f, x.key).None? ==> Settles(env, f, x)
    ensures Get(f, x.key).Some? ==> Again(env, f, x) == MergeField(env, x.key, Some(x.value), Get(f, x.key).value)
  {
    ReadBackExact(env.py, x);
    hide ReadBack, MergeField, EmitValue;
  }

  lemma SplitSettles(env: Env, store: Store, f: Need, x: Entry<Value>)
    requires FilingOk(env, store, f) && x in Front(Kept(env, store, f)) && Splits(x.value)
    ensures Settles(env, f.fields, x) <==> Stored(env, store, f) || SelfMergedIn(env, f.fields, x.key)
  {
    FilingUpserts(env, store, f);
    hide FilingOk, Kept, Front, Again, Stored, Splits, FieldOk, MergeField, SelfMergedField, Coerce, FiniteValue,
      EmitValue, Upsert;
    KeptField(env, store, f, x);
    SplitAgain(env, f.fields, x);
    if Get(f.fields, x.key).Some? {
      var v := Get(f.fields, x.key).value;
      FiledField(env, store, f, x.key);
      if Stored(env, store, f) {
        StoredKept(env, store, f, x, v);
        SettlesTo(env, f.fields, x);
      } else {
        NewKept(env, store, f, x.key);
        MergeFieldSelf(env, x.key, v);
        SelfTexts(env, x.key, v);
      }
    }
  }

  /** A field that is reread or replaced settles exactly when the need was stored before or the field is
      merged with itself as it was filed. */
  lemma RereadSettles(env: Env, store: Store, f: Need, x: Entry<Value>)
    requires FilingOk(env, store, f) && x in Front(Kept(env, store, f)) && Rereads(f.fields, x)
    ensures Settles(env, f.fields, x) <==> Stored(env, store, f) || SelfMergedIn(env, f.fields, x.key)
  {
    FilingUpserts(env, store, f);
    hide FilingOk, Kept, Front, Settles, Stored, Splits, Overwritten, SelfMergedIn, Upsert;
    if Overwritten(f.fields, x) {
      OverwrittenSettles(env, store, f, x);
    } else {
      SplitSettles(env, store, f, x);
    }
  }

  // ---------- lists that do not split ----------

  predicate NoQuotedComma(n: Need) {
    forall x | x in n.fields && x.value.List? :: forall s | s in x.value.items :: !QuotedComma(s)
  }

  lemma Misread(py: Numbers, items: seq<Scalar>)
    requires FiniteValue(py, List(items)) && !Splits(List(items))
    ensures var v := ParseValue(py, EmitValue(List(items))); v.List? && exists s | s in v.items :: QuotedComma(s)
  {
    hide Finite, QuotesClosed, ParseValue, ReadItems, EmitItems, Join, ListText, QuotedComma;
    var k :| 0 <= k < |items| - 1 && !QuotesClosed(items[k]);
    JoinIsListText(items);
    BracketsRead(py, ListText(items));
    OpenListMisread(py, items, "", k);
  }

  /** A string is in the union of any lists that hold it. */
  lemma StringInUnion(same: Scalar -> Scalar, a: seq<Scalar>, b: seq<Scalar>, x: Scalar)
    requires StringsApart(same) && x.Str? && (x in a || x in b)
    ensures x in Union(same, a, b)
  {
    DedupeIsDupFree(same, a + b, {});
    KeysAre(same, a + b, x);
    KeyOf(same, Union(same, a, b), same(x));
  }

  lemma {:induction false} KeysAre(same: Scalar -> Scalar, items: seq<Scalar>, x: Scalar)
    requires x in items
    ensures same(x) in Keys(same, items)
  {
    if items[0] != x {
      KeysAre(same, items[1..], x);
    }
  }

  lemma {:induction false} KeyOf(same: Scalar -> Scalar, items: seq<Scalar>, k: Scalar)
    requires k in Keys(same, items)
    ensures exists y | y in items :: same(y) == k
  {
    if same(items[0]) != k {
      KeyOf(same, items[1..], k);
      var y :| y in items[1..] && same(y) == k;
      assert y in items;
    } else {
      assert items[0] in items;
    }
  }

  /** Whatever a list that is read with s in it becomes, s is in it, unless the field is replaced. */
  lemma AgainHas(env: Env, f: Dict<Value>, x: Entry<Value>, s: Scalar)
    requires StringsApart(env.same) && !Overwritten(f, x) && s.Str?
    requires ReadBack(env.py, x).value.List? && s in ReadBack(env.py, x).value.items
    ensures var r := Again(env, f, x); r.Ok? && r.value.Some? ==> r.value.value.List? && s in r.value.value.items
  {
    var was := ReadBack(env.py, x).value;
    hide ReadBack, LIST_FIELDS, FIRST, IsCounter, Coerce, StringsApart;
    if Get(f, x.key).Some? && x.key in LIST_FIELDS {
      StringInUnion(env.same, was.items, Items(Get(f, x.key).value), s);
    }
    hide Union;
  }

  lemma AgainKnown(env: Env, store: Store, f: Need, x: Entry<Value>)
    requires FilingOk(env, store, f) && x in Front(Kept(env, store, f))
    ensures var r := Again(env, f.fields, x); r.Ok? && r.value.Some? ==> KnownValue(env.py, r.value.value)
  {
    var r := Kept(env, store, f);
    KeptIsLegible(env, store, f);
    FrontIs(env, r);
    FilingDistinct(env, store, f);
    ReadBackOk(env, x);
    FilingReadOk(env, f);
    IntsRead(env.py);
    GetIsEntry(f.fields, x.key);
    var was := ReadBack(env.py, x);
    ReadBackKey(env.py, x);
    hide Kept, FilingOk, WellFormed, Legible, Front, MergeField, ReadBack, KeyOk, LineOk, Holds, Coerce, ReadScalar,
      KnownValue, FieldOk;
    var a := Again(env, f.fields, x);
    if a.Ok? && a.value.Some? {
      if Get(f.fields, x.key).Some? {
        var v := Get(f.fields, x.key).value;
        assert EntryOk(env, ReadScalar(env.py), Entry(x.key, v));
        MergeFieldHolds(env, ReadScalar(env.py), x.key, Some(was.value), v);
      }
      ReadHolds(env.py, x.key, a.value.value);
    }
  }

  /** An item of a list with the text of a list of finite floats is in that list, if it is a string. */
  lemma TextItem(py: Numbers, w: seq<Scalar>, items: seq<Scalar>, s: Scalar)
    requires KnownValue(py, List(w)) && FiniteValue(py, List(items)) && EmitValue(List(w)) == EmitValue(List(items))
    requires s.Str? && s in w
    ensures s in items
  {
    hide EmitValue, KnownValue, Finite, FiniteValue, ParseScalar, EmitScalar;
    FiniteIsKnown(py, List(items));
    SameItemText(py, w, items);
    var i :| 0 <= i < |w| && w[i] == s;
    FiniteItem(py, items, i);
    StringsFinite(py, s);
    ScalarRoundTrip(py, s, true);
    ScalarRoundTrip(py, items[i], true);
  }

  lemma ReadBackOfList(env: Env, x: Entry<Value>)
    requires x.value.List?
    ensures var v := ParseValue(env.py, EmitValue(x.value)); v.List? ==> ReadBack(env.py, x).value == v
  {
    hide ParseValue, EmitValue, Coerce;
    var v := ParseValue(env.py, EmitValue(x.value));
    if v.List? {
      ListCoerced(env, x.key, v.items);
    }
  }

  lemma RereadsList(f: Dict<Value>, x: Entry<Value>)
    requires !Rereads(f, x)
    ensures !Overwritten(f, x) && x.value.List? && !Splits(List(x.value.items))
  {
  }

  /** A field that is not replaced, whose list does not split and holds no quote and comma in one item, prints
      differently the second time. */
  lemma OpenUnsettled(env: Env, store: Store, f: Need, x: Entry<Value>)
    requires FilingOk(env, store, f) && x in Front(Kept(env, store, f)) && !Rereads(f.fields, x)
    requires x.value.List? && forall s | s in x.value.items :: !QuotedComma(s)
    ensures !Settles(env, f.fields, x)
  {
    FilingUpserts(env, store, f);
    assert StringsApart(env.same);
    var py, items := env.py, x.value.items;
    KeptField(env, store, f, x);
    assert FiniteValue(py, List(items));
    hide Kept, FilingOk, Front, FieldOk, Splits, Overwritten, StringsApart, EmitValue, ParseValue, FiniteValue,
      KnownValue, Again, QuotedComma, Upsert, ReadBack, Rereads;
    RereadsList(f.fields, x);
    AgainKnown(env, store, f, x);
    Misread(py, items);
    var s :| s in ParseValue(py, EmitValue(List(items))).items && QuotedComma(s);
    QuotedIsString(s);
    ReadBackOfList(env, x);
    AgainHas(env, f.fields, x, s);
    if Settles(env, f.fields, x) {
      TextItem(py, Again(env, f.fields, x).value.value.items, items, s);
    }
  }

  lemma QuotedIsString(s: Scalar)
    requires QuotedComma(s)
    ensures s.Str?
  {
  }

  lemma StringsFinite(py: Numbers, s: Scalar)
    requires s.Str?
    ensures Finite(py, s)
  {
  }

  lemma FiniteItem(py: Numbers, items: seq<Scalar>, i: nat)
    requires FiniteValue(py, List(items)) && i < |items|
    ensures Finite(py, items[i])
  {
    hide Finite;
  }

  // ---------- filing twice ----------

  lemma KeptFront(env: Env, store: Store, f: Need)
    requires FilingOk(env, store, f)
    ensures var r := Kept(env, store, f); forall x :: x in Front(r) <==> x in r.fields
  {
    KeptIsLegible(env, store, f);
    FrontIs(env, Kept(env, store, f));
  }

  /** The filing is merged with itself exactly when each of its fields is that is kept. */
  lemma SelfMergedKept(env: Env, store: Store, f: Need)
    requires FilingOk(env, store, f) && !Stored(env, store, f)
    ensures SelfMerged(env, f.fields) <==> forall x | x in Front(Kept(env, store, f)) :: SelfMergedIn(env, f.fields, x.key)
  {
    FilingDistinct(env, store, f);
    KeptFront(env, store, f);
    var r := Kept(env, store, f);
    forall y | y in f.fields ensures Get(f.fields, y.key) == Some(y.value) && y in Front(r) {
      GetEntry(f.fields, y);
      NewKept(env, store, f, y.key);
      GetIsEntry(r.fields, y.key);
    }
    forall x | x in Front(r) && Get(f.fields, x.key).Some? ensures Entry(x.key, Get(f.fields, x.key).value) in f.fields {
      GetIsEntry(f.fields, x.key);
    }
    hide SelfMergedField, Front, Kept, FilingOk;
  }

  /** When every field is reread or replaced. */
  lemma FilingTwiceReread(env: Env, store: Store, f: Need)
    requires FilingOk(env, store, f) && AllReread(f, Kept(env, store, f))
    ensures var once := Upsert(env, store, f).value;
      Upsert(env, once, f) == Ok(once) <==> Stored(env, store, f) || SelfMerged(env, f.fields)
  {
    FilingUpserts(env, store, f);
    KeptFront(env, store, f);
    var r := Kept(env, store, f);
    hide FilingOk, Kept, Front, Rereads, Settles, SelfMerged, SelfMergedIn, Stored, Upsert;
    Settling(env, store, f);
    forall x | x in Front(r)
      ensures Settles(env, f.fields, x) <==> Stored(env, store, f) || SelfMergedIn(env, f.fields, x.key)
    {
      assert Rereads(f.fields, x);
      RereadSettles(env, store, f, x);
    }
    if !Stored(env, store, f) {
      SelfMergedKept(env, store, f);
    }
  }

  /** When one field is neither. */
  lemma FilingTwiceOpen(env: Env, store: Store, f: Need)
    requires FilingOk(env, store, f) && NoQuotedComma(Kept(env, store, f)) && !AllReread(f, Kept(env, store, f))
    ensures var once := Upsert(env, store, f).value; Upsert(env, once, f) != Ok(once)
  {
    FilingUpserts(env, store, f);
    KeptFront(env, store, f);
    var r := Kept(env, store, f);
    hide FilingOk, Kept, Front, Settles, Upsert, Overwritten;
    Settling(env, store, f);
    var x :| x in r.fields && !Rereads(f.fields, x);
    hide Rereads, QuotedComma;
    OpenUnsettled(env, store, f, x) by { OpenIsList(f, x); }
  }

  lemma OpenIsList(f: Need, x: Entry<Value>)
    requires !Rereads(f.fields, x)
    ensures x.value.List?
  {
  }

  // ---------- a legible record was filed legibly ----------

  /** What int() takes, or 0, of a typed field is clean. */
  lemma CounterClean(env: Env, key: string, v: Value)
    requires key in INT_FIELDS && key !in LIST_FIELDS && Coerce(env.py, key, v) == v
    requires IntOf(env.py, v).Ok? || IntOf(env.py, OrZero(v)).Ok?
    ensures Clean(v)
  {
    hide LIST_FIELDS, INT_FIELDS, FLOAT_FIELDS, IsExotic;
  }

  lemma MergedClean(env: Env, key: string, cur: Option<Value>, v: Value)
    requires StringsApart(env.same) && Coerce(env.py, key, v) == v
    requires var r := MergeField(env, key, cur, v); r.Ok? && (r.value.Some? ==> Clean(r.value.value))
    ensures Clean(v)
  {
    KeyKinds(key);
    if key in LIST_FIELDS {
      TypedList(env, key, v);
      var was := Items(if cur.Some? then cur.value else Default(key));
      hide LIST_FIELDS, DEFAULTS, Coerce, INT_FIELDS, FIRST, IsCounter, Default, StringsApart, IsExotic;
      forall s | s in v.items ensures CleanScalar(s) {
        if s.Str? {
          StringInUnion(env.same, was, v.items, s);
        }
      }
    } else if Plainly(key) {
      MergePlain(env, key, cur, v);
      hide MergeField, LIST_FIELDS, Coerce, INT_FIELDS, FIRST, IsCounter, StringsApart, IsExotic;
    } else {
      hide LIST_FIELDS, DEFAULTS, Coerce, INT_FIELDS, FIRST, IsCounter, IntOf, OrZero, Max, Min, Default, StringsApart,
        Clean;
      CounterClean(env, key, v);
    }
  }

  /** What became of a filed field. */
  lemma FiledTo(env: Env, store: Store, f: Need, y: Entry<Value>)
    requires FilingMade(env, store, f) && y in f.fields
    ensures var kept := Get(Kept(env, store, f).fields, y.key);
      kept == Some(y.value) || exists cur :: MergeField(env, y.key, cur, y.value) == Ok(kept)
  {
    assert Distinct(f.fields);
    GetEntry(f.fields, y);
    hide IdOk, ID, DEFAULTS, Valid, Lawful, FieldOk, Clean, FiniteValue, Render, StringsApart, MergeSections,
      MergeField, Distinct;
    var id := FileName(env, f.fields);
    hide FileName;
    if Load(env, store, id).Missing? {
      FillUpAre(DEFAULTS, f.fields, y.key);
    } else {
      var e := Load(env, store, id).need;
      Merged(env, e.fields, f.fields);
      assert After(env, e.fields, f.fields, y.key) == Ok(Get(Kept(env, store, f).fields, y.key));
    }
  }

  lemma SectionFiledTo(env: Env, store: Store, f: Need, x: Entry<string>)
    requires Upsert(env, store, f).Ok? && Distinct(f.sections) && x in f.sections && Strip(x.value) != ""
    ensures Get(Kept(env, store, f).sections, x.key) == Some(x.value)
  {
    hide FileName, DEFAULTS, Valid, Render, MergeFields, FillUp, Strip, Distinct, Load, MergeSections, Get;
    GetEntry(f.sections, x);
    var id := FileName(env, f.fields);
    if Load(env, store, id).Found? {
      MergeSectionsAre(f.sections, Load(env, store, id).need.sections, x.key);
    }
  }

  lemma {:induction false} LeftOfBlank(s: string)
    requires LStrip(s) == ""
    ensures forall c | c in s :: IsSpace(c)
  {
    hide IsSpace;
    if s != "" {
      LeftOfBlank(s[1..]);
      assert forall c | c in s :: c == s[0] || c in s[1..];
    }
  }

  lemma {:induction false} RightOfSpaces(s: string)
    requires forall c | c in s :: IsSpace(c)
    ensures RStrip(s) == ""
  {
    hide IsSpace;
    if s != "" {
      assert s[|s| - 1] in s;
      RightOfSpaces(s[..|s| - 1]);
    }
  }

  lemma {:induction false} RightOfBlank(s: string)
    requires forall c | c in RStrip(s) :: IsSpace(c)
    ensures forall c | c in s :: IsSpace(c)
  {
    hide IsSpace;
    if s != "" && IsSpace(s[|s| - 1]) {
      RightOfBlank(s[..|s| - 1]);
      assert forall c | c in s :: c == s[|s| - 1] || c in s[..|s| - 1];
    }
  }

  /** A body of white space is trimmed to nothing. */
  lemma BlankSurvives(x: Entry<string>)
    requires Strip(x.value) == ""
    ensures SectionSurvives(x)
  {
    hide IsSpace, LStrip, RStrip, LTrimLines, RTrimLines;
    var s := x.value;
    LeftOfBlank(RStrip(s));
    RightOfBlank(s);
    RTrimLinesChars(s);
    LTrimLinesStart(RTrimLines(s));
    RightOfSpaces(LTrimLines(RTrimLines(s)));
    assert Norm(s) == "";
  }

  lemma FieldFiledClean(env: Env, store: Store, f: Need, y: Entry<Value>)
    requires FilingMade(env, store, f) && Legible(Kept(env, store, f)) && y in f.fields
    ensures Clean(y.value)
  {
    var kept := Kept(env, store, f).fields;
    assert StringsApart(env.same) && FieldOk(env.py, y) && forall x | x in kept :: Clean(x.value);
    FilingIsMade(env, store, f);
    hide FilingMade, Legible, Kept, Upsert, StringsApart, MergeField, Clean, KeyOk, FiniteValue, Coerce;
    FiledTo(env, store, f, y);
    GetIsEntry(kept, y.key);
    if Get(kept, y.key) != Some(y.value) {
      var cur :| MergeField(env, y.key, cur, y.value) == Ok(Get(kept, y.key));
      MergedClean(env, y.key, cur, y.value);
    }
  }

  lemma SectionFiledLegible(env: Env, store: Store, f: Need, x: Entry<string>)
    requires FilingMade(env, store, f) && Legible(Kept(env, store, f)) && x in f.sections
    ensures SectionSurvives(x)
  {
    var kept := Kept(env, store, f).sections;
    assert Distinct(f.sections) && forall s | s in kept :: SectionSurvives(s);
    FilingIsMade(env, store, f);
    hide FilingMade, Legible, Kept, Upsert, SectionSurvives, Strip, Distinct;
    if Strip(x.value) == "" {
      BlankSurvives(x);
    } else {
      SectionFiledTo(env, store, f, x);
      GetIsEntry(kept, x.key);
      assert Entry(x.key, x.value) in kept;
    }
  }

  lemma FilingIsMade(env: Env, store: Store, f: Need)
    requires FilingMade(env, store, f)
    ensures Upsert(env, store, f).Ok?
  {
  }

  lemma KeptLegibly(env: Env, store: Store, f: Need)
    requires FilingMade(env, store, f) && Legible(Kept(env, store, f))
    ensures Legible(f)
  {
    FilingIsMade(env, store, f);
    hide FilingMade, Kept, Upsert, Clean, SectionSurvives;
    forall y | y in f.fields ensures Clean(y.value) {
      FieldFiledClean(env, store, f, y);
    }
    forall x | x in f.sections ensures SectionSurvives(x) {
      SectionFiledLegible(env, store, f, x);
    }
  }

  lemma SurvivorIsLegible(r: Need)
    requires Survives(r)
    ensures Legible(r)
  {
    hide Clean, Splits, SectionSurvives;
    forall x | x in r.fields ensures Clean(x.value) {
      assert FieldSurvives(x);
    }
  }

  /** Main result. If the record that is written survives being printed and parsed, filing the same need again
      leaves the backlog as it is exactly when the need was stored before, or the filing repeats no list item and
      its counters are numbers. If it is legible but for lists that may not split, and no item of a list holds both
      a quote and a comma, that is so exactly when, besides, every list is read back or replaced. */
  lemma FilingTwice(env: Env, store: Store, f: Need)
    requires FilingMade(env, store, f)
    ensures var once, r := Upsert(env, store, f).value, Kept(env, store, f);
      && (Survives(r) ==>
           (Upsert(env, once, f) == Ok(once) <==> Stored(env, store, f) || SelfMerged(env, f.fields)))
      && (Legible(r) && NoQuotedComma(r) ==>
           (Upsert(env, once, f) == Ok(once) <==>
             AllReread(f, r) && (Stored(env, store, f) || SelfMerged(env, f.fields))))
  {
    FilingIsMade(env, store, f);
    hide *;
    var r := Kept(env, store, f);
    if Survives(r) {
      SurvivorIsLegible(r);
      SurvivorsReread(f, r);
    }
    if Legible(r) {
      KeptLegibly(env, store, f);
      LegibleFiling(env, store, f);
      if AllReread(f, r) {
        FilingTwiceReread(env, store, f);
      } else if NoQuotedComma(r) {
        FilingTwiceOpen(env, store, f);
      }
    }
  }

  lemma LegibleFiling(env: Env, store: Store, f: Need)
    requires FilingMade(env, store, f) && Legible(f)
    ensures FilingOk(env, store, f)
  {
  }
}
