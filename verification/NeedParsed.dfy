/** The records that scripts/repipe/needs.py reads: whatever a file holds, its fields have distinct legal
    names and typed values, and its sections distinct names that the printer's headings give back. The
    dictionary lemmas here are shared by the merge of NeedBacklog and the proofs of NeedFiling: looking a
    name up after an assignment, in the printer's order, and in what is read back. */
module NeedParsed {
  import opened NeedValues
  import opened NeedText
  import opened NeedRecord
  import opened NeedRoundTrip

  // ---------- assigning to a dictionary ----------

  lemma {:induction false} GetPut<T(!new)>(d: Dict<T>, key: string, value: T, k: string)
    ensures Get(Put(d, key, value), k) == if k == key then Some(value) else Get(d, k)
  {
    if d != [] && d[0].key != key {
      GetPut(d[1..], key, value, k);
      assert ([d[0]] + Put(d[1..], key, value))[1..] == Put(d[1..], key, value);
    } else if d != [] {
      assert ([Entry(key, value)] + d[1..])[1..] == d[1..];
    }
  }

  lemma {:induction false} PutSame<T(!new)>(d: Dict<T>, key: string, value: T)
    requires Get(d, key) == Some(value)
    ensures Put(d, key, value) == d
  {
    if d[0].key != key {
      PutSame(d[1..], key, value);
    }
    assert d == [d[0]] + d[1..];
  }

  lemma {:induction false} PutDistinct<T(!new)>(d: Dict<T>, key: string, value: T)
    requires Distinct(d)
    ensures Distinct(Put(d, key, value))
  {
    if d != [] {
      PutDistinct(d[1..], key, value);
      if d[0].key != key {
        var rest := Put(d[1..], key, value);
        PutKeeps(d[1..], key, value);
        forall j | 0 <= j < |rest| ensures rest[j].key != d[0].key {
          assert rest[j] in rest;
        }
      }
    }
  }

  /** An assignment to a name that is there keeps the names and their order. */
  lemma {:induction false} PutKeepsKeys<T(!new)>(d: Dict<T>, key: string, value: T)
    requires Get(d, key).Some?
    ensures |Put(d, key, value)| == |d| && forall i | 0 <= i < |d| :: Put(d, key, value)[i].key == d[i].key
  {
    if d[0].key != key {
      PutKeepsKeys(d[1..], key, value);
    }
  }

  /** In a dictionary with distinct names, an entry is what its name is looked up as. */
  lemma GetEntry<T(!new)>(d: Dict<T>, e: Entry<T>)
    requires Distinct(d)
    ensures e in d <==> Get(d, e.key) == Some(e.value)
  {
    GetIsEntry(d, e.key);
  }

  lemma GetReorder<T(!new)>(known: seq<string>, d: Dict<T>, key: string)
    requires Distinct(d) && NoRepeats(known)
    ensures Get(Reorder(known, d), key) == Get(d, key)
  {
    ReorderAre(known, d);
    hide Reorder;
    SameGet(Reorder(known, d), d, key);
  }

  /** A field looked up in what is read back. */
  lemma {:induction false} GetReadBacks(py: Numbers, d: Dict<Value>, key: string)
    ensures Get(ReadBacks(py, d), key) ==
      match Get(d, key) case None => None case Some(v) => Some(ReadBack(py, Entry(key, v)).value)
  {
    if d != [] {
      GetReadBacks(py, d[1..], key);
      ReadBackKey(py, d[0]);
      hide ReadBack;
    }
  }

  // ---------- parsed records ----------

  predicate ReadOk(py: Numbers, e: Entry<Value>) {
    KeyOk(e.key) && Coerce(py, e.key, e.value) == e.value && KnownValue(py, e.value)
  }

  predicate FieldsReadOk(py: Numbers, d: Dict<Value>) { Distinct(d) && forall e | e in d :: ReadOk(py, e) }

  predicate NamesReadOk(d: Dict<string>) { Distinct(d) && forall e | e in d :: NameOk(e.key) }

  lemma ScalarParsedKnown(py: Numbers, raw: string)
    requires Lawful(py)
    ensures Known(py, ParseScalar(py, raw))
  {
    hide Strip, FloatText, IntText, Unescape, Finite;
  }

  lemma ValueParsedKnown(py: Numbers, raw: string)
    requires Lawful(py)
    ensures KnownValue(py, ParseValue(py, raw))
  {
    hide Lawful, Strip, ParseScalar, SplitFlow, Known;
    var s := Strip(raw);
    if Bracketed(s) {
      var parts := SplitFlow(if |s| >= 2 then s[1..|s| - 1] else "");
      forall i | 0 <= i < |parts| ensures Known(py, ParseScalar(py, parts[i])) {
        ScalarParsedKnown(py, parts[i]);
      }
    } else {
      ScalarParsedKnown(py, s);
    }
  }

  lemma CoercedKnown(py: Numbers, key: string, v: Value)
    requires Lawful(py) && KnownValue(py, v)
    ensures KnownValue(py, Coerce(py, key, v)) && Coerce(py, key, Coerce(py, key, v)) == Coerce(py, key, v)
  {
    hide Finite, FloatText, LIST_FIELDS, INT_FIELDS, FLOAT_FIELDS;
  }

  lemma {:induction false} KeyLengthChars(s: string)
    ensures forall c | c in s[..KeyLength(s)] :: KeyChar(c)
  {
    if s != "" && KeyChar(s[0]) {
      KeyLengthChars(s[1..]);
      assert s[..KeyLength(s)] == [s[0]] + s[1..][..KeyLength(s[1..])];
    }
  }

  lemma LineKeyOk(line: string)
    requires KeyAndRest(line).Some?
    ensures KeyOk(KeyAndRest(line).value.0)
  {
    hide KeyStart, KeyChar, KeyLength, DropBlanks;
    KeyLengthChars(line);
  }

  lemma FieldReadOk(py: Numbers, line: string, d: Dict<Value>)
    requires Lawful(py) && FieldsReadOk(py, d)
    ensures FieldsReadOk(py, ReadField(py, line, d))
  {
    hide Lawful, Skipped, KeyAndRest, Put, Coerce, ParseValue, KnownValue, KeyOk, Distinct;
    var kv := KeyAndRest(line);
    if kv.Some? {
      LineKeyOk(line);
      var v := ParseValue(py, kv.value.1);
      ValueParsedKnown(py, kv.value.1);
      CoercedKnown(py, kv.value.0, v);
      PutKeeps(d, kv.value.0, Coerce(py, kv.value.0, v));
      PutDistinct(d, kv.value.0, Coerce(py, kv.value.0, v));
    }
  }

  lemma {:induction false} FieldsAreReadOk(py: Numbers, lines: seq<string>, d: Dict<Value>)
    requires Lawful(py) && FieldsReadOk(py, d)
    ensures FieldsReadOk(py, ReadFields(py, lines, d))
    decreases |lines|
  {
    hide Lawful, FieldsReadOk, ReadField;
    if lines != [] {
      FieldReadOk(py, lines[0], d);
      FieldsAreReadOk(py, lines[1..], ReadField(py, lines[0], d));
    }
  }

  lemma {:induction false} NamesAreReadOk(lines: seq<string>, d: Dict<string>)
    requires (forall l | l in lines :: LineRead(l)) && NamesReadOk(d)
    ensures NamesReadOk(ReadSections(lines, d))
    decreases |lines|
  {
    hide Heading, HeadingName, Norm, Put, BodyLength, NameOk, Distinct, Join;
    if lines != [] {
      if !Heading(lines[0]) {
        NamesAreReadOk(lines[1..], d);
      } else {
        var n := BodyLength(lines[1..]);
        var name, body := HeadingName(lines[0]), Norm(Join(lines[1..1 + n], "\n"));
        assert LineRead(lines[0]);
        HeadingNameOk(lines[0]);
        PutKeeps(d, name, body);
        PutDistinct(d, name, body);
        NamesAreReadOk(lines[1 + n..], Put(d, name, body));
      }
    }
  }

  lemma IdReadOk(py: Numbers, stem: string)
    ensures ReadOk(py, Entry(ID, One(Str(stem))))
  {
    assert |ID| == 7 && ID[0] == 'n';
    assert "challenges"[0] == 'c' && "rounds"[0] == 'r' && "touches"[0] == 't' && "credibility"[0] == 'c';
    assert "instances"[0] == 'i' && "first_seen_round"[0] == 'f' && "attempts"[0] == 'a' && "closed_in_round"[0] == 'c';
    assert KeyOk(ID);
  }

  /** Whatever file was parsed: distinct legal keys, typed values, distinct names the printer gives back. */
  lemma ParsedShape(py: Numbers, stem: string, file: string)
    requires Lawful(py)
    ensures var r := Parse(py, stem, file); r.Parsed? ==> FieldsReadOk(py, r.need.fields) && NamesReadOk(r.need.sections)
  {
    hide Lawful, Split, Newlines, FENCE, FenceAt, ReadFields, AllPieces, ReadSections, Put, Truthy, ID, ReadOk, Distinct;
    var lines := Split(Newlines(file));
    FileLines(file);
    if Parse(py, stem, file).Parsed? {
      var k := FenceAt(lines, 2);
      var fields := ReadFields(py, AllPieces(lines[1..k]), []);
      assert FieldsReadOk(py, []) && NamesReadOk([]) by { NothingReadOk(py); }
      FieldsAreReadOk(py, AllPieces(lines[1..k]), []);
      IdReadOk(py, stem);
      PutKeeps(fields, ID, One(Str(stem)));
      PutDistinct(fields, ID, One(Str(stem)));
      TailLines(lines, k);
      NamesAreReadOk(Tail(lines, k), []);
    }
  }

  lemma NothingReadOk(py: Numbers)
    ensures FieldsReadOk(py, []) && NamesReadOk([])
  {
  }
}
