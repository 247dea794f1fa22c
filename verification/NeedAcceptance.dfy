/** Acceptance suites of scripts/repipe/needs.py: what closes a need, what reopens it, and what a whole
    history of suites makes of its status. */
module NeedAcceptance {
  import opened NeedValues
  import opened NeedText
  import opened NeedRecord
  import opened NeedRoundTrip
  import opened NeedParsed
  import opened NeedBacklog
  import opened NeedMerge

  /** One result row; indeterminate when it was unrunnable, flaky or failed to replay. */
  datatype Row = Row(needId: string, passed: bool, indeterminate: bool)

  /** closingPr is "" when none was given. */
  datatype Suite = Suite(rows: seq<Row>, round: Option<int>, closingPr: string, sha: string)

  datatype Effect = Closed | Regressed | Unchanged | Ignored | Unreadable

  const CLOSED: Value := Str1("closed")
  const REGRESSED: Value := Str1("regressed")
  const REJECTED: Value := Str1("rejected")

  const STATUS: string := "status"
  const LOG: string := "Decision log"

  lemma StatusesDiffer()
    ensures CLOSED != REGRESSED && CLOSED != REJECTED && REGRESSED != REJECTED
    ensures "closed" in STATUSES && "regressed" in STATUSES
  {
    assert "closed"[0] == 'c' && "regressed"[2] == 'g' && "rejected"[2] == 'j';
    assert STATUSES[4] == "closed" && STATUSES[5] == "regressed";
  }

  function StatusOf(n: Need): Value { Field(n.fields, STATUS) }

  /** need.log(line) */
  function Logged(n: Need, line: string): Need {
    var body := RStrip(match Get(n.sections, LOG) case Some(b) => b case None => "");
    n.(sections := Put(n.sections, LOG, if body != "" then Strip(body + "\n" + line) else line))
  }

  function AcceptanceName(env: Env, n: Need): string {
    var v := Field(n.fields, ACCEPTANCE);
    if Truthy(Some(v)) then Shown(env, v) else "?"
  }

  /** The fields a closing sets. */
  function ClosedFields(d: Dict<Value>, suite: Suite): Dict<Value> {
    var f0 := Put(d, STATUS, CLOSED);
    var f1 := if suite.round.Some? then Put(f0, "closed_in_round", One(Int(suite.round.value))) else f0;
    if suite.closingPr != "" then Put(f1, CLOSING, Str1(suite.closingPr)) else f1
  }

  /** The loaded need as the suite edits it before filing it again. */
  function ClosedRecord(env: Env, n: Need, suite: Suite): Need {
    Logged(n.(fields := ClosedFields(n.fields, suite)), "- closed: acceptance " + AcceptanceName(env, n) + " now PASSES at " + suite.sha)
  }

  function RegressedRecord(env: Env, n: Need, suite: Suite): Need {
    Logged(n.(fields := Put(n.fields, STATUS, REGRESSED)),
           "- REGRESSED: acceptance " + AcceptanceName(env, n) + " fails again at " + suite.sha)
  }

  function EffectOn(n: Need, row: Row): Effect {
    var status := StatusOf(n);
    if row.indeterminate then Unchanged
    else if row.passed && status != CLOSED && status != REJECTED then Closed
    else if !row.passed && status == CLOSED then Regressed
    else Unchanged
  }

  function EffectOf(env: Env, store: Store, row: Row): Effect {
    if row.needId == "" then Ignored
    else
      match Load(env, store, row.needId)
      case Missing => Ignored
      case Broken => Unreadable
      case Found(n) => EffectOn(n, row)
  }

  /** The record the suite files for a row that closes or reopens. */
  function Edited(env: Env, n: Need, suite: Suite, effect: Effect): Need {
    if effect == Closed then ClosedRecord(env, n, suite) else RegressedRecord(env, n, suite)
  }

  /** One row of the suite; Raise when the file can not be read or the write refuses the record. */
  function ApplyRow(env: Env, store: Store, suite: Suite, row: Row): Outcome<Store> {
    var effect := EffectOf(env, store, row);
    if effect == Unreadable then Raise
    else if effect == Closed || effect == Regressed then
      Upsert(env, store, Edited(env, Load(env, store, row.needId).need, suite, effect))
    else Ok(store)
  }

  /** The rows from here on; an exception ends the suite and leaves the rest undone. */
  function ApplyRows(env: Env, store: Store, suite: Suite, rows: seq<Row>): Store
    decreases |rows|
  {
    if rows == [] then store
    else
      match ApplyRow(env, store, suite, rows[0])
      case Ok(s) => ApplyRows(env, s, suite, rows[1..])
      case Raise => store
  }

  /** The lists the suite reports, in row order. */
  datatype Report = Report(closed: seq<string>, regressed: seq<string>, same: seq<string>)

  function Noted(r: Report, effect: Effect, id: string): Report {
    match effect
    case Closed => r.(closed := r.closed + [id])
    case Regressed => r.(regressed := r.regressed + [id])
    case Unchanged => r.(same := r.same + [id])
    case _ => r
  }

  function Reported(env: Env, store: Store, suite: Suite, rows: seq<Row>, r: Report): Report
    decreases |rows|
  {
    if rows == [] then r
    else
      match ApplyRow(env, store, suite, rows[0])
      case Ok(s) => Reported(env, s, suite, rows[1..], Noted(r, EffectOf(env, store, rows[0]), rows[0].needId))
      case Raise => r
  }

  /** The determinate results for one need among the rows that were carried out. */
  function RowResults(env: Env, store: Store, suite: Suite, rows: seq<Row>, id: string): seq<bool>
    decreases |rows|
  {
    if rows == [] then []
    else
      match ApplyRow(env, store, suite, rows[0])
      case Ok(s) =>
        (if rows[0].needId == id && !rows[0].indeterminate then [rows[0].passed] else [])
        + RowResults(env, s, suite, rows[1..], id)
      case Raise => []
  }

  function ApplySuites(env: Env, store: Store, suites: seq<Suite>): Store
    decreases |suites|
  {
    if suites == [] then store
    else ApplySuites(env, ApplyRows(env, store, suites[0], suites[0].rows), suites[1..])
  }

  function Results(env: Env, store: Store, suites: seq<Suite>, id: string): seq<bool>
    decreases |suites|
  {
    if suites == [] then []
    else
      RowResults(env, store, suites[0], suites[0].rows, id)
      + Results(env, ApplyRows(env, store, suites[0], suites[0].rows), suites[1..], id)
  }

  // ---------- the code ----------

  method ApplyRowTo(backlog: Backlog, env: Env, suite: Suite, row: Row) returns (raised: bool, effect: Effect)
    modifies backlog
    ensures effect == EffectOf(env, old(backlog.store), row)
    ensures match ApplyRow(env, old(backlog.store), suite, row)
      case Ok(s) => !raised && backlog.store == s
      case Raise => raised && backlog.store == old(backlog.store)
  {
    hide Upsert, ClosedRecord, RegressedRecord, StatusOf, Load, CLOSED, REJECTED;
    effect, raised := Ignored, false;
    if row.needId == "" {
      return;
    }
    match Load(env, backlog.store, row.needId) {
      case Missing =>
      case Broken => return true, Unreadable;
      case Found(need) =>
        var status := StatusOf(need);
        effect := Unchanged;
        if row.indeterminate {
          return;
        }
        if row.passed && status != CLOSED && status != REJECTED {
          effect := Closed;
          raised := backlog.UpsertNeed(env, ClosedRecord(env, need, suite));
        } else if !row.passed && status == CLOSED {
          effect := Regressed;
          raised := backlog.UpsertNeed(env, RegressedRecord(env, need, suite));
        }
    }
  }

  method ApplyAcceptance(backlog: Backlog, env: Env, suite: Suite) returns (report: Report)
    modifies backlog
    ensures backlog.store == ApplyRows(env, old(backlog.store), suite, suite.rows)
    ensures report == Reported(env, old(backlog.store), suite, suite.rows, Report([], [], []))
  {
    hide ApplyRow, EffectOf, Noted;
    report := Report([], [], []);
    for i := 0 to |suite.rows|
      invariant ApplyRows(env, backlog.store, suite, suite.rows[i..]) == ApplyRows(env, old(backlog.store), suite, suite.rows)
      invariant Reported(env, backlog.store, suite, suite.rows[i..], report)
             == Reported(env, old(backlog.store), suite, suite.rows, Report([], [], []))
    {
      assert suite.rows[i..][1..] == suite.rows[i + 1..];
      var raised, effect := ApplyRowTo(backlog, env, suite, suite.rows[i]);
      if raised {
        return;
      }
      report := Noted(report, effect, suite.rows[i].needId);
    }
  }

  // ---------- what a history does to a status ----------

  /** The status after determinate results d, from status s. */
  function StatusAfter(s: Value, d: seq<bool>): Value {
    if s == REJECTED || d == [] then s
    else if d[|d| - 1] then CLOSED
    else if s == CLOSED || true in d then REGRESSED
    else s
  }

  lemma StatusAfterBoth(s: Value, a: seq<bool>, b: seq<bool>)
    ensures StatusAfter(StatusAfter(s, a), b) == StatusAfter(s, a + b)
  {
    StatusesDiffer();
    hide CLOSED, REGRESSED, REJECTED;
    if b == [] {
      assert a + b == a;
    } else {
      assert (a + b)[|a + b| - 1] == b[|b| - 1];
      assert true in a + b <==> true in a || true in b;
      if a == [] {
        assert a + b == b;
      }
    }
  }

  // ---------- the file of a closed need ----------

  const CLOSING: string := "closing_pr"

  /** Known, and clean unless it is an id or in the stray field. */
  function FileScalar(py: Numbers, stray: string): (string, Scalar) -> bool {
    (key: string, s: Scalar) => Known(py, s) && (key == ID || key == stray || CleanScalar(s))
  }

  lemma FileHolds(py: Numbers, stray: string, key: string, v: Value)
    ensures Holds(FileScalar(py, stray), key, v) <==> KnownValue(py, v) && (key == ID || key == stray || Clean(v))
  {
    hide Known, CleanScalar, ID;
  }

  lemma IntsFiled(py: Numbers, stray: string)
    ensures forall k, n :: FileScalar(py, stray)(k, Int(n))
  {
    forall k, n ensures FileScalar(py, stray)(k, Int(n)) {
      FileHolds(py, stray, k, One(Int(n)));
    }
  }

  lemma LoadedFields(env: Env, store: Store, id: string, stray: string)
    requires Lawful(env.py) && Load(env, store, id).Found?
    ensures EntriesOk(env, FileScalar(env.py, stray), Load(env, store, id).need.fields)
  {
    var e := Load(env, store, id).need;
    hide Parse, Lawful, Clean, FileScalar, Coerce, KeyOk, KnownValue, Distinct, ID, SectionSurvives, NameOk;
    ParsedShape(env.py, id, store[id]);
    ParsedRecords(env.py, id, store[id]);
    forall x | x in e.fields ensures EntryOk(env, FileScalar(env.py, stray), x) {
      assert ReadOk(env.py, x);
      FileHolds(env.py, stray, x.key, x.value);
    }
  }

  lemma PutEntries(env: Env, p: (string, Scalar) -> bool, d: Dict<Value>, x: Entry<Value>)
    requires EntriesOk(env, p, d) && EntryOk(env, p, x)
    ensures EntriesOk(env, p, Put(d, x.key, x.value))
  {
    hide EntryOk, Distinct, Put;
    PutDistinct(d, x.key, x.value);
    PutKeeps(d, x.key, x.value);
  }

  lemma ThreeKeys(env: Env, v: Value)
    requires v.One? && (v.scalar.Int? || v.scalar.Str?)
    ensures v.scalar.Str? ==> Coerce(env.py, STATUS, v) == v && Coerce(env.py, "closing_pr", v) == v
    ensures v.scalar.Int? ==> Coerce(env.py, "closed_in_round", v) == v
    ensures KeyOk(STATUS) && KeyOk("closing_pr") && KeyOk("closed_in_round")
    ensures Plainly(STATUS) && STATUS != ID && "closing_pr" != ID && "closed_in_round" != ID
  {
    assert Word("status") && Word("closing_pr") && Word("closed_in_round");
    KeyInitials();
  }

  lemma KeyInitials()
    ensures STATUS !in LIST_FIELDS && STATUS !in INT_FIELDS && STATUS !in FLOAT_FIELDS && !IsCounter(STATUS) && STATUS != FIRST
    ensures "closing_pr" !in LIST_FIELDS && "closing_pr" !in INT_FIELDS && "closing_pr" !in FLOAT_FIELDS
    ensures "closed_in_round" !in LIST_FIELDS && "closed_in_round" !in FLOAT_FIELDS
    ensures STATUS != "closing_pr" && STATUS != "closed_in_round" && STATUS != ID
    ensures "closing_pr" != ID && "closed_in_round" != ID
  {
    assert STATUS[0] == 's' && "closing_pr"[2] == 'o' && "closed_in_round"[2] == 'o' && ID[0] == 'n';
    assert "challenges"[2] == 'a' && "rounds"[0] == 'r' && "touches"[0] == 't' && "credibility"[2] == 'e';
    assert "instances"[0] == 'i' && "first_seen_round"[0] == 'f' && "attempts"[0] == 'a' && |"closing_pr"| != |"closed_in_round"|;
  }

  lemma CleanStatus()
    ensures Clean(CLOSED) && Clean(REGRESSED)
  {
  }

  predicate CleanSuite(suite: Suite) { CleanScalar(Str(suite.closingPr)) }

  /** What the suite files is legal where the loaded record is, and has the new status. */
  lemma EditedFields(env: Env, n: Need, suite: Suite, effect: Effect, stray: string)
    requires EntriesOk(env, FileScalar(env.py, stray), n.fields) && (stray == CLOSING || CleanSuite(suite))
    ensures var f := Edited(env, n, suite, effect).fields;
      && EntriesOk(env, FileScalar(env.py, stray), f) && Get(f, ID) == Get(n.fields, ID)
      && Get(f, STATUS) == Some(if effect == Closed then CLOSED else REGRESSED)
  {
    KeyInitials();
    CleanStatus();
    var round := One(Int(if suite.round.Some? then suite.round.value else 0));
    var pr := Str1(suite.closingPr);
    ThreeKeys(env, CLOSED);
    ThreeKeys(env, REGRESSED);
    ThreeKeys(env, round);
    ThreeKeys(env, pr);
    FileHolds(env.py, stray, STATUS, CLOSED);
    FileHolds(env.py, stray, STATUS, REGRESSED);
    FileHolds(env.py, stray, "closed_in_round", round);
    FileHolds(env.py, stray, CLOSING, pr);
    assert CLOSED.One? && REGRESSED.One? && CLOSED.scalar.Str? && REGRESSED.scalar.Str?;
    hide EntriesOk, Put, Get, ID, STATUS, CLOSED, REGRESSED, FileScalar, Holds, Coerce, KeyOk, Clean, LIST_FIELDS,
      INT_FIELDS, FLOAT_FIELDS, Strip, RStrip, Plainly, AcceptanceName;
    var s, a, b := Entry(STATUS, CLOSED), Entry("closed_in_round", round), Entry(CLOSING, pr);
    var p := FileScalar(env.py, stray);
    PutEntries(env, p, n.fields, s);
    PutEntries(env, p, n.fields, Entry(STATUS, REGRESSED));
    var f0 := Put(n.fields, STATUS, CLOSED);
    var f1 := if suite.round.Some? then Put(f0, "closed_in_round", round) else f0;
    PutEntries(env, p, f0, a);
    PutEntries(env, p, f1, b);
    forall k | k == ID || k == STATUS
      ensures Get(ClosedFields(n.fields, suite), k) == Get(Put(n.fields, STATUS, CLOSED), k)
    {
      GetPut(f0, "closed_in_round", round, k);
      GetPut(f1, CLOSING, pr, k);
    }
    forall k ensures Get(Put(n.fields, STATUS, CLOSED), k) == (if k == STATUS then Some(CLOSED) else Get(n.fields, k))
      && Get(Put(n.fields, STATUS, REGRESSED), k) == (if k == STATUS then Some(REGRESSED) else Get(n.fields, k)) {
      GetPut(n.fields, STATUS, CLOSED, k);
      GetPut(n.fields, STATUS, REGRESSED, k);
    }
  }

  lemma IdReads(env: Env, v: Value)
    requires IdOk(Some(v)) && KnownValue(env.py, v)
    ensures var r := ReadBack(env.py, Entry(ID, v)).value; Truthy(Some(r)) && Shown(env, r) == Shown(env, v)
  {
    IdTyped(env.py);
    IdSurvives(v);
    hide Coerce;
    if v.scalar.Float? && !Finite(env.py, v.scalar) {
      NonfiniteRead(env.py, v.scalar.repr);
    } else {
      ValueRoundTrip(env.py, v);
      hide ParseValue, EmitValue, Splits, Clean;
    }
  }

  lemma IdTyped(py: Numbers)
    ensures forall v :: Coerce(py, ID, v) == v
  {
    assert ID[0] == 'n';
    assert "challenges"[0] == 'c' && "rounds"[0] == 'r' && "touches"[0] == 't' && "credibility"[0] == 'c';
    assert "instances"[0] == 'i' && "first_seen_round"[0] == 'f' && "attempts"[0] == 'a' && "closed_in_round"[0] == 'c';
    hide ID;
  }

  /** inf and nan come back as text. */
  lemma NonfiniteRead(py: Numbers, s: string)
    requires s in NONFINITE
    ensures ParseValue(py, s) == One(Str(s))
  {
    NonfiniteWord(s);
    StripTrimmed(s);
    assert s == ['i', 'n', 'f'] || s == ['-', 'i', 'n', 'f'] || s == ['n', 'a', 'n'];
    assert !NumberChar('n');
    NotNumber(s, if s[0] == '-' then 2 else if s[0] == 'i' then 1 else 0);
    hide Strip, IntText, FloatText, Trimmed, NonBlank, Parts, Unescape;
    assert "null"[1] == 'u' && "true"[1] == 'r' && |"false"| == 5;
  }

  lemma StatusReads(py: Numbers, v: Value)
    requires v == CLOSED || v == REGRESSED
    ensures ReadBack(py, Entry(STATUS, v)).value == v
  {
    assert v.One? && v.scalar.Str?;
    KeyInitials();
    ValueRoundTrip(py, v);
    hide ParseValue, EmitValue, STATUS, CLOSED, REGRESSED, LIST_FIELDS, INT_FIELDS, FLOAT_FIELDS;
  }

  lemma FileLine(env: Env, d: Dict<Value>, x: Entry<Value>, stray: string)
    requires EntriesOk(env, FileScalar(env.py, stray), d) && IdOk(Get(d, ID)) && x in d
    ensures KnownValue(env.py, x.value) && KeyOk(x.key) && (x.key != stray ==> LineOk(x))
  {
    assert EntryOk(env, FileScalar(env.py, stray), x);
    hide KeyOk, Coerce, FileScalar, NoBreaks, Trimmed, EmitValue, Holds, Clean, KnownValue, IdOk, ID;
    FileHolds(env.py, stray, x.key, x.value);
    if x.key == ID {
      GetEntry(d, x);
      IdSurvives(x.value);
    }
    ValueLine(env.py, x.value);
  }

  /** The front of a written record, read back: its file name and its status. */
  lemma FrontReads(env: Env, id: string, r: Need)
    requires EntriesOk(env, FileScalar(env.py, ""), r.fields) && IdOk(Get(r.fields, ID))
    requires Get(r.fields, STATUS) == Some(CLOSED) || Get(r.fields, STATUS) == Some(REGRESSED)
    ensures var p := Parse(env.py, id, Render(r));
      && p.Parsed? && FileName(env, p.need.fields) == FileName(env, r.fields)
      && Some(StatusOf(p.need)) == Get(r.fields, STATUS)
  {
    var d := Reorder(FIELDS, r.fields);
    KnownFields();
    ReorderAre(FIELDS, r.fields);
    forall x | x in d ensures LineOk(x) {
      FileLine(env, r.fields, x, "");
    }
    GetReorder(FIELDS, r.fields, ID);
    GetReorder(FIELDS, r.fields, STATUS);
    GetReadBacks(env.py, d, ID);
    GetReadBacks(env.py, d, STATUS);
    IdIsSome(r.fields);
    GetIsEntry(r.fields, ID);
    var v := Get(r.fields, ID).value;
    FileLine(env, r.fields, Entry(ID, v), "");
    IdReads(env, v);
    StatusReads(env.py, Get(r.fields, STATUS).value);
    hide Reorder, FIELDS, ID, STATUS, CLOSED, REGRESSED, EntriesOk, LineOk, IdOk, Parse, Render, ReadBack, ReadBacks,
      Truthy, Shown, KnownValue, DEFAULTS;
    FrontParses(env.py, id, r);
  }

  /** What the edit of a stored need writes. */
  lemma EditedIsKept(env: Env, store: Store, id: string, suite: Suite, effect: Effect, stray: string)
    requires Lawful(env.py) && (stray == CLOSING || CleanSuite(suite)) && Load(env, store, id).Found?
    requires FileName(env, Load(env, store, id).need.fields) == id
    requires Upsert(env, store, Edited(env, Load(env, store, id).need, suite, effect)).Ok?
    ensures var f := Edited(env, Load(env, store, id).need, suite, effect);
      var r := Kept(env, store, f);
      && EntriesOk(env, FileScalar(env.py, stray), r.fields) && IdOk(Get(r.fields, ID)) && FileName(env, r.fields) == id
      && Get(r.fields, STATUS) == Some(if effect == Closed then CLOSED else REGRESSED)
      && Upsert(env, store, f).value == store[id := Render(r)]
  {
    hide Edited, EntriesOk, FileScalar, ID, STATUS, CLOSED, REGRESSED, Render, MergeFields, MergeSections, Lawful,
      Valid, IdOk, DEFAULTS, FileName, Load, CleanSuite, Write;
    var e := Load(env, store, id).need;
    var f := Edited(env, e, suite, effect);
    LoadedFields(env, store, id, stray);
    EditedFields(env, e, suite, effect, stray);
    UpsertOk(env, store, f);
    EditedMerge(env, e.fields, f.fields, if effect == Closed then CLOSED else REGRESSED, stray);
    SameName(env, f.fields, e.fields);
    SameName(env, Kept(env, store, f).fields, e.fields);
  }

  lemma LoadWritten(env: Env, store: Store, id: string, text: string)
    ensures Load(env, store[id := text], id) == match Parse(env.py, id, text) case NoFrontMatter => Broken case Parsed(n) => Found(n)
    ensures forall other | other != id :: Load(env, store[id := text], other) == Load(env, store, other)
  {
    hide Parse;
  }

  /** A filed edit of a stored need is loaded again with its new status, under its name. */
  lemma EditedIsRead(env: Env, store: Store, id: string, suite: Suite, effect: Effect)
    requires Lawful(env.py) && CleanSuite(suite) && Load(env, store, id).Found?
    requires FileName(env, Load(env, store, id).need.fields) == id
    requires Upsert(env, store, Edited(env, Load(env, store, id).need, suite, effect)).Ok?
    ensures var s := Upsert(env, store, Edited(env, Load(env, store, id).need, suite, effect)).value;
      && Load(env, s, id).Found? && FileName(env, Load(env, s, id).need.fields) == id
      && StatusOf(Load(env, s, id).need) == (if effect == Closed then CLOSED else REGRESSED)
      && forall other | other != id :: Load(env, s, other) == Load(env, store, other)
  {
    hide *;
    EditedIsKept(env, store, id, suite, effect, "");
    var r := Kept(env, store, Edited(env, Load(env, store, id).need, suite, effect));
    FrontReads(env, id, r);
    LoadWritten(env, store, id, Render(r));
  }

  lemma SameName(env: Env, a: Dict<Value>, b: Dict<Value>)
    ensures Get(a, ID) == Get(b, ID) ==> FileName(env, a) == FileName(env, b)
  {
    hide ID, DEFAULTS;
  }

  lemma EditedMerge(env: Env, e: Dict<Value>, f: Dict<Value>, status: Value, stray: string)
    requires EntriesOk(env, FileScalar(env.py, stray), e) && EntriesOk(env, FileScalar(env.py, stray), f)
    requires Get(f, ID) == Get(e, ID) && Get(f, STATUS) == Some(status) && (status == CLOSED || status == REGRESSED)
    ensures var m := MergeFields(env, e, f, e);
      m.Ok? ==> EntriesOk(env, FileScalar(env.py, stray), m.value) && Get(m.value, STATUS) == Some(status) && Get(m.value, ID) == Get(e, ID)
  {
    var m := MergeFields(env, e, f, e);
    if m.Ok? {
      IntsFiled(env.py, stray);
      MergedEntries(env, FileScalar(env.py, stray), e, f);
      Merged(env, e, f);
      IdPlain();
      ThreeKeys(env, status);
      MergePlain(env, STATUS, Get(e, STATUS), status);
      if Get(f, ID).Some? {
        GetIsEntry(f, ID);
        assert EntryOk(env, FileScalar(env.py, stray), Entry(ID, Get(f, ID).value));
        MergePlain(env, ID, Get(e, ID), Get(f, ID).value);
      }
      hide MergeFields, MergeField, ID, STATUS, CLOSED, REGRESSED, EntriesOk, FileScalar;
      assert After(env, e, f, STATUS) == Ok(Get(m.value, STATUS)) && After(env, e, f, ID) == Ok(Get(m.value, ID));
    }
  }

  lemma IdPlain()
    ensures Plainly(ID)
  {
  }

  // ---------- a row, a suite, a history ----------

  /** Every file that can be read is named after the need it holds. */
  ghost predicate EachNamed(env: Env, store: Store) {
    forall id :: Load(env, store, id).Found? ==> FileName(env, Load(env, store, id).need.fields) == id
  }

  function StatusAt(env: Env, store: Store, id: string): Value
    requires Load(env, store, id).Found?
  {
    StatusOf(Load(env, store, id).need)
  }

  /** What a row makes of a status, by the rule of the code. */
  lemma EffectIs(n: Need, row: Row)
    ensures var effect, d := EffectOn(n, row), if row.indeterminate then [] else [row.passed];
      StatusAfter(StatusOf(n), d) ==
        if effect == Closed then CLOSED else if effect == Regressed then REGRESSED else StatusOf(n)
    ensures EffectOn(n, row) in {Closed, Regressed, Unchanged}
  {
    StatusesDiffer();
    hide CLOSED, REGRESSED, REJECTED, StatusOf;
  }

  /** One carried-out row moves the status of its own need as the result says, as the next load reads it,
      and of no other. */
  lemma RowStatus(env: Env, store: Store, suite: Suite, row: Row, id: string)
    requires Lawful(env.py) && CleanSuite(suite) && EachNamed(env, store)
    requires id != "" && Load(env, store, id).Found? && ApplyRow(env, store, suite, row).Ok?
    ensures var s := ApplyRow(env, store, suite, row).value;
      && EachNamed(env, s) && Load(env, s, id).Found?
      && StatusAt(env, s, id) ==
        StatusAfter(StatusAt(env, store, id), if row.needId == id && !row.indeterminate then [row.passed] else [])
    ensures row.indeterminate ==> ApplyRow(env, store, suite, row).value == store
  {
    hide Upsert, Edited, CLOSED, REGRESSED, REJECTED, StatusOf, StatusAfter, Lawful, Load, EffectOn, FileName,
      CleanSuite;
    var effect := EffectOf(env, store, row);
    NoResults(StatusAt(env, store, id));
    if Load(env, store, row.needId).Found? {
      EffectIs(Load(env, store, row.needId).need, row);
      IndeterminateUnchanged(Load(env, store, row.needId).need, row);
    }
    if effect == Closed || effect == Regressed {
      EditedIsRead(env, store, row.needId, suite, effect);
    }
  }

  /** A file that is not named after its need is not moved: the edit is filed under the other name. */
  lemma MisnamedUnmoved(env: Env, store: Store, suite: Suite, row: Row)
    requires Lawful(env.py) && CleanSuite(suite) && ApplyRow(env, store, suite, row).Ok?
    requires Load(env, store, row.needId).Found? && FileName(env, Load(env, store, row.needId).need.fields) != row.needId
    ensures Load(env, ApplyRow(env, store, suite, row).value, row.needId) == Load(env, store, row.needId)
  {
    var e := Load(env, store, row.needId).need;
    LoadedFields(env, store, row.needId, "");
    hide Upsert, Edited, Load, EffectOn, FileName, EntriesOk, FileScalar, CleanSuite, Lawful;
    var effect := EffectOf(env, store, row);
    if effect == Closed || effect == Regressed {
      EditedFields(env, e, suite, effect, "");
      SameName(env, Edited(env, e, suite, effect).fields, e.fields);
      FilingIsLocal(env, store, Edited(env, e, suite, effect), row.needId);
    }
  }

  lemma IndeterminateUnchanged(n: Need, row: Row)
    ensures row.indeterminate ==> EffectOn(n, row) == Unchanged
  {
  }

  lemma NoResults(s: Value)
    ensures StatusAfter(s, []) == s
  {
  }

  ghost predicate CleanSuites(suites: seq<Suite>) { forall i | 0 <= i < |suites| :: CleanSuite(suites[i]) }

  lemma {:induction false} RowsStatus(env: Env, store: Store, suite: Suite, rows: seq<Row>, id: string)
    requires Lawful(env.py) && CleanSuite(suite) && EachNamed(env, store) && id != "" && Load(env, store, id).Found?
    ensures var s := ApplyRows(env, store, suite, rows);
      && EachNamed(env, s) && Load(env, s, id).Found?
      && StatusAt(env, s, id) == StatusAfter(StatusAt(env, store, id), RowResults(env, store, suite, rows, id))
    decreases |rows|
  {
    hide ApplyRow, StatusAfter, StatusAt, Load, Lawful, EachNamed, CleanSuite;
    if rows == [] {
      NoResults(StatusAt(env, store, id));
    } else if ApplyRow(env, store, suite, rows[0]).Ok? {
      var s := ApplyRow(env, store, suite, rows[0]).value;
      var first := if rows[0].needId == id && !rows[0].indeterminate then [rows[0].passed] else [];
      RowStatus(env, store, suite, rows[0], id);
      RowsStatus(env, s, suite, rows[1..], id);
      StatusAfterBoth(StatusAt(env, store, id), first, RowResults(env, s, suite, rows[1..], id));
    } else {
      NoResults(StatusAt(env, store, id));
    }
  }

  /** Main result: after any sequence of suites the status a need is loaded with depends only on its first
      status and on its determinate results. It is closed when the last of them passed, regressed when the last
      failed after a pass (or after it was closed), and otherwise unchanged; rejected never changes. */
  lemma {:induction false} StatusHistory(env: Env, store: Store, suites: seq<Suite>, id: string)
    requires Lawful(env.py) && CleanSuites(suites) && EachNamed(env, store) && id != "" && Load(env, store, id).Found?
    ensures var s := ApplySuites(env, store, suites);
      Load(env, s, id).Found? && StatusAt(env, s, id) == StatusAfter(StatusAt(env, store, id), Results(env, store, suites, id))
    decreases |suites|
  {
    hide ApplyRows, RowResults, StatusAfter, StatusAt, Load, Lawful, EachNamed, CleanSuite;
    if suites == [] {
      NoResults(StatusAt(env, store, id));
    } else {
      var s := ApplyRows(env, store, suites[0], suites[0].rows);
      RowsStatus(env, store, suites[0], suites[0].rows, id);
      StatusHistory(env, s, suites[1..], id);
      StatusAfterBoth(StatusAt(env, store, id), RowResults(env, store, suites[0], suites[0].rows, id), Results(env, s, suites[1..], id));
    }
  }

  /** For a need that starts neither closed, regressed nor rejected: closed exactly when its last
      determinate result passed, regressed exactly when that failed after an earlier pass. */
  lemma ClosedIffLastPassed(env: Env, store: Store, suites: seq<Suite>, id: string)
    requires Lawful(env.py) && CleanSuites(suites) && EachNamed(env, store) && id != "" && Load(env, store, id).Found?
    requires StatusAt(env, store, id) !in {CLOSED, REGRESSED, REJECTED}
    ensures Load(env, ApplySuites(env, store, suites), id).Found?
    ensures var status, d := StatusAt(env, ApplySuites(env, store, suites), id), Results(env, store, suites, id);
      && (status == CLOSED <==> d != [] && d[|d| - 1])
      && (status == REGRESSED <==> d != [] && !d[|d| - 1] && true in d)
  {
    StatusHistory(env, store, suites, id);
    StatusesDiffer();
    hide CLOSED, REGRESSED, REJECTED, ApplySuites, Results, StatusAt, Load, Lawful, EachNamed, CleanSuites;
  }
}
