/** What validate() of scripts/repipe/needs.py lets through, and what an acceptance suite writes into a need and
    reports, in literal terms: the words of every field, the fields and the log line of a closing and of a regression,
    which rows have which effect, and the three lists. */
module NeedEdits {
  import opened NeedValues
  import opened NeedText
  import opened NeedRecord
  import opened NeedRoundTrip
  import opened NeedParsed
  import opened NeedBacklog
  import opened NeedMerge
  import opened NeedAcceptance

  // ---------- validation ----------

  /** The field is absent, null, or one of the words. */
  predicate OneOf(d: Dict<Value>, key: string, words: seq<string>) {
    var v := Get(d, key);
    v.None? || v.value == One(Null) || (v.value.One? && v.value.scalar.Str? && v.value.scalar.s in words)
  }

  /** The field as a scalar, absent read as default; not a list. */
  predicate ScalarOr(d: Dict<Value>, key: string, default: Scalar, x: Scalar) {
    match Get(d, key) case Some(v) => v == One(x) case None => x == default
  }

  lemma WordAllowed(d: Dict<Value>, i: nat, words: seq<string>)
    requires i < |DEFAULTS| && DEFAULTS[i].value.One? && DEFAULTS[i].value.scalar.Str? && DEFAULTS[i].value.scalar.s in words
    ensures Allowed(Field(d, DEFAULTS[i].key), words) <==> OneOf(d, DEFAULTS[i].key, words)
  {
    DefaultsAt(i);
    hide DEFAULTS;
  }

  lemma DefaultsAt(i: nat)
    requires i < |DEFAULTS|
    ensures Default(DEFAULTS[i].key) == DEFAULTS[i].value
  {
    DefaultsApart();
    hide DEFAULTS, Distinct;
    GetEntry(DEFAULTS, DEFAULTS[i]);
  }

  lemma DefaultsApart()
    ensures Distinct(DEFAULTS)
  {
    forall i, j | 0 <= i < j < |DEFAULTS| ensures DEFAULTS[i].key != DEFAULTS[j].key {
      DefaultKeysDiffer(i, j);
    }
    hide DEFAULTS;
  }

  lemma DefaultKeysDiffer(i: nat, j: nat)
    requires i < j < |DEFAULTS|
    ensures DEFAULTS[i].key != DEFAULTS[j].key
  {
    assert |DEFAULTS[0].key| == 5 && |DEFAULTS[1].key| == 6 && |DEFAULTS[2].key| == 8 && |DEFAULTS[3].key| == 17;
    assert |DEFAULTS[4].key| == 11 && |DEFAULTS[5].key| == 9 && |DEFAULTS[6].key| == 10 && |DEFAULTS[7].key| == 6;
    assert |DEFAULTS[8].key| == 16 && |DEFAULTS[9].key| == 8 && |DEFAULTS[10].key| == 17 && |DEFAULTS[11].key| == 7;
    assert |DEFAULTS[12].key| == 5 && |DEFAULTS[13].key| == 13 && |DEFAULTS[14].key| == 2 && |DEFAULTS[15].key| == 15;
    assert |DEFAULTS[16].key| == 10 && |DEFAULTS[17].key| == 13;
    assert DEFAULTS[0].key[0] == 't' && DEFAULTS[12].key[0] == 's' && DEFAULTS[1].key[0] == 's' && DEFAULTS[7].key[0] == 'r';
    assert DEFAULTS[2].key[0] == 's' && DEFAULTS[9].key[0] == 'a' && DEFAULTS[3].key[0] == 'h' && DEFAULTS[10].key[0] == 'c';
    assert DEFAULTS[6].key[1] == 'h' && DEFAULTS[16].key[1] == 'l';
    assert DEFAULTS[13].key[2] == 'g' && DEFAULTS[17].key[2] == 'j';
  }

  /** The words each field may hold. */
  predicate Worded(d: Dict<Value>) {
    && OneOf(d, "track", ["tooling", "quality", "perf", "loader"])
    && OneOf(d, "status", ["open", "claimed", "building", "proposal", "closed", "regressed", "blocked", "rejected"])
    && OneOf(d, "severity", ["blocker", "major", "minor"])
    && OneOf(d, "hypothesis_status", ["upheld", "overturned", "inconclusive"])
    && OneOf(d, "scope", ["small", "large"])
  }

  predicate AllAllowed(d: Dict<Value>) {
    && Allowed(Field(d, "track"), TRACKS) && Allowed(Field(d, "status"), STATUSES)
    && Allowed(Field(d, "severity"), SEVERITIES)
    && Allowed(Field(d, "hypothesis_status"), VERDICTS) && Allowed(Field(d, "scope"), SCOPES)
  }

  predicate RestAllowed(env: Env, d: Dict<Value>) {
    && Field(d, CREDIBILITY).One? && Field(d, PROBE).One? && Field(d, ACCEPTANCE).One?
    && env.rest(Field(d, CREDIBILITY).scalar, Field(d, PROBE).scalar, Field(d, ACCEPTANCE).scalar)
  }

  lemma WordsAllowed(d: Dict<Value>)
    ensures AllAllowed(d) <==> Worded(d)
  {
    assert DEFAULTS[0] == Entry("track", One(Str("tooling"))) && TRACKS[0] == "tooling";
    assert DEFAULTS[1] == Entry("status", One(Str("open"))) && STATUSES[0] == "open";
    assert DEFAULTS[2] == Entry("severity", One(Str("minor"))) && SEVERITIES[2] == "minor";
    assert DEFAULTS[3] == Entry("hypothesis_status", One(Str("inconclusive"))) && VERDICTS[2] == "inconclusive";
    assert DEFAULTS[12] == Entry("scope", One(Str("small"))) && SCOPES[0] == "small";
    assert |DEFAULTS| == 18;
    WordLists();
    hide DEFAULTS, TRACKS, STATUSES, SEVERITIES, VERDICTS, SCOPES, Allowed, Field, OneOf;
    WordAllowed(d, 0, TRACKS);
    WordAllowed(d, 1, STATUSES);
    WordAllowed(d, 2, SEVERITIES);
    WordAllowed(d, 3, VERDICTS);
    WordAllowed(d, 12, SCOPES);
  }

  lemma WordLists()
    ensures TRACKS == ["tooling", "quality", "perf", "loader"]
    ensures STATUSES == ["open", "claimed", "building", "proposal", "closed", "regressed", "blocked", "rejected"]
    ensures SEVERITIES == ["blocker", "major", "minor"] && VERDICTS == ["upheld", "overturned", "inconclusive"]
    ensures SCOPES == ["small", "large"]
  {
  }

  lemma ScalarFields(d: Dict<Value>)
    ensures Default("credibility") == One(Float("0.0")) && Default("probe_id") == One(Null) && Default("acceptance_id") == One(Null)
  {
    hide *;
    CredibilityDefault();
    NoDefault("probe_id");
    NoDefault("acceptance_id");
  }

  lemma CredibilityDefault()
    ensures Default("credibility") == One(Float("0.0"))
  {
    assert DEFAULTS[4] == Entry("credibility", One(Float("0.0"))) && |DEFAULTS| == 18;
    hide DEFAULTS, Default;
    DefaultsAt(4);
  }

  lemma NoDefault(key: string)
    requires key == "probe_id" || key == "acceptance_id" || key == "need_id"
    ensures Default(key) == One(Null)
  {
    forall i | 0 <= i < |DEFAULTS| ensures DEFAULTS[i].key != key {
      NoIdDefault(i);
    }
    hide DEFAULTS, Get;
    GetIsEntry(DEFAULTS, key);
  }

  lemma NoIdDefault(i: nat)
    requires i < |DEFAULTS|
    ensures DEFAULTS[i].key != "probe_id" && DEFAULTS[i].key != "acceptance_id" && DEFAULTS[i].key != "need_id"
  {
    assert |"probe_id"| == 8 && |"acceptance_id"| == 13 && |"need_id"| == 7 && |DEFAULTS| == 18;
    assert DEFAULTS[11].key[0] == 't' && "need_id"[0] == 'n' && DEFAULTS[2].key[0] == 's' && DEFAULTS[9].key[0] == 'a' && DEFAULTS[13].key[0] == 'r' && DEFAULTS[17].key[0] == 'r';
    assert |DEFAULTS[0].key| == 5 && |DEFAULTS[1].key| == 6 && |DEFAULTS[3].key| == 17 && |DEFAULTS[4].key| == 11;
    assert |DEFAULTS[5].key| == 9 && |DEFAULTS[6].key| == 10 && |DEFAULTS[7].key| == 6 && |DEFAULTS[8].key| == 16;
    assert |DEFAULTS[10].key| == 17 && |DEFAULTS[11].key| == 7 && |DEFAULTS[12].key| == 5 && |DEFAULTS[14].key| == 2;
    assert |DEFAULTS[15].key| == 15 && |DEFAULTS[16].key| == 10;
  }

  /** need_id: a slug of lower-case letters, digits and dashes that does not start with a dash, one newline at its end
      not counted, or a number that prints as one. */
  predicate IdText(s: string) {
    var t := if s != "" && s[|s| - 1] == '\n' then s[..|s| - 1] else s;
    t != "" && t[0] != '-' && forall c | c in t :: 'a' <= c <= 'z' || '0' <= c <= '9' || c == '-'
  }

  predicate IdLegal(v: Option<Value>) {
    match v
    case Some(One(Str(s))) => IdText(s)
    case Some(One(Float(r))) => IdText(r)
    case Some(One(Int(n))) => n > 0
    case _ => false
  }

  /** The checks on the other three fields pass, none of which is a list. */
  ghost predicate RestPasses(env: Env, d: Dict<Value>) {
    exists c, p, a :: (
      && env.rest(c, p, a)
      && ScalarOr(d, "credibility", Float("0.0"), c)
      && ScalarOr(d, "probe_id", Null, p)
      && ScalarOr(d, "acceptance_id", Null, a))
  }

  /** Main result: what may be written, and so what an upsert refuses. */
  lemma ValidIs(env: Env, d: Dict<Value>)
    ensures Valid(env, d) <==> IdLegal(Get(d, "need_id")) && Worded(d) && RestPasses(env, d)
  {
    WordsAllowed(d);
    IdIs(Get(d, "need_id"));
    RestIs(env, d);
    ValidParts(env, d);
    hide Valid, IdLegal, IdOk, Worded, RestPasses, AllAllowed, RestAllowed, Get;
  }

  lemma ValidParts(env: Env, d: Dict<Value>)
    ensures Valid(env, d) <==> IdOk(Get(d, "need_id")) && AllAllowed(d) && RestAllowed(env, d)
  {
    assert ID == "need_id";
    hide DEFAULTS, TRACKS, STATUSES, SEVERITIES, VERDICTS, SCOPES, Allowed, IdOk, Get, Field, CREDIBILITY, PROBE, ACCEPTANCE;
  }

  lemma IdIs(v: Option<Value>)
    ensures IdOk(v) <==> IdLegal(v)
  {
    if v.Some? && v.value.One? && v.value.scalar.Str? {
      SlugIs(v.value.scalar.s);
    }
    if v.Some? && v.value.One? && v.value.scalar.Float? {
      SlugIs(v.value.scalar.repr);
    }
    hide Slug, IdText;
  }

  lemma SlugIs(s: string)
    ensures Slug(s) <==> IdText(s)
  {
    var t := if s != "" && s[|s| - 1] == '\n' then s[..|s| - 1] else s;
    if Slug(s) {
      forall c | c in t ensures 'a' <= c <= 'z' || '0' <= c <= '9' || c == '-' {
        assert SlugChar(c);
      }
    }
    if IdText(s) {
      forall c | c in t ensures SlugChar(c) {
      }
    }
  }

  lemma FieldIs(d: Dict<Value>, key: string, default: Scalar, x: Scalar)
    requires Default(key) == One(default)
    ensures ScalarOr(d, key, default, x) <==> Field(d, key) == One(x)
  {
    hide DEFAULTS, Get, Default;
  }

  lemma RestIs(env: Env, d: Dict<Value>)
    ensures RestAllowed(env, d) <==> RestPasses(env, d)
  {
    ScalarFields(d);
    assert CREDIBILITY == "credibility" && PROBE == "probe_id" && ACCEPTANCE == "acceptance_id";
    hide DEFAULTS, Default, CREDIBILITY, PROBE, ACCEPTANCE, Field, ScalarOr;
    forall x ensures ScalarOr(d, "credibility", Float("0.0"), x) <==> Field(d, "credibility") == One(x) {
      FieldIs(d, "credibility", Float("0.0"), x);
    }
    forall x ensures ScalarOr(d, "probe_id", Null, x) <==> Field(d, "probe_id") == One(x) {
      FieldIs(d, "probe_id", Null, x);
    }
    forall x ensures ScalarOr(d, "acceptance_id", Null, x) <==> Field(d, "acceptance_id") == One(x) {
      FieldIs(d, "acceptance_id", Null, x);
    }
    if Field(d, "credibility").One? && Field(d, "probe_id").One? && Field(d, "acceptance_id").One? {
      var c, p, a := Field(d, "credibility").scalar, Field(d, "probe_id").scalar, Field(d, "acceptance_id").scalar;
      assert ScalarOr(d, "credibility", Float("0.0"), c) && ScalarOr(d, "probe_id", Null, p) && ScalarOr(d, "acceptance_id", Null, a);
    }
  }

  /** The file is named after need_id as Python shows it; a need without one is filed under None. */
  lemma FiledUnder(env: Env, d: Dict<Value>, n: int, s: string, b: bool)
    ensures Get(d, "need_id") == Some(One(Str(s))) || Get(d, "need_id") == Some(One(Float(s))) ==> FileName(env, d) == s
    ensures Get(d, "need_id") == Some(One(Int(n))) ==> IntText(FileName(env, d)) && TextToInt(FileName(env, d)) == n
    ensures Get(d, "need_id") == Some(One(Bool(b))) ==> FileName(env, d) == if b then "True" else "False"
    ensures Get(d, "need_id") == Some(One(Null)) || Get(d, "need_id") == None ==> FileName(env, d) == "None"
  {
    NamedBy(env, d);
    IntRoundTrip(n);
    hide FileName, Get, IntToText, IntText, TextToInt;
  }

  lemma NamedBy(env: Env, d: Dict<Value>)
    ensures FileName(env, d) == match Get(d, "need_id") case Some(v) => Shown(env, v) case None => "None"
  {
    NoDefault("need_id");
    assert ID == "need_id";
    hide Get, DEFAULTS, Default, ID, IntToText;
  }

  // ---------- what a suite writes ----------

  /** A closing sets the status, the round and the pull request if they are known, and leaves the other fields; a
      regression sets the status alone, so that closed_in_round stays. */
  lemma EditsAre(env: Env, n: Need, suite: Suite, key: string)
    ensures var d := Edited(env, n, suite, Closed).fields;
      Get(d, key) ==
        if key == "status" then Some(One(Str("closed")))
        else if key == "closed_in_round" && suite.round.Some? then Some(One(Int(suite.round.value)))
        else if key == "closing_pr" && suite.closingPr != "" then Some(One(Str(suite.closingPr)))
        else Get(n.fields, key)
    ensures var d := Edited(env, n, suite, Regressed).fields;
      Get(d, key) == if key == "status" then Some(One(Str("regressed"))) else Get(n.fields, key)
  {
    KeyInitials();
    assert STATUS == "status" && CLOSING == "closing_pr" && |"closed_in_round"| == 15 && |"closing_pr"| == 10;
    var f0 := Put(n.fields, STATUS, CLOSED);
    GetPut(n.fields, STATUS, CLOSED, key);
    GetPut(n.fields, STATUS, REGRESSED, key);
    hide Put, Get, Logged, LIST_FIELDS, INT_FIELDS, FLOAT_FIELDS;
    var f1 := f0;
    if suite.round.Some? {
      GetPut(f0, "closed_in_round", One(Int(suite.round.value)), key);
      f1 := Put(f0, "closed_in_round", One(Int(suite.round.value)));
    }
    GetPut(f1, CLOSING, Str1(suite.closingPr), key);
  }

  /** The line goes under what the decision log says already; a log without text becomes the line. */
  lemma LogIs(n: Need, line: string, name: string)
    ensures Logged(n, line).fields == n.fields
    ensures name != "Decision log" ==> Get(Logged(n, line).sections, name) == Get(n.sections, name)
    ensures match Get(n.sections, "Decision log")
      case None => Get(Logged(n, line).sections, "Decision log") == Some(line)
      case Some(b) => Get(Logged(n, line).sections, "Decision log") == Some(if RStrip(b) == "" then line else Strip(RStrip(b) + "\n" + line))
  {
    var body := RStrip(match Get(n.sections, LOG) case Some(b) => b case None => "");
    assert LOG == "Decision log" && RStrip("") == "";
    hide Put, Get, RStrip, Strip;
    GetPut(n.sections, LOG, if body != "" then Strip(body + "\n" + line) else line, name);
    GetPut(n.sections, LOG, if body != "" then Strip(body + "\n" + line) else line, "Decision log");
  }

  /** The lines that are logged: the acceptance probe, or a question mark, and the commit. */
  lemma LinesAre(env: Env, n: Need, suite: Suite, probe: string)
    requires Get(n.fields, "acceptance_id") == if probe == "" then None else Some(One(Str(probe)))
    ensures var name := if probe == "" then "?" else probe;
      && Edited(env, n, suite, Closed).sections ==
           Logged(n, "- closed: acceptance " + name + " now PASSES at " + suite.sha).sections
      && Edited(env, n, suite, Regressed).sections ==
           Logged(n, "- REGRESSED: acceptance " + name + " fails again at " + suite.sha).sections
  {
    AcceptanceNamed(env, n, probe);
    var name := if probe == "" then "?" else probe;
    hide AcceptanceName, ClosedFields, Put, CLOSED, REGRESSED, STATUS, LOG, Get, RStrip, Strip;
    LoggedSections(n, n.(fields := ClosedFields(n.fields, suite)), "- closed: acceptance " + name + " now PASSES at " + suite.sha);
    LoggedSections(n, n.(fields := Put(n.fields, STATUS, REGRESSED)), "- REGRESSED: acceptance " + name + " fails again at " + suite.sha);
    hide Logged;
  }

  lemma LoggedSections(a: Need, b: Need, line: string)
    requires a.sections == b.sections
    ensures Logged(a, line).sections == Logged(b, line).sections
  {
  }

  lemma AcceptanceNamed(env: Env, n: Need, probe: string)
    requires Get(n.fields, "acceptance_id") == if probe == "" then None else Some(One(Str(probe)))
    ensures AcceptanceName(env, n) == if probe == "" then "?" else probe
  {
    AcceptanceField(n, probe);
    hide DEFAULTS, Default, Get, ACCEPTANCE, Field;
  }

  lemma AcceptanceField(n: Need, probe: string)
    requires Get(n.fields, "acceptance_id") == if probe == "" then None else Some(One(Str(probe)))
    ensures Field(n.fields, ACCEPTANCE) == One(if probe == "" then Null else Str(probe))
  {
    ScalarFields(n.fields);
    assert ACCEPTANCE == "acceptance_id";
    hide DEFAULTS, Default, Get;
  }

  // ---------- which rows do what ----------

  /** The stored status; open when the file gives none. */
  predicate HasStatus(n: Need, s: string) {
    match Get(n.fields, "status") case Some(v) => v == One(Str(s)) case None => s == "open"
  }

  lemma StoredStatusIs(n: Need, s: string)
    ensures HasStatus(n, s) <==> StatusOf(n) == One(Str(s))
  {
    assert DEFAULTS[1] == Entry("status", One(Str("open"))) && |DEFAULTS| == 18;
    DefaultsAt(1);
    hide DEFAULTS, Get;
  }

  /** Main result: a need is closed exactly when its row passed and it was neither closed nor rejected, and regressed
      exactly when its row failed and it was closed; never by an indeterminate row, without an id or without a file. */
  lemma RowDoes(env: Env, store: Store, row: Row, n: Need)
    requires Load(env, store, row.needId) == Found(n)
    ensures EffectOf(env, store, row) == Closed <==>
      row.needId != "" && !row.indeterminate && row.passed && !HasStatus(n, "closed") && !HasStatus(n, "rejected")
    ensures EffectOf(env, store, row) == Regressed <==>
      row.needId != "" && !row.indeterminate && !row.passed && HasStatus(n, "closed")
    ensures EffectOf(env, store, row) == Ignored <==> row.needId == ""
  {
    StoredStatusIs(n, "closed");
    StoredStatusIs(n, "rejected");
    hide Load, StatusOf, HasStatus;
  }

  lemma NoFile(env: Env, store: Store, row: Row)
    ensures row.needId !in store ==> EffectOf(env, store, row) == Ignored
    ensures row.needId in store && row.needId != "" && Load(env, store, row.needId) == Broken ==> EffectOf(env, store, row) == Unreadable
  {
    hide Parse, EffectOn;
  }

  // ---------- the report ----------

  function Together(a: Report, b: Report): Report {
    Report(a.closed + b.closed, a.regressed + b.regressed, a.same + b.same)
  }

  /** A suite that stops reports nothing more; else the reports of its parts follow one another. */
  lemma {:induction false} ReportsJoin(env: Env, store: Store, suite: Suite, rows: seq<Row>, r: Report)
    ensures Reported(env, store, suite, rows, r) == Together(r, Reported(env, store, suite, rows, Report([], [], [])))
    decreases |rows|
  {
    hide ApplyRow, EffectOf;
    if rows != [] {
      match ApplyRow(env, store, suite, rows[0])
      case Raise =>
      case Ok(s) =>
        var e, id := EffectOf(env, store, rows[0]), rows[0].needId;
        ReportsJoin(env, s, suite, rows[1..], Noted(r, e, id));
        ReportsJoin(env, s, suite, rows[1..], Noted(Report([], [], []), e, id));
    }
  }

  /** The first row that is carried out puts its id into the list of its effect, before those of the later rows. */
  lemma ReportIs(env: Env, store: Store, suite: Suite, row: Row, rows: seq<Row>)
    ensures var all := Reported(env, store, suite, [row] + rows, Report([], [], []));
      match ApplyRow(env, store, suite, row)
      case Raise => all == Report([], [], [])
      case Ok(s) =>
        var more := Reported(env, s, suite, rows, Report([], [], []));
        match EffectOf(env, store, row)
        case Closed => all == more.(closed := [row.needId] + more.closed)
        case Regressed => all == more.(regressed := [row.needId] + more.regressed)
        case Unchanged => all == more.(same := [row.needId] + more.same)
        case _ => all == more
  {
    match ApplyRow(env, store, suite, row)
    case Raise =>
      ReportFirst(env, store, suite, row, rows);
    case Ok(s) =>
      var first := Noted(Report([], [], []), EffectOf(env, store, row), row.needId);
      ReportFirst(env, store, suite, row, rows);
      ReportsJoin(env, s, suite, rows, first);
      NotedFirst(EffectOf(env, store, row), row.needId, Reported(env, s, suite, rows, Report([], [], [])));
      hide *;
  }

  lemma NotedFirst(e: Effect, id: string, more: Report)
    ensures Together(Noted(Report([], [], []), e, id), more) ==
      match e
      case Closed => more.(closed := [id] + more.closed)
      case Regressed => more.(regressed := [id] + more.regressed)
      case Unchanged => more.(same := [id] + more.same)
      case _ => more
  {
    assert [] + more.closed == more.closed && [] + more.regressed == more.regressed && [] + more.same == more.same;
    assert [] + [id] == [id];
  }

  lemma ReportFirst(env: Env, store: Store, suite: Suite, row: Row, rows: seq<Row>)
    ensures Reported(env, store, suite, [row] + rows, Report([], [], [])) ==
      match ApplyRow(env, store, suite, row)
      case Raise => Report([], [], [])
      case Ok(s) => Reported(env, s, suite, rows, Noted(Report([], [], []), EffectOf(env, store, row), row.needId))
  {
    assert ([row] + rows)[1..] == rows;
    hide ApplyRow, EffectOf, Noted;
  }
}
