/** The patch rewriter of tools/sync_upstream.py: which upstream paths are vendored and where, and how a
    diff is rewritten from one layout to the other. A diff is cut into the sections of its files; a section
    whose path is not vendored is dropped, any other keeps its lines but for the two or three that name
    the path before the first hunk. */
module Patch {

  datatype Option<+T> = None | Some(value: T)

  // ---------- paths ----------

  const EXCLUDED: string := "Ghidra/Features/Decompiler/src/decompile/zlib/"
  const DATATESTS: string := "Ghidra/Features/Decompiler/src/decompile/datatests/"
  const DATATESTS_HERE: string := "tests/datatests/"
  const PROCESSORS: string := "Ghidra/Processors/"
  const LANGUAGES: string := "/data/languages/"
  const SPECS: string := "specs/"

  /** s.find("/"), |s| when there is none. */
  function SlashAt(s: string): (n: nat)
    ensures n <= |s|
  {
    if s == "" || s[0] == '/' then 0 else 1 + SlashAt(s[1..])
  }

  function MapPath(up: string): Option<string> {
    if EXCLUDED <= up then None
    else if DATATESTS <= up then Some(DATATESTS_HERE + up[|DATATESTS|..])
    else if PROCESSORS <= up then
      var rest := up[|PROCESSORS|..];
      var slash := SlashAt(rest);
      if slash < |rest| && LANGUAGES <= rest[slash..] then Some(SPECS + PROCESSORS + rest[..slash] + rest[slash..]) else None
    else None
  }

  /** A mapped processor path is the upstream path below specs/. */
  lemma MapPathShape(up: string)
    requires MapPath(up).Some?
    ensures if DATATESTS <= up then MapPath(up).value == DATATESTS_HERE + up[|DATATESTS|..]
            else MapPath(up).value == SPECS + up
  {
    hide DATATESTS, DATATESTS_HERE, PROCESSORS, LANGUAGES, SPECS, EXCLUDED;
    if !(DATATESTS <= up) {
      var rest := up[|PROCESSORS|..];
      var slash := SlashAt(rest);
      assert rest[..slash] + rest[slash..] == rest;
      assert PROCESSORS + rest == up;
      assert SPECS + PROCESSORS + rest[..slash] + rest[slash..] == SPECS + (PROCESSORS + (rest[..slash] + rest[slash..]));
    }
  }

  /** No two upstream paths are vendored at the same place. */
  lemma MapPathInjective(a: string, b: string)
    requires MapPath(a).Some? && MapPath(a) == MapPath(b)
    ensures a == b
  {
    MapPathShape(a);
    MapPathShape(b);
    hide MapPath, DATATESTS, PROCESSORS, LANGUAGES, EXCLUDED;
    assert DATATESTS_HERE[0] == 't' && SPECS[0] == 's';
    var m := MapPath(a).value;
    if DATATESTS <= a {
      assert m[0] == 't';
      assert a == DATATESTS + m[|DATATESTS_HERE|..] && b == DATATESTS + m[|DATATESTS_HERE|..];
    } else {
      assert m[0] == 's';
      assert a == m[|SPECS|..] && b == m[|SPECS|..];
    }
  }

  // ---------- lines and sections ----------

  /** One line, and whether it ends in a newline. */
  datatype Line = Line(text: string, ended: bool)

  const GIT: string := "diff --git "
  const SIDE_A: string := "a/"
  const SIDE_B: string := " b/"
  const HUNK: string := "@@ "
  const OLD: string := "--- a/"
  const NEW: string := "+++ b/"

  const FORBIDDEN: seq<string> := [
    "rename from ", "rename to ", "copy from ", "copy to ", "similarity index ", "Binary files ", "GIT binary patch"]

  predicate Starts(l: Line) { GIT <= l.text }

  /** The sections of the lines from here on, current being the section under way. */
  function Cut(lines: seq<Line>, current: seq<Line>): seq<seq<Line>> {
    if lines == [] then if current == [] then [] else [current]
    else if Starts(lines[0]) && current != [] then [current] + Cut(lines[1..], [lines[0]])
    else Cut(lines[1..], current + [lines[0]])
  }

  function Sections(lines: seq<Line>): seq<seq<Line>> { Cut(lines, []) }

  method SectionsLoop(lines: seq<Line>) returns (sections: seq<seq<Line>>)
    ensures sections == Sections(lines)
  {
    hide Starts;
    sections := [];
    var current: seq<Line> := [];
    for i := 0 to |lines|
      invariant sections + Cut(lines[i..], current) == Sections(lines)
    {
      assert lines[i..][1..] == lines[i + 1..];
      if Starts(lines[i]) && current != [] {
        sections := sections + [current];
        current := [];
        assert [] + [lines[i]] == [lines[i]];
      }
      current := current + [lines[i]];
    }
    assert lines[|lines|..] == [];
    if current != [] {
      sections := sections + [current];
    }
  }

  // ---------- one section ----------

  /** The least k from the given one with " b/" at k and something after it, |r| when there is none. */
  function SplitAt(r: string, k: nat): (n: nat)
    requires k <= |r|
    ensures k <= n <= |r|
    ensures n < |r| ==> n + 3 < |r| && SIDE_B <= r[n..]
    decreases |r| - k
  {
    if k == |r| then k
    else if k + 3 < |r| && SIDE_B <= r[k..] then k
    else SplitAt(r, k + 1)
  }

  /** ^diff --git a/(?P<a>.+?) b/(?P<b>.+)$ on a line that starts a section. */
  function HeaderPaths(head: string): Option<(string, string)>
    requires GIT <= head
  {
    var r := head[|GIT|..];
    if !(SIDE_A <= r) then None
    else
      var p := r[2..];
      if p == "" then None
      else
        var k := SplitAt(p, 1);
        if k == |p| then None else Some((p[..k], p[k + 3..]))
  }

  function Header(path: string): string { GIT + SIDE_A + path + SIDE_B + path }

  /** A header line that names the section's own path, in the new layout. */
  function RenamedLine(s: string, path: string, mapped: string): string {
    if OLD <= s && |s| > |OLD| then if s[|OLD|..] == path then OLD + mapped else s
    else if NEW <= s && |s| > |NEW| && s[|NEW|..] == path then NEW + mapped
    else s
  }

  predicate Forbidden(s: string) { exists i | 0 <= i < |FORBIDDEN| :: FORBIDDEN[i] <= s }

  /** The lines after the header; None when a marker is refused. */
  function RewriteBody(lines: seq<Line>, inHeader: bool, path: string, mapped: string): Option<seq<Line>> {
    if lines == [] then Some([])
    else
      var l := lines[0];
      if !inHeader || HUNK <= l.text then
        var rest := RewriteBody(lines[1..], false, path, mapped);
        if rest.None? then None else Some([l] + rest.value)
      else if Forbidden(l.text) then None
      else
        var rest := RewriteBody(lines[1..], true, path, mapped);
        if rest.None? then None else Some([Line(RenamedLine(l.text, path, mapped), l.ended)] + rest.value)
  }

  datatype Outcome = Refused | Skipped(path: string) | Kept(path: string, lines: seq<Line>)

  function RewriteSection(sec: seq<Line>): Outcome {
    if sec == [] || !Starts(sec[0]) then Refused
    else
      var paths := HeaderPaths(sec[0].text);
      if paths.None? || paths.value.0 != paths.value.1 then Refused
      else
        var path := paths.value.0;
        var mapped := MapPath(path);
        if mapped.None? then Skipped(path)
        else
          var body := RewriteBody(sec[1..], true, path, mapped.value);
          if body.None? then Refused else Kept(path, [Line(Header(mapped.value), true)] + body.value)
  }

  datatype Result = Error | Ok(lines: seq<Line>, skipped: seq<string>)

  function RewriteAll(sections: seq<seq<Line>>): Result {
    if sections == [] then Ok([], [])
    else
      match RewriteSection(sections[0])
      case Refused => Error
      case Skipped(path) =>
        (match RewriteAll(sections[1..])
         case Error => Error
         case Ok(lines, skipped) => Ok(lines, [path] + skipped))
      case Kept(_, image) =>
        (match RewriteAll(sections[1..])
         case Error => Error
         case Ok(lines, skipped) => Ok(image + lines, skipped))
  }

  function Rewrite(lines: seq<Line>): Result { RewriteAll(Sections(lines)) }

  function Prepend(out: seq<Line>, rest: Option<seq<Line>>): Option<seq<Line>> {
    if rest.None? then None else Some(out + rest.value)
  }

  lemma PrependOne(out: seq<Line>, l: Line, rest: Option<seq<Line>>)
    ensures Prepend(out, Prepend([l], rest)) == Prepend(out + [l], rest)
    ensures Prepend([], rest) == rest
  {
    if rest.Some? {
      assert out + ([l] + rest.value) == (out + [l]) + rest.value && [] + rest.value == rest.value;
    }
  }

  lemma BodyStep(lines: seq<Line>, i: nat, inHeader: bool, path: string, mapped: string)
    requires i < |lines|
    ensures var l := lines[i];
      RewriteBody(lines[i..], inHeader, path, mapped) ==
        if !inHeader || HUNK <= l.text then Prepend([l], RewriteBody(lines[i + 1..], false, path, mapped))
        else if Forbidden(l.text) then None
        else Prepend([Line(RenamedLine(l.text, path, mapped), l.ended)], RewriteBody(lines[i + 1..], true, path, mapped))
  {
    hide Forbidden, RenamedLine, HUNK;
    assert lines[i..][1..] == lines[i + 1..];
  }

  method BodyLoop(lines: seq<Line>, path: string, mapped: string) returns (body: Option<seq<Line>>)
    ensures body == RewriteBody(lines, true, path, mapped)
  {
    hide Forbidden, RenamedLine, HUNK, RewriteBody, Prepend;
    var out: seq<Line> := [];
    var inHeader := true;
    assert lines[0..] == lines;
    PrependOne([], Line("", true), RewriteBody(lines, true, path, mapped));
    for i := 0 to |lines|
      invariant RewriteBody(lines, true, path, mapped) == Prepend(out, RewriteBody(lines[i..], inHeader, path, mapped))
    {
      var l := lines[i];
      BodyStep(lines, i, inHeader, path, mapped);
      if inHeader && HUNK <= l.text {
        inHeader := false;
      }
      var rest := RewriteBody(lines[i + 1..], inHeader, path, mapped);
      if !inHeader {
        PrependOne(out, l, rest);
        out := out + [l];
        continue;
      }
      if Forbidden(l.text) {
        PrependNone(out);
        return None;
      }
      PrependOne(out, Line(RenamedLine(l.text, path, mapped), l.ended), rest);
      out := out + [Line(RenamedLine(l.text, path, mapped), l.ended)];
    }
    BodyEnd(lines, inHeader, path, mapped, out);
    body := Some(out);
  }

  lemma PrependNone(out: seq<Line>)
    ensures Prepend(out, None) == None
  {
  }

  lemma BodyEnd(lines: seq<Line>, inHeader: bool, path: string, mapped: string, out: seq<Line>)
    ensures Prepend(out, RewriteBody(lines[|lines|..], inHeader, path, mapped)) == Some(out)
  {
    assert lines[|lines|..] == [] && out + [] == out;
  }

  method SectionLoop(sec: seq<Line>) returns (r: Outcome)
    ensures r == RewriteSection(sec)
  {
    hide MapPath, RewriteBody, Header;
    if sec == [] || !Starts(sec[0]) {
      return Refused;
    }
    var paths := HeaderPaths(sec[0].text);
    if paths.None? || paths.value.0 != paths.value.1 {
      return Refused;
    }
    var path := paths.value.0;
    var mapped := MapPath(path);
    if mapped.None? {
      return Skipped(path);
    }
    var body := BodyLoop(sec[1..], path, mapped.value);
    if body.None? {
      return Refused;
    }
    return Kept(path, [Line(Header(mapped.value), true)] + body.value);
  }

  /** Everything done so far, before the result of the rest. */
  function Before(out: seq<Line>, skipped: seq<string>, rest: Result): Result {
    if rest.Error? then Error else Ok(out + rest.lines, skipped + rest.skipped)
  }

  lemma AllStep(sections: seq<seq<Line>>, i: nat, out: seq<Line>, skipped: seq<string>)
    requires i < |sections|
    ensures var rest := RewriteAll(sections[i + 1..]);
      Before(out, skipped, RewriteAll(sections[i..])) ==
        match RewriteSection(sections[i])
        case Refused => Error
        case Skipped(path) => Before(out, skipped + [path], rest)
        case Kept(_, image) => Before(out + image, skipped, rest)
  {
    hide RewriteSection;
    assert sections[i..][1..] == sections[i + 1..];
    var rest := RewriteAll(sections[i + 1..]);
    if rest.Ok? {
      match RewriteSection(sections[i])
      case Refused =>
      case Skipped(path) => assert skipped + ([path] + rest.skipped) == (skipped + [path]) + rest.skipped;
      case Kept(_, image) => assert out + (image + rest.lines) == (out + image) + rest.lines;
    }
  }

  method RewriteLoop(lines: seq<Line>) returns (r: Result)
    ensures r == Rewrite(lines)
  {
    hide RewriteSection, RewriteAll;
    var sections := SectionsLoop(lines);
    var out: seq<Line>, skipped: seq<string> := [], [];
    assert sections[0..] == sections;
    assert Before([], [], RewriteAll(sections)) == RewriteAll(sections);
    for i := 0 to |sections|
      invariant RewriteAll(sections) == Before(out, skipped, RewriteAll(sections[i..]))
    {
      AllStep(sections, i, out, skipped);
      var one := SectionLoop(sections[i]);
      match one {
        case Refused => return Error;
        case Skipped(path) => skipped := skipped + [path];
        case Kept(_, image) => out := out + image;
      }
    }
    assert RewriteAll(sections[|sections|..]) == Ok([], []) by { AllEnd(sections); }
    r := Ok(out, skipped);
    assert out + [] == out && skipped + [] == skipped;
  }

  lemma AllEnd(sections: seq<seq<Line>>)
    ensures RewriteAll(sections[|sections|..]) == Ok([], [])
  {
  }

  // ---------- cutting into sections ----------

  function Concat(sections: seq<seq<Line>>): seq<Line> {
    if sections == [] then [] else sections[0] + Concat(sections[1..])
  }

  /** Only the first line of a section starts one, and every section but perhaps the first begins so. */
  predicate WellCut(sections: seq<seq<Line>>) {
    && (forall i | 0 <= i < |sections| :: sections[i] != [])
    && (forall i | 1 <= i < |sections| :: sections[i] != [] && Starts(sections[i][0]))
    && (forall i, j | 0 <= i < |sections| && 1 <= j < |sections[i]| :: !Starts(sections[i][j]))
  }

  lemma {:induction false} CutIsWellCut(lines: seq<Line>, current: seq<Line>)
    requires forall j | 1 <= j < |current| :: !Starts(current[j])
    ensures Concat(Cut(lines, current)) == current + lines && WellCut(Cut(lines, current))
    ensures current != [] ==> Cut(lines, current) != [] && Cut(lines, current)[0] != [] && Cut(lines, current)[0][0] == current[0]
  {
    hide Starts;
    if lines == [] {
      if current != [] {
        assert Concat([current]) == current + Concat([]);
      }
    } else if Starts(lines[0]) && current != [] {
      var rest := Cut(lines[1..], [lines[0]]);
      CutIsWellCut(lines[1..], [lines[0]]);
      assert ([current] + rest)[1..] == rest;
      assert Concat([current] + rest) == current + ([lines[0]] + lines[1..]);
      assert lines == [lines[0]] + lines[1..];
    } else {
      CutIsWellCut(lines[1..], current + [lines[0]]);
      assert (current + [lines[0]]) + lines[1..] == current + lines;
    }
  }

  /** The sections put together are the patch again. */
  lemma SectionsAre(lines: seq<Line>)
    ensures Concat(Sections(lines)) == lines && WellCut(Sections(lines))
  {
    CutIsWellCut(lines, []);
    assert [] + lines == lines;
  }

  lemma {:induction false} CutLine(section: seq<Line>, lines: seq<Line>, current: seq<Line>)
    requires current != [] && forall j | 0 <= j < |section| :: !Starts(section[j])
    ensures Cut(section + lines, current) == Cut(lines, current + section)
  {
    hide Starts;
    if section == [] {
      assert section + lines == lines && current + section == current;
    } else {
      assert (section + lines)[1..] == section[1..] + lines && (section + lines)[0] == section[0];
      assert !Starts(section[0]);
      CutLine(section[1..], lines, current + [section[0]]);
      assert (current + [section[0]]) + section[1..] == current + section;
    }
  }

  /** Well-cut sections that all begin with a header are cut back to themselves. */
  lemma {:induction false} CutOfConcat(sections: seq<seq<Line>>)
    requires WellCut(sections) && (sections != [] ==> Starts(sections[0][0]))
    ensures Sections(Concat(sections)) == sections
  {
    hide Starts;
    if sections != [] {
      var first, rest := sections[0], sections[1..];
      assert WellCut(rest) && (rest != [] ==> Starts(rest[0][0]));
      CutOfConcat(rest);
      var tail := Concat(rest);
      assert first == [first[0]] + first[1..];
      var lines := first + tail;
      assert lines[0] == first[0] && lines[1..] == first[1..] + tail;
      assert [] + [first[0]] == [first[0]];
      assert Cut(lines, []) == Cut(first[1..] + tail, [first[0]]);
      CutLine(first[1..], tail, [first[0]]);
      NextSection(first, tail, rest);
      assert sections == [first] + rest;
    }
  }

  lemma NextSection(first: seq<Line>, tail: seq<Line>, rest: seq<seq<Line>>)
    requires first != [] && tail == Concat(rest) && WellCut(rest) && (rest != [] ==> Starts(rest[0][0])) && Cut(tail, []) == rest
    ensures Cut(tail, first) == [first] + rest
  {
    hide Starts;
    if rest == [] {
      assert tail == [];
    } else {
      assert tail[0] == rest[0][0];
      assert [] + [tail[0]] == [tail[0]];
    }
  }

  // ---------- headers ----------

  lemma {:induction false} SplitAtFirst(r: string, k: nat, n: nat)
    requires k <= n && n + 3 < |r| && SIDE_B <= r[n..] && forall m | k <= m < n :: !(SIDE_B <= r[m..])
    ensures SplitAt(r, k) == n
    decreases n - k
  {
    hide SIDE_B;
    if k < n {
      SplitAtFirst(r, k + 1, n);
    }
  }

  predicate Occurs(path: string, m: nat) { m + 3 <= |path| && path[m] == ' ' && path[m + 1] == 'b' && path[m + 2] == '/' }

  lemma SideAt(r: string, m: nat)
    requires m <= |r|
    ensures SIDE_B <= r[m..] <==> Occurs(r, m)
  {
    assert SIDE_B == [' ', 'b', '/'];
    if Occurs(r, m) {
      assert r[m..][..3] == SIDE_B;
    }
  }

  lemma DropPrefix(a: string, b: string)
    ensures (a + b)[|a|..] == b && a <= a + b
  {
  }

  lemma HeaderShape(path: string)
    ensures Header(path) == GIT + (SIDE_A + (path + SIDE_B + path))
  {
    hide GIT, SIDE_A, SIDE_B;
    assert GIT + SIDE_A + path + SIDE_B + path == GIT + (SIDE_A + (path + SIDE_B + path));
  }

  lemma HeaderPathsOf(path: string)
    requires path != ""
    ensures var p := path + SIDE_B + path;
      HeaderPaths(Header(path)) == var k := SplitAt(p, 1); if k == |p| then None else Some((p[..k], p[k + 3..]))
  {
    hide SplitAt, GIT, Header, SIDE_B;
    var p := path + SIDE_B + path;
    HeaderShape(path);
    DropPrefix(GIT, SIDE_A + p);
    DropPrefix(SIDE_A, p);
    assert |SIDE_A| == 2;
  }

  lemma MiddleSide(path: string)
    ensures var p := path + SIDE_B + path;
      |p| == 2 * |path| + 3 && SIDE_B <= p[|path|..] && p[..|path|] == path && p[|path| + 3..] == path
  {
    var p := path + SIDE_B + path;
    assert p[|path|..] == SIDE_B + path;
  }

  lemma WholeHeader(path: string)
    requires path != "" && forall m | 1 <= m < |path| :: !Occurs(path, m)
    ensures HeaderPaths(Header(path)) == Some((path, path))
  {
    var p := path + SIDE_B + path;
    HeaderPathsOf(path);
    MiddleSide(path);
    hide HeaderPaths, Header, SplitAt, Occurs, SIDE_B;
    forall m | 1 <= m < |path| ensures !(SIDE_B <= p[m..]) {
      SideAt(p, m);
      NotStraddling(path, m);
    }
    SplitAtFirst(p, 1, |path|);
  }

  lemma BrokenHeader(path: string, m: nat)
    requires 1 <= m < |path| && Occurs(path, m)
    ensures HeaderPaths(Header(path)).Some? && HeaderPaths(Header(path)).value.0 != HeaderPaths(Header(path)).value.1
  {
    var p := path + SIDE_B + path;
    HeaderPathsOf(path);
    MiddleSide(path);
    assert Occurs(p, m);
    SideAt(p, m);
    hide HeaderPaths, Header, SplitAt, Occurs, SIDE_B;
    SplitBefore(p, 1, m);
    var k := SplitAt(p, 1);
    assert |p[..k]| == k && |p[k + 3..]| == |p| - k - 3;
  }

  /** A git header of one path is read as that path on both sides exactly when " b/" does not occur in it after its
      first character; otherwise it is read as two different paths. */
  lemma HeaderReads(path: string)
    requires path != ""
    ensures HeaderPaths(Header(path)).Some?
    ensures HeaderPaths(Header(path)) == Some((path, path)) <==> forall m | 1 <= m < |path| :: !Occurs(path, m)
    ensures HeaderPaths(Header(path)) != Some((path, path)) ==>
      HeaderPaths(Header(path)).value.0 != HeaderPaths(Header(path)).value.1
  {
    hide HeaderPaths, Header, Occurs;
    if m :| 1 <= m < |path| && Occurs(path, m) {
      BrokenHeader(path, m);
    } else {
      WholeHeader(path);
    }
  }

  lemma NotStraddling(path: string, m: nat)
    requires 1 <= m < |path| && !Occurs(path, m)
    ensures !Occurs(path + SIDE_B + path, m)
  {
    var p := path + SIDE_B + path;
    assert p[|path|] == ' ' && p[|path| + 1] == 'b';
  }

  lemma {:induction false} SplitBefore(r: string, k: nat, n: nat)
    requires k <= n && n + 3 < |r| && SIDE_B <= r[n..]
    ensures SplitAt(r, k) <= n
    decreases n - k
  {
    hide SIDE_B;
    if k < n && !(k + 3 < |r| && SIDE_B <= r[k..]) {
      SplitBefore(r, k + 1, n);
    }
  }

  // ---------- what a rewrite keeps ----------

  /** The line is in a hunk: some line up to it, after the header, starts one. */
  predicate InHunk(sec: seq<Line>, i: nat) { exists j | 1 <= j <= i && j < |sec| :: HUNK <= sec[j].text }

  /** The rewritten section says the same, in the new place: as many lines with the same ends, its header renamed,
      hunks untouched, and before them only the two lines that name the path renamed. */
  predicate SameSection(sec: seq<Line>, image: seq<Line>, path: string, mapped: string) {
    && |image| == |sec| && sec != []
    && image[0] == Line(Header(mapped), true)
    && forall i | 1 <= i < |sec| ::
      image[i] == if InHunk(sec, i) then sec[i] else Line(RenamedLine(sec[i].text, path, mapped), sec[i].ended)
  }

  lemma {:induction false} BodyIs(sec: seq<Line>, i: nat, inHeader: bool, path: string, mapped: string)
    requires 1 <= i <= |sec| && (inHeader <==> !InHunk(sec, i - 1))
    ensures var body := RewriteBody(sec[i..], inHeader, path, mapped);
      body.Some? ==> (
        && |body.value| == |sec| - i
        && forall j | i <= j < |sec| ::
          body.value[j - i] == if InHunk(sec, j) then sec[j] else Line(RenamedLine(sec[j].text, path, mapped), sec[j].ended))
    decreases |sec| - i
  {
    hide Forbidden, RenamedLine, HUNK, RewriteBody;
    if i < |sec| {
      BodyStep(sec, i, inHeader, path, mapped);
      assert InHunk(sec, i) <==> !inHeader || HUNK <= sec[i].text by {
        if j :| 1 <= j <= i && j < |sec| && HUNK <= sec[j].text {
          if j < i {
            assert InHunk(sec, i - 1);
          }
        }
        if j :| 1 <= j <= i - 1 && j < |sec| && HUNK <= sec[j].text {
          assert InHunk(sec, i);
        }
      }
      BodyIs(sec, i + 1, !InHunk(sec, i), path, mapped);
    } else {
      assert RewriteBody(sec[i..], inHeader, path, mapped) == Some([]) by { EmptyBody(sec[i..], inHeader, path, mapped); }
    }
  }

  lemma EmptyBody(lines: seq<Line>, inHeader: bool, path: string, mapped: string)
    requires lines == []
    ensures RewriteBody(lines, inHeader, path, mapped) == Some([])
  {
  }

  /** Every kept section is the same section in the new place. */
  lemma KeptSection(sec: seq<Line>)
    requires RewriteSection(sec).Kept?
    ensures var r := RewriteSection(sec);
      MapPath(r.path).Some? && SameSection(sec, r.lines, r.path, MapPath(r.path).value)
  {
    hide MapPath, RewriteBody, Header, RenamedLine, HeaderPaths, Starts;
    var path := RewriteSection(sec).path;
    var mapped := MapPath(path).value;
    assert !InHunk(sec, 0);
    hide InHunk;
    BodyIs(sec, 1, true, path, mapped);
  }

  function Images(sections: seq<seq<Line>>): seq<seq<Line>> {
    if sections == [] then []
    else (match RewriteSection(sections[0]) case Kept(_, image) => [image] case _ => []) + Images(sections[1..])
  }

  function KeptPaths(sections: seq<seq<Line>>): seq<string> {
    if sections == [] then []
    else (match RewriteSection(sections[0]) case Kept(path, _) => [path] case _ => []) + KeptPaths(sections[1..])
  }

  function SkippedPaths(sections: seq<seq<Line>>): seq<string> {
    if sections == [] then []
    else (match RewriteSection(sections[0]) case Skipped(path) => [path] case _ => []) + SkippedPaths(sections[1..])
  }

  lemma {:induction false} ResultIs(sections: seq<seq<Line>>)
    ensures RewriteAll(sections) ==
      if exists i | 0 <= i < |sections| :: RewriteSection(sections[i]).Refused? then Error
      else Ok(Concat(Images(sections)), SkippedPaths(sections))
    ensures RewriteAll(sections).Ok? ==> |KeptPaths(sections)| + |SkippedPaths(sections)| == |sections|
    ensures |Images(sections)| == |KeptPaths(sections)|
  {
    hide RewriteSection;
    if sections != [] {
      ResultIs(sections[1..]);
      var one, rest := RewriteSection(sections[0]), sections[1..];
      if i :| 0 <= i < |rest| && RewriteSection(rest[i]).Refused? {
        assert sections[i + 1] == rest[i];
      }
      if i :| 0 <= i < |sections| && RewriteSection(sections[i]).Refused? {
        if i > 0 {
          assert rest[i - 1] == sections[i];
        }
      }
      if one.Kept? {
        assert ([one.lines] + Images(rest))[1..] == Images(rest);
      } else {
        assert [] + Images(rest) == Images(rest);
      }
    }
  }

  lemma ImageStarts(sec: seq<Line>)
    requires RewriteSection(sec).Kept? && forall j | 1 <= j < |sec| :: !Starts(sec[j])
    ensures var image := RewriteSection(sec).lines;
      image != [] && Starts(image[0]) && forall j | 1 <= j < |image| :: !Starts(image[j])
  {
    hide Starts, RewriteSection, MapPath, Header, RenamedLine, InHunk;
    KeptSection(sec);
    var r := RewriteSection(sec);
    var mapped := MapPath(r.path).value;
    HeaderStarts(mapped);
    forall j | 1 <= j < |r.lines| ensures !Starts(r.lines[j]) {
      NeverStarts(sec[j], r.path, mapped);
    }
  }

  lemma HeaderStarts(path: string)
    ensures Starts(Line(Header(path), true))
  {
    hide GIT;
    HeaderShape(path);
    DropPrefix(GIT, SIDE_A + (path + SIDE_B + path));
  }

  lemma NeverStarts(l: Line, path: string, mapped: string)
    requires !Starts(l)
    ensures !Starts(Line(RenamedLine(l.text, path, mapped), l.ended))
  {
    assert GIT[0] == 'd' && OLD[0] == '-' && NEW[0] == '+';
  }

  lemma {:induction false} ImagesWellCut(sections: seq<seq<Line>>)
    requires WellCut(sections)
    ensures WellCut(Images(sections))
    ensures forall i | 0 <= i < |Images(sections)| :: Images(sections)[i] != [] && Starts(Images(sections)[i][0])
  {
    hide Starts, RewriteSection;
    if sections != [] {
      var first, rest := sections[0], sections[1..];
      assert WellCut(rest);
      ImagesWellCut(rest);
      if RewriteSection(first).Kept? {
        ImageStarts(first);
      }
    }
  }

  /** Main result: the rewriter refuses the patch when some section is refused; otherwise its output, cut into sections
      again, is exactly the vendored sections in order, each the same section in its new place, and every section's
      path is either kept or reported as skipped. */
  lemma RewriteKeepsSections(lines: seq<Line>)
    ensures var sections := Sections(lines);
      && (Rewrite(lines).Error? <==> exists i | 0 <= i < |sections| :: RewriteSection(sections[i]).Refused?)
      && (Rewrite(lines).Ok? ==>
        && Sections(Rewrite(lines).lines) == Images(sections)
        && Rewrite(lines).skipped == SkippedPaths(sections)
        && |KeptPaths(sections)| + |SkippedPaths(sections)| == |sections|)
      && forall i | 0 <= i < |sections| && RewriteSection(sections[i]).Kept? ::
          var r := RewriteSection(sections[i]);
          MapPath(r.path).Some? && SameSection(sections[i], r.lines, r.path, MapPath(r.path).value)
  {
    var sections := Sections(lines);
    SectionsAre(lines);
    ResultIs(sections);
    ImagesWellCut(sections);
    CutOfConcat(Images(sections));
    hide RewriteSection, Sections, Images, SameSection, MapPath, WellCut, Starts;
    forall i | 0 <= i < |sections| && RewriteSection(sections[i]).Kept?
      ensures var r := RewriteSection(sections[i]);
        MapPath(r.path).Some? && SameSection(sections[i], r.lines, r.path, MapPath(r.path).value)
    {
      KeptSection(sections[i]);
    }
  }
}
