/** The rewriter of tools/sync_upstream.py in literal terms: paths, header lines and refusals. */
module PatchMeaning {
  import opened Patch

  // ---------- paths ----------

  lemma {:induction false} SlashAfter(module_: string, rest: string)
    requires '/' !in module_ && rest != "" && rest[0] == '/'
    ensures SlashAt(module_ + rest) == |module_|
  {
    if module_ == "" {
      assert module_ + rest == rest;
    } else {
      assert (module_ + rest)[1..] == module_[1..] + rest && module_[0] in module_;
      SlashAfter(module_[1..], rest);
    }
  }

  lemma {:induction false} BeforeSlash(s: string)
    ensures '/' !in s[..SlashAt(s)] && (SlashAt(s) < |s| ==> s[SlashAt(s)] == '/')
  {
    if s != "" && s[0] != '/' {
      BeforeSlash(s[1..]);
      assert s[..SlashAt(s)] == [s[0]] + s[1..][..SlashAt(s[1..])];
    }
  }

  lemma Apart(rest: string)
    ensures !(EXCLUDED <= DATATESTS + rest) && !(EXCLUDED <= PROCESSORS + rest) && !(DATATESTS <= PROCESSORS + rest)
  {
    assert EXCLUDED[41] == 'z' && |EXCLUDED| == 46 && DATATESTS[41] == 'd' && |DATATESTS| == 51;
    assert EXCLUDED[7] == 'F' && DATATESTS[7] == 'F' && PROCESSORS[7] == 'P' && |PROCESSORS| == 18;
    assert (DATATESTS + rest)[41] == 'd' && (PROCESSORS + rest)[7] == 'P';
  }

  /** The datatests go to tests/datatests/. */
  lemma DatatestVendored(rest: string)
    ensures MapPath("Ghidra/Features/Decompiler/src/decompile/datatests/" + rest) == Some("tests/datatests/" + rest)
  {
    Apart(rest);
    var up := DATATESTS + rest;
    DropPrefix(DATATESTS, rest);
    assert DATATESTS == "Ghidra/Features/Decompiler/src/decompile/datatests/" && DATATESTS_HERE == "tests/datatests/";
    hide DATATESTS, EXCLUDED, PROCESSORS, DATATESTS_HERE, LANGUAGES, SPECS, SlashAt;
  }

  /** The language files of every processor module go, whole, under specs/. */
  lemma LanguageVendored(module_: string, rest: string)
    requires '/' !in module_
    ensures var up := "Ghidra/Processors/" + (module_ + ("/data/languages/" + rest)); MapPath(up) == Some("specs/" + up)
  {
    var tail := LANGUAGES + rest;
    var inner := module_ + tail;
    var up := PROCESSORS + inner;
    Apart(inner);
    assert LANGUAGES[0] == '/';
    SlashAfter(module_, tail);
    DropPrefix(PROCESSORS, inner);
    DropPrefix(LANGUAGES, rest);
    assert inner[|module_|..] == tail;
    assert PROCESSORS == "Ghidra/Processors/" && LANGUAGES == "/data/languages/" && SPECS == "specs/";
    hide DATATESTS, EXCLUDED, PROCESSORS, DATATESTS_HERE, LANGUAGES, SPECS, SlashAt;
    assert MapPath(up).Some?;
    MapPathShape(up);
  }

  /** Nothing else is vendored. */
  lemma OnlyThoseVendored(up: string)
    requires MapPath(up).Some?
    ensures (exists rest :: up == "Ghidra/Features/Decompiler/src/decompile/datatests/" + rest)
      || exists module_, rest :: '/' !in module_ && up == "Ghidra/Processors/" + (module_ + ("/data/languages/" + rest))
  {
    assert DATATESTS == "Ghidra/Features/Decompiler/src/decompile/datatests/";
    assert PROCESSORS == "Ghidra/Processors/" && LANGUAGES == "/data/languages/";
    hide DATATESTS, EXCLUDED, PROCESSORS, DATATESTS_HERE, LANGUAGES, SPECS, SlashAt;
    if DATATESTS <= up {
      assert up == DATATESTS + up[|DATATESTS|..];
    } else {
      ProcessorPath(up);
    }
  }

  lemma ProcessorPath(up: string)
    requires MapPath(up).Some? && !(DATATESTS <= up)
    ensures exists module_, rest :: '/' !in module_ && up == PROCESSORS + (module_ + (LANGUAGES + rest))
  {
    hide DATATESTS, EXCLUDED, PROCESSORS, DATATESTS_HERE, LANGUAGES, SPECS, SlashAt;
    var inner := up[|PROCESSORS|..];
    var k := SlashAt(inner);
    BeforeSlash(inner);
    var rest := inner[k..][|LANGUAGES|..];
    assert inner[k..] == LANGUAGES + rest;
    Rejoined(inner, k);
    Rejoined(up, |PROCESSORS|);
    assert up[..|PROCESSORS|] == PROCESSORS;
    assert inner == inner[..k] + (LANGUAGES + rest);
  }

  lemma Rejoined(s: string, k: nat)
    requires k <= |s|
    ensures s == s[..k] + s[k..]
  {
  }

  // ---------- lines ----------

  /** The two lines that name the section's path name the new one; every other line, those of /dev/null among
      them, stays. */
  lemma RenamedLines(s: string, path: string, mapped: string)
    requires path != ""
    ensures RenamedLine("--- a/" + path, path, mapped) == "--- a/" + mapped
    ensures RenamedLine("+++ b/" + path, path, mapped) == "+++ b/" + mapped
    ensures s != "--- a/" + path && s != "+++ b/" + path ==> RenamedLine(s, path, mapped) == s
    ensures RenamedLine("--- /dev/null", path, mapped) == "--- /dev/null"
    ensures RenamedLine("+++ /dev/null", path, mapped) == "+++ /dev/null"
  {
    assert OLD == "--- a/" && NEW == "+++ b/";
    assert OLD[0] == '-' && NEW[0] == '+';
    DropPrefix(OLD, path);
    DropPrefix(NEW, path);
    assert OLD <= s ==> s == OLD + s[|OLD|..];
    assert NEW <= s ==> s == NEW + s[|NEW|..];
    assert "--- /dev/null"[4] == '/' && OLD[4] == 'a' && "+++ /dev/null"[4] == '/' && NEW[4] == 'b';
  }

  /** Some line up to this one, after the header, starts a hunk. */
  ghost predicate Inside(sec: seq<Line>, i: nat) { exists j | 1 <= j <= i && j < |sec| :: "@@ " <= sec[j].text }

  lemma InsideIs(sec: seq<Line>, i: nat)
    ensures Inside(sec, i) <==> InHunk(sec, i)
  {
    assert HUNK == "@@ ";
    hide HUNK;
  }

  lemma HeaderIs(path: string)
    ensures Header(path) == "diff --git a/" + path + " b/" + path
  {
    assert GIT + SIDE_A == "diff --git " + "a/" == "diff --git a/" && SIDE_B == " b/";
    hide GIT, SIDE_A, SIDE_B;
  }

  lemma PathsAreNotEmpty(head: string)
    requires GIT <= head && HeaderPaths(head).Some?
    ensures HeaderPaths(head).value.0 != ""
  {
    hide GIT, SIDE_A, SIDE_B;
  }

  lemma KeptPathIs(sec: seq<Line>)
    requires RewriteSection(sec).Kept?
    ensures RewriteSection(sec).path != ""
  {
    PathsAreNotEmpty(sec[0].text);
    hide HeaderPaths, MapPath, RewriteBody, Header, GIT;
  }

  /** A kept section line by line: its git header names the new path on both sides, the two lines with the old path before
      the first hunk name the new one, and every other line is as it was. */
  lemma KeptLines(sec: seq<Line>)
    requires RewriteSection(sec).Kept?
    ensures var path, image := RewriteSection(sec).path, RewriteSection(sec).lines;
      && MapPath(path).Some? && |image| == |sec|
      && image[0].text == "diff --git a/" + MapPath(path).value + " b/" + MapPath(path).value
      && forall i | 1 <= i < |sec| ::
           && image[i].ended == sec[i].ended
           && image[i].text ==
                if !Inside(sec, i) && sec[i].text == "--- a/" + path then "--- a/" + MapPath(path).value
                else if !Inside(sec, i) && sec[i].text == "+++ b/" + path then "+++ b/" + MapPath(path).value
                else sec[i].text
  {
    KeptSection(sec);
    KeptPathIs(sec);
    var path, image := RewriteSection(sec).path, RewriteSection(sec).lines;
    var mapped := MapPath(path).value;
    HeaderIs(mapped);
    hide RewriteSection, MapPath, Header, RenamedLine, InHunk, Inside;
    forall i | 1 <= i < |sec|
      ensures image[i].ended == sec[i].ended && image[i].text ==
                if !Inside(sec, i) && sec[i].text == "--- a/" + path then "--- a/" + mapped
                else if !Inside(sec, i) && sec[i].text == "+++ b/" + path then "+++ b/" + mapped
                else sec[i].text
    {
      InsideIs(sec, i);
      RenamedLines(sec[i].text, path, mapped);
    }
  }

  // ---------- refusals ----------

  /** A line that a text diff without renames can not have before its hunks. */
  predicate Marker(s: string) {
    "rename from " <= s || "rename to " <= s || "copy from " <= s || "copy to " <= s || "similarity index " <= s
    || "Binary files " <= s || "GIT binary patch" <= s
  }

  lemma ForbiddenIs(s: string)
    ensures Forbidden(s) <==> Marker(s)
  {
    assert FORBIDDEN[0] == "rename from " && FORBIDDEN[1] == "rename to " && FORBIDDEN[2] == "copy from ";
    assert FORBIDDEN[3] == "copy to " && FORBIDDEN[4] == "similarity index " && FORBIDDEN[5] == "Binary files ";
    assert FORBIDDEN[6] == "GIT binary patch" && |FORBIDDEN| == 7;
    hide FORBIDDEN;
  }

  lemma {:induction false} BodyRefused(sec: seq<Line>, i: nat, inHeader: bool, path: string, mapped: string)
    requires 1 <= i <= |sec| && (inHeader <==> !InHunk(sec, i - 1))
    ensures RewriteBody(sec[i..], inHeader, path, mapped).None? <==>
      exists j | i <= j < |sec| :: !InHunk(sec, j) && Forbidden(sec[j].text)
    decreases |sec| - i
  {
    hide Forbidden, RenamedLine, RewriteBody;
    if i < |sec| {
      BodyStep(sec, i, inHeader, path, mapped);
      HunkStep(sec, i);
      hide HUNK, InHunk;
      BodyRefused(sec, i + 1, !InHunk(sec, i), path, mapped);
    } else {
      EmptyBody(sec[i..], inHeader, path, mapped);
    }
  }

  lemma HunkStep(sec: seq<Line>, i: nat)
    requires 1 <= i < |sec|
    ensures InHunk(sec, i) <==> InHunk(sec, i - 1) || HUNK <= sec[i].text
  {
    hide HUNK;
    if j :| 1 <= j <= i && j < |sec| && HUNK <= sec[j].text {
      if j < i {
        assert InHunk(sec, i - 1);
      }
    }
    if InHunk(sec, i - 1) {
      var j :| 1 <= j <= i - 1 && j < |sec| && HUNK <= sec[j].text;
      assert InHunk(sec, i);
    }
  }

  /** A section of one path is skipped when the path is not vendored; it is refused when it is vendored and a marker
      stands before its first hunk, and only then; otherwise it is kept. */
  lemma SectionOutcome(sec: seq<Line>, path: string)
    requires sec != [] && path != "" && sec[0].text == "diff --git a/" + path + " b/" + path
    requires forall m | 1 <= m < |path| :: !Occurs(path, m)
    ensures RewriteSection(sec) == Skipped(path) <==> MapPath(path).None?
    ensures RewriteSection(sec).Refused? <==>
      MapPath(path).Some? && exists j | 1 <= j < |sec| :: !Inside(sec, j) && Marker(sec[j].text)
    ensures RewriteSection(sec).Kept? ==> RewriteSection(sec).path == path
  {
    HeaderIs(path);
    HeaderReads(path);
    HeaderStarts(path);
    assert Starts(sec[0]);
    hide HeaderPaths, Header, Occurs, Starts, RewriteBody, Inside, InHunk, Forbidden, Marker;
    assert HeaderPaths(sec[0].text) == Some((path, path));
    if MapPath(path).Some? {
      assert !InHunk(sec, 0) by { NoHunkAtHeader(sec); }
      BodyRefused(sec, 1, true, path, MapPath(path).value);
      hide MapPath;
      forall j | 1 <= j < |sec| ensures !Inside(sec, j) && Marker(sec[j].text) <==> !InHunk(sec, j) && Forbidden(sec[j].text) {
        InsideIs(sec, j);
        ForbiddenIs(sec[j].text);
      }
    }
  }

  lemma NoHunkAtHeader(sec: seq<Line>)
    ensures !InHunk(sec, 0)
  {
  }

  /** A section whose header is no git header, or names two paths, is refused. */
  lemma OddHeaderRefused(sec: seq<Line>)
    requires sec != [] && !("diff --git a/" <= sec[0].text)
    ensures RewriteSection(sec).Refused?
  {
    assert GIT == "diff --git " && SIDE_A == "a/";
    assert "diff --git " + "a/" == "diff --git a/";
    hide MapPath, RewriteBody, SplitAt;
  }
}
