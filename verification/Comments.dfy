/** The Rust comment stripper of tools/comment_diff_check.py: one lexeme at a time, and what inserting
    a comment does to the result. */
module Comments {
  import NeedValues

  // ---------- lexemes ----------

  /** Characters before the end of the line. */
  function LineLength(s: string): (n: nat)
    ensures n <= |s|
  {
    if s == "" || s[0] == '\n' then 0 else 1 + LineLength(s[1..])
  }

  predicate Two(s: string, a: char, b: char) { |s| >= 2 && s[0] == a && s[1] == b }

  /** Characters up to where the nesting depth falls to 0, or all of them. */
  function BlockLength(s: string, depth: nat): (n: nat)
    ensures n <= |s|
  {
    if s == "" || depth == 0 then 0
    else if Two(s, '/', '*') then 2 + BlockLength(s[2..], depth + 1)
    else if Two(s, '*', '/') then 2 + BlockLength(s[2..], depth - 1)
    else 1 + BlockLength(s[1..], depth)
  }

  function Hashes(s: string): (n: nat)
    ensures n <= |s|
  {
    if s != "" && s[0] == '#' then 1 + Hashes(s[1..]) else 0
  }

  /** b?r(#*)" at the start: the number of characters before the hashes, or 0 if there is no raw string here. */
  function RawPrefix(s: string): (n: nat)
    ensures n <= |s|
  {
    var n := if Two(s, 'b', 'r') then 2 else if s != "" && s[0] == 'r' then 1 else 0;
    if n == 0 then 0
    else
      var h := Hashes(s[n..]);
      if n + h < |s| && s[n + h] == '"' then n else 0
  }

  /** Characters up to and with a quote followed by the hashes, or all of them. */
  function RawLength(s: string, hashes: nat): (n: nat)
    ensures n <= |s|
  {
    if s == "" then 0
    else if s[0] == '"' && Hashes(s[1..]) >= hashes then 1 + hashes
    else 1 + RawLength(s[1..], hashes)
  }

  /** Characters up to and with the closing quote, or all of them. */
  function StringLength(s: string): (n: nat)
    ensures n <= |s|
  {
    if s == "" then 0
    else if s[0] == '\\' then if |s| == 1 then 1 else 2 + StringLength(s[2..])
    else if s[0] == '"' then 1
    else 1 + StringLength(s[1..])
  }

  /** Characters before the first tick, |s| when there is none. */
  function TickAt(s: string): (n: nat)
    ensures n <= |s| && (n < |s| ==> s[n] == '\'')
  {
    if s == "" || s[0] == '\'' then 0 else 1 + TickAt(s[1..])
  }

  /** '(\\.[^']*|[^\\'])' at the start: its length, or 0. */
  function CharLength(s: string): (n: nat)
    ensures n <= |s|
  {
    if |s| < 3 || s[0] != '\'' then 0
    else if s[1] == '\\' then
      if s[2] == '\n' then 0
      else
        var k := TickAt(s[3..]);
        if 3 + k < |s| then 4 + k else 0
    else if s[1] != '\'' && s[2] == '\'' then 3
    else 0
  }

  /** The lexeme at the start of s: its length, and whether it is kept. */
  datatype Lexeme = Lexeme(length: nat, kept: bool)

  function Next(s: string): (t: Lexeme)
    requires s != ""
    ensures 1 <= t.length <= |s|
  {
    if Two(s, '/', '/') then Lexeme(2 + LineLength(s[2..]), false)
    else if Two(s, '/', '*') then Lexeme(2 + BlockLength(s[2..], 1), false)
    else if RawPrefix(s) > 0 then
      var open := RawPrefix(s) + Hashes(s[RawPrefix(s)..]) + 1;
      Lexeme(open + RawLength(s[open..], Hashes(s[RawPrefix(s)..])), true)
    else if s[0] == '"' then Lexeme(1 + StringLength(s[1..]), true)
    else if Two(s, 'b', '"') then Lexeme(2 + StringLength(s[2..]), true)
    else if CharLength(s) > 0 then Lexeme(CharLength(s), true)
    else Lexeme(1, true)
  }

  /** What the scan puts out, before white space is folded. */
  function Kept(s: string): string
    decreases |s|
  {
    if s == "" then ""
    else
      var t := Next(s);
      (if t.kept then s[..t.length] else "") + Kept(s[t.length..])
  }

  function DropSpaces(s: string): (r: string)
    ensures |r| <= |s|
  {
    if s != "" && NeedValues.IsSpace(s[0]) then DropSpaces(s[1..]) else s
  }

  /** re.sub(r"\s+", " ", s) */
  function Collapse(s: string): string
    decreases |s|
  {
    if s == "" then ""
    else if NeedValues.IsSpace(s[0]) then " " + Collapse(DropSpaces(s[1..]))
    else [s[0]] + Collapse(s[1..])
  }

  function StripComments(src: string): string { NeedValues.Strip(Collapse(Kept(src))) }

  // ---------- the code ----------

  method SkipBlock(src: string, start: nat) returns (i: nat)
    requires start + 2 <= |src|
    ensures i == start + 2 + BlockLength(src[start + 2..], 1)
  {
    var depth := 1;
    i := start + 2;
    while i < |src| && depth > 0
      invariant i <= |src|
      invariant i + BlockLength(src[i..], depth) == start + 2 + BlockLength(src[start + 2..], 1)
      decreases |src| - i
    {
      assert src[i..][1..] == src[i + 1..];
      if i + 1 < |src| {
        assert src[i..][2..] == src[i + 2..];
      }
      if i + 1 < |src| && src[i] == '/' && src[i + 1] == '*' {
        depth, i := depth + 1, i + 2;
      } else if i + 1 < |src| && src[i] == '*' && src[i + 1] == '/' {
        depth, i := depth - 1, i + 2;
      } else {
        i := i + 1;
      }
    }
  }

  method SkipString(src: string, first: nat) returns (i: nat)
    requires first <= |src|
    ensures i == first + StringLength(src[first..])
  {
    i := first;
    while i < |src|
      invariant i <= |src|
      invariant i + StringLength(src[i..]) == first + StringLength(src[first..])
    {
      assert src[i..][1..] == src[i + 1..];
      if src[i] == '\\' {
        if i + 1 == |src| {
          return i + 1;
        }
        assert src[i..][2..] == src[i + 2..];
        i := i + 2;
      } else if src[i] == '"' {
        return i + 1;
      } else {
        i := i + 1;
      }
    }
  }

  method OneLexeme(src: string, i: nat) returns (j: nat, kept: bool)
    requires i < |src|
    ensures i < j <= |src| && Lexeme(j - i, kept) == Next(src[i..])
  {
    hide BlockLength, StringLength, LineLength, Hashes, RawLength, TickAt, CharLength, RawPrefix;
    var s := src[i..];
    var nxt := if i + 1 < |src| then src[i + 1] else '\0';
    assert |s| >= 2 ==> s[1] == nxt && s[2..] == src[i + 2..];
    if src[i] == '/' && i + 1 < |src| && nxt == '/' {
      j, kept := i + 2 + LineLength(src[i + 2..]), false;
    } else if src[i] == '/' && i + 1 < |src| && nxt == '*' {
      j := SkipBlock(src, i);
      kept := false;
    } else if RawPrefix(s) > 0 {
      var open := RawPrefix(s) + Hashes(s[RawPrefix(s)..]) + 1;
      RawOpenFits(s);
      j, kept := i + open + RawLength(s[open..], Hashes(s[RawPrefix(s)..])), true;
    } else if src[i] == '"' {
      assert s[1..] == src[i + 1..];
      j := SkipString(src, i + 1);
      kept := true;
    } else if src[i] == 'b' && i + 1 < |src| && nxt == '"' {
      j := SkipString(src, i + 2);
      kept := true;
    } else if CharLength(s) > 0 {
      j, kept := i + CharLength(s), true;
    } else {
      j, kept := i + 1, true;
    }
  }

  lemma RawOpenFits(s: string)
    requires RawPrefix(s) > 0
    ensures RawPrefix(s) + Hashes(s[RawPrefix(s)..]) + 1 <= |s|
  {
  }

  /** One lexeme further. */
  lemma KeptAt(src: string, i: nat)
    requires i < |src|
    ensures var t := Next(src[i..]);
      Kept(src[i..]) == (if t.kept then src[i..i + t.length] else "") + Kept(src[i + t.length..])
  {
    hide Next;
    var n := Next(src[i..]).length;
    assert src[i..][..n] == src[i..i + n] && src[i..][n..] == src[i + n..];
  }

  lemma KeptNothing()
    ensures Kept("") == ""
  {
  }

  lemma Regroup(a: string, b: string, c: string)
    ensures a + (b + c) == (a + b) + c
  {
  }

  method StripLoop(src: string) returns (r: string)
    ensures r == StripComments(src)
  {
    hide NeedValues.Strip, Collapse, Next, Kept;
    var out, i := "", 0;
    while i < |src|
      invariant i <= |src| && out + Kept(src[i..]) == Kept(src)
      decreases |src| - i
    {
      var j, kept := OneLexeme(src, i);
      KeptAt(src, i);
      Regroup(out, if kept then src[i..j] else "", Kept(src[j..]));
      assert out + "" == out;
      if kept {
        out := out + src[i..j];
      }
      i := j;
    }
    assert src[i..] == "" && Kept("") == "" && out + "" == out by { KeptNothing(); }
    r := NeedValues.Strip(Collapse(out));
  }

  // ---------- a lexeme depends on nothing after it ----------

  lemma {:induction false} LineLocal(u: string, x: string, y: string)
    requires LineLength(u + x) <= |u| && LineLength(u + y) <= |u|
    ensures LineLength(u + x) == LineLength(u + y)
  {
    if u != "" {
      assert (u + x)[1..] == u[1..] + x && (u + y)[1..] == u[1..] + y;
      if u[0] != '\n' {
        LineLocal(u[1..], x, y);
      }
    }
  }

  lemma {:induction false} BlockLocal(u: string, x: string, y: string, depth: nat)
    requires BlockLength(u + x, depth) <= |u| && BlockLength(u + y, depth) <= |u|
    ensures BlockLength(u + x, depth) == BlockLength(u + y, depth)
    decreases |u|
  {
    if u != "" && depth > 0 {
      assert (u + x)[1..] == u[1..] + x && (u + y)[1..] == u[1..] + y;
      if |u| >= 2 {
        assert (u + x)[2..] == u[2..] + x && (u + y)[2..] == u[2..] + y;
      }
      if Two(u, '/', '*') {
        BlockLocal(u[2..], x, y, depth + 1);
      } else if Two(u, '*', '/') {
        BlockLocal(u[2..], x, y, depth - 1);
      } else {
        BlockLocal(u[1..], x, y, depth);
      }
    }
  }

  lemma {:induction false} StringLocal(u: string, x: string, y: string)
    requires StringLength(u + x) <= |u| && StringLength(u + y) <= |u|
    ensures StringLength(u + x) == StringLength(u + y)
    decreases |u|
  {
    if u != "" {
      assert (u + x)[1..] == u[1..] + x && (u + y)[1..] == u[1..] + y;
      if |u| >= 2 {
        assert (u + x)[2..] == u[2..] + x && (u + y)[2..] == u[2..] + y;
      }
      if u[0] == '\\' {
        if |u| >= 2 {
          StringLocal(u[2..], x, y);
        }
      } else if u[0] != '"' {
        StringLocal(u[1..], x, y);
      }
    }
  }

  /** The first n hashes are in u, so they are there whatever follows. */
  lemma {:induction false} HashesLocal(u: string, x: string, y: string, n: nat)
    requires n <= |u| && Hashes(u + x) >= n
    ensures Hashes(u + y) >= n
  {
    if n > 0 {
      assert (u + x)[1..] == u[1..] + x && (u + y)[1..] == u[1..] + y;
      HashesLocal(u[1..], x, y, n - 1);
    }
  }

  /** Hashes that end before u does. */
  lemma {:induction false} HashesEndIn(u: string, x: string, y: string)
    requires Hashes(u + x) < |u|
    ensures Hashes(u + y) == Hashes(u + x)
  {
    assert (u + x)[1..] == u[1..] + x && (u + y)[1..] == u[1..] + y;
    if u[0] == '#' {
      HashesEndIn(u[1..], x, y);
    }
  }

  lemma {:induction false} RawLocal(u: string, x: string, y: string, hashes: nat)
    requires RawLength(u + x, hashes) <= |u| && RawLength(u + y, hashes) <= |u|
    ensures RawLength(u + x, hashes) == RawLength(u + y, hashes)
    decreases |u|
  {
    if u != "" {
      assert (u + x)[1..] == u[1..] + x && (u + y)[1..] == u[1..] + y;
      if u[0] == '"' && Hashes(u[1..] + x) >= hashes {
        HashesLocal(u[1..], x, y, hashes);
      } else if u[0] == '"' && Hashes(u[1..] + y) >= hashes {
        HashesLocal(u[1..], y, x, hashes);
      } else {
        RawLocal(u[1..], x, y, hashes);
      }
    }
  }

  lemma {:induction false} TickLocal(u: string, x: string, y: string)
    requires TickAt(u + x) < |u|
    ensures TickAt(u + y) == TickAt(u + x)
  {
    assert (u + x)[1..] == u[1..] + x && (u + y)[1..] == u[1..] + y;
    if u[0] != '\'' {
      TickLocal(u[1..], x, y);
    }
  }

  lemma CharLocal(u: string, x: string, y: string)
    requires 0 < CharLength(u + x) <= |u|
    ensures CharLength(u + y) == CharLength(u + x)
  {
    if u[1] == '\\' {
      assert (u + x)[3..] == u[3..] + x && (u + y)[3..] == u[3..] + y;
      TickLocal(u[3..], x, y);
    }
  }

  /** The opener of a raw string, if it lies in u. */
  lemma RawPrefixLocal(u: string, x: string, y: string)
    requires var n := RawPrefix(u + x); n > 0 && n + Hashes((u + x)[n..]) + 1 <= |u|
    ensures var n := RawPrefix(u + x); RawPrefix(u + y) == n && Hashes((u + y)[n..]) == Hashes((u + x)[n..])
  {
    var n := RawPrefix(u + x);
    assert n <= 2 && n < |u| && (u + x)[0] == u[0] && (u + y)[0] == u[0];
    assert n == 2 ==> (u + x)[1] == u[1] && (u + y)[1] == u[1];
    assert (u + x)[n..] == u[n..] + x && (u + y)[n..] == u[n..] + y;
    HashesEndIn(u[n..], x, y);
    hide Hashes;
    var h := Hashes((u + x)[n..]);
    assert (u + x)[n + h] == u[n + h] == (u + y)[n + h];
  }

  lemma RawNext(s: string)
    requires RawPrefix(s) > 0
    ensures s != ""
    ensures var open := RawPrefix(s) + Hashes(s[RawPrefix(s)..]) + 1;
      open <= |s| && Next(s) == Lexeme(open + RawLength(s[open..], Hashes(s[RawPrefix(s)..])), true)
  {
    RawStart(s);
    assert !Two(s, '/', '/') && !Two(s, '/', '*');
    hide Hashes, RawLength, CharLength;
  }

  lemma RawLexemeLocal(u: string, x: string, y: string)
    requires u != "" && RawPrefix(u + x) > 0 && !Two(u, '/', '/') && !Two(u, '/', '*')
    requires Next(u + x).length <= |u| && Next(u + y).length <= |u|
    ensures Next(u + x) == Next(u + y)
  {
    hide *;
    RawNext(u + x);
    RawPrefixLocal(u, x, y);
    RawNext(u + y);
    var n := RawPrefix(u + x);
    var h := Hashes((u + x)[n..]);
    var open := n + h + 1;
    assert (u + x)[open..] == u[open..] + x && (u + y)[open..] == u[open..] + y;
    RawLocal(u[open..], x, y, h);
  }

  lemma RawStart(s: string)
    requires RawPrefix(s) > 0
    ensures s != "" && (s[0] == 'r' || s[0] == 'b')
  {
  }

  /** If the first lexeme ends within u both before x and before y, it is the same lexeme. */
  lemma LexemeLocal(u: string, x: string, y: string)
    requires u != "" && Next(u + x).length <= |u| && Next(u + y).length <= |u|
    ensures Next(u + x) == Next(u + y)
  {
    assert (u + x)[1..] == u[1..] + x && (u + y)[1..] == u[1..] + y;
    if RawPrefix(u + x) > 0 {
      RawStart(u + x);
      RawLexemeLocal(u, x, y);
    } else if RawPrefix(u + y) > 0 {
      RawStart(u + y);
      RawLexemeLocal(u, y, x);
    } else {
      hide RawPrefix, Hashes, RawLength;
      if |u| >= 2 {
        assert (u + x)[2..] == u[2..] + x && (u + y)[2..] == u[2..] + y;
        PlainLexemeLocal(u, x, y);
      } else {
        ShortLexeme(u + x);
        ShortLexeme(u + y);
      }
    }
  }

  lemma ShortLexeme(s: string)
    requires s != "" && RawPrefix(s) == 0 && Next(s).length == 1
    ensures Next(s).kept
  {
    hide RawPrefix, Hashes, RawLength;
  }

  lemma PlainLexemeLocal(u: string, x: string, y: string)
    requires |u| >= 2 && RawPrefix(u + x) == 0 && RawPrefix(u + y) == 0
    requires Next(u + x).length <= |u| && Next(u + y).length <= |u|
    ensures Next(u + x) == Next(u + y)
  {
    hide RawPrefix, Hashes, RawLength, LineLength, BlockLength, StringLength, CharLength;
    assert (u + x)[1..] == u[1..] + x && (u + y)[1..] == u[1..] + y;
    assert (u + x)[2..] == u[2..] + x && (u + y)[2..] == u[2..] + y;
    if Two(u, '/', '/') {
      LineLocal(u[2..], x, y);
    } else if Two(u, '/', '*') {
      BlockLocal(u[2..], x, y, 1);
    } else if u[0] == '"' {
      StringLocal(u[1..], x, y);
    } else if Two(u, 'b', '"') {
      StringLocal(u[2..], x, y);
    } else if CharLength(u + x) > 0 {
      CharLocal(u, x, y);
    } else if CharLength(u + y) > 0 {
      CharLocal(u, y, x);
    }
  }

  // ---------- lexeme boundaries ----------

  /** The scan of s comes to position k between two lexemes. */
  predicate Boundary(s: string, k: nat)
    decreases |s|
  {
    k == 0 || (s != "" && Next(s).length <= k && Boundary(s[Next(s).length..], k - Next(s).length))
  }

  /** What has been put out by then. */
  function Head(s: string, k: nat): string
    requires Boundary(s, k)
    decreases |s|
  {
    if k == 0 then ""
    else
      var t := Next(s);
      (if t.kept then s[..t.length] else "") + Head(s[t.length..], k - t.length)
  }

  lemma {:induction false} KeptSplits(s: string, k: nat)
    requires Boundary(s, k)
    ensures k <= |s| && Kept(s) == Head(s, k) + Kept(s[k..])
    decreases |s|
  {
    hide Next;
    if k == 0 {
      assert s[0..] == s;
    } else {
      var t := Next(s);
      var rest := s[t.length..];
      KeptSplits(rest, k - t.length);
      assert rest[k - t.length..] == s[k..];
      var first := if t.kept then s[..t.length] else "";
      assert Kept(s) == first + Kept(rest) && Head(s, k) == first + Head(rest, k - t.length);
      Regroup(first, Head(rest, k - t.length), Kept(s[k..]));
    }
  }

  lemma {:induction false} SameHead(p: string, x: string, y: string)
    requires Boundary(p + x, |p|) && Boundary(p + y, |p|)
    ensures Head(p + x, |p|) == Head(p + y, |p|)
    decreases |p|
  {
    hide Next;
    if p != "" {
      var n := Next(p + x).length;
      LexemeLocal(p, x, y);
      assert (p + x)[n..] == p[n..] + x && (p + y)[n..] == p[n..] + y;
      assert (p + x)[..n] == (p + y)[..n];
      SameHead(p[n..], x, y);
    }
  }

  /** What follows a common boundary decides, alone, whether the results agree. */
  lemma SameResultFrom(p: string, x: string, y: string)
    requires Boundary(p + x, |p|) && Boundary(p + y, |p|)
    ensures Kept(p + x) == Kept(p + y) <==> Kept(x) == Kept(y)
  {
    KeptSplits(p + x, |p|);
    KeptSplits(p + y, |p|);
    SameHead(p, x, y);
    assert (p + x)[|p|..] == x && (p + y)[|p|..] == y;
    var h := Head(p + x, |p|);
    assert Kept(x) == (h + Kept(x))[|h|..] && Kept(y) == (h + Kept(y))[|h|..];
    hide Kept, Head;
  }

  // ---------- block comments ----------

  /** The depth after s, from the given depth; -1 if it falls to 0 before the end. */
  function DepthAfter(s: string, depth: nat): int
    requires depth > 0
  {
    if s == "" then depth
    else if Two(s, '/', '*') then DepthAfter(s[2..], depth + 1)
    else if Two(s, '*', '/') then if depth == 1 then if |s| == 2 then 0 else -1 else DepthAfter(s[2..], depth - 1)
    else DepthAfter(s[1..], depth)
  }

  /** A balanced nested block comment: its own opener is closed by its last two characters. */
  predicate BlockComment(c: string) { Two(c, '/', '*') && DepthAfter(c[2..], 1) == 0 }

  lemma {:induction false} ClosedLength(s: string, depth: nat, rest: string)
    requires depth > 0 && DepthAfter(s, depth) == 0
    ensures BlockLength(s + rest, depth) == |s|
    decreases |s|
  {
    assert (s + rest)[1..] == s[1..] + rest;
    if |s| >= 2 {
      assert (s + rest)[2..] == s[2..] + rest;
    }
    if Two(s, '/', '*') {
      ClosedLength(s[2..], depth + 1, rest);
    } else if Two(s, '*', '/') {
      if depth > 1 {
        ClosedLength(s[2..], depth - 1, rest);
      } else {
        assert s[2..] == "";
      }
    } else {
      NotStraddled(s, depth);
      ClosedLength(s[1..], depth, rest);
    }
  }

  /** A closed rest is at least two characters long. */
  lemma NotStraddled(s: string, depth: nat)
    requires depth > 0 && s != "" && DepthAfter(s, depth) == 0
    ensures |s| >= 2
  {
    if |s| == 1 {
      assert s[1..] == "";
    }
  }

  lemma {:induction false} ClosedWithin(s: string, rest: string, inner: nat, outer: nat)
    requires inner > 0 && outer > 0 && DepthAfter(s, inner) == 0
    ensures DepthAfter(s + rest, inner + outer) == DepthAfter(rest, outer)
    decreases |s|
  {
    assert (s + rest)[1..] == s[1..] + rest;
    if |s| >= 2 {
      assert (s + rest)[2..] == s[2..] + rest;
    }
    if Two(s, '/', '*') {
      ClosedWithin(s[2..], rest, inner + 1, outer);
    } else if Two(s, '*', '/') {
      if inner > 1 {
        ClosedWithin(s[2..], rest, inner - 1, outer);
      } else {
        assert s[2..] + rest == rest;
      }
    } else {
      NotStraddled(s, inner);
      ClosedWithin(s[1..], rest, inner, outer);
    }
  }

  lemma {:induction false} NoMarks(t: string, rest: string, depth: nat)
    requires depth > 0 && '/' !in t && '*' !in t
    ensures DepthAfter(t + rest, depth) == DepthAfter(rest, depth)
  {
    if t == "" {
      assert t + rest == rest;
    } else {
      assert (t + rest)[1..] == t[1..] + rest && t[0] in t;
      NoMarks(t[1..], rest, depth);
    }
  }

  /** Block comments nest: text without slashes and stars around one is again one. */
  lemma NestedComment(a: string, c: string, b: string)
    requires BlockComment(c) && '/' !in a && '*' !in a && '/' !in b && '*' !in b
    ensures BlockComment("/*" + (a + (c + (b + "*/"))))
  {
    var tail := b + "*/";
    var whole := "/*" + (a + (c + tail));
    assert whole[2..] == a + (c + tail) && (c + tail)[2..] == c[2..] + tail;
    NoMarks(a, c + tail, 1);
    ClosedWithin(c[2..], tail, 1, 1);
    NoMarks(b, "*/", 1);
    assert "*/" == ['*', '/'];
  }

  lemma CommentSkipped(c: string, q: string)
    requires BlockComment(c)
    ensures Kept(c + q) == Kept(q)
  {
    assert (c + q)[2..] == c[2..] + q;
    ClosedLength(c[2..], 1, q);
    hide DepthAfter, BlockLength, RawPrefix, CharLength;
    assert (c + q)[|c|..] == q;
  }

  /** Main result: a balanced block comment inserted where the scan stands between two lexemes, both in
      the original and in the edited text, leaves the result unchanged. */
  lemma CommentInsertion(p: string, c: string, q: string)
    requires BlockComment(c) && Boundary(p + q, |p|) && Boundary(p + (c + q), |p|)
    ensures StripComments(p + (c + q)) == StripComments(p + q)
  {
    hide Boundary, Kept, BlockComment, Collapse, NeedValues.Strip;
    CommentSkipped(c, q);
    SameResultFrom(p, c + q, q);
  }

  /** A comment that is never closed takes the rest of the text. */
  lemma UnclosedComment(t: string)
    requires DepthAfter(t, 1) > 0
    ensures Kept("/*" + t) == ""
  {
    var s := "/*" + t;
    assert s[2..] == t;
    OpenLength(t, 1);
    hide DepthAfter, BlockLength, RawPrefix, CharLength;
    assert s[|s|..] == "";
  }

  lemma {:induction false} OpenLength(s: string, depth: nat)
    requires depth > 0 && DepthAfter(s, depth) > 0
    ensures BlockLength(s, depth) == |s|
    decreases |s|
  {
    if s != "" {
      if Two(s, '/', '*') {
        OpenLength(s[2..], depth + 1);
      } else if Two(s, '*', '/') {
        OpenLength(s[2..], depth - 1);
      } else {
        OpenLength(s[1..], depth);
      }
    }
  }

  // ---------- line comments ----------

  lemma {:induction false} LineEnds(t: string, q: string)
    requires '\n' !in t
    ensures LineLength(t + "\n" + q) == |t| && LineLength(t) == |t|
  {
    if t == "" {
      assert t + "\n" + q == "\n" + q;
    } else {
      assert (t + "\n" + q)[1..] == t[1..] + "\n" + q && t[0] in t;
      LineEnds(t[1..], q);
    }
  }

  lemma LineDropped(s: string)
    requires |s| >= 2 && s[0] == '/' && s[1] == '/'
    ensures Kept(s) == Kept(s[2 + LineLength(s[2..])..])
  {
    hide LineLength, BlockLength, RawPrefix, CharLength;
    assert Next(s) == Lexeme(2 + LineLength(s[2..]), false);
    hide Next;
    assert "" + Kept(s[2 + LineLength(s[2..])..]) == Kept(s[2 + LineLength(s[2..])..]);
  }

  /** A line comment is dropped up to the end of its line, which stays. */
  lemma LineCommentSkipped(t: string, q: string)
    requires '\n' !in t
    ensures Kept("//" + t + "\n" + q) == Kept("\n" + q)
    ensures Kept("//" + t) == ""
  {
    hide *;
    var s, c := "//" + t + "\n" + q, "//" + t;
    assert s[2..] == t + "\n" + q && c[2..] == t;
    LineEnds(t, q);
    LineDropped(s);
    LineDropped(c);
    assert s[2 + |t|..] == "\n" + q && c[2 + |t|..] == "";
    NothingKept();
  }

  lemma NothingKept()
    ensures Kept("") == ""
  {
  }

  /** Characters that start no comment and no literal. */
  predicate PlainChar(c: char) { c != '/' && c != '"' && c != '\'' }

  lemma {:induction false} NoRawPrefix(s: string)
    requires '"' !in s
    ensures RawPrefix(s) == 0
  {
    hide Hashes;
  }

  lemma PlainNext(s: string)
    requires s != "" && PlainChar(s[0]) && '"' !in s
    ensures Next(s) == Lexeme(1, true)
  {
    NoRawPrefix(s);
    hide RawPrefix, Hashes, LineLength, BlockLength, StringLength, RawLength;
  }

  /** Text without slashes and quotes is kept as it is. */
  lemma {:induction false} PlainKept(s: string)
    requires forall c | c in s :: PlainChar(c)
    ensures Kept(s) == s
  {
    if s != "" {
      assert s[0] in s && forall c | c in s[1..] :: c in s;
      PlainNext(s);
      PlainKept(s[1..]);
      hide Next;
      assert s == s[..1] + s[1..];
    }
  }

  /** A newline is kept, whatever follows. */
  lemma NewlineKept(q: string)
    ensures Kept("\n" + q) == "\n" + Kept(q)
  {
    var s := "\n" + q;
    assert RawPrefix(s) == 0;
    hide RawPrefix, Hashes, LineLength, BlockLength, StringLength, RawLength;
    assert Next(s) == Lexeme(1, true);
    hide Next;
    assert s[..1] == "\n" && s[1..] == q;
  }

  /** Main result: a line comment put before the end of a line, or at the end of the file, where the scan stands
      between two lexemes leaves the result unchanged. */
  lemma LineCommentInsertion(p: string, t: string, q: string)
    requires '\n' !in t
    ensures Boundary(p + ("\n" + q), |p|) && Boundary(p + ("//" + t + "\n" + q), |p|) ==>
      StripComments(p + ("//" + t + "\n" + q)) == StripComments(p + ("\n" + q))
    ensures Boundary(p + "", |p|) && Boundary(p + ("//" + t), |p|) ==> StripComments(p + ("//" + t)) == StripComments(p)
  {
    hide Boundary, Kept, Collapse, NeedValues.Strip;
    LineCommentSkipped(t, q);
    if Boundary(p + ("\n" + q), |p|) && Boundary(p + ("//" + t + "\n" + q), |p|) {
      SameResultFrom(p, "//" + t + "\n" + q, "\n" + q);
    }
    if Boundary(p + "", |p|) && Boundary(p + ("//" + t), |p|) {
      KeptNothing();
      SameResultFrom(p, "//" + t, "");
      assert p + "" == p;
    }
  }

  /** Code after a line comment counts: two files that differ only there have different results. */
  lemma CodeAfterLineComment(t: string, a: string, b: string)
    requires '\n' !in t && (forall c | c in a + b :: PlainChar(c) && !NeedValues.IsSpace(c))
    ensures StripComments("//" + t + "\n" + a) == a
    ensures StripComments("//" + t + "\n" + a) == StripComments("//" + t + "\n" + b) <==> a == b
  {
    CodeIsResult(t, a);
    CodeIsResult(t, b);
  }

  lemma CodeIsResult(t: string, a: string)
    requires '\n' !in t && (forall c | c in a :: PlainChar(c) && !NeedValues.IsSpace(c))
    ensures StripComments("//" + t + "\n" + a) == a
  {
    LineCommentSkipped(t, a);
    NewlineKept(a);
    PlainKept(a);
    NewlineFolded(a);
    hide NeedValues.IsSpace, Kept, Collapse, NeedValues.Strip;
    SolidTrimmed(a);
  }

  lemma {:induction false} SolidFolded(a: string)
    requires forall c | c in a :: !NeedValues.IsSpace(c)
    ensures Collapse(a) == a
  {
    hide NeedValues.IsSpace;
    if a != "" {
      assert a[0] in a && a == [a[0]] + a[1..];
      SolidFolded(a[1..]);
    }
  }

  lemma NewlineFolded(a: string)
    requires forall c | c in a :: !NeedValues.IsSpace(c)
    ensures Collapse("\n" + a) == " " + a
  {
    var s := "\n" + a;
    assert NeedValues.IsSpace('\n') by { assert '\n' as int == 0x0a; }
    assert s[1..] == a;
    hide NeedValues.IsSpace;
    assert a != "" ==> a[0] in a;
    assert DropSpaces(a) == a;
    SolidFolded(a);
  }

  lemma SolidTrimmed(a: string)
    requires forall c | c in a :: !NeedValues.IsSpace(c)
    ensures NeedValues.Strip(" " + a) == a
  {
    if a != "" {
      assert a[0] in a && a[|a| - 1] in a;
      NeedValues.StripTrimmed(a);
    } else {
      NeedValues.SpaceIsSpace();
      assert " " + a == " " && " "[..0] == "";
    }
  }

  // ---------- literals ----------

  /** A kept lexeme at a boundary is copied whole into the output, between what comes before it and what comes
      after it. */
  lemma LexemeCopied(s: string, k: nat)
    requires Boundary(s, k) && k < |s| && Next(s[k..]).kept
    ensures var n := Next(s[k..]).length; Kept(s) == Head(s, k) + s[k..k + n] + Kept(s[k + n..])
  {
    hide Next, Kept, Head;
    KeptSplits(s, k);
    KeptAt(s, k);
    var n := Next(s[k..]).length;
    Regroup(Head(s, k), s[k..k + n], Kept(s[k + n..]));
  }

  /** Backslashes at the end of the text. */
  function BackRun(t: string): (n: nat)
    ensures n <= |t|
  {
    if t != "" && t[|t| - 1] == '\\' then 1 + BackRun(t[..|t| - 1]) else 0
  }

  predicate QuoteEscaped(t: string, i: nat)
    requires i < |t|
  {
    t[i] == '"' ==> BackRun(t[..i]) % 2 == 1
  }

  /** What may stand between the quotes of a string literal: each quote follows an odd run of backslashes,
      and the text does not end in an odd run. */
  predicate StringBody(t: string) {
    (forall i | 0 <= i < |t| :: QuoteEscaped(t, i)) && BackRun(t) % 2 == 0
  }

  lemma {:induction false} BackRunAppend(a: string, b: string)
    ensures BackRun(a + b) == BackRun(b) + (if BackRun(b) == |b| then BackRun(a) else 0)
  {
    if b == "" {
      assert a + b == a;
    } else {
      var c := b[..|b| - 1];
      assert (a + b)[..|a + b| - 1] == a + c;
      if b[|b| - 1] == '\\' {
        BackRunAppend(a, c);
      }
    }
  }

  /** An even run of backslashes in front does not change whether a run is odd. */
  lemma EvenRunBefore(a: string, b: string)
    requires BackRun(a) % 2 == 0
    ensures BackRun(a + b) % 2 == BackRun(b) % 2
  {
    BackRunAppend(a, b);
    hide BackRun;
    EvenPlus(BackRun(b), BackRun(a));
  }

  lemma EvenPlus(x: nat, y: nat)
    requires y % 2 == 0
    ensures (x + y) % 2 == x % 2
  {
  }

  lemma QuoteEscapedAfter(a: string, t: string, i: nat)
    requires BackRun(a) % 2 == 0 && i < |t|
    ensures QuoteEscaped(a + t, |a| + i) <==> QuoteEscaped(t, i)
  {
    hide BackRun;
    EvenRunBefore(a, t[..i]);
    var u := a + t;
    assert u[..|a| + i] == a + t[..i];
    assert u[|a| + i] == t[i];
  }

  lemma QuoteEscapedBefore(a: string, t: string, i: nat)
    requires i < |a|
    ensures QuoteEscaped(a + t, i) <==> QuoteEscaped(a, i)
  {
    assert (a + t)[..i] == a[..i];
    hide BackRun;
  }

  /** An even run in front makes no difference. */
  lemma StringBodyFrom(a: string, t: string)
    requires StringBody(a)
    ensures StringBody(a + t) <==> StringBody(t)
  {
    hide BackRun, QuoteEscaped;
    BackRunAppend(a, t);
    forall i | 0 <= i < |t| ensures QuoteEscaped(a + t, |a| + i) <==> QuoteEscaped(t, i) {
      QuoteEscapedAfter(a, t, i);
    }
    forall i | 0 <= i < |a| ensures QuoteEscaped(a + t, i) {
      QuoteEscapedBefore(a, t, i);
    }
    if StringBody(t) {
      forall i | 0 <= i < |a + t| ensures QuoteEscaped(a + t, i) {
        if i >= |a| {
          assert QuoteEscaped(t, i - |a|);
        }
      }
    }
  }

  /** One character that is no quote and no backslash, or a backslash and the character it escapes. */
  lemma OneUnit(a: string)
    requires (|a| == 1 && a[0] != '"' && a[0] != '\\') || (|a| == 2 && a[0] == '\\')
    ensures StringBody(a)
  {
    assert a[..1][..0] == "" && a[..0] == "";
    if |a| == 2 {
      assert BackRun(a[..1]) == 1;
      assert QuoteEscaped(a, 0) && QuoteEscaped(a, 1);
    } else {
      assert QuoteEscaped(a, 0);
    }
  }

  lemma NotStringBody(t: string)
    requires t != "" && (t[0] == '"' || t == "\\")
    ensures !StringBody(t)
  {
    assert t[..0] == "";
    if t[0] == '"' {
      assert !QuoteEscaped(t, 0);
    }
  }

  lemma {:induction false} StringEnd(t: string, rest: string)
    ensures StringBody(t) ==> StringLength(t + "\"" + rest) == |t| + 1
    ensures StringLength(t + "\"" + rest) == |t| + 1 && rest != "" ==> StringBody(t)
    decreases |t|
  {
    var s := t + "\"" + rest;
    if t == "" {
      assert s == "\"" + rest;
    } else {
      var n := if t[0] == '\\' then 2 else 1;
      hide StringBody;
      if t[0] == '"' || |t| < n {
        assert t[0] != '"' ==> t == "\\" && s[2..] == rest;
        assert rest != "" ==> StringLength(rest) >= 1;
        NotStringBody(t);
      } else {
        assert s[n..] == t[n..] + "\"" + rest && t == t[..n] + t[n..];
        OneUnit(t[..n]);
        StringBodyFrom(t[..n], t[n..]);
        StringEnd(t[n..], rest);
      }
    }
  }

  /** A string or byte string literal is one kept lexeme, whatever comment marks and escapes it contains; and
      no other text between quotes is, unless the file ends there. */
  lemma StringIsWhole(prefix: string, t: string, rest: string)
    requires prefix == "" || prefix == "b"
    ensures StringBody(t) ==> Next(prefix + "\"" + t + "\"" + rest) == Lexeme(|prefix| + |t| + 2, true)
    ensures Next(prefix + "\"" + t + "\"" + rest) == Lexeme(|prefix| + |t| + 2, true) && rest != "" ==> StringBody(t)
  {
    var s := prefix + "\"" + t + "\"" + rest;
    assert s[|prefix| + 1..] == t + "\"" + rest;
    StringEnd(t, rest);
    assert RawPrefix(s) == 0;
    hide StringLength, LineLength, BlockLength, CharLength, RawPrefix, StringBody;
  }

  function Pounds(h: nat): string { seq(h, _ => '#') }

  /** What may stand between the delimiters of a raw string: no quote followed by that many hashes. */
  predicate RawBody(t: string, h: nat) {
    forall i | 0 <= i < |t| && t[i] == '"' :: !(Pounds(h) <= t[i + 1..])
  }

  lemma {:induction false} HashesArePounds(s: string, h: nat)
    ensures Hashes(s) >= h <==> Pounds(h) <= s
  {
    if h > 0 && s != "" {
      HashesArePounds(s[1..], h - 1);
      assert Pounds(h) == ['#'] + Pounds(h - 1);
      assert s == [s[0]] + s[1..];
    }
  }

  lemma {:induction false} HashesOf(h: nat, rest: string)
    requires rest != "" && rest[0] != '#'
    ensures Hashes(Pounds(h) + rest) == h
  {
    if h == 0 {
      assert Pounds(h) + rest == rest;
    } else {
      assert (Pounds(h) + rest)[1..] == Pounds(h - 1) + rest;
      HashesOf(h - 1, rest);
    }
  }

  /** The closing quote ends every run of hashes before it. */
  lemma {:induction false} HashesBeforeQuote(t: string, more: string, h: nat)
    ensures Hashes(t + "\"" + more) >= h <==> Hashes(t) >= h
  {
    if t != "" && h > 0 {
      assert (t + "\"" + more)[1..] == t[1..] + "\"" + more;
      HashesBeforeQuote(t[1..], more, h - 1);
    }
  }

  lemma RawBodyFrom(t: string, h: nat)
    requires t != ""
    ensures RawBody(t, h) <==> RawBody(t[1..], h) && !(t[0] == '"' && Pounds(h) <= t[1..])
  {
    hide Pounds;
    var u := t[1..];
    assert forall i | 0 <= i < |u| :: u[i] == t[i + 1] && u[i + 1..] == t[i + 2..];
    if RawBody(t, h) {
      forall i | 0 <= i < |u| && u[i] == '"' ensures !(Pounds(h) <= u[i + 1..]) {
        assert t[i + 1] == '"';
      }
    }
  }

  lemma {:induction false} RawEnd(t: string, h: nat, rest: string)
    ensures RawLength(t + "\"" + (Pounds(h) + rest), h) == |t| + 1 + h <==> RawBody(t, h)
  {
    var s := t + "\"" + (Pounds(h) + rest);
    if t == "" {
      assert s[1..] == Pounds(h) + rest;
      HashesArePounds(s[1..], h);
    } else {
      assert s[1..] == t[1..] + "\"" + (Pounds(h) + rest);
      HashesBeforeQuote(t[1..], Pounds(h) + rest, h);
      HashesArePounds(t[1..], h);
      RawBodyFrom(t, h);
      RawEnd(t[1..], h, rest);
      hide Pounds, Hashes;
    }
  }

  lemma RawLexeme(s: string, n: nat, h: nat, body: string)
    requires (n == 1 && s != "" && s[0] == 'r') || (n == 2 && Two(s, 'b', 'r'))
    requires h == Hashes(s[n..]) && n + h < |s| && s[n + h] == '"' && s[n + h + 1..] == body
    ensures Next(s) == Lexeme(n + h + 1 + RawLength(body, h), true)
  {
    hide Hashes, RawLength, LineLength, BlockLength, StringLength, CharLength;
    assert RawPrefix(s) == n;
  }

  lemma RawOpens(prefix: string, h: nat, body: string)
    requires prefix == "r" || prefix == "br"
    ensures Next(prefix + (Pounds(h) + ("\"" + body))) == Lexeme(|prefix| + h + 1 + RawLength(body, h), true)
  {
    HashesOf(h, "\"" + body);
    hide Hashes, RawLength, Next;
    var p: string := Pounds(h);
    assert |p| == h;
    hide Pounds;
    var inner := p + ("\"" + body);
    var s, n := prefix + inner, |prefix|;
    assert inner[h] == '"' && inner[h + 1..] == body;
    assert s[n..] == inner && s[n + h] == inner[h] && s[n + h + 1..] == inner[h + 1..];
    RawLexeme(s, n, h, body);
  }

  /** A raw string literal is one kept lexeme; its end is the first quote followed by its hashes. */
  lemma RawStringIsWhole(prefix: string, h: nat, t: string, rest: string)
    requires prefix == "r" || prefix == "br"
    ensures var s := prefix + (Pounds(h) + ("\"" + (t + "\"" + (Pounds(h) + rest))));
      Next(s) == Lexeme(|prefix| + |t| + 2 * h + 2, true) <==> RawBody(t, h)
  {
    hide *;
    RawOpens(prefix, h, t + "\"" + (Pounds(h) + rest));
    RawEnd(t, h, rest);
  }

  lemma {:induction false} TickEnd(t: string, rest: string)
    ensures TickAt(t + "'" + rest) == |t| <==> '\'' !in t
    ensures TickAt(t + "'" + rest) <= |t|
  {
    if t == "" {
      assert t + "'" + rest == "'" + rest;
    } else {
      assert (t + "'" + rest)[1..] == t[1..] + "'" + rest;
      TickEnd(t[1..], rest);
    }
  }

  /** A plain char literal is one kept lexeme. */
  lemma CharIsWhole(x: char, rest: string)
    ensures Next("'" + [x] + "'" + rest) == Lexeme(3, true) <==> x != '\'' && x != '\\'
  {
    var s := "'" + [x] + "'" + rest;
    CharLexeme(s);
    hide TickAt, Next;
  }

  /** So is one with an escape: a backslash, a character, and whatever follows up to the next tick. */
  lemma EscapedCharIsWhole(x: char, t: string, rest: string)
    ensures Next("'\\" + [x] + (t + "'" + rest)) == Lexeme(|t| + 4, true) <==> x != '\n' && '\'' !in t
  {
    var s := "'\\" + [x] + (t + "'" + rest);
    assert s[3..] == t + "'" + rest;
    EscapedLength(s);
    TickEnd(t, rest);
    CharLexeme(s);
    hide *;
  }

  lemma EscapedLength(s: string)
    requires |s| >= 3 && s[0] == '\'' && s[1] == '\\'
    ensures CharLength(s) == if s[2] != '\n' && TickAt(s[3..]) < |s| - 3 then 4 + TickAt(s[3..]) else 0
  {
    hide TickAt;
  }

  lemma CharLexeme(s: string)
    requires s != "" && s[0] == '\''
    ensures Next(s) == Lexeme(if CharLength(s) > 0 then CharLength(s) else 1, true)
  {
    assert RawPrefix(s) == 0;
    hide RawPrefix, CharLength, Hashes, LineLength, BlockLength, RawLength, StringLength;
  }

  // ---------- white space ----------

  /** The characters that are no white space, in order. */
  function Solid(s: string): string {
    if s == "" then "" else (if NeedValues.IsSpace(s[0]) then "" else [s[0]]) + Solid(s[1..])
  }

  lemma {:induction false} DropSpacesSolid(s: string)
    ensures Solid(DropSpaces(s)) == Solid(s)
    ensures DropSpaces(s) == "" || !NeedValues.IsSpace(DropSpaces(s)[0])
  {
    hide NeedValues.IsSpace;
    if s != "" && NeedValues.IsSpace(s[0]) {
      DropSpacesSolid(s[1..]);
    }
  }

  lemma FoldStep(s: string)
    requires s != ""
    ensures Collapse(s) ==
      if NeedValues.IsSpace(s[0]) then [' '] + Collapse(DropSpaces(s[1..])) else [s[0]] + Collapse(s[1..])
  {
    hide NeedValues.IsSpace, DropSpaces;
  }

  /** Folding drops and reorders nothing but white space, leaves blanks only, and never two in a row. */
  lemma {:induction false} FoldingIs(s: string)
    ensures var r := Collapse(s);
      && Solid(r) == Solid(s) && |r| <= |s|
      && (forall i | 0 <= i < |r| :: NeedValues.IsSpace(r[i]) ==> r[i] == ' ')
      && (forall i | 0 <= i < |r| - 1 :: !(NeedValues.IsSpace(r[i]) && NeedValues.IsSpace(r[i + 1])))
      && (s != "" ==> r != "" && (NeedValues.IsSpace(r[0]) <==> NeedValues.IsSpace(s[0])))
    decreases |s|
  {
    NeedValues.SpaceIsSpace();
    hide NeedValues.IsSpace, DropSpaces;
    if s != "" {
      FoldStep(s);
      hide Collapse;
      var rest := if NeedValues.IsSpace(s[0]) then DropSpaces(s[1..]) else s[1..];
      DropSpacesSolid(s[1..]);
      FoldingIs(rest);
      var first := if NeedValues.IsSpace(s[0]) then ' ' else s[0];
      assert Collapse(s) == [first] + Collapse(rest);
      assert ([first] + Collapse(rest))[1..] == Collapse(rest);
    }
  }

  // ---------- comments that hold tokens apart ----------

  function FirstSpaced(s: string): string
    requires s != ""
  {
    if Next(s).kept then s[..Next(s).length] else " "
  }

  /** What a stripper would put out that leaves one blank for each comment, as a compiler reads it. */
  function Spaced(s: string): string
    decreases |s|
  {
    hide Next;
    if s == "" then "" else FirstSpaced(s) + Spaced(s[Next(s).length..])
  }

  function SpacedHead(s: string, k: nat): string
    requires Boundary(s, k)
    decreases |s|
  {
    hide Next;
    if k == 0 then "" else FirstSpaced(s) + SpacedHead(s[Next(s).length..], k - Next(s).length)
  }

  function StripSpaced(src: string): string { NeedValues.Strip(Collapse(Spaced(src))) }

  /** One lexeme further, on both sides. */
  lemma SpacedStep(s: string, k: nat)
    requires k > 0 && Boundary(s, k)
    ensures var n := Next(s).length;
      && n <= k && Boundary(s[n..], k - n)
      && Spaced(s) == FirstSpaced(s) + Spaced(s[n..]) && SpacedHead(s, k) == FirstSpaced(s) + SpacedHead(s[n..], k - n)
  {
    hide Next;
  }

  lemma SpacedFromStart(s: string)
    ensures Boundary(s, 0) && SpacedHead(s, 0) == "" && s[0..] == s
  {
  }

  /** If whole is first and rest, and rest is head and tail, then whole is first with head, and tail. */
  lemma TailOf(whole: string, first: string, rest: string, head: string, tail: string)
    requires whole == first + rest && rest == head + tail
    ensures whole == (first + head) + tail
  {
  }

  lemma {:induction false} SpacedSplits(s: string, k: nat)
    requires Boundary(s, k)
    ensures k <= |s| && Spaced(s) == SpacedHead(s, k) + Spaced(s[k..])
    decreases |s|
  {
    hide *;
    if k == 0 {
      SpacedFromStart(s);
    } else {
      SpacedStep(s, k);
      var n := Next(s).length;
      SpacedSplits(s[n..], k - n);
      assert s[n..][k - n..] == s[k..];
      TailOf(Spaced(s), FirstSpaced(s), Spaced(s[n..]), SpacedHead(s[n..], k - n), Spaced(s[k..]));
    }
  }

  lemma {:induction false} SameSpacedHead(p: string, x: string, y: string)
    requires Boundary(p + x, |p|) && Boundary(p + y, |p|)
    ensures SpacedHead(p + x, |p|) == SpacedHead(p + y, |p|)
    decreases |p|
  {
    hide Next;
    if p != "" {
      var n := Next(p + x).length;
      LexemeLocal(p, x, y);
      assert (p + x)[n..] == p[n..] + x && (p + y)[n..] == p[n..] + y;
      assert (p + x)[..n] == (p + y)[..n];
      SameSpacedHead(p[n..], x, y);
    }
  }

  lemma CommentSpaced(c: string, q: string)
    requires BlockComment(c)
    ensures Spaced(c + q) == " " + Spaced(q)
  {
    assert (c + q)[2..] == c[2..] + q;
    ClosedLength(c[2..], 1, q);
    hide DepthAfter, BlockLength, RawPrefix, CharLength;
    assert (c + q)[|c|..] == q;
  }

  predicate StartsBlank(s: string) { s != "" && NeedValues.IsSpace(s[0]) }

  predicate EndsBlank(s: string) { s != "" && NeedValues.IsSpace(s[|s| - 1]) }

  /** White space between two texts that does not stand next to other white space. */
  predicate Apart(a: string, b: string) { a != "" && !EndsBlank(a) && b != "" && !StartsBlank(b) }

  lemma {:induction false} DropSpacesAre(a: string, b: string)
    ensures DropSpaces(a + b) == if DropSpaces(a) == "" then DropSpaces(b) else DropSpaces(a) + b
    ensures DropSpaces(a) == "" ==> a == "" || EndsBlank(a)
    ensures DropSpaces(a) != "" ==> EndsBlank(DropSpaces(a)) == EndsBlank(a)
  {
    hide NeedValues.IsSpace;
    if a == "" {
      assert a + b == b;
    } else if NeedValues.IsSpace(a[0]) {
      assert (a + b)[1..] == a[1..] + b;
      DropSpacesAre(a[1..], b);
    }
  }

  /** One step of folding, with more text after. */
  lemma CollapseStep(a: string, b: string)
    requires a != "" && (!EndsBlank(a) || !StartsBlank(b))
    ensures NeedValues.IsSpace(a[0]) ==> Collapse(a + b) == " " + Collapse(DropSpaces(a[1..]) + b)
    ensures !NeedValues.IsSpace(a[0]) ==> Collapse(a + b) == [a[0]] + Collapse(a[1..] + b)
  {
    assert (a + b)[1..] == a[1..] + b && (a + b)[0] == a[0];
    DropSpacesAre(a[1..], b);
    assert DropSpaces(a[1..]) == "" ==> EndsBlank(a) || !NeedValues.IsSpace(a[0]);
    assert !StartsBlank(b) ==> DropSpaces(b) == b;
    assert "" + b == b;
    hide DropSpaces, NeedValues.IsSpace;
  }

  lemma {:induction false} CollapseAppend(a: string, b: string)
    requires !EndsBlank(a) || !StartsBlank(b)
    ensures Collapse(a + b) == Collapse(a) + Collapse(b)
    decreases |a|
  {
    hide NeedValues.IsSpace, Collapse;
    if a == "" {
      CollapseNothing();
      assert a + b == b && "" + Collapse(b) == Collapse(b);
    } else {
      CollapseStep(a, b);
      CollapseStep(a, "");
      assert a + "" == a && a[1..] + "" == a[1..] && DropSpaces(a[1..]) + "" == DropSpaces(a[1..]);
      var rest := if NeedValues.IsSpace(a[0]) then DropSpaces(a[1..]) else a[1..];
      DropSpacesAre(a[1..], "");
      CollapseAppend(rest, b);
      Regroup(if NeedValues.IsSpace(a[0]) then " " else [a[0]], Collapse(rest), Collapse(b));
    }
  }

  /** A blank next to white space is folded away. */
  lemma {:induction false} BlankAbsorbed(a: string, b: string)
    requires EndsBlank(a) || StartsBlank(b)
    ensures Collapse(a + (" " + b)) == Collapse(a + b)
    decreases |a|
  {
    SpaceIsBlank();
    hide NeedValues.IsSpace;
    assert (" " + b)[1..] == b;
    if a == "" {
      assert a + b == b && a + (" " + b) == " " + b;
    } else {
      assert (a + b)[1..] == a[1..] + b && (a + (" " + b))[1..] == a[1..] + (" " + b);
      DropSpacesAre(a[1..], b);
      DropSpacesAre(a[1..], " " + b);
      if !NeedValues.IsSpace(a[0]) {
        BlankAbsorbed(a[1..], b);
      } else if DropSpaces(a[1..]) != "" {
        BlankAbsorbed(DropSpaces(a[1..]), b);
      }
    }
  }

  lemma SpaceIsBlank()
    ensures NeedValues.IsSpace(' ')
  {
    NeedValues.SpaceIsSpace();
  }

  lemma {:induction false} CollapseEnds(a: string)
    requires a != ""
    ensures Collapse(a) != ""
    ensures !StartsBlank(a) ==> !StartsBlank(Collapse(a))
    ensures !EndsBlank(a) ==> !EndsBlank(Collapse(a))
    decreases |a|
  {
    hide NeedValues.IsSpace;
    var blank := NeedValues.IsSpace(a[0]);
    DropSpacesAre(a[1..], "");
    var rest := if blank then DropSpaces(a[1..]) else a[1..];
    assert Collapse(a) == [if blank then ' ' else a[0]] + Collapse(rest);
    hide Collapse, DropSpaces;
    if rest != "" {
      CollapseEnds(rest);
    } else {
      CollapseNothing();
    }
  }

  lemma {:induction false} LStripInside(a: string, b: string)
    requires a != "" && !EndsBlank(a)
    ensures NeedValues.LStrip(a + b) == NeedValues.LStrip(a) + b
  {
    hide NeedValues.IsSpace;
    if NeedValues.IsSpace(a[0]) {
      assert (a + b)[1..] == a[1..] + b;
      LStripInside(a[1..], b);
    }
  }

  lemma {:induction false} RStripInside(a: string, b: string)
    requires b != "" && !StartsBlank(b)
    ensures NeedValues.RStrip(a + b) == a + NeedValues.RStrip(b)
    decreases |b|
  {
    hide NeedValues.IsSpace;
    if NeedValues.IsSpace(b[|b| - 1]) {
      assert (a + b)[..|a + b| - 1] == a + b[..|b| - 1];
      RStripInside(a, b[..|b| - 1]);
    }
  }

  /** Between two texts that meet in non-blanks, what stands there is all that is added. */
  lemma StripBetween(a: string, m: string, b: string)
    requires Apart(a, b)
    ensures NeedValues.Strip(a + (m + b)) == NeedValues.LStrip(a) + (m + NeedValues.RStrip(b))
  {
    hide NeedValues.IsSpace, NeedValues.LStrip, NeedValues.RStrip;
    assert a + (m + b) == (a + m) + b;
    RStripInside(a + m, b);
    assert (a + m) + NeedValues.RStrip(b) == a + (m + NeedValues.RStrip(b));
    LStripInside(a, m + NeedValues.RStrip(b));
  }

  lemma {:induction false} LeadingBlank(s: string)
    ensures NeedValues.Strip(" " + s) == NeedValues.Strip(s)
    decreases |s|
  {
    SpaceIsBlank();
    hide NeedValues.IsSpace;
    if s == "" {
      assert " " + s == " " && " "[..0] == "";
    } else if NeedValues.IsSpace(s[|s| - 1]) {
      var t := s[..|s| - 1];
      assert (" " + s)[..|s|] == " " + t;
      LeadingBlank(t);
    } else {
      assert (" " + s)[1..] == s;
    }
  }

  lemma TrailingBlank(s: string)
    ensures NeedValues.Strip(s + " ") == NeedValues.Strip(s)
  {
    SpaceIsBlank();
    assert (s + " ")[..|s|] == s;
  }

  /** A blank between two texts is seen after folding and trimming exactly when they meet in non-blanks. */
  lemma BlankSeen(a: string, b: string)
    ensures NeedValues.Strip(Collapse(a + (" " + b))) != NeedValues.Strip(Collapse(a + b)) <==> Apart(a, b)
  {
    SpaceIsBlank();
    hide NeedValues.IsSpace, NeedValues.Strip, Collapse;
    if EndsBlank(a) || StartsBlank(b) {
      BlankAbsorbed(a, b);
    } else {
      var x, y := Collapse(a), Collapse(b);
      CollapseAppend(a, b);
      assert Collapse(" " + b) == " " + y by { BlankThen(b); }
      assert Collapse(a + (" " + b)) == x + (" " + y) by {
        if a == "" {
          assert a + (" " + b) == " " + b && x == "" by { CollapseNothing(); }
        } else {
          CollapseAroundBlank(a, b);
        }
      }
      assert x + y == x + ("" + y);
      if Apart(a, b) {
        CollapseEnds(a);
        CollapseEnds(b);
        StripBetween(x, "", y);
        StripBetween(x, " ", y);
      } else if a == "" {
        CollapseNothing();
        LeadingBlank(y);
        assert x + (" " + y) == " " + y && x + y == y;
      } else {
        CollapseNothing();
        TrailingBlank(x);
        assert x + (" " + y) == x + " " && x + y == x;
      }
    }
  }

  lemma CollapseNothing()
    ensures Collapse("") == ""
  {
  }

  lemma BlankThen(b: string)
    requires !StartsBlank(b)
    ensures Collapse(" " + b) == " " + Collapse(b)
  {
    SpaceIsBlank();
    assert (" " + b)[1..] == b;
    hide NeedValues.IsSpace;
  }

  lemma {:induction false} CollapseAroundBlank(a: string, b: string)
    requires !EndsBlank(a) && !StartsBlank(b)
    ensures Collapse(a + (" " + b)) == Collapse(a) + (" " + Collapse(b))
  {
    hide NeedValues.IsSpace;
    CollapseAppend(a, " " + b);
    BlankThen(b);
  }

  /** Main result: a block comment inserted between two lexemes never changes the result of the check; a
      stripper that leaves a blank for each comment sees it exactly when the texts before and after it meet in
      non-blanks. So exactly those insertions hold two tokens apart, or join two, unseen by the check. */
  lemma GluedTokens(p: string, c: string, q: string)
    requires BlockComment(c) && Boundary(p + q, |p|) && Boundary(p + (c + q), |p|)
    ensures StripComments(p + (c + q)) == StripComments(p + q)
    ensures StripSpaced(p + (c + q)) == StripSpaced(p + q) <==> !Apart(SpacedHead(p + q, |p|), Spaced(q))
  {
    CommentInsertion(p, c, q);
    hide Boundary, Kept, Spaced, SpacedHead, BlockComment, Collapse, NeedValues.Strip, StripComments, Apart;
    CommentSpaced(c, q);
    SpacedSplits(p + q, |p|);
    SpacedSplits(p + (c + q), |p|);
    SameSpacedHead(p, c + q, q);
    assert (p + q)[|p|..] == q && (p + (c + q))[|p|..] == c + q;
    BlankSeen(SpacedHead(p + q, |p|), Spaced(q));
  }

  /** The smallest such insertion: a and b, held apart by a comment, and the one name ab. */
  lemma GluedExample()
    ensures StripComments("a/**/b") == StripComments("ab") && StripSpaced("a/**/b") != StripSpaced("ab")
  {
    var p, c, q := "a", "/**/", "b";
    assert "a/**/b" == p + (c + q) && "ab" == p + q;
    EmptyComment(c);
    AfterLetter(q);
    AfterLetter(c + q);
    LetterApart(p + q, q);
    hide *;
    GluedTokens(p, c, q);
  }

  lemma EmptyComment(c: string)
    requires c == "/**/"
    ensures BlockComment(c)
  {
    assert c[2..] == ['*', '/'] && DepthAfter(c[2..], 1) == 0;
  }

  lemma AfterLetter(x: string)
    ensures Boundary("a" + x, |"a"|)
  {
    OneLetter("a" + x);
    hide Next;
    assert Boundary(("a" + x)[1..], 0);
  }

  lemma LetterApart(s: string, q: string)
    requires s == "a" + q && q == "b" && Boundary(s, |"a"|)
    ensures Apart(SpacedHead(s, |"a"|), Spaced(q))
  {
    OneLetter(s);
    OneLetter(q);
    assert !NeedValues.IsSpace('a') && !NeedValues.IsSpace('b') by {
      assert 'a' as int == 0x61 && 'b' as int == 0x62;
    }
    hide Next, NeedValues.IsSpace;
    assert q[1..] == "" && q[..1] == "b" && s[..1] == "a";
    assert Spaced(q) == "b" + Spaced("") == "b";
    assert SpacedHead(s, 1) == "a" + SpacedHead(s[1..], 0) == "a";
  }

  lemma OneLetter(s: string)
    requires s != "" && (s[0] == 'a' || s == "b")
    ensures Next(s) == Lexeme(1, true)
  {
    hide Hashes, RawLength, LineLength, BlockLength, StringLength, TickAt;
    assert RawPrefix(s) == 0 && CharLength(s) == 0;
  }
}
