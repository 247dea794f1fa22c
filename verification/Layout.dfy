/** Padded struct layouts of scripts/decbench/structscore.py. */
module Layout {

  datatype Option<+T> = None | Some(value: T)

  datatype Field = Field(offset: int, size: Option<nat>, name: string, kind: string, ptr: nat, pointee: Option<string>)

  datatype Entry = Pad(start: int, length: nat) | Real(field: Field)

  /** inner is the anonymous struct a member expands to, when it is one. */
  datatype Member = Member(offset: Option<int>, size: Option<nat>, name: string, kind: string, ptr: nat,
                           pointee: Option<string>, inner: Option<Struct>)

  datatype Struct = Struct(identity: string, size: Option<nat>, members: seq<Member>)

  datatype Shape = Shape(name: string, size: Option<nat>, entries: seq<Entry>)

  const MAX_DEPTH: nat := 8

  function Sized(f: Field): nat { if f.size.Some? then f.size.value else 0 }

  // ---------- names ----------

  function HexDigits(n: nat): string {
    var d := "0123456789abcdef"[n % 16];
    if n < 16 then [d] else HexDigits(n / 16) + [d]
  }

  /** f"{n:#x}" */
  function Hex(n: int): string { if n < 0 then "-0x" + HexDigits(-n) else "0x" + HexDigits(n) }

  predicate HexDigit(c: char) { '0' <= c <= '9' || 'a' <= c <= 'f' }

  function HexValue(s: string): nat
    requires forall c | c in s :: HexDigit(c)
  {
    if s == "" then 0
    else
      var c := s[|s| - 1];
      assert c in s && forall d | d in s[..|s| - 1] :: d in s;
      assert HexDigit(c);
      16 * HexValue(s[..|s| - 1]) + (if c <= '9' then c as int - 48 else c as int - 87)
  }

  /** The digits of a number spell it, without leading zeros. */
  lemma {:induction false} HexSpells(n: nat)
    ensures HexDigits(n) != "" && (forall c | c in HexDigits(n) :: HexDigit(c)) && HexValue(HexDigits(n)) == n
    ensures n > 0 ==> HexDigits(n)[0] != '0'
  {
    HexOne(n % 16);
    if n >= 16 {
      HexSpells(n / 16);
      assert HexDigits(n)[..|HexDigits(n)| - 1] == HexDigits(n / 16);
    } else {
      assert HexDigits(n)[..0] == "";
    }
  }

  lemma HexOne(d: nat)
    requires d < 16
    ensures var c := "0123456789abcdef"[d]; HexDigit(c) && d == (if c <= '9' then c as int - 48 else c as int - 87)
    ensures d > 0 ==> "0123456789abcdef"[d] != '0'
  {
  }

  // ---------- the stable sort ----------

  predicate KeyLess(a: Field, b: Field) { a.offset < b.offset || (a.offset == b.offset && Sized(a) < Sized(b)) }

  /** f before the first element whose key is greater. */
  function Insert(f: Field, fields: seq<Field>): seq<Field> {
    if fields == [] || KeyLess(f, fields[0]) then [f] + fields else [fields[0]] + Insert(f, fields[1..])
  }

  /** fields.sort(key=...): elements of equal key keep their order. */
  function Sort(fields: seq<Field>): seq<Field> {
    if fields == [] then [] else
      var last := |fields| - 1;
      Insert(fields[last], Sort(fields[..last]))
  }

  // ---------- padding ----------

  function Max(a: int, b: int): int { if a < b then b else a }

  function NextCursor(cursor: int, f: Field): int { if Sized(f) > 0 then Max(cursor, f.offset + Sized(f)) else cursor }

  /** The entries from here on; total is the struct size, 0 when unknown. */
  function PadFrom(fields: seq<Field>, cursor: int, total: nat): seq<Entry> {
    if fields == [] then if cursor < total then [Pad(cursor, total - cursor)] else []
    else
      var f := fields[0];
      (if f.offset > cursor then [Pad(cursor, f.offset - cursor)] else []) + [Real(f)]
      + PadFrom(fields[1..], NextCursor(cursor, f), total)
  }

  // ---------- the layout ----------

  function OuterName(m: Member): string { if m.name != "" then m.name else "anon" }

  function Shifted(offset: int, prefix: string, f: Field): Field {
    f.(offset := offset + f.offset, name := prefix + "." + f.name)
  }

  function ShiftAll(offset: int, prefix: string, fields: seq<Field>): seq<Field> {
    if fields == [] then [] else [Shifted(offset, prefix, fields[0])] + ShiftAll(offset, prefix, fields[1..])
  }

  function OwnField(m: Member): Field
    requires m.offset.Some?
  {
    Field(m.offset.value, m.size, if m.name != "" then m.name else "field_" + Hex(m.offset.value), m.kind, m.ptr, m.pointee)
  }

  function Reals(entries: seq<Entry>): seq<Field> {
    if entries == [] then []
    else (if entries[0].Real? then [entries[0].field] else []) + Reals(entries[1..])
  }

  /** The fields one member contributes, in the order they are appended. */
  function MemberFields(m: Member, depth: nat): seq<Field>
    decreases m, 0
  {
    if m.offset.None? then []
    else if m.inner.Some? then
      var inner := LayoutOf(m.inner.value, depth + 1);
      if inner.Some? then ShiftAll(m.offset.value, OuterName(m), Reals(inner.value.entries)) else [OwnField(m)]
    else [OwnField(m)]
  }

  function AllFields(members: seq<Member>, depth: nat): seq<Field>
    decreases members, 1
  {
    if members == [] then [] else MemberFields(members[0], depth) + AllFields(members[1..], depth)
  }

  function Total(s: Struct): nat { if s.size.Some? then s.size.value else 0 }

  function LayoutOf(s: Struct, depth: nat): Option<Shape>
    decreases s, 2
  {
    if depth > MAX_DEPTH then None
    else Some(Shape(s.identity, s.size, PadFrom(Sort(AllFields(s.members, depth)), 0, Total(s))))
  }

  // ---------- the code ----------

  function PadBefore(cursor: int, end: int): seq<Entry> { if end > cursor then [Pad(cursor, end - cursor)] else [] }

  lemma PadFromStep(fields: seq<Field>, i: nat, cursor: int, total: nat, before: seq<Entry>)
    requires i < |fields|
    ensures before + PadFrom(fields[i..], cursor, total)
         == before + PadBefore(cursor, fields[i].offset) + [Real(fields[i])]
            + PadFrom(fields[i + 1..], NextCursor(cursor, fields[i]), total)
  {
    hide NextCursor;
    assert fields[i..][1..] == fields[i + 1..];
  }

  lemma PadFromEnd(fields: seq<Field>, cursor: int, total: nat)
    ensures PadFrom(fields[|fields|..], cursor, total) == PadBefore(cursor, total)
  {
  }

  method PadLoop(fields: seq<Field>, size: Option<nat>) returns (padded: seq<Entry>)
    ensures padded == PadFrom(fields, 0, if size.Some? then size.value else 0)
  {
    hide PadFrom;
    var cursor := 0;
    var total := if size.Some? then size.value else 0;
    padded := [];
    assert fields[0..] == fields;
    for i := 0 to |fields|
      invariant padded + PadFrom(fields[i..], cursor, total) == PadFrom(fields, 0, total)
    {
      var f := fields[i];
      PadFromStep(fields, i, cursor, total, padded);
      if f.offset > cursor {
        padded := padded + [Pad(cursor, f.offset - cursor)];
      }
      padded := padded + [Real(f)];
      if Sized(f) > 0 {
        cursor := Max(cursor, f.offset + Sized(f));
      }
    }
    PadFromEnd(fields, cursor, total);
    if cursor < total {
      padded := padded + [Pad(cursor, total - cursor)];
    }
  }

  method Expand(offset: int, prefix: string, entries: seq<Entry>) returns (fields: seq<Field>)
    ensures fields == ShiftAll(offset, prefix, Reals(entries))
  {
    hide Shifted;
    fields := [];
    for i := 0 to |entries|
      invariant fields + ShiftAll(offset, prefix, Reals(entries[i..])) == ShiftAll(offset, prefix, Reals(entries))
    {
      assert entries[i..][1..] == entries[i + 1..];
      if entries[i].Real? {
        assert ([entries[i].field] + Reals(entries[i + 1..]))[1..] == Reals(entries[i + 1..]);
        fields := fields + [Shifted(offset, prefix, entries[i].field)];
      } else {
        assert [] + Reals(entries[i + 1..]) == Reals(entries[i + 1..]);
      }
    }
    assert entries[|entries|..] == [];
  }

  method StructLayout(s: Struct, depth: nat) returns (r: Option<Shape>)
    ensures r == LayoutOf(s, depth)
    decreases s, 2
  {
    if depth > MAX_DEPTH {
      return None;
    }
    var fields := CollectFields(s.members, depth);
    var padded := PadLoop(Sort(fields), s.size);
    r := Some(Shape(s.identity, s.size, padded));
  }

  method CollectFields(members: seq<Member>, depth: nat) returns (fields: seq<Field>)
    ensures fields == AllFields(members, depth)
    decreases members, 1
  {
    hide ShiftAll, Reals, OwnField, LayoutOf, AllFields;
    fields := [];
    assert members[0..] == members;
    for i := 0 to |members|
      invariant fields + AllFields(members[i..], depth) == AllFields(members, depth)
    {
      var m := members[i];
      AllFieldsStep(members, i, depth);
      Joined(fields, MemberFields(m, depth), AllFields(members[i + 1..], depth));
      if m.offset.None? {
        assert fields + [] == fields;
        continue;
      }
      if m.inner.Some? {
        var inner := StructLayout(m.inner.value, depth + 1);
        if inner.Some? {
          var expanded := Expand(m.offset.value, OuterName(m), inner.value.entries);
          fields := fields + expanded;
          continue;
        }
      }
      fields := fields + [OwnField(m)];
    }
    NoFields(members, depth);
    assert fields + [] == fields;
  }

  lemma AllFieldsStep(members: seq<Member>, i: nat, depth: nat)
    requires i < |members|
    ensures AllFields(members[i..], depth) == MemberFields(members[i], depth) + AllFields(members[i + 1..], depth)
  {
    hide MemberFields;
    assert members[i..][1..] == members[i + 1..];
  }

  lemma NoFields(members: seq<Member>, depth: nat)
    ensures AllFields(members[|members|..], depth) == []
  {
  }

  lemma Joined(a: seq<Field>, b: seq<Field>, c: seq<Field>)
    ensures a + (b + c) == (a + b) + c
  {
  }

  // ---------- the sort ----------

  predicate Ordered(fields: seq<Field>) {
    forall i, j | 0 <= i < j < |fields| :: !KeyLess(fields[j], fields[i])
  }

  lemma {:induction false} InsertKeeps(f: Field, fields: seq<Field>)
    requires Ordered(fields)
    ensures Ordered(Insert(f, fields)) && multiset(Insert(f, fields)) == multiset{f} + multiset(fields)
  {
    InsertAdds(f, fields);
    if fields != [] && !KeyLess(f, fields[0]) {
      var rest := fields[1..];
      InsertKeeps(f, rest);
      var r := Insert(f, rest);
      forall i | 0 <= i < |r| ensures !KeyLess(r[i], fields[0]) {
        InsertedFrom(f, rest, r[i]);
      }
    }
  }

  lemma {:induction false} InsertAdds(f: Field, fields: seq<Field>)
    ensures multiset(Insert(f, fields)) == multiset{f} + multiset(fields)
  {
    hide KeyLess;
    if fields == [] || KeyLess(f, fields[0]) {
      assert multiset([f] + fields) == multiset{f} + multiset(fields);
    } else {
      InsertAdds(f, fields[1..]);
      assert fields == [fields[0]] + fields[1..];
    }
  }

  lemma InsertedFrom(f: Field, fields: seq<Field>, x: Field)
    requires x in Insert(f, fields)
    ensures x == f || x in fields
  {
    InsertAdds(f, fields);
    assert x in multiset(Insert(f, fields));
    hide Insert;
  }

  lemma SortStep(init: seq<Field>, f: Field)
    ensures Sort(init + [f]) == Insert(f, Sort(init))
  {
    assert (init + [f])[..|init|] == init;
    hide Insert;
  }

  lemma SortNothing()
    ensures Sort([]) == []
  {
  }

  lemma Snoc<T>(a: seq<T>, x: T)
    ensures multiset(a + [x]) == multiset(a) + multiset{x}
  {
  }

  /** By offset, and at one offset by size, an unknown one counting as 0. */
  lemma OrderedIs(fields: seq<Field>, i: nat, j: nat)
    requires Ordered(fields) && i < j < |fields|
    ensures fields[i].offset <= fields[j].offset
    ensures fields[i].offset == fields[j].offset ==> match (fields[i].size, fields[j].size)
      case (Some(a), Some(b)) => a <= b
      case (Some(a), None) => a == 0
      case _ => true
  {
    assert !KeyLess(fields[j], fields[i]);
  }

  lemma {:induction false} SortSorts(fields: seq<Field>)
    ensures Ordered(Sort(fields)) && multiset(Sort(fields)) == multiset(fields)
  {
    if fields == [] {
      SortNothing();
    } else {
      hide *;
      var init, f := fields[..|fields| - 1], fields[|fields| - 1];
      assert fields == init + [f];
      SortSorts(init);
      SortStep(init, f);
      InsertKeeps(f, Sort(init));
      Snoc(init, f);
    }
  }

  predicate SameKey(a: Field, b: Field) { a.offset == b.offset && Sized(a) == Sized(b) }

  function WithKey(k: Field, fields: seq<Field>): seq<Field> {
    if fields == [] then [] else (if SameKey(k, fields[0]) then [fields[0]] else []) + WithKey(k, fields[1..])
  }

  lemma {:induction false} WithKeyAppend(k: Field, a: seq<Field>, b: seq<Field>)
    ensures WithKey(k, a + b) == WithKey(k, a) + WithKey(k, b)
  {
    if a == [] {
      assert a + b == b;
    } else {
      assert (a + b)[1..] == a[1..] + b;
      WithKeyAppend(k, a[1..], b);
    }
  }

  lemma {:induction false} NoneWithKey(k: Field, fields: seq<Field>)
    requires forall i | 0 <= i < |fields| :: KeyLess(k, fields[i])
    ensures WithKey(k, fields) == []
  {
    if fields != [] {
      NoneWithKey(k, fields[1..]);
    }
  }

  lemma {:induction false} InsertIsStable(k: Field, f: Field, fields: seq<Field>)
    requires Ordered(fields)
    ensures WithKey(k, Insert(f, fields)) == WithKey(k, fields + [f])
  {
    WithKeyAppend(k, fields, [f]);
    if fields == [] {
      assert [f] + fields == fields + [f];
    } else if KeyLess(f, fields[0]) {
      InsertedFirst(k, f, fields);
    } else {
      hide SameKey;
      InsertIsStable(k, f, fields[1..]);
      WithKeyAppend(k, fields[1..], [f]);
      WithKeyAppend(k, [fields[0]], Insert(f, fields[1..]));
      WithKeyAppend(k, [fields[0]], fields[1..]);
      assert fields == [fields[0]] + fields[1..];
      hide WithKey, KeyLess;
    }
  }

  lemma InsertedFirst(k: Field, f: Field, fields: seq<Field>)
    requires Ordered(fields) && fields != [] && KeyLess(f, fields[0])
    ensures WithKey(k, [f] + fields) == WithKey(k, fields) + WithKey(k, [f])
  {
    assert ([f] + fields)[1..] == fields && [f][1..] == [];
    if SameKey(k, f) {
      forall i | 0 <= i < |fields| ensures KeyLess(k, fields[i]) {
        assert i > 0 ==> !KeyLess(fields[i], fields[0]);
      }
      NoneWithKey(k, fields);
    }
    hide SameKey, KeyLess;
  }

  /** Fields of equal key stay in the order in which they were declared. */
  lemma {:induction false} SortIsStable(k: Field, fields: seq<Field>)
    ensures WithKey(k, Sort(fields)) == WithKey(k, fields)
  {
    if fields != [] {
      var last := |fields| - 1;
      SortSorts(fields[..last]);
      SortIsStable(k, fields[..last]);
      InsertIsStable(k, fields[last], Sort(fields[..last]));
      WithKeyAppend(k, Sort(fields[..last]), [fields[last]]);
      WithKeyAppend(k, fields[..last], [fields[last]]);
      assert fields == fields[..last] + [fields[last]];
    }
  }

  // ---------- what the padding fills ----------

  predicate Covers(e: Entry, b: int) {
    match e
    case Pad(start, length) => start <= b < start + length
    case Real(f) => f.offset <= b < f.offset + Sized(f)
  }

  predicate PadCovers(entries: seq<Entry>, b: int) { exists i | 0 <= i < |entries| :: entries[i].Pad? && Covers(entries[i], b) }

  predicate FieldCovers(fields: seq<Field>, b: int) { exists f | f in fields :: Covers(Real(f), b) }

  /** b lies before the struct size or before the end of some field. */
  predicate Within(fields: seq<Field>, total: nat, b: int) {
    b < total || exists f | f in fields :: b < f.offset + Sized(f)
  }

  predicate ByOffset(fields: seq<Field>) { forall i, j | 0 <= i < j < |fields| :: fields[i].offset <= fields[j].offset }

  lemma PadStep(fields: seq<Field>, cursor: int, total: nat, b: int)
    requires fields != []
    ensures PadCovers(PadFrom(fields, cursor, total), b) <==>
      cursor <= b < fields[0].offset || PadCovers(PadFrom(fields[1..], NextCursor(cursor, fields[0]), total), b)
  {
    hide NextCursor;
    var f, rest := fields[0], PadFrom(fields[1..], NextCursor(cursor, fields[0]), total);
    var all := PadFrom(fields, cursor, total);
    var n := if f.offset > cursor then 2 else 1;
    assert all[n..] == rest && |all| == n + |rest|;
    if i :| 0 <= i < |rest| && rest[i].Pad? && Covers(rest[i], b) {
      assert all[n + i] == rest[i];
    }
    if cursor <= b < f.offset {
      assert all[0] == Pad(cursor, f.offset - cursor);
    }
    if i :| 0 <= i < |all| && all[i].Pad? && Covers(all[i], b) {
      if i >= n {
        assert rest[i - n] == all[i];
      }
    }
  }

  /** From the cursor on, a byte is padding exactly when it lies within the struct and in no field. */
  lemma {:induction false} PaddingFrom(fields: seq<Field>, cursor: int, total: nat, b: int)
    requires ByOffset(fields)
    ensures PadCovers(PadFrom(fields, cursor, total), b) <==> cursor <= b && Within(fields, total, b) && !FieldCovers(fields, b)
  {
    if fields == [] {
      var all := PadFrom(fields, cursor, total);
      if cursor <= b < total {
        assert all[0] == Pad(cursor, total - cursor);
      }
    } else {
      var f, rest := fields[0], fields[1..];
      PadStep(fields, cursor, total, b);
      PaddingFrom(rest, NextCursor(cursor, f), total, b);
      hide PadCovers, PadFrom;
      assert FieldCovers(fields, b) <==> Covers(Real(f), b) || FieldCovers(rest, b) by {
        if g :| g in rest && Covers(Real(g), b) {
          assert g in fields;
        }
        assert forall g | g in fields :: g == f || g in rest;
        assert f in fields;
      }
      assert Within(fields, total, b) <==> b < f.offset + Sized(f) || Within(rest, total, b) by {
        if g :| g in rest && b < g.offset + Sized(g) {
          assert g in fields;
        }
        assert forall g | g in fields :: g == f || g in rest;
        assert f in fields;
      }
      if b < f.offset {
        assert !FieldCovers(rest, b) by {
          forall g | g in rest ensures !Covers(Real(g), b) {
            var j :| 0 <= j < |rest| && rest[j] == g;
            assert fields[j + 1] == g;
          }
        }
      }
      hide FieldCovers, Within;
    }
  }

  /** Two pads with a byte in common. */
  predicate PadsApart(entries: seq<Entry>) {
    forall i, j | 0 <= i < j < |entries| && entries[i].Pad? && entries[j].Pad? ::
      entries[i].start + entries[i].length <= entries[j].start
  }

  /** A field of unknown (or zero) size that opens a gap must be the very end of the layout. */
  predicate GapsClosed(fields: seq<Field>, cursor: int, total: nat) {
    fields == [] ||
    var f := fields[0];
    && (Sized(f) == 0 && f.offset > cursor ==> |fields| == 1 && total <= cursor)
    && GapsClosed(fields[1..], NextCursor(cursor, f), total)
  }

  lemma {:induction false} PadsStart(fields: seq<Field>, cursor: int, total: nat)
    ensures forall e | e in PadFrom(fields, cursor, total) && e.Pad? :: e.start >= cursor && e.length > 0
  {
    if fields != [] {
      PadsStart(fields[1..], NextCursor(cursor, fields[0]), total);
    }
  }

  predicate StartAfter(entries: seq<Entry>, b: int) {
    forall j | 0 <= j < |entries| && entries[j].Pad? :: b <= entries[j].start
  }

  lemma ApartCons(e: Entry, rest: seq<Entry>)
    ensures PadsApart([e] + rest) <==> PadsApart(rest) && (e.Pad? ==> StartAfter(rest, e.start + e.length))
  {
    var all := [e] + rest;
    assert forall j | 0 <= j < |rest| :: all[j + 1] == rest[j];
    if PadsApart(all) {
      forall i, j | 0 <= i < j < |rest| && rest[i].Pad? && rest[j].Pad?
        ensures rest[i].start + rest[i].length <= rest[j].start
      {
        assert all[i + 1].Pad? && all[j + 1].Pad?;
      }
      forall j | e.Pad? && 0 <= j < |rest| && rest[j].Pad? ensures e.start + e.length <= rest[j].start {
        assert all[0].Pad? && all[j + 1].Pad?;
      }
    }
  }

  lemma StartAfterField(f: Field, rest: seq<Entry>)
    ensures StartAfter([Real(f)] + rest, f.offset) <==> StartAfter(rest, f.offset)
  {
    assert forall j | 0 <= j < |rest| :: ([Real(f)] + rest)[j + 1] == rest[j];
  }

  lemma PadFromCons(fields: seq<Field>, cursor: int, total: nat)
    requires fields != []
    ensures var f := fields[0];
      var tail := [Real(f)] + PadFrom(fields[1..], NextCursor(cursor, f), total);
      PadFrom(fields, cursor, total) == if f.offset > cursor then [Pad(cursor, f.offset - cursor)] + tail else tail
  {
    hide NextCursor;
  }

  lemma ApartStep(fields: seq<Field>, cursor: int, total: nat)
    requires fields != []
    ensures var rest := PadFrom(fields[1..], NextCursor(cursor, fields[0]), total);
      PadsApart(PadFrom(fields, cursor, total)) <==>
        PadsApart(rest) && (fields[0].offset > cursor ==> StartAfter(rest, fields[0].offset))
  {
    hide *;
    var f, rest := fields[0], PadFrom(fields[1..], NextCursor(cursor, fields[0]), total);
    PadFromCons(fields, cursor, total);
    ApartCons(Real(f), rest);
    if f.offset > cursor {
      ApartCons(Pad(cursor, f.offset - cursor), [Real(f)] + rest);
      StartAfterField(f, rest);
    }
  }

  /** The pads do not overlap exactly when no field of unknown size opens a gap before something else. */
  lemma {:induction false} PadsApartIff(fields: seq<Field>, cursor: int, total: nat)
    requires ByOffset(fields)
    ensures PadsApart(PadFrom(fields, cursor, total)) <==> GapsClosed(fields, cursor, total)
  {
    if fields != [] {
      var f, rest := fields[0], fields[1..];
      var next := NextCursor(cursor, f);
      var r := PadFrom(rest, next, total);
      PadsApartIff(rest, next, total);
      ApartStep(fields, cursor, total);
      PadsStart(rest, next, total);
      if f.offset > cursor {
        if Sized(f) > 0 {
          assert StartAfter(r, f.offset) by {
            assert forall j | 0 <= j < |r| && r[j].Pad? :: r[j] in r;
          }
        } else if rest != [] {
          assert fields[0].offset <= fields[1].offset;
          assert r[0] == Pad(cursor, rest[0].offset - cursor);
        } else if total > cursor {
          assert r[0] == Pad(cursor, total - cursor);
        }
      }
    }
  }

  lemma {:induction false} KnownSizesClose(fields: seq<Field>, cursor: int, total: nat)
    requires forall f | f in fields :: Sized(f) > 0
    ensures GapsClosed(fields, cursor, total)
  {
    if fields != [] {
      KnownSizesClose(fields[1..], NextCursor(cursor, fields[0]), total);
    }
  }

  lemma {:induction false} RealsOfPadded(fields: seq<Field>, cursor: int, total: nat)
    ensures Reals(PadFrom(fields, cursor, total)) == fields
  {
    var all := PadFrom(fields, cursor, total);
    if fields == [] {
      if cursor < total {
        assert all[1..] == [];
      }
    } else {
      var f, rest := fields[0], PadFrom(fields[1..], NextCursor(cursor, fields[0]), total);
      RealsOfPadded(fields[1..], NextCursor(cursor, f), total);
      var n := if f.offset > cursor then 2 else 1;
      assert all == (if n == 2 then [Pad(cursor, f.offset - cursor), Real(f)] else [Real(f)]) + rest;
      assert ([Real(f)] + rest)[1..] == rest;
      if n == 2 {
        assert all[1..] == [Real(f)] + rest;
      }
      assert fields == [f] + fields[1..];
    }
  }

  lemma OrderedByOffset(fields: seq<Field>)
    requires Ordered(fields)
    ensures ByOffset(fields)
  {
    forall i, j | 0 <= i < j < |fields| ensures fields[i].offset <= fields[j].offset {
      assert !KeyLess(fields[j], fields[i]);
    }
  }

  /** Main result on padding: the layout shows the flattened fields in offset order, and a byte from 0 on is
      padding exactly when it lies within the struct size or some field's end and in no field. */
  lemma PaddingIsTheGaps(s: Struct, b: int)
    requires b >= 0
    ensures var fields, entries := AllFields(s.members, 0), LayoutOf(s, 0).value.entries;
      && multiset(Reals(entries)) == multiset(fields) && Ordered(Reals(entries))
      && (PadCovers(entries, b) <==> Within(Reals(entries), Total(s), b) && !FieldCovers(Reals(entries), b))
  {
    var fields := AllFields(s.members, 0);
    hide AllFields, PadCovers, Within, FieldCovers, PadFrom, Sort, Reals;
    SortSorts(fields);
    OrderedByOffset(Sort(fields));
    RealsOfPadded(Sort(fields), 0, Total(s));
    PaddingFrom(Sort(fields), 0, Total(s), b);
  }

  /** No pad overlaps another exactly when no sizeless field opens a gap before the end; so never when all
      sizes are known and positive. */
  lemma PadsDisjoint(s: Struct)
    ensures var fields, entries := Sort(AllFields(s.members, 0)), LayoutOf(s, 0).value.entries;
      && (PadsApart(entries) <==> GapsClosed(fields, 0, Total(s)))
      && ((forall f | f in fields :: Sized(f) > 0) ==> PadsApart(entries))
  {
    var fields := AllFields(s.members, 0);
    hide AllFields, PadsApart, GapsClosed, PadFrom, Sort;
    SortSorts(fields);
    OrderedByOffset(Sort(fields));
    PadsApartIff(Sort(fields), 0, Total(s));
    if forall f | f in Sort(fields) :: Sized(f) > 0 {
      KnownSizesClose(Sort(fields), 0, Total(s));
    }
  }

  // ---------- expanded members ----------

  function ShiftBy(base: int, prefix: string, f: Field): Field { f.(offset := base + f.offset, name := prefix + f.name) }

  function ShiftAllBy(base: int, prefix: string, fields: seq<Field>): seq<Field> {
    if fields == [] then [] else [ShiftBy(base, prefix, fields[0])] + ShiftAllBy(base, prefix, fields[1..])
  }

  /** The leaf fields of a member in declaration order, each at the sum of the offsets on its path; anonymous structs are
      opened eight deep. */
  function Leaves(m: Member, depth: nat, base: int, prefix: string): seq<Field>
    decreases m, 0
  {
    if m.offset.None? then []
    else if m.inner.Some? && depth < 8 then
      AllLeaves(m.inner.value.members, depth + 1, base + m.offset.value, prefix + (if m.name == "" then "anon" else m.name) + ".")
    else
      var name := if m.name == "" then "field_" + Hex(m.offset.value) else m.name;
      [Field(base + m.offset.value, m.size, prefix + name, m.kind, m.ptr, m.pointee)]
  }

  function AllLeaves(members: seq<Member>, depth: nat, base: int, prefix: string): seq<Field>
    decreases members, 1
  {
    if members == [] then [] else Leaves(members[0], depth, base, prefix) + AllLeaves(members[1..], depth, base, prefix)
  }

  lemma {:induction false} ShiftAppend(base: int, prefix: string, a: seq<Field>, b: seq<Field>)
    ensures ShiftAllBy(base, prefix, a + b) == ShiftAllBy(base, prefix, a) + ShiftAllBy(base, prefix, b)
  {
    if a == [] {
      assert a + b == b;
    } else {
      assert (a + b)[1..] == a[1..] + b;
      ShiftAppend(base, prefix, a[1..], b);
    }
  }

  lemma {:induction false} ShiftInsert(base: int, prefix: string, f: Field, fields: seq<Field>)
    ensures multiset(ShiftAllBy(base, prefix, Insert(f, fields)))
         == multiset{ShiftBy(base, prefix, f)} + multiset(ShiftAllBy(base, prefix, fields))
  {
    hide ShiftBy, KeyLess;
    if fields == [] || KeyLess(f, fields[0]) {
      assert ([f] + fields)[1..] == fields;
    } else {
      ShiftInsert(base, prefix, f, fields[1..]);
      assert ([fields[0]] + Insert(f, fields[1..]))[1..] == Insert(f, fields[1..]);
    }
  }

  lemma {:induction false} ShiftSort(base: int, prefix: string, fields: seq<Field>)
    ensures multiset(ShiftAllBy(base, prefix, Sort(fields))) == multiset(ShiftAllBy(base, prefix, fields))
  {
    hide *;
    if fields == [] {
      SortNothing();
    } else {
      var init, f := fields[..|fields| - 1], fields[|fields| - 1];
      assert fields == init + [f];
      ShiftSort(base, prefix, init);
      SortStep(init, f);
      ShiftInsert(base, prefix, f, Sort(init));
      ShiftAppend(base, prefix, init, [f]);
      ShiftOne(base, prefix, f);
      Snoc(ShiftAllBy(base, prefix, init), ShiftBy(base, prefix, f));
    }
  }

  lemma ShiftOne(base: int, prefix: string, f: Field)
    ensures ShiftAllBy(base, prefix, [f]) == [ShiftBy(base, prefix, f)]
  {
    assert [f][1..] == [];
  }

  lemma {:induction false} ShiftTwice(base: int, prefix: string, offset: int, outer: string, fields: seq<Field>)
    ensures ShiftAllBy(base, prefix, ShiftAll(offset, outer, fields)) == ShiftAllBy(base + offset, prefix + outer + ".", fields)
  {
    if fields != [] {
      ShiftTwice(base, prefix, offset, outer, fields[1..]);
      var f := fields[0];
      assert prefix + (outer + "." + f.name) == prefix + outer + "." + f.name;
      assert ShiftAll(offset, outer, fields)[1..] == ShiftAll(offset, outer, fields[1..]);
    }
  }

  lemma ExpandedFields(m: Member, depth: nat)
    requires m.offset.Some? && m.inner.Some? && depth < MAX_DEPTH
    ensures MemberFields(m, depth) == ShiftAll(m.offset.value, OuterName(m), Sort(AllFields(m.inner.value.members, depth + 1)))
  {
    var s := m.inner.value;
    RealsOfPadded(Sort(AllFields(s.members, depth + 1)), 0, Total(s));
    hide Sort, ShiftAll, PadFrom, Reals;
  }

  lemma OwnOnly(m: Member, depth: nat)
    requires m.offset.Some? && !(m.inner.Some? && depth < MAX_DEPTH) && depth <= MAX_DEPTH
    ensures MemberFields(m, depth) == [OwnField(m)]
  {
    hide OwnField, Sort, ShiftAll, PadFrom, Reals;
  }

  lemma NoLeaves(m: Member, depth: nat, base: int, prefix: string)
    requires m.offset.None?
    ensures ShiftAllBy(base, prefix, MemberFields(m, depth)) == [] && Leaves(m, depth, base, prefix) == []
  {
  }

  lemma InnerLeaves(m: Member, depth: nat, base: int, prefix: string)
    requires m.offset.Some? && m.inner.Some? && depth < MAX_DEPTH
    ensures Leaves(m, depth, base, prefix) ==
      AllLeaves(m.inner.value.members, depth + 1, base + m.offset.value, prefix + OuterName(m) + ".")
  {
    hide AllLeaves;
  }

  lemma OwnLeaf(m: Member, depth: nat, base: int, prefix: string)
    requires m.offset.Some? && !(m.inner.Some? && depth < MAX_DEPTH)
    ensures Leaves(m, depth, base, prefix) == [ShiftBy(base, prefix, OwnField(m))]
  {
    hide AllLeaves, Hex;
  }

  lemma {:induction false} MemberLeaves(m: Member, depth: nat, base: int, prefix: string)
    requires depth <= MAX_DEPTH
    ensures multiset(ShiftAllBy(base, prefix, MemberFields(m, depth))) == multiset(Leaves(m, depth, base, prefix))
    decreases m, 0
  {
    hide *;
    if m.offset.None? {
      NoLeaves(m, depth, base, prefix);
    } else {
      if m.inner.Some? && depth < MAX_DEPTH {
        var s := m.inner.value;
        var fields, b, p := AllFields(s.members, depth + 1), base + m.offset.value, prefix + OuterName(m) + ".";
        ExpandedFields(m, depth);
        ShiftTwice(base, prefix, m.offset.value, OuterName(m), Sort(fields));
        ShiftSort(b, p, fields);
        LeavesAgree(s.members, depth + 1, b, p);
        InnerLeaves(m, depth, base, prefix);
      } else {
        OwnOnly(m, depth);
        ShiftOne(base, prefix, OwnField(m));
        OwnLeaf(m, depth, base, prefix);
      }
    }
  }

  lemma {:induction false} LeavesAgree(members: seq<Member>, depth: nat, base: int, prefix: string)
    requires depth <= MAX_DEPTH
    ensures multiset(ShiftAllBy(base, prefix, AllFields(members, depth))) == multiset(AllLeaves(members, depth, base, prefix))
    decreases members, 1
  {
    hide MemberFields, Leaves, ShiftBy;
    if members != [] {
      MemberLeaves(members[0], depth, base, prefix);
      LeavesAgree(members[1..], depth, base, prefix);
      ShiftAppend(base, prefix, MemberFields(members[0], depth), AllFields(members[1..], depth));
    }
  }

  lemma {:induction false} ShiftByNothing(fields: seq<Field>)
    ensures ShiftAllBy(0, "", fields) == fields
  {
    if fields != [] {
      ShiftByNothing(fields[1..]);
      assert "" + fields[0].name == fields[0].name;
      assert fields == [fields[0]] + fields[1..];
    }
  }

  /** The layout shows every leaf field once, at the sum of the offsets of the anonymous structs around it. */
  lemma LeavesKeepTheirOffsets(s: Struct)
    ensures multiset(Reals(LayoutOf(s, 0).value.entries)) == multiset(AllLeaves(s.members, 0, 0, ""))
  {
    var fields := AllFields(s.members, 0);
    LeavesAgree(s.members, 0, 0, "");
    ShiftByNothing(fields);
    SortSorts(fields);
    RealsOfPadded(Sort(fields), 0, Total(s));
    hide AllFields, AllLeaves, Sort, PadFrom, Reals;
  }

  /** A struct of 12 bytes whose member at 4 has no size and whose member at 8 has 4 bytes: the gap before the
      first is padded again before the second. */
  lemma OverlapExample(s: Struct, depth: nat)
    requires depth <= MAX_DEPTH && s.size == Some(12) && |s.members| == 2
    requires var a, b := s.members[0], s.members[1];
      a.offset == Some(4) && a.size == None && b.offset == Some(8) && b.size == Some(4) && a.inner == b.inner == None
    ensures LayoutOf(s, depth).Some? && !PadsApart(LayoutOf(s, depth).value.entries)
  {
    var a, b := OwnField(s.members[0]), OwnField(s.members[1]);
    TwoMembers(s.members, depth);
    TwoSorted(a, b);
    assert AllFields(s.members, depth) == [a, b];
    hide AllFields, Sort, PadsApart, OwnField;
    PadsApartIff([a, b], 0, 12);
    assert [a, b][1..] == [b] && [b][1..] == [];
  }

  lemma TwoMembers(members: seq<Member>, depth: nat)
    requires |members| == 2 && members[0].offset.Some? && members[1].offset.Some?
    requires members[0].inner == members[1].inner == None
    ensures AllFields(members, depth) == [OwnField(members[0]), OwnField(members[1])]
  {
    hide OwnField;
    assert members[1..][1..] == [] && members[1..][0] == members[1];
    assert AllFields(members[1..], depth) == [OwnField(members[1])] + AllFields(members[1..][1..], depth);
  }

  lemma TwoSorted(a: Field, b: Field)
    requires a.offset < b.offset
    ensures Sort([a, b]) == [a, b]
  {
    assert [a, b][..1] == [a] && [a][..0] == [];
    assert Sort([a]) == Insert(a, Sort([])) == [a];
    assert [a][1..] == [];
    assert Insert(b, [a]) == [a] + Insert(b, []);
  }
}
