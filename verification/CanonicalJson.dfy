/**
 The canonical JSON encoding (canonical-json.ts) on plain values, over text as JavaScript holds
 it: a sequence of UTF-16 code units.
 */
module CanonicalJson {
  import opened Prelude

  /** A plain value. A number is taken as the text it is written as; the members of an object are
      in insertion order. */
  datatype Value =
    | Undefined
    | Null
    | Bool(b: bool)
    | Num(digits: Text)
    | Str(s: Text)
    | Arr(items: seq<Value>)
    | Obj(members: seq<Member>)

  datatype Member = Member(key: Text, val: Value)

  // ---------------------------------------------------------------- characters

  const QUOTE: Unit := 0x22
  const COMMA: Unit := 0x2C
  const COLON: Unit := 0x3A
  const OPEN_BRACKET: Unit := 0x5B
  const CLOSE_BRACKET: Unit := 0x5D
  const OPEN_BRACE: Unit := 0x7B
  const CLOSE_BRACE: Unit := 0x7D
  const LETTER_U: Unit := 0x75
  const NULL_TEXT: Text := [0x6E, 0x75, 0x6C, 0x6C]
  const TRUE_TEXT: Text := [0x74, 0x72, 0x75, 0x65]
  const FALSE_TEXT: Text := [0x66, 0x61, 0x6C, 0x73, 0x65]

  /** A digit, or one of + - . e E. */
  predicate NumberUnit(c: Unit) {
    0x30 <= c <= 0x39 || c == 0x2B || c == 0x2D || c == 0x2E || c == 0x65 || c == 0x45
  }

  predicate NumberText(t: Text) {
    t != [] && forall i :: 0 <= i < |t| ==> NumberUnit(t[i])
  }

  /** What every value built from JSON-like data is: numbers have a text, keys are distinct. */
  predicate Plain(v: Value) {
    match v
    case Num(digits) => NumberText(digits)
    case Arr(items) => forall i :: 0 <= i < |items| ==> Plain(items[i])
    case Obj(members) =>
      && DistinctKeys(members)
      && forall i :: 0 <= i < |members| ==> Plain(members[i].val)
    case _ => true
  }

  predicate DistinctKeys(ms: seq<Member>) {
    forall i, j :: 0 <= i < j < |ms| ==> ms[i].key != ms[j].key
  }

  // ---------------------------------------------------------------- JSON.stringify of strings

  function HexUnit(d: int): Unit
    requires 0 <= d < 16
  {
    if d < 10 then 0x30 + d else 0x61 + d - 10
  }

  function UnicodeEscape(c: Unit): Text {
    [BACKSLASH, LETTER_U, HexUnit(c / 16 / 16 / 16), HexUnit(c / 16 / 16 % 16), HexUnit(c / 16 % 16), HexUnit(c % 16)]
  }

  /** The letter after the backslash for the seven characters with a short escape. */
  function ShortEscape(c: Unit): Option<Unit> {
    if c == 0x08 then Some(0x62)
    else if c == 0x09 then Some(0x74)
    else if c == 0x0A then Some(0x6E)
    else if c == 0x0C then Some(0x66)
    else if c == 0x0D then Some(0x72)
    else if c == QUOTE || c == BACKSLASH then Some(c)
    else None
  }

  /** A unit that is not part of a surrogate pair. */
  function EscapeUnit(c: Unit): Text {
    if ShortEscape(c).Some? then [BACKSLASH, ShortEscape(c).value]
    else if c < 0x20 || HighSurrogate(c) || LowSurrogate(c) then UnicodeEscape(c)
    else [c]
  }

  function Escape(s: Text): Text {
    if s == [] then []
    else if |s| > 1 && HighSurrogate(s[0]) && LowSurrogate(s[1]) then s[..2] + Escape(s[2..])
    else EscapeUnit(s[0]) + Escape(s[1..])
  }

  function Quoted(s: Text): Text {
    [QUOTE] + Escape(s) + [QUOTE]
  }

  // ---------------------------------------------------------------- the encoder

  /** Order of strings by code units. */
  predicate Less(a: Text, b: Text) {
    b != [] && (a == [] || a[0] < b[0] || (a[0] == b[0] && Less(a[1..], b[1..])))
  }

  function InsertMember(m: Member, sorted: seq<Member>): seq<Member> {
    if sorted == [] || Less(m.key, sorted[0].key) then [m] + sorted
    else [sorted[0]] + InsertMember(m, sorted[1..])
  }

  function SortMembers(ms: seq<Member>): seq<Member> {
    if ms == [] then [] else InsertMember(ms[0], SortMembers(ms[1..]))
  }

  function DropUndefined(ms: seq<Member>): seq<Member> {
    if ms == [] then []
    else (if ms[0].val.Undefined? then [] else [ms[0]]) + DropUndefined(ms[1..])
  }

  /** The members that are written, in the order they are written. */
  function Entries(ms: seq<Member>): (r: seq<Member>)
    ensures forall i :: 0 <= i < |r| ==> exists j :: 0 <= j < |ms| && ms[j] == r[i] && !r[i].val.Undefined?
  {
    EntriesAreMembers(ms);
    SortMembers(DropUndefined(ms))
  }

  function Canonical(v: Value): Text
    requires !v.Undefined?
    decreases v, 1
  {
    match v
    case Arr(_) => [OPEN_BRACKET] + Join(ItemTexts(v), COMMA) + [CLOSE_BRACKET]
    case Obj(_) => [OPEN_BRACE] + Join(EntryTexts(v), COMMA) + [CLOSE_BRACE]
    case Null => NULL_TEXT
    case Bool(b) => if b then TRUE_TEXT else FALSE_TEXT
    case Num(digits) => digits
    case Str(s) => Quoted(s)
  }

  function ItemTexts(v: Value): seq<Text>
    requires v.Arr?
    decreases v, 0
  {
    seq(|v.items|, i requires 0 <= i < |v.items| =>
      if v.items[i].Undefined? then NULL_TEXT else Canonical(v.items[i]))
  }

  function EntryTexts(v: Value): seq<Text>
    requires v.Obj?
    decreases v, 0
  {
    var entries := Entries(v.members);
    seq(|entries|, i requires 0 <= i < |entries| =>
      Quoted(entries[i].key) + [COLON] + Canonical(entries[i].val))
  }

  /** The whole call; undefined itself has no encoding. */
  function CanonicalJsonString(v: Value): Option<Text> {
    if v.Undefined? then None else Some(Canonical(v))
  }

  // ---------------------------------------------------------------- meaning

  predicate Nullish(v: Value) { v.Null? || v.Undefined? }

  /** What reading property `k` of an object gives. */
  function Lookup(ms: seq<Member>, k: Text): (r: Value)
    ensures r.Undefined? || exists i :: 0 <= i < |ms| && ms[i].key == k && ms[i].val == r
  {
    if ms == [] then Undefined
    else if ms[0].key == k then ms[0].val
    else
      assert forall i :: 0 <= i < |ms[1..]| ==> ms[1..][i] == ms[i + 1];
      Lookup(ms[1..], k)
  }

  /** Equal up to key order, undefined members and undefined items read as null. */
  ghost predicate Same(a: Value, b: Value) {
    match a
    case Arr(items) =>
      && b.Arr? && |items| == |b.items|
      && forall i :: 0 <= i < |items| ==>
           if Nullish(items[i]) then Nullish(b.items[i]) else Same(items[i], b.items[i])
    case Obj(members) =>
      && b.Obj?
      && forall k: Text ::
           if Lookup(members, k).Undefined? then Lookup(b.members, k).Undefined?
           else Same(Lookup(members, k), Lookup(b.members, k))
    case _ => a == b
  }

  /** The normal form: undefined items are null, undefined members are gone, keys are sorted. */
  function Norm(v: Value): Value
    decreases v, 1
  {
    match v
    case Arr(_) => Arr(NormItems(v))
    case Obj(_) => Obj(NormMembers(v))
    case _ => v
  }

  function NormItems(v: Value): seq<Value>
    requires v.Arr?
    decreases v, 0
  {
    seq(|v.items|, i requires 0 <= i < |v.items| => if v.items[i].Undefined? then Null else Norm(v.items[i]))
  }

  function NormMembers(v: Value): seq<Member>
    requires v.Obj?
    decreases v, 0
  {
    var entries := Entries(v.members);
    seq(|entries|, i requires 0 <= i < |entries| => Member(entries[i].key, Norm(entries[i].val)))
  }

  // ---------------------------------------------------------------- the decoder

  datatype Parsed<T> = Bad | Good(val: T, rest: Text)

  function HexValue(c: Unit): Option<int> {
    if 0x30 <= c <= 0x39 then Some(c - 0x30)
    else if 0x61 <= c <= 0x66 then Some(c - 0x61 + 10)
    else None
  }

  function Unescaped(c: Unit): Option<Unit> {
    if c == 0x62 then Some(0x08)
    else if c == 0x74 then Some(0x09)
    else if c == 0x6E then Some(0x0A)
    else if c == 0x66 then Some(0x0C)
    else if c == 0x72 then Some(0x0D)
    else if c == QUOTE || c == BACKSLASH then Some(c)
    else None
  }

  function FourHex(t: Text): Option<Unit>
    requires |t| >= 4
  {
    var d := seq(4, i requires 0 <= i < 4 => HexValue(t[i]));
    if d[0].Some? && d[1].Some? && d[2].Some? && d[3].Some?
    then Some(d[0].value * 4096 + d[1].value * 256 + d[2].value * 16 + d[3].value)
    else None
  }

  /** One character of a string: a unit, or an escape. */
  function ReadUnit(t: Text): (r: Parsed<Unit>)
    requires t != []
    ensures r.Good? ==> |r.rest| < |t|
  {
    if t[0] != BACKSLASH then (if t[0] < 0x20 || t[0] == QUOTE then Bad else Good(t[0], t[1..]))
    else if |t| < 2 then Bad
    else if t[1] == LETTER_U then
      if |t| < 6 || FourHex(t[2..]).None? then Bad else Good(FourHex(t[2..]).value, t[6..])
    else if Unescaped(t[1]).None? then Bad
    else Good(Unescaped(t[1]).value, t[2..])
  }

  /** The characters up to the closing quote. */
  function ReadString(t: Text): (r: Parsed<Text>)
    ensures r.Good? ==> |r.rest| < |t|
    decreases |t|
  {
    if t == [] then Bad
    else if t[0] == QUOTE then Good([], t[1..])
    else
      var u := ReadUnit(t);
      if u.Bad? then Bad
      else
        var s := ReadString(u.rest);
        if s.Bad? then Bad else Good([u.val] + s.val, s.rest)
  }

  function NumberLength(t: Text): (n: nat)
    ensures n <= |t|
  {
    if t == [] || !NumberUnit(t[0]) then 0 else 1 + NumberLength(t[1..])
  }

  function ReadWord(t: Text, word: Text, v: Value): (r: Parsed<Value>)
    requires word != []
    ensures r.Good? ==> |r.rest| < |t|
  {
    if word <= t then Good(v, t[|word|..]) else Bad
  }

  function ReadValue(t: Text): (r: Parsed<Value>)
    ensures r.Good? ==> |r.rest| < |t|
    decreases |t|, 0
  {
    if t == [] then Bad
    else if t[0] == QUOTE then
      var s := ReadString(t[1..]);
      if s.Bad? then Bad else Good(Str(s.val), s.rest)
    else if t[0] == OPEN_BRACKET then
      if |t| > 1 && t[1] == CLOSE_BRACKET then Good(Arr([]), t[2..])
      else
        var items := ReadItems(t[1..]);
        if items.Bad? then Bad else Good(Arr(items.val), items.rest)
    else if t[0] == OPEN_BRACE then
      if |t| > 1 && t[1] == CLOSE_BRACE then Good(Obj([]), t[2..])
      else
        var members := ReadMembers(t[1..]);
        if members.Bad? then Bad else Good(Obj(members.val), members.rest)
    else if NumberUnit(t[0]) then Good(Num(t[..NumberLength(t)]), t[NumberLength(t)..])
    else if t[0] == NULL_TEXT[0] then ReadWord(t, NULL_TEXT, Null)
    else if t[0] == TRUE_TEXT[0] then ReadWord(t, TRUE_TEXT, Bool(true))
    else ReadWord(t, FALSE_TEXT, Bool(false))
  }

  /** One or more items and the closing bracket. */
  function ReadItems(t: Text): (r: Parsed<seq<Value>>)
    ensures r.Good? ==> |r.rest| < |t|
    decreases |t|, 1
  {
    var v := ReadValue(t);
    if v.Bad? || v.rest == [] then Bad
    else if v.rest[0] == CLOSE_BRACKET then Good([v.val], v.rest[1..])
    else if v.rest[0] != COMMA then Bad
    else
      var more := ReadItems(v.rest[1..]);
      if more.Bad? then Bad else Good([v.val] + more.val, more.rest)
  }

  function ReadMember(t: Text): (r: Parsed<Member>)
    ensures r.Good? ==> |r.rest| < |t|
    decreases |t|, 1
  {
    if t == [] || t[0] != QUOTE then Bad
    else
      var key := ReadString(t[1..]);
      if key.Bad? || key.rest == [] || key.rest[0] != COLON then Bad
      else
        var v := ReadValue(key.rest[1..]);
        if v.Bad? then Bad else Good(Member(key.val, v.val), v.rest)
  }

  /** One or more members and the closing brace. */
  function ReadMembers(t: Text): (r: Parsed<seq<Member>>)
    ensures r.Good? ==> |r.rest| < |t|
    decreases |t|, 2
  {
    var m := ReadMember(t);
    if m.Bad? || m.rest == [] then Bad
    else if m.rest[0] == CLOSE_BRACE then Good([m.val], m.rest[1..])
    else if m.rest[0] != COMMA then Bad
    else
      var more := ReadMembers(m.rest[1..]);
      if more.Bad? then Bad else Good([m.val] + more.val, more.rest)
  }

  function Decode(t: Text): Option<Value> {
    var r := ReadValue(t);
    if r.Good? && r.rest == [] then Some(r.val) else None
  }

  // ---------------------------------------------------------------- sorting

  lemma {:induction false} LessIsTotal(a: Text, b: Text)
    ensures a == b || Less(a, b) || Less(b, a)
    ensures !(Less(a, b) && Less(b, a)) && !Less(a, a)
  {
    if a != [] && b != [] && a[0] == b[0] {
      LessIsTotal(a[1..], b[1..]);
      assert a == [a[0]] + a[1..] && b == [b[0]] + b[1..];
    }
    if a != [] { LessIsTotal(a[1..], a[1..]); }
  }

  lemma {:induction false} LessIsTransitive(a: Text, b: Text, c: Text)
    requires Less(a, b) && Less(b, c)
    ensures Less(a, c)
  {
    if a != [] && a[0] == b[0] == c[0] { LessIsTransitive(a[1..], b[1..], c[1..]); }
  }

  predicate Ascending(ms: seq<Member>) {
    forall i, j :: 0 <= i < j < |ms| ==> Less(ms[i].key, ms[j].key)
  }

  lemma {:induction false} InsertKeepsMembers(m: Member, s: seq<Member>)
    ensures forall x :: x in InsertMember(m, s) <==> x == m || x in s
  {
    if !(s == [] || Less(m.key, s[0].key)) {
      InsertKeepsMembers(m, s[1..]);
      assert s == [s[0]] + s[1..];
    }
  }

  lemma {:induction false} InsertKeepsOrder(m: Member, s: seq<Member>)
    requires Ascending(s) && forall x :: x in s ==> x.key != m.key
    ensures Ascending(InsertMember(m, s))
  {
    if s == [] {
    } else if Less(m.key, s[0].key) {
      forall j | 0 < j < |s|
        ensures Less(m.key, s[j].key)
      {
        LessIsTransitive(m.key, s[0].key, s[j].key);
      }
    } else {
      LessIsTotal(m.key, s[0].key);
      InsertKeepsOrder(m, s[1..]);
      InsertKeepsMembers(m, s[1..]);
      var r := InsertMember(m, s[1..]);
      forall j | 0 <= j < |r|
        ensures Less(s[0].key, r[j].key)
      {
        assert r[j] in r;
        if r[j] != m {
          var i :| 0 <= i < |s[1..]| && s[1..][i] == r[j];
          assert s[i + 1] == r[j];
        }
      }
    }
  }

  lemma {:induction false} SortKeepsMembers(ms: seq<Member>)
    ensures forall x :: x in SortMembers(ms) <==> x in ms
  {
    if ms != [] {
      SortKeepsMembers(ms[1..]);
      InsertKeepsMembers(ms[0], SortMembers(ms[1..]));
      assert ms == [ms[0]] + ms[1..];
    }
  }

  lemma {:induction false} SortOrders(ms: seq<Member>)
    requires DistinctKeys(ms)
    ensures Ascending(SortMembers(ms))
  {
    if ms != [] {
      SortOrders(ms[1..]);
      SortKeepsMembers(ms[1..]);
      assert forall x :: x in ms[1..] ==> x.key != ms[0].key;
      InsertKeepsOrder(ms[0], SortMembers(ms[1..]));
    }
  }

  lemma {:induction false} DropKeepsMembers(ms: seq<Member>)
    ensures forall x :: x in DropUndefined(ms) <==> x in ms && !x.val.Undefined?
    ensures DistinctKeys(ms) ==> DistinctKeys(DropUndefined(ms))
  {
    if ms != [] {
      DropKeepsMembers(ms[1..]);
      assert ms == [ms[0]] + ms[1..];
      if DistinctKeys(ms) {
        assert forall x :: x in ms[1..] ==> x.key != ms[0].key;
        assert forall x :: x in DropUndefined(ms[1..]) ==> x.key != ms[0].key;
      }
    }
  }

  lemma EntriesAreMembers(ms: seq<Member>)
    ensures forall x :: x in SortMembers(DropUndefined(ms)) <==> x in ms && !x.val.Undefined?
    ensures forall i :: 0 <= i < |SortMembers(DropUndefined(ms))| ==>
              SortMembers(DropUndefined(ms))[i] in ms && !SortMembers(DropUndefined(ms))[i].val.Undefined?
    ensures DistinctKeys(ms) ==> Ascending(SortMembers(DropUndefined(ms)))
  {
    DropKeepsMembers(ms);
    SortKeepsMembers(DropUndefined(ms));
    if DistinctKeys(ms) { SortOrders(DropUndefined(ms)); }
    forall i | 0 <= i < |SortMembers(DropUndefined(ms))|
      ensures SortMembers(DropUndefined(ms))[i] in ms && !SortMembers(DropUndefined(ms))[i].val.Undefined?
    {
      assert SortMembers(DropUndefined(ms))[i] in SortMembers(DropUndefined(ms));
    }
  }

  // ---------------------------------------------------------------- reading back

  lemma HexReadsBack(d: int)
    requires 0 <= d < 16
    ensures HexValue(HexUnit(d)) == Some(d)
  {
  }

  lemma FourHexReadsBack(c: Unit, rest: Text)
    ensures FourHex(UnicodeEscape(c)[2..] + rest) == Some(c)
  {
    var t := UnicodeEscape(c)[2..] + rest;
    var q1 := c / 16;
    var q2 := q1 / 16;
    HexReadsBack(q2 / 16);
    HexReadsBack(q2 % 16);
    HexReadsBack(q1 % 16);
    HexReadsBack(c % 16);
    assert t[0] == HexUnit(q2 / 16) && t[1] == HexUnit(q2 % 16);
    assert t[2] == HexUnit(q1 % 16) && t[3] == HexUnit(c % 16);
  }

  lemma UnicodeEscapeReadsBack(c: Unit, rest: Text)
    ensures ReadUnit(UnicodeEscape(c) + rest) == Good(c, rest)
  {
    var t := UnicodeEscape(c) + rest;
    assert t[2..] == UnicodeEscape(c)[2..] + rest;
    FourHexReadsBack(c, rest);
    assert t[6..] == rest;
  }

  lemma UnitReadsBack(c: Unit, rest: Text)
    ensures ReadUnit(EscapeUnit(c) + rest) == Good(c, rest)
    ensures EscapeUnit(c)[0] != QUOTE
  {
    if ShortEscape(c).Some? {
      assert (EscapeUnit(c) + rest)[2..] == rest;
    } else if c < 0x20 || HighSurrogate(c) || LowSurrogate(c) {
      UnicodeEscapeReadsBack(c, rest);
    } else {
      assert (EscapeUnit(c) + rest)[1..] == rest;
    }
  }

  lemma StringStep(c: Unit, text: Text, s: Text, after: Text, rest: Text)
    requires text != [] && text[0] != QUOTE && ReadUnit(text + after) == Good(c, after)
    requires ReadString(after) == Good(s, rest)
    ensures ReadString(text + after) == Good([c] + s, rest)
  {
  }

  lemma {:induction false} StringReadsBack(s: Text, rest: Text)
    ensures ReadString(Escape(s) + [QUOTE] + rest) == Good(s, rest)
  {
    if s == [] {
      assert ([QUOTE] + rest)[1..] == rest;
    } else if |s| > 1 && HighSurrogate(s[0]) && LowSurrogate(s[1]) {
      StringReadsBack(s[2..], rest);
      AfterPair(s, rest);
    } else {
      StringReadsBack(s[1..], rest);
      AfterUnit(s, rest);
    }
  }

  lemma AfterPair(s: Text, rest: Text)
    requires |s| > 1 && HighSurrogate(s[0]) && LowSurrogate(s[1])
    requires ReadString(Escape(s[2..]) + [QUOTE] + rest) == Good(s[2..], rest)
    ensures ReadString(Escape(s) + [QUOTE] + rest) == Good(s, rest)
  {
    PairReadsBack(s[0], s[1], s[2..], Escape(s[2..]) + [QUOTE] + rest, rest);
    Regroup(s[..2], Escape(s[2..]), rest);
    assert s[..2] == [s[0], s[1]];
    assert s == [s[0], s[1]] + s[2..];
  }

  lemma AfterUnit(s: Text, rest: Text)
    requires s != [] && !(|s| > 1 && HighSurrogate(s[0]) && LowSurrogate(s[1]))
    requires ReadString(Escape(s[1..]) + [QUOTE] + rest) == Good(s[1..], rest)
    ensures ReadString(Escape(s) + [QUOTE] + rest) == Good(s, rest)
  {
    UnitStringReadsBack(s[0], s[1..], Escape(s[1..]) + [QUOTE] + rest, rest);
    Regroup(EscapeUnit(s[0]), Escape(s[1..]), rest);
    assert s == [s[0]] + s[1..];
  }

  lemma Regroup(first: Text, more: Text, rest: Text)
    ensures (first + more) + [QUOTE] + rest == first + (more + [QUOTE] + rest)
  {
  }

  lemma UnitStringReadsBack(c: Unit, s: Text, after: Text, rest: Text)
    requires ReadString(after) == Good(s, rest)
    ensures ReadString(EscapeUnit(c) + after) == Good([c] + s, rest)
  {
    UnitReadsBack(c, after);
    StringStep(c, EscapeUnit(c), s, after, rest);
  }

  lemma PairReadsBack(high: Unit, low: Unit, s: Text, after: Text, rest: Text)
    requires HighSurrogate(high) && LowSurrogate(low) && ReadString(after) == Good(s, rest)
    ensures ReadString([high, low] + after) == Good([high, low] + s, rest)
  {
    assert ([low] + after)[1..] == after;
    StringStep(low, [low], s, after, rest);
    assert ([high] + ([low] + after))[1..] == [low] + after;
    StringStep(high, [high], [low] + s, [low] + after, rest);
    assert [high, low] + after == [high] + ([low] + after);
    assert [high, low] + s == [high] + ([low] + s);
  }

  predicate Delimited(rest: Text) {
    rest == [] || !NumberUnit(rest[0])
  }

  lemma {:induction false} NumberLengthIs(digits: Text, rest: Text)
    requires forall i :: 0 <= i < |digits| ==> NumberUnit(digits[i])
    requires Delimited(rest)
    ensures NumberLength(digits + rest) == |digits|
  {
    if digits == [] {
      assert digits + rest == rest;
    } else {
      NumberLengthIs(digits[1..], rest);
      assert (digits + rest)[1..] == digits[1..] + rest;
    }
  }

  lemma QuotedReadsBack(s: Text, after: Text)
    ensures Quoted(s) + after != [] && (Quoted(s) + after)[0] == QUOTE
    ensures ReadString((Quoted(s) + after)[1..]) == Good(s, after)
  {
    StringReadsBack(s, after);
    assert (Quoted(s) + after)[1..] == Escape(s) + [QUOTE] + after;
  }

  lemma WordsReadBack(rest: Text)
    ensures ReadValue(NULL_TEXT + rest) == Good(Null, rest)
    ensures ReadValue(TRUE_TEXT + rest) == Good(Bool(true), rest)
    ensures ReadValue(FALSE_TEXT + rest) == Good(Bool(false), rest)
  {
    assert (NULL_TEXT + rest)[4..] == rest && (TRUE_TEXT + rest)[4..] == rest && (FALSE_TEXT + rest)[5..] == rest;
  }

  /** A text that reads as `v`, whatever delimiter follows it. */
  ghost predicate Reads(t: Text, v: Value) {
    forall rest: Text :: Delimited(rest) ==> ReadValue(t + rest) == Good(v, rest)
  }

  ghost predicate ReadsMember(t: Text, m: Member) {
    forall rest: Text :: Delimited(rest) ==> ReadMember(t + rest) == Good(m, rest)
  }

  lemma FirstUnit(v: Value)
    requires Plain(v) && !v.Undefined?
    ensures Canonical(v) != [] && Canonical(v)[0] != CLOSE_BRACKET
  {
  }

  lemma JoinLast(texts: seq<Text>, close: Unit, rest: Text)
    requires |texts| == 1
    ensures Join(texts, COMMA) + [close] + rest == texts[0] + ([close] + rest)
  {
  }

  lemma JoinSplits(texts: seq<Text>, close: Unit, rest: Text)
    requires |texts| > 1
    ensures Join(texts, COMMA) + [close] + rest == texts[0] + ([COMMA] + (Join(texts[1..], COMMA) + [close] + rest))
  {
  }

  lemma ReadsBefore(t: Text, v: Value, c: Unit, rest: Text)
    requires Reads(t, v) && !NumberUnit(c)
    ensures ReadValue(t + ([c] + rest)) == Good(v, [c] + rest)
  {
    assert Delimited([c] + rest);
  }

  lemma ReadsMemberBefore(t: Text, m: Member, c: Unit, rest: Text)
    requires ReadsMember(t, m) && !NumberUnit(c)
    ensures ReadMember(t + ([c] + rest)) == Good(m, [c] + rest)
  {
    assert Delimited([c] + rest);
  }

  lemma ItemsStep(text: Text, val: Value, more: Text, vals: seq<Value>, rest: Text)
    requires ReadValue(text + ([COMMA] + more)) == Good(val, [COMMA] + more)
    requires ReadItems(more) == Good(vals, rest)
    ensures ReadItems(text + ([COMMA] + more)) == Good([val] + vals, rest)
  {
    assert ([COMMA] + more)[1..] == more;
  }

  lemma ItemsEnd(text: Text, val: Value, rest: Text)
    requires ReadValue(text + ([CLOSE_BRACKET] + rest)) == Good(val, [CLOSE_BRACKET] + rest)
    ensures ReadItems(text + ([CLOSE_BRACKET] + rest)) == Good([val], rest)
  {
    assert ([CLOSE_BRACKET] + rest)[1..] == rest;
  }

  lemma {:induction false} ItemsReadBack(texts: seq<Text>, vals: seq<Value>, rest: Text)
    requires |texts| == |vals| > 0 && forall i :: 0 <= i < |texts| ==> Reads(texts[i], vals[i])
    ensures ReadItems(Join(texts, COMMA) + [CLOSE_BRACKET] + rest) == Good(vals, rest)
  {
    if |texts| == 1 {
      ReadsBefore(texts[0], vals[0], CLOSE_BRACKET, rest);
      ItemsEnd(texts[0], vals[0], rest);
      JoinLast(texts, CLOSE_BRACKET, rest);
      assert vals == [vals[0]];
    } else {
      assert forall i :: 0 <= i < |texts[1..]| ==> texts[1..][i] == texts[i + 1] && vals[1..][i] == vals[i + 1];
      ItemsReadBack(texts[1..], vals[1..], rest);
      ReadsBefore(texts[0], vals[0], COMMA, Join(texts[1..], COMMA) + [CLOSE_BRACKET] + rest);
      ItemsFollow(texts, vals, Join(texts[1..], COMMA) + [CLOSE_BRACKET] + rest, rest);
    }
  }

  lemma ItemsFollow(texts: seq<Text>, vals: seq<Value>, more: Text, rest: Text)
    requires |texts| == |vals| > 1 && more == Join(texts[1..], COMMA) + [CLOSE_BRACKET] + rest
    requires ReadValue(texts[0] + ([COMMA] + more)) == Good(vals[0], [COMMA] + more)
    requires ReadItems(more) == Good(vals[1..], rest)
    ensures ReadItems(Join(texts, COMMA) + [CLOSE_BRACKET] + rest) == Good(vals, rest)
  {
    JoinSplits(texts, CLOSE_BRACKET, rest);
    ItemsStep(texts[0], vals[0], more, vals[1..], rest);
    assert vals == [vals[0]] + vals[1..];
  }

  lemma MembersStep(text: Text, val: Member, more: Text, vals: seq<Member>, rest: Text)
    requires ReadMember(text + ([COMMA] + more)) == Good(val, [COMMA] + more)
    requires ReadMembers(more) == Good(vals, rest)
    ensures ReadMembers(text + ([COMMA] + more)) == Good([val] + vals, rest)
  {
    assert ([COMMA] + more)[1..] == more;
  }

  lemma MembersEnd(text: Text, val: Member, rest: Text)
    requires ReadMember(text + ([CLOSE_BRACE] + rest)) == Good(val, [CLOSE_BRACE] + rest)
    ensures ReadMembers(text + ([CLOSE_BRACE] + rest)) == Good([val], rest)
  {
    assert ([CLOSE_BRACE] + rest)[1..] == rest;
  }

  lemma {:induction false} MembersReadBack(texts: seq<Text>, vals: seq<Member>, rest: Text)
    requires |texts| == |vals| > 0 && forall i :: 0 <= i < |texts| ==> ReadsMember(texts[i], vals[i])
    ensures ReadMembers(Join(texts, COMMA) + [CLOSE_BRACE] + rest) == Good(vals, rest)
  {
    if |texts| == 1 {
      ReadsMemberBefore(texts[0], vals[0], CLOSE_BRACE, rest);
      MembersEnd(texts[0], vals[0], rest);
      JoinLast(texts, CLOSE_BRACE, rest);
      assert vals == [vals[0]];
    } else {
      assert forall i :: 0 <= i < |texts[1..]| ==> texts[1..][i] == texts[i + 1] && vals[1..][i] == vals[i + 1];
      MembersReadBack(texts[1..], vals[1..], rest);
      ReadsMemberBefore(texts[0], vals[0], COMMA, Join(texts[1..], COMMA) + [CLOSE_BRACE] + rest);
      MembersFollow(texts, vals, Join(texts[1..], COMMA) + [CLOSE_BRACE] + rest, rest);
    }
  }

  lemma MembersFollow(texts: seq<Text>, vals: seq<Member>, more: Text, rest: Text)
    requires |texts| == |vals| > 1 && more == Join(texts[1..], COMMA) + [CLOSE_BRACE] + rest
    requires ReadMember(texts[0] + ([COMMA] + more)) == Good(vals[0], [COMMA] + more)
    requires ReadMembers(more) == Good(vals[1..], rest)
    ensures ReadMembers(Join(texts, COMMA) + [CLOSE_BRACE] + rest) == Good(vals, rest)
  {
    JoinSplits(texts, CLOSE_BRACE, rest);
    MembersStep(texts[0], vals[0], more, vals[1..], rest);
    assert vals == [vals[0]] + vals[1..];
  }

  lemma QuotedKeyReads(key: Text, more: Text, val: Value, rest: Text)
    requires ReadValue(more) == Good(val, rest)
    ensures ReadMember(Quoted(key) + ([COLON] + more)) == Good(Member(key, val), rest)
  {
    QuotedReadsBack(key, [COLON] + more);
    assert ([COLON] + more)[1..] == more;
  }

  lemma MemberTextGroups(key: Text, text: Text, rest: Text)
    ensures Quoted(key) + [COLON] + text + rest == Quoted(key) + ([COLON] + (text + rest))
  {
  }

  lemma MemberReadsBackBefore(key: Text, text: Text, val: Value, rest: Text)
    requires Reads(text, val) && Delimited(rest)
    ensures ReadMember(Quoted(key) + [COLON] + text + rest) == Good(Member(key, val), rest)
  {
    QuotedKeyReads(key, text + rest, val, rest);
    MemberTextGroups(key, text, rest);
  }

  lemma MemberReadsBack(key: Text, text: Text, val: Value)
    requires Reads(text, val)
    ensures ReadsMember(Quoted(key) + [COLON] + text, Member(key, val))
  {
    forall rest: Text | Delimited(rest)
      ensures ReadMember(Quoted(key) + [COLON] + text + rest) == Good(Member(key, val), rest)
    {
      MemberReadsBackBefore(key, text, val, rest);
    }
  }

  lemma ArrReadsBack(texts: seq<Text>, vals: seq<Value>, rest: Text)
    requires |texts| == |vals| && forall i :: 0 <= i < |texts| ==> Reads(texts[i], vals[i])
    requires texts != [] ==> texts[0] != [] && texts[0][0] != CLOSE_BRACKET
    ensures ReadValue([OPEN_BRACKET] + Join(texts, COMMA) + [CLOSE_BRACKET] + rest) == Good(Arr(vals), rest)
  {
    var t := [OPEN_BRACKET] + Join(texts, COMMA) + [CLOSE_BRACKET] + rest;
    if texts == [] {
      assert t == [OPEN_BRACKET, CLOSE_BRACKET] + rest;
    } else {
      ItemsReadBack(texts, vals, rest);
      assert t == [OPEN_BRACKET] + (Join(texts, COMMA) + [CLOSE_BRACKET] + rest);
      assert t[1] == texts[0][0];
    }
  }

  lemma ObjReadsBack(texts: seq<Text>, vals: seq<Member>, rest: Text)
    requires |texts| == |vals| && forall i :: 0 <= i < |texts| ==> ReadsMember(texts[i], vals[i])
    requires texts != [] ==> texts[0] != [] && texts[0][0] == QUOTE
    ensures ReadValue([OPEN_BRACE] + Join(texts, COMMA) + [CLOSE_BRACE] + rest) == Good(Obj(vals), rest)
  {
    var t := [OPEN_BRACE] + Join(texts, COMMA) + [CLOSE_BRACE] + rest;
    if texts == [] {
      assert t == [OPEN_BRACE, CLOSE_BRACE] + rest;
    } else {
      MembersReadBack(texts, vals, rest);
      assert t[1..] == Join(texts, COMMA) + [CLOSE_BRACE] + rest;
      assert t[1] == texts[0][0];
    }
  }

  lemma LeafReadsBack(v: Value, rest: Text)
    requires Plain(v) && !v.Undefined? && !v.Arr? && !v.Obj? && Delimited(rest)
    ensures ReadValue(Canonical(v) + rest) == Good(Norm(v), rest)
  {
    match v {
      case Num(digits) =>
        NumberLengthIs(digits, rest);
      case Str(s) => QuotedReadsBack(s, rest);
      case _ => WordsReadBack(rest);
    }
  }

  /** The decoder turns the encoding of a value into its normal form, and stops where it ends. */
  lemma {:induction false} ReadsBack(v: Value)
    requires Plain(v) && !v.Undefined?
    ensures Reads(Canonical(v), Norm(v))
    decreases v, 1
  {
    forall rest: Text | Delimited(rest)
      ensures ReadValue(Canonical(v) + rest) == Good(Norm(v), rest)
    {
      if v.Arr? {
        ItemsRead(v);
        if v.items != [] && !v.items[0].Undefined? { FirstUnit(v.items[0]); }
        ArrReadsBack(ItemTexts(v), NormItems(v), rest);
      } else if v.Obj? {
        MembersRead(v);
        ObjReadsBack(EntryTexts(v), NormMembers(v), rest);
      } else {
        LeafReadsBack(v, rest);
      }
    }
  }

  lemma {:induction false} ItemsRead(v: Value)
    requires Plain(v) && v.Arr?
    ensures forall i :: 0 <= i < |v.items| ==> Reads(ItemTexts(v)[i], NormItems(v)[i])
    decreases v, 0
  {
    forall i | 0 <= i < |v.items|
      ensures Reads(ItemTexts(v)[i], NormItems(v)[i])
    {
      if v.items[i].Undefined? {
        forall rest: Text { WordsReadBack(rest); }
      } else {
        ReadsBack(v.items[i]);
      }
    }
  }

  lemma {:induction false} MembersRead(v: Value)
    requires Plain(v) && v.Obj?
    ensures forall i :: 0 <= i < |EntryTexts(v)| ==> ReadsMember(EntryTexts(v)[i], NormMembers(v)[i])
    decreases v, 0
  {
    var entries := Entries(v.members);
    forall i | 0 <= i < |EntryTexts(v)|
      ensures ReadsMember(EntryTexts(v)[i], NormMembers(v)[i])
    {
      ReadsBack(entries[i].val);
      MemberReadsBack(entries[i].key, Canonical(entries[i].val), Norm(entries[i].val));
    }
  }

  /** Decoding an encoding gives the normal form of the value. */
  lemma DecodesToNormalForm(v: Value)
    requires Plain(v) && !v.Undefined?
    ensures Decode(Canonical(v)) == Some(Norm(v))
  {
    ReadsBack(v);
    assert Canonical(v) + [] == Canonical(v);
  }

  // ---------------------------------------------------------------- equal encodings, equal values

  lemma {:induction false} NormDeterminesText(a: Value, b: Value)
    requires !a.Undefined? && !b.Undefined? && Norm(a) == Norm(b)
    ensures Canonical(a) == Canonical(b)
  {
    match a {
      case Arr(items) =>
        assert |items| == |NormItems(a)| == |NormItems(b)| == |b.items|;
        forall i | 0 <= i < |items|
          ensures ItemTexts(a)[i] == ItemTexts(b)[i]
        {
          assert NormItems(a)[i] == NormItems(b)[i];
          NullNorm(items[i]);
          NullNorm(b.items[i]);
          if !Nullish(items[i]) { NormDeterminesText(items[i], b.items[i]); }
        }
        assert ItemTexts(a) == ItemTexts(b);
      case Obj(members) =>
        var x, y := Entries(members), Entries(b.members);
        assert |x| == |NormMembers(a)| == |NormMembers(b)| == |y|;
        forall i | 0 <= i < |x|
          ensures EntryTexts(a)[i] == EntryTexts(b)[i]
        {
          assert NormMembers(a)[i] == NormMembers(b)[i];
          NormDeterminesText(x[i].val, y[i].val);
        }
        assert EntryTexts(a) == EntryTexts(b);
      case _ =>
    }
  }

  lemma NullNorm(v: Value)
    ensures Norm(v).Null? <==> v.Null?
    ensures Norm(v).Undefined? <==> v.Undefined?
  {
  }

  lemma {:induction false} LookupFinds(ms: seq<Member>, m: Member)
    requires DistinctKeys(ms) && m in ms
    ensures Lookup(ms, m.key) == m.val
  {
    if ms[0] != m {
      assert ms == [ms[0]] + ms[1..];
      LookupFinds(ms[1..], m);
    }
  }

  /** The written members are the ones that can be read. */
  lemma EntriesAreReadable(ms: seq<Member>)
    requires DistinctKeys(ms)
    ensures forall i :: 0 <= i < |Entries(ms)| ==>
              Lookup(ms, Entries(ms)[i].key) == Entries(ms)[i].val && !Entries(ms)[i].val.Undefined?
    ensures forall k :: !Lookup(ms, k).Undefined? ==> Member(k, Lookup(ms, k)) in Entries(ms)
  {
    EntriesAreMembers(ms);
    forall i | 0 <= i < |Entries(ms)|
      ensures Lookup(ms, Entries(ms)[i].key) == Entries(ms)[i].val
    {
      LookupFinds(ms, Entries(ms)[i]);
    }
  }

  lemma {:induction false} EqualNormsAreSame(a: Value, b: Value)
    requires Plain(a) && Plain(b) && Norm(a) == Norm(b)
    ensures Same(a, b)
    decreases a, 1
  {
    match a {
      case Arr(items) =>
        assert |items| == |NormItems(a)| == |NormItems(b)| == |b.items|;
        forall i | 0 <= i < |items|
          ensures if Nullish(items[i]) then Nullish(b.items[i]) else Same(items[i], b.items[i])
        {
          assert NormItems(a)[i] == NormItems(b)[i];
          NullNorm(items[i]);
          NullNorm(b.items[i]);
          if !Nullish(items[i]) { EqualNormsAreSame(items[i], b.items[i]); }
        }
      case Obj(members) =>
        forall k: Text
          ensures if Lookup(members, k).Undefined? then Lookup(b.members, k).Undefined?
                  else Same(Lookup(members, k), Lookup(b.members, k))
        {
          EqualNormsReadAlike(a, b, k);
        }
      case _ =>
    }
  }

  lemma {:induction false} EqualNormsReadAlike(a: Value, b: Value, k: Text)
    requires a.Obj? && b.Obj? && Plain(a) && Plain(b) && NormMembers(a) == NormMembers(b)
    ensures if Lookup(a.members, k).Undefined? then Lookup(b.members, k).Undefined?
            else Same(Lookup(a.members, k), Lookup(b.members, k))
    decreases a, 0
  {
    var x, y := Entries(a.members), Entries(b.members);
    assert |x| == |NormMembers(a)| == |NormMembers(b)| == |y|;
    EntriesAreReadable(a.members);
    EntriesAreReadable(b.members);
    if !Lookup(b.members, k).Undefined? {
      var i :| 0 <= i < |y| && y[i] == Member(k, Lookup(b.members, k));
      assert NormMembers(a)[i] == NormMembers(b)[i];
      assert x[i].key == k;
    }
    if !Lookup(a.members, k).Undefined? {
      var i :| 0 <= i < |x| && x[i] == Member(k, Lookup(a.members, k));
      assert NormMembers(a)[i] == NormMembers(b)[i];
      EqualNormsAreSame(x[i].val, y[i].val);
    }
  }

  predicate AscendingKeys(ks: seq<Text>) {
    forall i, j :: 0 <= i < j < |ks| ==> Less(ks[i], ks[j])
  }

  /** Two ascending lists of the same keys are equal. */
  lemma {:induction false} AscendingIsUnique(x: seq<Text>, y: seq<Text>)
    requires AscendingKeys(x) && AscendingKeys(y) && forall k :: k in x <==> k in y
    ensures x == y
  {
    assert forall i :: 0 <= i < |x| ==> x[i] in y;
    assert forall i :: 0 <= i < |y| ==> y[i] in x;
    if x == [] || y == [] {
    } else {
      FirstIsLeast(x);
      FirstIsLeast(y);
      LessIsTotal(x[0], y[0]);
      assert x[0] in x && y[0] in y;
      assert x[0] == y[0];
      assert x == [x[0]] + x[1..] && y == [y[0]] + y[1..];
      assert forall k :: k in x[1..] <==> k in x && k != x[0];
      assert forall k :: k in y[1..] <==> k in y && k != y[0];
      AscendingIsUnique(x[1..], y[1..]);
    }
  }

  lemma FirstIsLeast(x: seq<Text>)
    requires AscendingKeys(x) && x != []
    ensures forall k :: k in x ==> k == x[0] || Less(x[0], k)
    ensures x[0] !in x[1..]
  {
    LessIsTotal(x[0], x[0]);
    forall i | 0 <= i < |x[1..]|
      ensures x[1..][i] != x[0]
    {
      assert x[1..][i] == x[i + 1];
    }
  }

  function KeysOf(ms: seq<Member>): seq<Text> {
    seq(|ms|, i requires 0 <= i < |ms| => ms[i].key)
  }

  lemma KeysAreReadable(ms: seq<Member>)
    requires DistinctKeys(ms)
    ensures AscendingKeys(KeysOf(Entries(ms)))
    ensures forall k :: k in KeysOf(Entries(ms)) <==> !Lookup(ms, k).Undefined?
  {
    EntriesAreMembers(ms);
    EntriesAreReadable(ms);
    forall k | !Lookup(ms, k).Undefined?
      ensures k in KeysOf(Entries(ms))
    {
      var i :| 0 <= i < |Entries(ms)| && Entries(ms)[i] == Member(k, Lookup(ms, k));
      assert KeysOf(Entries(ms))[i] == k;
    }
  }

  lemma {:induction false} SameValuesHaveEqualNorms(a: Value, b: Value)
    requires Plain(a) && Plain(b) && Same(a, b)
    ensures Norm(a) == Norm(b)
    decreases a, 1
  {
    match a {
      case Arr(items) =>
        forall i | 0 <= i < |items|
          ensures NormItems(a)[i] == NormItems(b)[i]
        {
          if !Nullish(items[i]) { SameValuesHaveEqualNorms(items[i], b.items[i]); }
        }
        assert NormItems(a) == NormItems(b);
      case Obj(members) => SameObjectsHaveEqualNorms(a, b);
      case _ =>
    }
  }

  lemma {:induction false} SameObjectsHaveEqualNorms(a: Value, b: Value)
    requires a.Obj? && Plain(a) && Plain(b) && Same(a, b)
    ensures Norm(a) == Norm(b)
    decreases a, 0
  {
    var x, y := Entries(a.members), Entries(b.members);
    KeysAreReadable(a.members);
    KeysAreReadable(b.members);
    AscendingIsUnique(KeysOf(x), KeysOf(y));
    assert |x| == |KeysOf(x)| == |y|;
    EntriesAreReadable(a.members);
    EntriesAreReadable(b.members);
    forall i | 0 <= i < |x|
      ensures NormMembers(a)[i] == NormMembers(b)[i]
    {
      assert KeysOf(x)[i] == KeysOf(y)[i];
      SameValuesHaveEqualNorms(x[i].val, y[i].val);
    }
    assert NormMembers(a) == NormMembers(b);
  }

  /** Unique decodability: two plain values have the same encoding exactly when they are equal up
      to key order, dropped undefined members, and undefined items read as null. */
  lemma EqualEncodingsExactlyWhenSame(a: Value, b: Value)
    requires Plain(a) && Plain(b)
    ensures CanonicalJsonString(a) == CanonicalJsonString(b) <==> Same(a, b)
  {
    if a.Undefined? || b.Undefined? { return; }
    if Canonical(a) == Canonical(b) {
      DecodesToNormalForm(a);
      DecodesToNormalForm(b);
      EqualNormsAreSame(a, b);
    }
    if Same(a, b) {
      SameValuesHaveEqualNorms(a, b);
      NormDeterminesText(a, b);
    }
  }

  lemma {:induction false} NormIsPlain(v: Value)
    requires Plain(v)
    ensures Plain(Norm(v))
    decreases v, 1
  {
    match v {
      case Arr(items) =>
        forall i | 0 <= i < |items|
          ensures Plain(NormItems(v)[i])
        {
          if !items[i].Undefined? { NormIsPlain(items[i]); }
        }
      case Obj(members) => NormMembersArePlain(v);
      case _ =>
    }
  }

  lemma {:induction false} NormMembersArePlain(v: Value)
    requires v.Obj? && Plain(v)
    ensures DistinctKeys(NormMembers(v)) && forall i :: 0 <= i < |NormMembers(v)| ==> Plain(NormMembers(v)[i].val)
    decreases v, 0
  {
    var entries := Entries(v.members);
    EntriesAreMembers(v.members);
    forall i | 0 <= i < |entries|
      ensures Plain(NormMembers(v)[i].val)
    {
      NormIsPlain(entries[i].val);
    }
    forall i, j | 0 <= i < j < |entries|
      ensures NormMembers(v)[i].key != NormMembers(v)[j].key
    {
      LessIsTotal(entries[i].key, entries[j].key);
    }
  }

  lemma {:induction false} NormIsSame(v: Value)
    requires Plain(v)
    ensures Same(v, Norm(v))
    decreases v, 1
  {
    match v {
      case Arr(items) =>
        forall i | 0 <= i < |items|
          ensures if Nullish(items[i]) then Nullish(NormItems(v)[i]) else Same(items[i], NormItems(v)[i])
        {
          if !Nullish(items[i]) { NormIsSame(items[i]); }
        }
      case Obj(members) =>
        NormMembersArePlain(v);
        forall k: Text
          ensures if Lookup(members, k).Undefined? then Lookup(NormMembers(v), k).Undefined?
                  else Same(Lookup(members, k), Lookup(NormMembers(v), k))
        {
          NormReadsAlike(v, k);
        }
      case _ =>
    }
  }

  lemma {:induction false} NormReadsAlike(v: Value, k: Text)
    requires v.Obj? && Plain(v) && DistinctKeys(NormMembers(v))
    ensures if Lookup(v.members, k).Undefined? then Lookup(NormMembers(v), k).Undefined?
            else Same(Lookup(v.members, k), Lookup(NormMembers(v), k))
    decreases v, 0
  {
    var entries := Entries(v.members);
    EntriesAreReadable(v.members);
    if !Lookup(v.members, k).Undefined? {
      var i :| 0 <= i < |entries| && entries[i] == Member(k, Lookup(v.members, k));
      LookupFinds(NormMembers(v), NormMembers(v)[i]);
      NormIsSame(entries[i].val);
    }
  }

  /** What the decoder gives back can be encoded again, to the same text. */
  lemma EncodingIsStable(v: Value)
    requires Plain(v) && !v.Undefined?
    ensures Decode(Canonical(v)).Some? && CanonicalJsonString(Decode(Canonical(v)).value) == Some(Canonical(v))
  {
    DecodesToNormalForm(v);
    NormIsPlain(v);
    NormIsSame(v);
    EqualEncodingsExactlyWhenSame(v, Norm(v));
  }
}
