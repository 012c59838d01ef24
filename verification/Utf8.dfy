/**
 Text as JavaScript holds it and as it comes in: UTF-16 code units, Unicode scalar values, and
 the UTF-8 decoder that replaces what is not valid (The Unicode Standard, section 3.9).
 */
module Utf8 {
  import opened Prelude

  type Byte = b: int | 0 <= b < 0x100

  type Scalar = n: int | 0 <= n < 0xD800 || 0xE000 <= n < 0x11_0000

  const REPLACEMENT: Unit := 0xFFFD

  // ---------------------------------------------------------------- UTF-16

  /** The unit is no surrogate, or has its partner beside it. */
  predicate Partnered(t: Text, i: nat)
    requires i < |t|
  {
    && (HighSurrogate(t[i]) ==> i + 1 < |t| && LowSurrogate(t[i + 1]))
    && (LowSurrogate(t[i]) ==> i > 0 && HighSurrogate(t[i - 1]))
  }

  predicate WellFormed(t: Text) {
    forall i :: 0 <= i < |t| ==> Partnered(t, i)
  }

  /** Well-formed units in front, no pair broken: the rest decides. */
  lemma WellFormedSuffix(t: Text, n: nat)
    requires 0 < n <= |t| && forall i :: 0 <= i < n ==> Partnered(t, i)
    requires n < |t| ==> !(HighSurrogate(t[n - 1]) && LowSurrogate(t[n]))
    ensures WellFormed(t) <==> WellFormed(t[n..])
  {
    var rest := t[n..];
    forall i | 0 <= i < |rest|
      ensures Partnered(rest, i) <==> Partnered(t, n + i)
    {
      assert rest[i] == t[n + i];
      if i + 1 < |rest| { assert rest[i + 1] == t[n + i + 1]; }
      if i > 0 { assert rest[i - 1] == t[n + i - 1]; }
    }
    if WellFormed(rest) {
      forall i | 0 <= i < |t|
        ensures Partnered(t, i)
      {
        if i >= n { assert Partnered(rest, i - n); }
      }
    }
  }

  function Units(x: Scalar): Text {
    if x < 0x1_0000 then [x] else [0xD800 + (x - 0x1_0000) / 0x400, 0xDC00 + (x - 0x1_0000) % 0x400]
  }

  function ToText(xs: seq<Scalar>): Text {
    if xs == [] then [] else Units(xs[0]) + ToText(xs[1..])
  }

  function Paired(high: Unit, low: Unit): (x: Scalar)
    requires HighSurrogate(high) && LowSurrogate(low)
    ensures Units(x) == [high, low]
  {
    0x1_0000 + (high - 0xD800) * 0x400 + (low - 0xDC00)
  }

  function FromText(t: Text): seq<Scalar> {
    if t == [] then []
    else if |t| > 1 && HighSurrogate(t[0]) && LowSurrogate(t[1]) then [Paired(t[0], t[1])] + FromText(t[2..])
    else [if HighSurrogate(t[0]) || LowSurrogate(t[0]) then REPLACEMENT else t[0]] + FromText(t[1..])
  }

  /** Scalar values make well-formed text, and no other text is. */
  lemma {:induction false} ToTextIsWellFormed(xs: seq<Scalar>)
    ensures WellFormed(ToText(xs))
    ensures ToText(xs) != [] ==> !LowSurrogate(ToText(xs)[0])
    ensures 0 in ToText(xs) ==> 0 in xs
  {
    if xs != [] {
      var t, n := ToText(xs), |Units(xs[0])|;
      ToTextIsWellFormed(xs[1..]);
      assert t[n..] == ToText(xs[1..]) && t[..n] == Units(xs[0]);
      assert forall i :: 0 <= i < n ==> t[i] == Units(xs[0])[i];
      WellFormedSuffix(t, n);
    }
  }

  lemma ToTextStep(x: Scalar, rest: seq<Scalar>)
    ensures ToText([x] + rest) == Units(x) + ToText(rest)
  {
    assert ([x] + rest)[1..] == rest;
  }

  lemma {:induction false} WellFormedIsFromScalars(t: Text)
    requires WellFormed(t)
    ensures ToText(FromText(t)) == t
    ensures 0 in FromText(t) ==> 0 in t
  {
    if t == [] {
    } else if |t| > 1 && HighSurrogate(t[0]) && LowSurrogate(t[1]) {
      WellFormedSuffix(t, 2);
      WellFormedIsFromScalars(t[2..]);
      ToTextStep(Paired(t[0], t[1]), FromText(t[2..]));
      assert t == [t[0], t[1]] + t[2..];
    } else {
      assert Partnered(t, 0);
      WellFormedSuffix(t, 1);
      WellFormedIsFromScalars(t[1..]);
      ToTextStep(t[0], FromText(t[1..]));
      assert t == [t[0]] + t[1..];
    }
  }

  // ---------------------------------------------------------------- UTF-8

  predicate Continues(b: Byte) { 0x80 <= b < 0xC0 }

  /** The second byte of a well-formed sequence that begins with `lead`. */
  predicate Seconds(lead: Byte, b: Byte) {
    && Continues(b) && (lead == 0xE0 ==> b >= 0xA0) && (lead == 0xED ==> b < 0xA0)
    && (lead == 0xF0 ==> b >= 0x90) && (lead == 0xF4 ==> b < 0x90)
  }

  /** How many bytes a sequence has that begins with `lead`; 0 for a byte that begins none. */
  function Length(lead: Byte): nat {
    if lead < 0x80 then 1
    else if 0xC2 <= lead < 0xE0 then 2
    else if 0xE0 <= lead < 0xF0 then 3
    else if 0xF0 <= lead < 0xF5 then 4
    else 0
  }

  /** How many bytes at the front are a sequence as far as they go. */
  function Extent(s: seq<Byte>): (n: nat)
    requires s != []
    ensures 0 < n <= |s|
  {
    var k := Length(s[0]);
    if k < 2 || |s| < 2 || !Seconds(s[0], s[1]) then 1
    else if k < 3 || |s| < 3 || !Continues(s[2]) then 2
    else if k < 4 || |s| < 4 || !Continues(s[3]) then 3
    else 4
  }

  predicate Complete(s: seq<Byte>)
    requires s != []
  {
    Extent(s) == Length(s[0])
  }

  function Value(s: seq<Byte>): (x: Scalar)
    requires s != [] && Complete(s)
    ensures x == 0 ==> s[0] == 0
  {
    match Length(s[0])
    case 1 => s[0]
    case 2 => Above(s[0], 0xC0) * 0x40 + Above(s[1], 0x80)
    case 3 => Above(s[0], 0xE0) * 0x1000 + Above(s[1], 0x80) * 0x40 + Above(s[2], 0x80)
    case _ => Above(s[0], 0xF0) * 0x4_0000 + Above(s[1], 0x80) * 0x1000 + Above(s[2], 0x80) * 0x40 + Above(s[3], 0x80)
  }

  function Above(b: Byte, base: int): int {
    b - base
  }

  /** What is not a whole sequence becomes U+FFFD, as far as it could have been one. */
  function Decode(s: seq<Byte>): seq<Scalar> {
    if s == [] then [] else [if Complete(s) then Value(s) else REPLACEMENT] + Decode(s[Extent(s)..])
  }

  function EncodeOne(x: Scalar): seq<Byte> {
    if x < 0x80 then [x]
    else if x < 0x800 then [0xC0 + x / 0x40, 0x80 + x % 0x40]
    else if x < 0x1_0000 then [0xE0 + x / 0x1000, 0x80 + x / 0x40 % 0x40, 0x80 + x % 0x40]
    else [0xF0 + x / 0x4_0000, 0x80 + x / 0x1000 % 0x40, 0x80 + x / 0x40 % 0x40, 0x80 + x % 0x40]
  }

  function Encode(xs: seq<Scalar>): seq<Byte> {
    if xs == [] then [] else EncodeOne(xs[0]) + Encode(xs[1..])
  }

  lemma OneReadsBack(x: Scalar, rest: seq<Byte>)
    ensures var s := EncodeOne(x) + rest;
            Complete(s) && Value(s) == x && s[Extent(s)..] == rest
    ensures 0 in EncodeOne(x) ==> x == 0
  {
    var one, s := EncodeOne(x), EncodeOne(x) + rest;
    WholeSequence(x);
    OneMeansItself(x);
    assert s[|one|..] == rest && s[0] == one[0];
    assert |one| > 1 ==> s[1] == one[1];
    assert |one| > 2 ==> s[2] == one[2];
    assert |one| > 3 ==> s[3] == one[3];
  }

  lemma WholeSequence(x: Scalar)
    ensures var one := EncodeOne(x);
            && Length(one[0]) == |one|
            && (|one| > 1 ==> Seconds(one[0], one[1]))
            && (|one| > 2 ==> Continues(one[2]))
            && (|one| > 3 ==> Continues(one[3]))
  {
  }

  lemma SixBits(x: nat)
    ensures x == x / 0x40 * 0x40 + x % 0x40
    ensures x / 0x40 == x / 0x1000 * 0x40 + x / 0x40 % 0x40
    ensures x / 0x1000 == x / 0x4_0000 * 0x40 + x / 0x1000 % 0x40
  {
  }

  lemma OneMeansItself(x: Scalar)
    ensures Complete(EncodeOne(x)) && Value(EncodeOne(x)) == x
  {
    WholeSequence(x);
    SixBits(x);
    if x < 0x800 {
    } else if x < 0x1_0000 {
      ThreeBytes(x);
    } else {
      FourBytes(x);
    }
  }

  lemma ThreeBytes(x: Scalar)
    requires 0x800 <= x < 0x1_0000
    ensures Complete(EncodeOne(x)) && Value(EncodeOne(x)) == x
  {
    WholeSequence(x);
    SixBits(x);
    var one := EncodeOne(x);
    assert Above(one[0], 0xE0) == x / 0x1000 && Above(one[1], 0x80) == x / 0x40 % 0x40;
    assert Above(one[2], 0x80) == x % 0x40;
  }

  lemma FourBytes(x: Scalar)
    requires 0x1_0000 <= x
    ensures Complete(EncodeOne(x)) && Value(EncodeOne(x)) == x
  {
    WholeSequence(x);
    SixBits(x);
    var one := EncodeOne(x);
    assert Above(one[0], 0xF0) == x / 0x4_0000 && Above(one[1], 0x80) == x / 0x1000 % 0x40;
    assert Above(one[2], 0x80) == x / 0x40 % 0x40 && Above(one[3], 0x80) == x % 0x40;
  }

  lemma {:induction false} EncodedReadsBack(xs: seq<Scalar>)
    ensures Decode(Encode(xs)) == xs
    ensures 0 in Encode(xs) ==> 0 in xs
  {
    if xs != [] {
      var rest := Encode(xs[1..]);
      EncodedReadsBack(xs[1..]);
      FirstDecodes(xs[0], rest);
      assert Encode(xs) == EncodeOne(xs[0]) + rest;
      assert xs == [xs[0]] + xs[1..];
    }
  }

  lemma FirstDecodes(x: Scalar, rest: seq<Byte>)
    ensures Decode(EncodeOne(x) + rest) == [x] + Decode(rest)
    ensures 0 in EncodeOne(x) ==> x == 0
  {
    OneReadsBack(x, rest);
  }

  lemma {:induction false} NoNulFromNoNul(s: seq<Byte>)
    requires 0 !in s
    ensures 0 !in Decode(s)
    decreases |s|
  {
    if s != [] { NoNulFromNoNul(s[Extent(s)..]); }
  }

  // ---------------------------------------------------------------- what a process can be given

  /** An argument or environment value: decoded from bytes without a NUL. */
  ghost predicate Receivable(t: Text) {
    exists bytes :: 0 !in bytes && t == ToText(Decode(bytes))
  }

  /** Exactly the well-formed texts without a NUL can be received. */
  lemma ReceivableExactlyWhen(t: Text)
    ensures Receivable(t) <==> 0 !in t && WellFormed(t)
  {
    if Receivable(t) {
      var bytes :| 0 !in bytes && t == ToText(Decode(bytes));
      NoNulFromNoNul(bytes);
      ToTextIsWellFormed(Decode(bytes));
    }
    if 0 !in t && WellFormed(t) {
      WellFormedIsFromScalars(t);
      EncodedReadsBack(FromText(t));
      assert t == ToText(Decode(Encode(FromText(t))));
    }
  }

  /** Putting received texts together gives one that could have been received. */
  lemma ReceivableConcat(a: Text, b: Text)
    requires Receivable(a) && Receivable(b)
    ensures Receivable(a + b)
  {
    ReceivableExactlyWhen(a);
    ReceivableExactlyWhen(b);
    ReceivableExactlyWhen(a + b);
    WellFormedConcat(a, b);
  }

  lemma WellFormedConcat(a: Text, b: Text)
    requires WellFormed(a) && WellFormed(b)
    ensures WellFormed(a + b)
  {
    forall i | 0 <= i < |a| + |b|
      ensures Partnered(a + b, i)
    {
      if i < |a| { LeftPartnered(a, b, i); } else { RightPartnered(a, b, i - |a|); }
    }
  }

  lemma LeftPartnered(a: Text, b: Text, i: nat)
    requires i < |a| && Partnered(a, i)
    ensures Partnered(a + b, i)
  {
  }

  lemma RightPartnered(a: Text, b: Text, i: nat)
    requires i < |b| && Partnered(b, i)
    ensures Partnered(a + b, |a| + i)
  {
    var t := a + b;
    assert t[|a| + i] == b[i];
    if i + 1 < |b| { assert t[|a| + i + 1] == b[i + 1]; }
    if i > 0 { assert t[|a| + i - 1] == b[i - 1]; }
  }

  /** Characters of the program's own text. */
  function Ascii(s: string): Text {
    seq(|s|, i requires 0 <= i < |s| => if '\0' < s[i] < 128 as char then s[i] as int else 0x3F)
  }

  lemma AsciiIsReceivable(s: string)
    ensures Receivable(Ascii(s))
  {
    ReceivableExactlyWhen(Ascii(s));
  }
}
