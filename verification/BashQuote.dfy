/**
 Shell quoting (agent-team-transport-cli.ts) and the part of the shell that reads it back:
 words with ANSI-C quoting (Bash Reference Manual, section 3.1.2.4), export commands and
 array assignments.
 */
module BashQuote {
  import opened Prelude
  import opened Utf8

  const NUL: Unit := 0
  const TAB: Unit := 0x09
  const RETURN: Unit := 0x0D
  const DOLLAR: Unit := 0x24
  const SINGLE_QUOTE: Unit := 0x27
  const OPEN_PAREN: Unit := 0x28
  const CLOSE_PAREN: Unit := 0x29
  const EQUALS: Unit := 0x3D
  const UNDERSCORE: Unit := 0x5F
  const LETTER_N: Unit := 0x6E
  const LETTER_R: Unit := 0x72
  const LETTER_T: Unit := 0x74
  const EXPORT: Text := [0x65, 0x78, 0x70, 0x6F, 0x72, 0x74]

  // ---------------------------------------------------------------- the printer

  /** String.prototype.replace with a global one-character pattern. */
  function ReplaceAll(t: Text, c: Unit, into: Text): Text {
    if t == [] then []
    else (if t[0] == c then into else [t[0]]) + ReplaceAll(t[1..], c, into)
  }

  function Escaped(value: Text): Text {
    var a := ReplaceAll(value, BACKSLASH, [BACKSLASH, BACKSLASH]);
    var b := ReplaceAll(a, SINGLE_QUOTE, [BACKSLASH, SINGLE_QUOTE]);
    var c := ReplaceAll(b, NEWLINE, [BACKSLASH, LETTER_N]);
    var d := ReplaceAll(c, TAB, [BACKSLASH, LETTER_T]);
    ReplaceAll(d, RETURN, [BACKSLASH, LETTER_R])
  }

  function Quote(value: Text): Text {
    [DOLLAR, SINGLE_QUOTE] + Escaped(value) + [SINGLE_QUOTE]
  }

  predicate UpperOrUnderscore(c: Unit) { 0x41 <= c <= 0x5A || c == UNDERSCORE }

  predicate Digit(c: Unit) { 0x30 <= c <= 0x39 }

  predicate ValidKey(key: Text) {
    && key != [] && UpperOrUnderscore(key[0])
    && forall i :: 0 <= i < |key| ==> UpperOrUnderscore(key[i]) || Digit(key[i])
  }

  /** One environment variable: name and value. */
  datatype Entry = Entry(key: Text, value: Text)

  function ExportLine(e: Entry): Text {
    EXPORT + [SPACE] + e.key + [EQUALS] + Quote(e.value)
  }

  function ExportLines(env: seq<Entry>): seq<Text> {
    seq(|env|, i requires 0 <= i < |env| => ExportLine(env[i]))
  }

  predicate ValidEnv(env: seq<Entry>) {
    forall i :: 0 <= i < |env| ==> ValidKey(env[i].key)
  }

  /** None stands for the exception thrown at the first invalid name. */
  method EmitEnvAssignments(env: seq<Entry>) returns (r: Option<Text>)
    ensures r == if ValidEnv(env) then Some(Join(ExportLines(env), NEWLINE)) else None
  {
    var lines := [];
    for i := 0 to |env|
      invariant ValidEnv(env[..i]) && lines == ExportLines(env[..i])
    {
      if !ValidKey(env[i].key) { return None; }
      lines := lines + [ExportLine(env[i])];
    }
    assert env[..|env|] == env;
    return Some(Join(lines, NEWLINE));
  }

  function Quotes(args: seq<Text>): seq<Text> {
    seq(|args|, i requires 0 <= i < |args| => Quote(args[i]))
  }

  function ArrayAssignment(name: Text, args: seq<Text>): Text {
    name + [EQUALS, OPEN_PAREN, SPACE] + Join(Quotes(args), SPACE) + [SPACE, CLOSE_PAREN]
  }

  // ---------------------------------------------------------------- the shell

  datatype Read<T> = Bad | Good(val: T, rest: Text)

  /** The character that a backslash and this letter stand for inside $'...'. */
  function AnsiEscape(c: Unit): Option<Unit> {
    if c == 0x61 then Some(0x07)
    else if c == 0x62 then Some(0x08)
    else if c == 0x65 || c == 0x45 then Some(0x1B)
    else if c == 0x66 then Some(0x0C)
    else if c == LETTER_N then Some(NEWLINE)
    else if c == LETTER_R then Some(RETURN)
    else if c == LETTER_T then Some(TAB)
    else if c == 0x76 then Some(0x0B)
    else if c == BACKSLASH || c == SINGLE_QUOTE || c == 0x22 || c == 0x3F then Some(c)
    else None
  }

  /** Octal, hexadecimal, Unicode and control escapes, which this reader refuses. */
  predicate NumericEscape(c: Unit) {
    0x30 <= c <= 0x37 || c == 0x78 || c == 0x75 || c == 0x55 || c == 0x63
  }

  /** From after $' to after the closing quote. */
  function ReadAnsi(t: Text): (r: Read<Text>)
    ensures r.Good? ==> |r.rest| < |t|
    decreases |t|
  {
    if t == [] then Bad
    else if t[0] == SINGLE_QUOTE then Good([], t[1..])
    else if t[0] != BACKSLASH then
      var more := ReadAnsi(t[1..]);
      if more.Bad? then Bad else Good([t[0]] + more.val, more.rest)
    else if |t| < 2 || NumericEscape(t[1]) then Bad
    else
      var more := ReadAnsi(t[2..]);
      if more.Bad? then Bad
      else if AnsiEscape(t[1]).Some? then Good([AnsiEscape(t[1]).value] + more.val, more.rest)
      else Good([BACKSLASH, t[1]] + more.val, more.rest)
  }

  predicate NameUnit(c: Unit) {
    UpperOrUnderscore(c) || 0x61 <= c <= 0x7A || Digit(c)
  }

  /** Characters that stand for themselves outside quotes; others are refused by this reader. */
  predicate PlainUnit(c: Unit) {
    NameUnit(c) || c == EQUALS || c == 0x2B || c == 0x2C || c == 0x2D || c == 0x2E || c == 0x2F || c == 0x3A
  }

  predicate EndsWord(c: Unit) {
    c == SPACE || c == NEWLINE || c == OPEN_PAREN || c == CLOSE_PAREN
  }

  /** One word: plain characters and $'...' pieces up to a blank, newline or parenthesis. */
  function ReadWord(t: Text): (r: Read<Text>)
    ensures r.Good? ==> |r.rest| <= |t|
    ensures r.Good? && t != [] && !EndsWord(t[0]) ==> |r.rest| < |t|
    decreases |t|
  {
    if t == [] || EndsWord(t[0]) then Good([], t)
    else if |t| > 1 && t[0] == DOLLAR && t[1] == SINGLE_QUOTE then
      var piece := ReadAnsi(t[2..]);
      if piece.Bad? then Bad
      else
        var more := ReadWord(piece.rest);
        if more.Bad? then Bad else Good(piece.val + more.val, more.rest)
    else if PlainUnit(t[0]) then
      var more := ReadWord(t[1..]);
      if more.Bad? then Bad else Good([t[0]] + more.val, more.rest)
    else Bad
  }

  /** The words up to a newline, a parenthesis or the end. */
  function ReadWords(t: Text): (r: Read<seq<Text>>)
    ensures r.Good? ==> |r.rest| <= |t|
    decreases |t|
  {
    if t == [] then Good([], t)
    else if t[0] == SPACE then ReadWords(t[1..])
    else if EndsWord(t[0]) then Good([], t)
    else
      var word := ReadWord(t);
      if word.Bad? then Bad
      else
        var more := ReadWords(word.rest);
        if more.Bad? then Bad else Good([word.val] + more.val, more.rest)
  }

  function NameLength(t: Text): (n: nat)
    ensures n <= |t|
  {
    if t == [] || !NameUnit(t[0]) then 0 else 1 + NameLength(t[1..])
  }

  /** What `export` makes of its argument: a name, an equals sign and the value. */
  function SplitAssignment(word: Text): Option<Entry> {
    var n := NameLength(word);
    if n == 0 || Digit(word[0]) || n == |word| || word[n] != EQUALS then None
    else Some(Entry(word[..n], word[n + 1..]))
  }

  /** A script of export commands, one a line: the assignments it makes, in order. */
  function RunExports(script: Text): Option<seq<Entry>>
    decreases |script|
  {
    if script == [] then Some([])
    else
      var line := ReadWords(script);
      if line.Bad? || |line.val| != 2 || line.val[0] != EXPORT || SplitAssignment(line.val[1]).None? then None
      else
        var entry := SplitAssignment(line.val[1]).value;
        if line.rest == [] then Some([entry])
        else if line.rest[0] != NEWLINE then None
        else
          var more := RunExports(line.rest[1..]);
          if more.None? then None else Some([entry] + more.value)
  }

  /** A script that is one array assignment: the name and the elements. */
  function RunArray(script: Text): Option<(Text, seq<Text>)> {
    var n := NameLength(script);
    if n == 0 || Digit(script[0]) || |script| < n + 2 || script[n] != EQUALS || script[n + 1] != OPEN_PAREN then None
    else
      var words := ReadWords(script[n + 2..]);
      if words.Good? && words.rest == [CLOSE_PAREN] then Some((script[..n], words.val)) else None
  }

  /** Written as UTF-8, a surrogate without its partner becomes U+FFFD. */
  function Encoded(t: Text): Text {
    if t == [] then []
    else if |t| > 1 && HighSurrogate(t[0]) && LowSurrogate(t[1]) then t[..2] + Encoded(t[2..])
    else [EncodedUnit(t[0])] + Encoded(t[1..])
  }

  function EncodedUnit(c: Unit): Unit {
    if HighSurrogate(c) || LowSurrogate(c) then REPLACEMENT else c
  }

  function DropNul(t: Text): Text {
    ReplaceAll(t, NUL, [])
  }

  function DropTrailingNewlines(t: Text): Text {
    if t != [] && t[|t| - 1] == NEWLINE then DropTrailingNewlines(t[..|t| - 1]) else t
  }

  /** What $(...) keeps of the characters written: no NUL and no trailing newlines. */
  function Kept(written: Text): Text {
    DropTrailingNewlines(DropNul(written))
  }

  /** What $(...) captures of a program's output. */
  function Captured(output: Text): Text {
    Kept(Encoded(output))
  }

  // ---------------------------------------------------------------- the escape in one pass

  function EscapeUnit(c: Unit): Text {
    if c == BACKSLASH || c == SINGLE_QUOTE then [BACKSLASH, c]
    else if c == NEWLINE then [BACKSLASH, LETTER_N]
    else if c == TAB then [BACKSLASH, LETTER_T]
    else if c == RETURN then [BACKSLASH, LETTER_R]
    else [c]
  }

  function OnePass(value: Text): Text {
    if value == [] then [] else EscapeUnit(value[0]) + OnePass(value[1..])
  }

  lemma Assoc(a: Text, b: Text, c: Text)
    ensures (a + b) + c == a + (b + c)
  {
  }

  lemma {:induction false} ReplaceAllConcat(a: Text, b: Text, c: Unit, into: Text)
    ensures ReplaceAll(a + b, c, into) == ReplaceAll(a, c, into) + ReplaceAll(b, c, into)
  {
    if a == [] {
      assert a + b == b;
    } else {
      var first := if a[0] == c then into else [a[0]];
      ReplaceAllConcat(a[1..], b, c, into);
      assert (a + b)[1..] == a[1..] + b;
      Assoc(first, ReplaceAll(a[1..], c, into), ReplaceAll(b, c, into));
    }
  }

  lemma EscapedConcat(a: Text, b: Text)
    ensures Escaped(a + b) == Escaped(a) + Escaped(b)
  {
    ReplaceAllConcat(a, b, BACKSLASH, [BACKSLASH, BACKSLASH]);
    var a1, b1 := ReplaceAll(a, BACKSLASH, [BACKSLASH, BACKSLASH]), ReplaceAll(b, BACKSLASH, [BACKSLASH, BACKSLASH]);
    ReplaceAllConcat(a1, b1, SINGLE_QUOTE, [BACKSLASH, SINGLE_QUOTE]);
    var a2, b2 := ReplaceAll(a1, SINGLE_QUOTE, [BACKSLASH, SINGLE_QUOTE]),
                      ReplaceAll(b1, SINGLE_QUOTE, [BACKSLASH, SINGLE_QUOTE]);
    ReplaceAllConcat(a2, b2, NEWLINE, [BACKSLASH, LETTER_N]);
    var a3, b3 := ReplaceAll(a2, NEWLINE, [BACKSLASH, LETTER_N]), ReplaceAll(b2, NEWLINE, [BACKSLASH, LETTER_N]);
    ReplaceAllConcat(a3, b3, TAB, [BACKSLASH, LETTER_T]);
    var a4, b4 := ReplaceAll(a3, TAB, [BACKSLASH, LETTER_T]), ReplaceAll(b3, TAB, [BACKSLASH, LETTER_T]);
    ReplaceAllConcat(a4, b4, RETURN, [BACKSLASH, LETTER_R]);
  }

  lemma ReplaceOne(x: Unit, c: Unit, into: Text)
    ensures ReplaceAll([x], c, into) == if x == c then into else [x]
  {
  }

  lemma ReplaceTwo(x: Unit, y: Unit, c: Unit, into: Text)
    requires x != c && y != c
    ensures ReplaceAll([x, y], c, into) == [x, y]
  {
    ReplaceAllConcat([x], [y], c, into);
  }

  lemma EscapedOne(x: Unit)
    ensures Escaped([x]) == EscapeUnit(x)
  {
    ReplaceOne(x, BACKSLASH, [BACKSLASH, BACKSLASH]);
    ReplaceOne(x, SINGLE_QUOTE, [BACKSLASH, SINGLE_QUOTE]);
    ReplaceOne(x, NEWLINE, [BACKSLASH, LETTER_N]);
    ReplaceOne(x, TAB, [BACKSLASH, LETTER_T]);
    ReplaceOne(x, RETURN, [BACKSLASH, LETTER_R]);
    var e := EscapeUnit(x);
    if |e| == 2 {
      if x == BACKSLASH { ReplaceTwo(e[0], e[1], SINGLE_QUOTE, [BACKSLASH, SINGLE_QUOTE]); }
      if x == BACKSLASH || x == SINGLE_QUOTE { ReplaceTwo(e[0], e[1], NEWLINE, [BACKSLASH, LETTER_N]); }
      if x != TAB && x != RETURN { ReplaceTwo(e[0], e[1], TAB, [BACKSLASH, LETTER_T]); }
      if x != RETURN { ReplaceTwo(e[0], e[1], RETURN, [BACKSLASH, LETTER_R]); }
    }
  }

  /** The five chained replacements escape each character once, whatever the value. */
  lemma {:induction false} ChainIsOnePass(value: Text)
    ensures Escaped(value) == OnePass(value)
  {
    if value != [] {
      ChainIsOnePass(value[1..]);
      EscapedConcat([value[0]], value[1..]);
      EscapedOne(value[0]);
      assert value == [value[0]] + value[1..];
    }
  }

  // ---------------------------------------------------------------- reading back

  lemma AnsiStep(c: Unit, after: Text, val: Text, rest: Text)
    requires ReadAnsi(after) == Good(val, rest)
    ensures ReadAnsi(EscapeUnit(c) + after) == Good([c] + val, rest)
  {
    var t := EscapeUnit(c) + after;
    if |EscapeUnit(c)| == 2 {
      assert t[2..] == after;
    } else {
      assert t[1..] == after;
    }
  }

  lemma {:induction false} AnsiReadsBack(value: Text, rest: Text)
    ensures ReadAnsi(OnePass(value) + [SINGLE_QUOTE] + rest) == Good(value, rest)
  {
    if value == [] {
      assert ([SINGLE_QUOTE] + rest)[1..] == rest;
    } else {
      var after := OnePass(value[1..]) + [SINGLE_QUOTE] + rest;
      AnsiReadsBack(value[1..], rest);
      AnsiStep(value[0], after, value[1..], rest);
      assert OnePass(value) + [SINGLE_QUOTE] + rest == EscapeUnit(value[0]) + after;
      assert value == [value[0]] + value[1..];
    }
  }

  predicate WordOver(rest: Text) {
    rest == [] || EndsWord(rest[0])
  }

  /** A quoted value in word position reads as the value, up to the end of the word. */
  lemma QuoteReadsBack(value: Text, rest: Text)
    requires WordOver(rest)
    ensures ReadWord(Quote(value) + rest) == Good(value, rest)
  {
    var t := Quote(value) + rest;
    ChainIsOnePass(value);
    AnsiReadsBack(value, rest);
    assert t[2..] == OnePass(value) + [SINGLE_QUOTE] + rest;
    assert value + [] == value;
  }

  lemma PlainStep(c: Unit, t: Text, val: Text, rest: Text)
    requires PlainUnit(c) && ReadWord(t) == Good(val, rest)
    ensures ReadWord([c] + t) == Good([c] + val, rest)
  {
    assert ([c] + t)[1..] == t;
  }

  lemma {:induction false} PlainPrefixReads(prefix: Text, t: Text, val: Text, rest: Text)
    requires forall i :: 0 <= i < |prefix| ==> PlainUnit(prefix[i])
    requires ReadWord(t) == Good(val, rest)
    ensures ReadWord(prefix + t) == Good(prefix + val, rest)
  {
    if prefix == [] {
      assert prefix + t == t && prefix + val == val;
    } else {
      PlainPrefixReads(prefix[1..], t, val, rest);
      PlainStep(prefix[0], prefix[1..] + t, prefix[1..] + val, rest);
      assert prefix == [prefix[0]] + prefix[1..];
      Assoc([prefix[0]], prefix[1..], t);
      Assoc([prefix[0]], prefix[1..], val);
    }
  }

  lemma WordsStep(t: Text, word: Text, after: Text, more: seq<Text>, rest: Text)
    requires t != [] && !EndsWord(t[0]) && ReadWord(t) == Good(word, after)
    requires ReadWords(after) == Good(more, rest)
    ensures ReadWords(t) == Good([word] + more, rest)
  {
  }

  lemma SpaceIsSkipped(t: Text)
    ensures ReadWords([SPACE] + t) == ReadWords(t)
  {
    assert ([SPACE] + t)[1..] == t;
  }

  // ---------------------------------------------------------------- the array assignment

  lemma QuoteThenMore(arg: Text, after: Text, more: seq<Text>, rest: Text)
    requires WordOver(after) && ReadWords(after) == Good(more, rest)
    ensures ReadWords(Quote(arg) + after) == Good([arg] + more, rest)
  {
    QuoteReadsBack(arg, after);
    WordsStep(Quote(arg) + after, arg, after, more, rest);
  }

  lemma QuotesSplit(args: seq<Text>, end: Text)
    requires |args| > 1
    ensures Join(Quotes(args), SPACE) + end
         == Quote(args[0]) + ([SPACE] + (Join(Quotes(args[1..]), SPACE) + end))
  {
    assert Quotes(args)[1..] == Quotes(args[1..]);
  }

  lemma LastQuoteReadsBack(arg: Text, rest: Text)
    requires ReadWords(rest) == Good([], rest)
    ensures ReadWords(Join(Quotes([arg]), SPACE) + ([SPACE] + rest)) == Good([arg], rest)
  {
    SpaceIsSkipped(rest);
    QuoteThenMore(arg, [SPACE] + rest, [], rest);
    assert Join(Quotes([arg]), SPACE) == Quote(arg);
    assert [arg] + [] == [arg];
  }

  lemma {:induction false} QuotesReadBack(args: seq<Text>, rest: Text)
    requires ReadWords(rest) == Good([], rest)
    ensures ReadWords(Join(Quotes(args), SPACE) + ([SPACE] + rest)) == Good(args, rest)
  {
    var end := [SPACE] + rest;
    SpaceIsSkipped(rest);
    if args == [] {
      assert Join(Quotes(args), SPACE) + end == end;
    } else if |args| == 1 {
      LastQuoteReadsBack(args[0], rest);
      assert args == [args[0]];
    } else {
      var tail := Join(Quotes(args[1..]), SPACE) + end;
      QuotesReadBack(args[1..], rest);
      SpaceIsSkipped(tail);
      QuoteThenMore(args[0], [SPACE] + tail, args[1..], rest);
      QuotesSplit(args, end);
      assert args == [args[0]] + args[1..];
    }
  }

  predicate ValidName(name: Text) {
    name != [] && !Digit(name[0]) && forall i :: 0 <= i < |name| ==> NameUnit(name[i])
  }

  lemma {:induction false} NameLengthIs(name: Text, rest: Text)
    requires forall i :: 0 <= i < |name| ==> NameUnit(name[i])
    requires rest != [] && !NameUnit(rest[0])
    ensures NameLength(name + rest) == |name|
  {
    if name == [] {
      assert name + rest == rest;
    } else {
      NameLengthIs(name[1..], rest);
      assert (name + rest)[1..] == name[1..] + rest;
    }
  }

  /** The emitted array assignment gives back exactly the argument list. */
  lemma ArrayReadsBack(name: Text, args: seq<Text>)
    requires ValidName(name)
    ensures RunArray(ArrayAssignment(name, args)) == Some((name, args))
  {
    var script := ArrayAssignment(name, args);
    var body := Join(Quotes(args), SPACE) + ([SPACE] + [CLOSE_PAREN]);
    assert script == name + ([EQUALS, OPEN_PAREN, SPACE] + body);
    NameLengthIs(name, [EQUALS, OPEN_PAREN, SPACE] + body);
    assert script[|name| + 2..] == [SPACE] + body;
    SpaceIsSkipped(body);
    QuotesReadBack(args, [CLOSE_PAREN]);
  }

  // ---------------------------------------------------------------- the export script

  lemma KeyIsName(key: Text)
    requires ValidKey(key)
    ensures ValidName(key) && forall i :: 0 <= i < |key| ==> PlainUnit(key[i])
  {
  }

  lemma AssignmentReadsBack(e: Entry, rest: Text)
    requires ValidKey(e.key) && ReadWords(rest) == Good([], rest) && WordOver(rest)
    ensures ReadWords(e.key + [EQUALS] + (Quote(e.value) + rest)) == Good([e.key + [EQUALS] + e.value], rest)
  {
    var name := e.key + [EQUALS];
    KeyIsName(e.key);
    QuoteReadsBack(e.value, rest);
    PlainPrefixReads(name, Quote(e.value) + rest, e.value, rest);
    WordsStep(name + (Quote(e.value) + rest), name + e.value, rest, [], rest);
    assert [name + e.value] + [] == [name + e.value];
  }

  lemma ExportReads(after: Text)
    requires WordOver(after)
    ensures ReadWord(EXPORT + after) == Good(EXPORT, after)
  {
    assert EXPORT + [] == EXPORT;
    PlainPrefixReads(EXPORT, after, [], after);
  }

  lemma ExportLineReadsBack(e: Entry, rest: Text)
    requires ValidKey(e.key) && ReadWords(rest) == Good([], rest) && WordOver(rest)
    ensures ReadWords(ExportLine(e) + rest) == Good([EXPORT, e.key + [EQUALS] + e.value], rest)
  {
    var assignment := e.key + [EQUALS] + (Quote(e.value) + rest);
    AssignmentReadsBack(e, rest);
    SpaceIsSkipped(assignment);
    var after := [SPACE] + assignment;
    ExportReads(after);
    WordsStep(EXPORT + after, EXPORT, after, [e.key + [EQUALS] + e.value], rest);
    assert ExportLine(e) + rest == EXPORT + after;
    assert [EXPORT] + [e.key + [EQUALS] + e.value] == [EXPORT, e.key + [EQUALS] + e.value];
  }

  lemma AssignmentSplits(e: Entry)
    requires ValidKey(e.key)
    ensures SplitAssignment(e.key + [EQUALS] + e.value) == Some(e)
  {
    KeyIsName(e.key);
    var word := e.key + ([EQUALS] + e.value);
    NameLengthIs(e.key, [EQUALS] + e.value);
    assert e.key + [EQUALS] + e.value == word;
    assert word[..|e.key|] == e.key && word[|e.key| + 1..] == e.value;
  }

  lemma LastLineRuns(e: Entry)
    requires ValidKey(e.key)
    ensures RunExports(ExportLine(e)) == Some([e])
  {
    ExportLineReadsBack(e, []);
    AssignmentSplits(e);
    assert ExportLine(e) + [] == ExportLine(e);
  }

  lemma LineRuns(e: Entry, more: Text)
    requires ValidKey(e.key) && RunExports(more).Some?
    ensures RunExports(ExportLine(e) + ([NEWLINE] + more)) == Some([e] + RunExports(more).value)
  {
    ExportLineReadsBack(e, [NEWLINE] + more);
    AssignmentSplits(e);
    assert ([NEWLINE] + more)[1..] == more;
  }

  lemma LinesSplit(env: seq<Entry>)
    requires |env| > 1
    ensures Join(ExportLines(env), NEWLINE)
         == ExportLine(env[0]) + ([NEWLINE] + Join(ExportLines(env[1..]), NEWLINE))
  {
    assert ExportLines(env)[1..] == ExportLines(env[1..]);
  }

  /** The emitted export commands give back exactly the environment. */
  lemma {:induction false} ExportsReadBack(env: seq<Entry>)
    requires ValidEnv(env)
    ensures RunExports(Join(ExportLines(env), NEWLINE)) == Some(env)
  {
    if |env| == 1 {
      LastLineRuns(env[0]);
      assert env == [env[0]];
    } else if env != [] {
      var more := Join(ExportLines(env[1..]), NEWLINE);
      ExportsReadBack(env[1..]);
      LineRuns(env[0], more);
      LinesSplit(env);
      assert env == [env[0]] + env[1..];
    }
  }

  // ---------------------------------------------------------------- through $(...) and eval

  predicate NulFree(t: Text) {
    NUL !in t
  }

  lemma {:induction false} DropNulIsIdentityExactlyWhenNulFree(t: Text)
    ensures NulFree(DropNul(t))
    ensures DropNul(t) == t <==> NulFree(t)
    ensures |DropNul(t)| <= |t| && (|DropNul(t)| == |t| ==> NulFree(t))
  {
    if t != [] {
      DropNulIsIdentityExactlyWhenNulFree(t[1..]);
      assert t == [t[0]] + t[1..];
    }
  }

  lemma {:induction false} EscapeDropsNul(value: Text)
    ensures DropNul(OnePass(value)) == OnePass(DropNul(value))
  {
    if value != [] {
      EscapeDropsNul(value[1..]);
      ReplaceAllConcat(EscapeUnit(value[0]), OnePass(value[1..]), NUL, []);
      UnitDropsNul(value[0]);
      if value[0] == NUL {
        assert DropNul(value) == DropNul(value[1..]);
      } else {
        assert DropNul(value) == [value[0]] + DropNul(value[1..]);
        assert DropNul(value)[1..] == DropNul(value[1..]);
      }
    }
  }

  lemma UnitDropsNul(c: Unit)
    ensures DropNul(EscapeUnit(c)) == if c == NUL then [] else EscapeUnit(c)
  {
    if c == NUL {
      ReplaceOne(c, NUL, []);
    } else {
      DropNulIsIdentityExactlyWhenNulFree(EscapeUnit(c));
    }
  }

  lemma QuoteDropsNul(value: Text)
    ensures DropNul(Quote(value)) == Quote(DropNul(value))
  {
    ChainIsOnePass(value);
    ChainIsOnePass(DropNul(value));
    EscapeDropsNul(value);
    DropNulIsIdentityExactlyWhenNulFree([DOLLAR, SINGLE_QUOTE]);
    DropNulIsIdentityExactlyWhenNulFree([SINGLE_QUOTE]);
    ReplaceAllConcat([DOLLAR, SINGLE_QUOTE] + Escaped(value), [SINGLE_QUOTE], NUL, []);
    ReplaceAllConcat([DOLLAR, SINGLE_QUOTE], Escaped(value), NUL, []);
  }

  /** Dropping NUL characters from joined parts drops them from each part. */
  lemma {:induction false} JoinDropsNul(parts: seq<Text>, clean: seq<Text>, separator: Unit)
    requires separator != NUL && |clean| == |parts|
    requires forall i :: 0 <= i < |parts| ==> clean[i] == DropNul(parts[i])
    ensures DropNul(Join(parts, separator)) == Join(clean, separator)
  {
    if |parts| > 1 {
      JoinDropsNul(parts[1..], clean[1..], separator);
      ReplaceAllConcat(parts[0] + [separator], Join(parts[1..], separator), NUL, []);
      ReplaceAllConcat(parts[0], [separator], NUL, []);
      DropNulIsIdentityExactlyWhenNulFree([separator]);
    }
  }

  function WithoutNul(args: seq<Text>): seq<Text> {
    seq(|args|, i requires 0 <= i < |args| => DropNul(args[i]))
  }

  function EnvWithoutNul(env: seq<Entry>): seq<Entry> {
    seq(|env|, i requires 0 <= i < |env| => Entry(env[i].key, DropNul(env[i].value)))
  }

  lemma TrailingNewline(t: Text)
    requires t == [] || t[|t| - 1] != NEWLINE
    ensures DropTrailingNewlines(t + [NEWLINE]) == t
  {
    assert (t + [NEWLINE])[..|t|] == t;
  }

  lemma EndsOtherwise(t: Text, last: Unit)
    requires last != NEWLINE && last != NUL
    ensures Kept(t + [last] + [NEWLINE]) == DropNul(t + [last])
  {
    ReplaceAllConcat(t + [last], [NEWLINE], NUL, []);
    ReplaceAllConcat(t, [last], NUL, []);
    ReplaceOne(NEWLINE, NUL, []);
    ReplaceOne(last, NUL, []);
    TrailingNewline(DropNul(t + [last]));
  }

  lemma ArrayIsKept(name: Text, args: seq<Text>)
    requires ValidName(name)
    ensures Kept(ArrayAssignment(name, args) + [NEWLINE]) == ArrayAssignment(name, WithoutNul(args))
  {
    var head := name + [EQUALS, OPEN_PAREN, SPACE];
    var body := head + Join(Quotes(args), SPACE) + [SPACE];
    assert ArrayAssignment(name, args) == body + [CLOSE_PAREN];
    EndsOtherwise(body, CLOSE_PAREN);
    forall i | 0 <= i < |args|
      ensures Quotes(WithoutNul(args))[i] == DropNul(Quotes(args)[i])
    {
      QuoteDropsNul(args[i]);
    }
    JoinDropsNul(Quotes(args), Quotes(WithoutNul(args)), SPACE);
    DropNulIsIdentityExactlyWhenNulFree(head);
    DropNulIsIdentityExactlyWhenNulFree([SPACE, CLOSE_PAREN]);
    ReplaceAllConcat(head + Join(Quotes(args), SPACE), [SPACE, CLOSE_PAREN], NUL, []);
    ReplaceAllConcat(head, Join(Quotes(args), SPACE), NUL, []);
  }

  lemma ExportLineDropsNul(e: Entry)
    requires ValidKey(e.key)
    ensures DropNul(ExportLine(e)) == ExportLine(Entry(e.key, DropNul(e.value)))
  {
    var head := EXPORT + [SPACE] + e.key + [EQUALS];
    QuoteDropsNul(e.value);
    ReplaceAllConcat(head, Quote(e.value), NUL, []);
    DropNulIsIdentityExactlyWhenNulFree(head);
  }

  lemma {:induction false} LinesEndInQuote(env: seq<Entry>)
    requires env != []
    ensures Join(ExportLines(env), NEWLINE) != []
    ensures Join(ExportLines(env), NEWLINE)[|Join(ExportLines(env), NEWLINE)| - 1] == SINGLE_QUOTE
  {
    if |env| > 1 {
      LinesEndInQuote(env[1..]);
      assert ExportLines(env)[1..] == ExportLines(env[1..]);
    }
  }

  lemma EnvironmentIsKept(env: seq<Entry>)
    requires ValidEnv(env)
    ensures Kept(Join(ExportLines(env), NEWLINE) + [NEWLINE]) == Join(ExportLines(EnvWithoutNul(env)), NEWLINE)
  {
    var text := Join(ExportLines(env), NEWLINE);
    if env == [] {
      ReplaceOne(NEWLINE, NUL, []);
      TrailingNewline([]);
      assert text + [NEWLINE] == [NEWLINE] && [] + [NEWLINE] == [NEWLINE];
    } else {
      LinesEndInQuote(env);
      EndsOtherwise(text[..|text| - 1], SINGLE_QUOTE);
      assert text[..|text| - 1] + [SINGLE_QUOTE] == text;
      forall i | 0 <= i < |env|
        ensures ExportLines(EnvWithoutNul(env))[i] == DropNul(ExportLines(env)[i])
      {
        ExportLineDropsNul(env[i]);
      }
      JoinDropsNul(ExportLines(env), ExportLines(EnvWithoutNul(env)), NEWLINE);
    }
  }

  // ---------------------------------------------------------------- the output encoding

  lemma {:induction false} EncodingIsIdentityExactlyWhenWellFormed(t: Text)
    ensures |Encoded(t)| == |t|
    ensures Encoded(t) == t <==> WellFormed(t)
  {
    if t == [] {
    } else if |t| > 1 && HighSurrogate(t[0]) && LowSurrogate(t[1]) {
      EncodingIsIdentityExactlyWhenWellFormed(t[2..]);
      assert t == t[..2] + t[2..];
      WellFormedSuffix(t, 2);
    } else {
      EncodingIsIdentityExactlyWhenWellFormed(t[1..]);
      assert t == [t[0]] + t[1..];
      if EncodedUnit(t[0]) == t[0] {
        WellFormedSuffix(t, 1);
      } else {
        assert !Partnered(t, 0);
      }
    }
  }

  /** No surrogate pair straddles the two texts. */
  predicate Apart(a: Text, b: Text) {
    a == [] || b == [] || !HighSurrogate(a[|a| - 1]) || !LowSurrogate(b[0])
  }

  lemma EncodedPair(high: Unit, low: Unit, rest: Text)
    requires HighSurrogate(high) && LowSurrogate(low)
    ensures Encoded([high, low] + rest) == [high, low] + Encoded(rest)
  {
    assert ([high, low] + rest)[..2] == [high, low] && ([high, low] + rest)[2..] == rest;
  }

  lemma EncodedOther(c: Unit, rest: Text)
    requires rest == [] || !HighSurrogate(c) || !LowSurrogate(rest[0])
    ensures Encoded([c] + rest) == [EncodedUnit(c)] + Encoded(rest)
  {
    assert ([c] + rest)[1..] == rest;
  }

  lemma {:induction false} EncodedConcat(a: Text, b: Text)
    requires Apart(a, b)
    ensures Encoded(a + b) == Encoded(a) + Encoded(b)
  {
    if a == [] {
      assert a + b == b;
    } else if |a| > 1 && HighSurrogate(a[0]) && LowSurrogate(a[1]) {
      var rest := a[2..];
      EncodedConcat(rest, b);
      assert a == [a[0], a[1]] + rest && a + b == [a[0], a[1]] + (rest + b);
      EncodedPair(a[0], a[1], rest);
      EncodedPair(a[0], a[1], rest + b);
      Assoc([a[0], a[1]], Encoded(rest), Encoded(b));
    } else {
      var rest := a[1..];
      EncodedConcat(rest, b);
      assert a == [a[0]] + rest && a + b == [a[0]] + (rest + b);
      EncodedOther(a[0], rest);
      EncodedOther(a[0], rest + b);
      Assoc([EncodedUnit(a[0])], Encoded(rest), Encoded(b));
    }
  }

  predicate NoSurrogates(t: Text) {
    forall i :: 0 <= i < |t| ==> !HighSurrogate(t[i]) && !LowSurrogate(t[i])
  }

  lemma PlainIsKept(t: Text)
    requires NoSurrogates(t)
    ensures Encoded(t) == t
  {
    EncodingIsIdentityExactlyWhenWellFormed(t);
  }

  lemma UnitEncodes(c: Unit)
    ensures Encoded(EscapeUnit(c)) == EscapeUnit(EncodedUnit(c))
  {
    if !HighSurrogate(c) && !LowSurrogate(c) { PlainIsKept(EscapeUnit(c)); }
  }

  lemma OnePassStep(c: Unit, rest: Text)
    ensures OnePass([c] + rest) == EscapeUnit(c) + OnePass(rest)
  {
    assert ([c] + rest)[1..] == rest;
  }

  lemma OnePassBegins(t: Text)
    requires t != [] && !LowSurrogate(t[0])
    ensures OnePass(t) != [] && !LowSurrogate(OnePass(t)[0])
  {
  }

  /** Escaping and encoding may come in either order. */
  lemma {:induction false} EscapeEncodes(value: Text)
    ensures Encoded(OnePass(value)) == OnePass(Encoded(value))
  {
    if value == [] {
    } else if |value| > 1 && HighSurrogate(value[0]) && LowSurrogate(value[1]) {
      EscapeEncodes(value[2..]);
      PairEncodes(value[0], value[1], value[2..]);
      assert value == [value[0], value[1]] + value[2..];
    } else {
      var rest := value[1..];
      EscapeEncodes(rest);
      UnitEncodes(value[0]);
      if rest != [] && HighSurrogate(value[0]) { OnePassBegins(rest); }
      EncodedConcat(EscapeUnit(value[0]), OnePass(rest));
      OnePassStep(EncodedUnit(value[0]), Encoded(rest));
    }
  }

  lemma OnePassPair(high: Unit, low: Unit, rest: Text)
    requires HighSurrogate(high) && LowSurrogate(low)
    ensures OnePass([high, low] + rest) == [high, low] + OnePass(rest)
  {
    assert [high, low] + rest == [high] + ([low] + rest);
    OnePassStep(high, [low] + rest);
    OnePassStep(low, rest);
    Assoc([high], [low], OnePass(rest));
  }

  lemma PairEncodes(high: Unit, low: Unit, rest: Text)
    requires HighSurrogate(high) && LowSurrogate(low) && Encoded(OnePass(rest)) == OnePass(Encoded(rest))
    ensures Encoded(OnePass([high, low] + rest)) == OnePass(Encoded([high, low] + rest))
  {
    OnePassPair(high, low, rest);
    OnePassPair(high, low, Encoded(rest));
    EncodedPair(high, low, rest);
    EncodedPair(high, low, OnePass(rest));
  }

  lemma Enclosed(before: Text, t: Text, after: Text)
    requires NoSurrogates(before) && NoSurrogates(after)
    ensures Encoded(before + t + after) == before + Encoded(t) + after
  {
    EncodedConcat(before + t, after);
    EncodedConcat(before, t);
    PlainIsKept(before);
    PlainIsKept(after);
  }

  lemma QuoteEncodes(value: Text)
    ensures Encoded(Quote(value)) == Quote(Encoded(value))
  {
    ChainIsOnePass(value);
    ChainIsOnePass(Encoded(value));
    EscapeEncodes(value);
    Enclosed([DOLLAR, SINGLE_QUOTE], Escaped(value), [SINGLE_QUOTE]);
  }

  lemma {:induction false} JoinEncodes(parts: seq<Text>, clean: seq<Text>, separator: Unit)
    requires !HighSurrogate(separator) && !LowSurrogate(separator) && |clean| == |parts|
    requires forall i :: 0 <= i < |parts| ==> clean[i] == Encoded(parts[i])
    ensures Encoded(Join(parts, separator)) == Join(clean, separator)
  {
    if |parts| > 1 {
      JoinEncodes(parts[1..], clean[1..], separator);
      EncodedConcat(parts[0] + [separator], Join(parts[1..], separator));
      EncodedConcat(parts[0], [separator]);
      PlainIsKept([separator]);
    }
  }

  function EncodedAll(args: seq<Text>): seq<Text> {
    seq(|args|, i requires 0 <= i < |args| => Encoded(args[i]))
  }

  function EncodedEnv(env: seq<Entry>): seq<Entry> {
    seq(|env|, i requires 0 <= i < |env| => Entry(env[i].key, Encoded(env[i].value)))
  }

  lemma QuotesEncode(args: seq<Text>)
    ensures Encoded(Join(Quotes(args), SPACE)) == Join(Quotes(EncodedAll(args)), SPACE)
  {
    forall i | 0 <= i < |args|
      ensures Quotes(EncodedAll(args))[i] == Encoded(Quotes(args)[i])
    {
      QuoteEncodes(args[i]);
    }
    JoinEncodes(Quotes(args), Quotes(EncodedAll(args)), SPACE);
  }

  lemma ArrayEncodes(name: Text, args: seq<Text>)
    requires ValidName(name)
    ensures Encoded(ArrayAssignment(name, args) + [NEWLINE]) == ArrayAssignment(name, EncodedAll(args)) + [NEWLINE]
  {
    QuotesEncode(args);
    var head, tail := name + [EQUALS, OPEN_PAREN, SPACE], [SPACE, CLOSE_PAREN] + [NEWLINE];
    Enclosed(head, Join(Quotes(args), SPACE), tail);
    assert ArrayAssignment(name, args) + [NEWLINE] == head + Join(Quotes(args), SPACE) + tail;
    assert ArrayAssignment(name, EncodedAll(args)) + [NEWLINE] == head + Join(Quotes(EncodedAll(args)), SPACE) + tail;
  }

  lemma ExportLineEncodes(e: Entry)
    requires ValidKey(e.key)
    ensures Encoded(ExportLine(e)) == ExportLine(Entry(e.key, Encoded(e.value)))
  {
    var head := EXPORT + [SPACE] + e.key + [EQUALS];
    QuoteEncodes(e.value);
    Enclosed(head, Quote(e.value), []);
    assert head + Quote(e.value) + [] == ExportLine(e);
  }

  lemma EnvironmentEncodes(env: seq<Entry>)
    requires ValidEnv(env)
    ensures Encoded(Join(ExportLines(env), NEWLINE) + [NEWLINE])
             == Join(ExportLines(EncodedEnv(env)), NEWLINE) + [NEWLINE]
  {
    forall i | 0 <= i < |env|
      ensures ExportLines(EncodedEnv(env))[i] == Encoded(ExportLines(env)[i])
    {
      ExportLineEncodes(env[i]);
    }
    JoinEncodes(ExportLines(env), ExportLines(EncodedEnv(env)), NEWLINE);
    EncodedConcat(Join(ExportLines(env), NEWLINE), [NEWLINE]);
    PlainIsKept([NEWLINE]);
  }

  // ---------------------------------------------------------------- what arrives

  /** A value as the shell that evaluates the output has it. */
  function Delivered(value: Text): Text {
    DropNul(Encoded(value))
  }

  function DeliveredAll(args: seq<Text>): seq<Text> {
    seq(|args|, i requires 0 <= i < |args| => Delivered(args[i]))
  }

  function DeliveredEnv(env: seq<Entry>): seq<Entry> {
    seq(|env|, i requires 0 <= i < |env| => Entry(env[i].key, Delivered(env[i].value)))
  }

  /** A value arrives unchanged exactly when it has no NUL and no surrogate without its partner. */
  lemma ArrivesExactlyWhen(value: Text)
    ensures Delivered(value) == value <==> NulFree(value) && WellFormed(value)
  {
    EncodingIsIdentityExactlyWhenWellFormed(value);
    DropNulIsIdentityExactlyWhenNulFree(Encoded(value));
    DropNulIsIdentityExactlyWhenNulFree(value);
  }

  /** So exactly the values a process can be given arrive unchanged. */
  lemma ArrivesExactlyWhenReceivable(value: Text)
    ensures Delivered(value) == value <==> Receivable(value)
  {
    ArrivesExactlyWhen(value);
    ReceivableExactlyWhen(value);
  }

  /** Neither half of the condition can be dropped. */
  lemma NulIsLost()
    ensures WellFormed([NUL]) && Delivered([NUL]) == []
  {
    PlainIsKept([NUL]);
    ReplaceOne(NUL, NUL, []);
  }

  lemma LoneSurrogateIsReplaced()
    ensures NulFree([0xD800]) && Delivered([0xD800]) == [REPLACEMENT]
  {
    assert Encoded([0xD800]) == [REPLACEMENT];
    ReplaceOne(REPLACEMENT, NUL, []);
  }

  /** What the launcher's array holds after capturing the output and evaluating it: exactly the
      arguments if and only if none has a NUL or a surrogate without its partner. */
  lemma ArrayArrives(name: Text, args: seq<Text>)
    requires ValidName(name)
    ensures RunArray(Captured(ArrayAssignment(name, args) + [NEWLINE])) == Some((name, DeliveredAll(args)))
    ensures DeliveredAll(args) == args <==> forall i :: 0 <= i < |args| ==> NulFree(args[i]) && WellFormed(args[i])
  {
    ArrayEncodes(name, args);
    ArrayIsKept(name, EncodedAll(args));
    ArrayReadsBack(name, DeliveredAll(args));
    assert WithoutNul(EncodedAll(args)) == DeliveredAll(args);
    forall i | 0 <= i < |args|
      ensures DeliveredAll(args)[i] == args[i] <==> NulFree(args[i]) && WellFormed(args[i])
    {
      ArrivesExactlyWhen(args[i]);
    }
  }

  /** What the launcher's environment gets, under the same condition. */
  lemma EnvironmentArrives(env: seq<Entry>)
    requires ValidEnv(env)
    ensures RunExports(Captured(Join(ExportLines(env), NEWLINE) + [NEWLINE])) == Some(DeliveredEnv(env))
    ensures DeliveredEnv(env) == env <==>
              forall i :: 0 <= i < |env| ==> NulFree(env[i].value) && WellFormed(env[i].value)
  {
    EnvironmentEncodes(env);
    EnvironmentIsKept(EncodedEnv(env));
    ExportsReadBack(DeliveredEnv(env));
    assert EnvWithoutNul(EncodedEnv(env)) == DeliveredEnv(env);
    forall i | 0 <= i < |env|
      ensures DeliveredEnv(env)[i] == env[i] <==> NulFree(env[i].value) && WellFormed(env[i].value)
    {
      ArrivesExactlyWhen(env[i].value);
    }
  }
}
