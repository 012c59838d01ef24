/**
 Reading the stop sequence of a turn from the transcript (discord-reply-enforcer.py): the tail is
 read backwards up to the genuine user prompt that began the turn, then scanned. What the regular
 expressions find in a text is a parameter.
 */
module TailReader {
  import opened Prelude

  type Tool = nat
  type Id = nat

  const REPLY_TOOL: Tool := 0
  const WRITE_TOOL: Tool := 1

  datatype Content = PlainText | Blocks(toolResults: seq<bool>)

  datatype Block = ToolUse(name: Option<Tool>) | TextBlock(text: Text) | OtherBlock

  datatype Row =
    | User(content: Content)
    | Assistant(uuid: Id, blocks: Option<seq<Block>>)    // None: the content is not a list
    | OtherRow

  /** A line of the transcript: empty, not JSON, or a row. */
  datatype Line = Blank | Garbled | Json(row: Row)

  predicate IsPureToolResult(c: Content) {
    c.Blocks? && c.toolResults != [] && forall i :: 0 <= i < |c.toolResults| ==> c.toolResults[i]
  }

  predicate Genuine(r: Row) {
    r.User? && !IsPureToolResult(r.content)
  }

  // ---------------------------------------------------------------- which rows count

  /** All rows of the transcript that can be decoded. */
  function Decodable(lines: seq<Line>): (rows: seq<Row>)
    ensures |rows| <= |lines|
  {
    if lines == [] then []
    else (if lines[0].Json? then [lines[0].row] else []) + Decodable(lines[1..])
  }

  ghost predicate IsLastGenuine(rows: seq<Row>, idx: int) {
    && -1 <= idx < |rows|
    && (idx >= 0 ==> Genuine(rows[idx]))
    && forall i :: idx < i < |rows| ==> !Genuine(rows[i])
  }

  lemma LastGenuineIsUnique(rows: seq<Row>, i: int, j: int)
    requires IsLastGenuine(rows, i) && IsLastGenuine(rows, j)
    ensures i == j
  {
  }

  function LastGenuine(rows: seq<Row>): (idx: int)
    ensures IsLastGenuine(rows, idx)
  {
    if rows == [] then -1
    else if Genuine(rows[|rows| - 1]) then |rows| - 1
    else
      assert forall i :: 0 <= i < |rows| - 1 ==> rows[i] == rows[..|rows| - 1][i];
      LastGenuine(rows[..|rows| - 1])
  }

  /** The rows after the prompt that began the turn. */
  function Turn(rows: seq<Row>): seq<Row> {
    rows[LastGenuine(rows) + 1..]
  }

  /** The rows from that prompt on, or all rows when there is none. */
  function FromPrompt(rows: seq<Row>): seq<Row> {
    rows[Max(0, LastGenuine(rows))..]
  }

  /** Dropping what comes before the last genuine prompt changes neither the prompt nor the turn. */
  lemma SameTurn(rows: seq<Row>)
    ensures Turn(FromPrompt(rows)) == Turn(rows)
  {
    var last, kept := LastGenuine(rows), FromPrompt(rows);
    if last >= 0 {
      PromptIsFirst(rows, last, kept);
      LastGenuineIsUnique(kept, LastGenuine(kept), 0);
      assert rows[last..][1..] == rows[last + 1..];
    } else {
      assert kept == rows;
    }
  }

  lemma PromptIsFirst(rows: seq<Row>, last: nat, kept: seq<Row>)
    requires IsLastGenuine(rows, last) && kept == rows[last..]
    ensures IsLastGenuine(kept, 0)
  {
    forall i | 0 < i < |kept|
      ensures !Genuine(kept[i])
    {
      assert kept[i] == rows[last + i];
    }
  }

  lemma Assoc(a: seq<Row>, b: seq<Row>, c: seq<Row>)
    ensures (a + b) + c == a + (b + c)
  {
  }

  lemma {:induction false} DecodableConcat(a: seq<Line>, b: seq<Line>)
    ensures Decodable(a + b) == Decodable(a) + Decodable(b)
  {
    if a == [] {
      assert a + b == b;
    } else {
      var first := if a[0].Json? then [a[0].row] else [];
      assert (a + b)[1..] == a[1..] + b;
      DecodableConcat(a[1..], b);
      Assoc(first, Decodable(a[1..]), Decodable(b));
    }
  }

  lemma LastGenuineOfSuffix(rows: seq<Row>, more: seq<Row>)
    requires LastGenuine(more) >= 0
    ensures LastGenuine(rows + more) == |rows| + LastGenuine(more)
  {
    LastGenuineIsUnique(rows + more, LastGenuine(rows + more), |rows| + LastGenuine(more));
  }

  /** Once the lines hold a genuine prompt, earlier lines do not matter, decodable or not. */
  lemma EarlierLinesDoNotMatter(earlier: seq<Line>, lines: seq<Line>)
    requires LastGenuine(Decodable(lines)) >= 0
    ensures FromPrompt(Decodable(earlier + lines)) == FromPrompt(Decodable(lines))
  {
    DecodableConcat(earlier, lines);
    FromPromptOfSuffix(Decodable(earlier), Decodable(lines));
  }

  lemma FromPromptOfSuffix(before: seq<Row>, rows: seq<Row>)
    requires LastGenuine(rows) >= 0
    ensures FromPrompt(before + rows) == FromPrompt(rows)
  {
    LastGenuineOfSuffix(before, rows);
    SuffixOfConcat(before, rows, LastGenuine(rows));
  }

  lemma SuffixOfConcat(a: seq<Row>, b: seq<Row>, k: nat)
    requires k <= |b|
    ensures (a + b)[|a| + k..] == b[k..]
  {
  }

  function Reversed(s: seq<Row>): (r: seq<Row>)
    ensures |r| == |s|
    ensures forall i :: 0 <= i < |s| ==> r[i] == s[|s| - 1 - i]
  {
    if s == [] then [] else Reversed(s[1..]) + [s[0]]
  }

  /** _load_tail_rows: read backwards and stop at the genuine prompt. */
  method LoadTailRows(lines: seq<Line>) returns (rows: seq<Row>)
    ensures rows == FromPrompt(Decodable(lines))
  {
    rows := [];
    var i := |lines|;
    ghost var tail: seq<Row> := [];
    while i > 0
      invariant 0 <= i <= |lines|
      invariant tail == Decodable(lines[i..]) && LastGenuine(tail) == -1 && rows == Reversed(tail)
    {
      i := i - 1;
      var line := lines[i];
      assert lines[i..][1..] == lines[i + 1..];
      if !line.Json? { continue; }
      rows := rows + [line.row];
      tail := [line.row] + tail;
      Prepended(tail);
      if Genuine(line.row) {
        rows := Backwards(rows);
        KeptIsFromPrompt(lines, i, tail);
        ReversedTwice(tail);
        return;
      }
    }
    rows := Backwards(rows);
    assert lines[0..] == lines;
    ReversedTwice(tail);
  }

  lemma ReversedTwice(s: seq<Row>)
    ensures Reversed(Reversed(s)) == s
  {
  }

  /** list.reverse */
  method Backwards(s: seq<Row>) returns (r: seq<Row>)
    ensures r == Reversed(s)
  {
    r := [];
    var i := |s|;
    while i > 0
      invariant 0 <= i <= |s| == i + |r|
      invariant forall j :: 0 <= j < |r| ==> r[j] == s[|s| - 1 - j]
    {
      i := i - 1;
      r := r + [s[i]];
    }
  }

  lemma Prepended(tail: seq<Row>)
    requires tail != []
    ensures Reversed(tail) == Reversed(tail[1..]) + [tail[0]]
    ensures LastGenuine(tail[1..]) == -1 ==> LastGenuine(tail) == if Genuine(tail[0]) then 0 else -1
  {
    if LastGenuine(tail[1..]) == -1 {
      assert forall i :: 0 < i < |tail| ==> tail[i] == tail[1..][i - 1];
      LastGenuineIsUnique(tail, LastGenuine(tail), if Genuine(tail[0]) then 0 else -1);
    }
  }

  lemma KeptIsFromPrompt(lines: seq<Line>, i: nat, tail: seq<Row>)
    requires i < |lines| && tail == Decodable(lines[i..]) && LastGenuine(tail) == 0
    ensures FromPrompt(Decodable(lines)) == tail
  {
    assert lines == lines[..i] + lines[i..];
    EarlierLinesDoNotMatter(lines[..i], lines[i..]);
  }

  // ---------------------------------------------------------------- the scan

  type Body = nat

  datatype Candidate = Candidate(chatId: Text, text: Text)

  /** What the text functions and regular expressions give. */
  datatype Lexer = Lexer(
    stripFences: Text -> Text,
    openers: Text -> seq<Tool>,                       // tool names of leaked openers, in order
    closed: Text -> seq<(Tool, Body)>,                // closed blocks, in order
    candidate: Body -> Option<Candidate>,
    replyLeak: Text -> bool,
    payload: Text -> (Option<Text>, Option<Text>))    // chat id and message of a leaked reply

  datatype Leak = Leak(payload: (Option<Text>, Option<Text>), uuid: Option<Id>, textLen: nat)

  datatype Scan = Scan(
    realTools: set<Tool>, leakedTools: set<Tool>, replyLeak: Option<Leak>,
    candidates: seq<(Candidate, Option<Id>)>, openerCount: nat)

  function ToolNames(blocks: seq<Block>): set<Tool> {
    set i | 0 <= i < |blocks| && blocks[i].ToolUse? && blocks[i].name.Some? :: blocks[i].name.value
  }

  function Texts(blocks: seq<Block>): seq<Text> {
    if blocks == [] then []
    else
      var last := blocks[|blocks| - 1];
      Texts(blocks[..|blocks| - 1]) + if last.TextBlock? then [last.text] else []
  }

  function RowBlocks(r: Row): seq<Block> {
    if r.Assistant? && r.blocks.Some? then r.blocks.value else []
  }

  /** The tools really invoked in these rows. */
  function RealTools(rows: seq<Row>): set<Tool> {
    if rows == [] then {} else RealTools(rows[..|rows| - 1]) + ToolNames(RowBlocks(rows[|rows| - 1]))
  }

  function AllTexts(rows: seq<Row>): seq<Text> {
    if rows == [] then [] else AllTexts(rows[..|rows| - 1]) + Texts(RowBlocks(rows[|rows| - 1]))
  }

  /** The last message whose own text holds an opener. */
  function LeakUuid(lx: Lexer, rows: seq<Row>): Option<Id> {
    if rows == [] then None
    else
      var last := rows[|rows| - 1];
      var texts := Texts(RowBlocks(last));
      if texts != [] && lx.openers(lx.stripFences(Join(texts, NEWLINE))) != [] then Some(last.uuid)
      else LeakUuid(lx, rows[..|rows| - 1])
  }

  function Count(tools: seq<Tool>, t: Tool): nat {
    if tools == [] then 0 else Count(tools[..|tools| - 1], t) + if tools[|tools| - 1] == t then 1 else 0
  }

  function Candidates(lx: Lexer, closed: seq<(Tool, Body)>, uuid: Option<Id>): seq<(Candidate, Option<Id>)> {
    if closed == [] then []
    else
      var (tool, body) := closed[|closed| - 1];
      Candidates(lx, closed[..|closed| - 1], uuid)
      + if tool == REPLY_TOOL && lx.candidate(body).Some? then [(lx.candidate(body).value, uuid)] else []
  }

  /** What the scan reports about the rows of one turn. */
  function ScanOf(lx: Lexer, rows: seq<Row>): Scan {
    var text := Join(AllTexts(rows), NEWLINE);
    var openers := lx.openers(lx.stripFences(text));
    var leaked := LeakedTools(openers, RealTools(rows));
    var uuid := LeakUuid(lx, rows);
    Scan(RealTools(rows), leaked, ReplyLeakOf(lx, leaked, text, uuid), CandidatesOf(lx, leaked, text, uuid),
         Count(openers, REPLY_TOOL))
  }

  /** The tools we look for that leaked and were not really invoked. */
  function LeakedTools(openers: seq<Tool>, used: set<Tool>): set<Tool> {
    set t | t in openers && (t == REPLY_TOOL || t == WRITE_TOOL) && t !in used
  }

  function ReplyLeakOf(lx: Lexer, leaked: set<Tool>, text: Text, uuid: Option<Id>): Option<Leak> {
    var scan := lx.stripFences(text);
    if REPLY_TOOL in leaked && lx.replyLeak(scan) then Some(Leak(lx.payload(scan), uuid, |text|)) else None
  }

  function CandidatesOf(lx: Lexer, leaked: set<Tool>, text: Text, uuid: Option<Id>): seq<(Candidate, Option<Id>)> {
    if REPLY_TOOL in leaked then Candidates(lx, lx.closed(lx.stripFences(text)), uuid) else []
  }

  method LastGenuineUserIdx(rows: seq<Row>) returns (idx: int)
    ensures idx == LastGenuine(rows)
  {
    idx := -1;
    for i := 0 to |rows|
      invariant idx < i && IsLastGenuine(rows[..i], idx)
    {
      if !rows[i].User? || IsPureToolResult(rows[i].content) { continue; }
      idx := i;
    }
    assert rows[..|rows|] == rows;
    LastGenuineIsUnique(rows, idx, LastGenuine(rows));
  }

  /** The blocks of one message. */
  method ScanBlocks(blocks: seq<Block>) returns (tools: set<Tool>, texts: seq<Text>)
    ensures tools == ToolNames(blocks) && texts == Texts(blocks)
  {
    tools, texts := {}, [];
    for i := 0 to |blocks|
      invariant tools == ToolNames(blocks[..i]) && texts == Texts(blocks[..i])
    {
      assert blocks[..i + 1][..i] == blocks[..i];
      match blocks[i] {
        case ToolUse(name) => if name.Some? { tools := tools + {name.value}; }
        case TextBlock(text) => texts := texts + [text];
        case OtherBlock =>
      }
    }
    assert blocks[..|blocks|] == blocks;
  }

  /** The first loop of scan_stop_sequence, with the uuid of the message that carries a leak. */
  method Collect(lx: Lexer, rows: seq<Row>) returns (used: set<Tool>, texts: seq<Text>, uuid: Option<Id>)
    ensures used == RealTools(rows) && texts == AllTexts(rows) && uuid == LeakUuid(lx, rows)
  {
    used, texts, uuid := {}, [], None;
    for i := 0 to |rows|
      invariant used == RealTools(rows[..i]) && texts == AllTexts(rows[..i]) && uuid == LeakUuid(lx, rows[..i])
    {
      assert rows[..i + 1][..i] == rows[..i];
      var tools, own := ScanBlocks(RowBlocks(rows[i]));
      used, texts := used + tools, texts + own;
      if own != [] && lx.openers(lx.stripFences(Join(own, NEWLINE))) != [] { uuid := Some(rows[i].uuid); }
    }
    assert rows[..|rows|] == rows;
  }

  method Leaked(tools: seq<Tool>, used: set<Tool>) returns (leaked: set<Tool>, openers: nat)
    ensures leaked == LeakedTools(tools, used)
    ensures openers == Count(tools, REPLY_TOOL)
  {
    leaked, openers := {}, 0;
    for i := 0 to |tools|
      invariant leaked == LeakedTools(tools[..i], used)
      invariant openers == Count(tools[..i], REPLY_TOOL)
    {
      assert tools[..i + 1] == tools[..i] + [tools[i]];
      var t := tools[i];
      if (t == REPLY_TOOL || t == WRITE_TOOL) && t !in used { leaked := leaked + {t}; }
      if t == REPLY_TOOL { openers := openers + 1; }
    }
    assert tools[..|tools|] == tools;
  }

  method CollectCandidates(lx: Lexer, closed: seq<(Tool, Body)>, uuid: Option<Id>)
    returns (r: seq<(Candidate, Option<Id>)>)
    ensures r == Candidates(lx, closed, uuid)
  {
    r := [];
    for i := 0 to |closed|
      invariant r == Candidates(lx, closed[..i], uuid)
    {
      assert closed[..i + 1][..i] == closed[..i];
      var (tool, body) := closed[i];
      if tool != REPLY_TOOL { continue; }
      var c := lx.candidate(body);
      if c.Some? { r := r + [(c.value, uuid)]; }
    }
    assert closed[..|closed|] == closed;
  }

  method ScanStopSequence(lx: Lexer, rows: seq<Row>) returns (s: Scan)
    ensures s == ScanOf(lx, Turn(rows))
  {
    var start := LastGenuineUserIdx(rows);
    var turn := rows[start + 1..];
    assert turn == Turn(rows);
    var used, texts, uuid := Collect(lx, turn);
    var text := Join(texts, NEWLINE);
    var scan := lx.stripFences(text);
    var leaked, openers := Leaked(lx.openers(scan), used);
    var candidates := [];
    if REPLY_TOOL in leaked { candidates := CollectCandidates(lx, lx.closed(scan), uuid); }
    assert candidates == CandidatesOf(lx, leaked, text, uuid);
    s := Scan(used, leaked, ReplyLeakOf(lx, leaked, text, uuid), candidates, openers);
  }

  /** Scanning the rows the tail reader keeps gives what scanning every decodable row gives. */
  method ScanTail(lx: Lexer, lines: seq<Line>) returns (s: Scan)
    ensures s == ScanOf(lx, Turn(Decodable(lines)))
  {
    var rows := LoadTailRows(lines);
    s := ScanStopSequence(lx, rows);
    SameTurn(Decodable(lines));
  }
}
