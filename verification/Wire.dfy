/**
 The wire to the daemon: the transport that buffers until its handlers are registered
 (codex-daemon-transport.ts) and the client's request table (codex-daemon-client.ts).
 */
module Wire {
  import opened Prelude

  // ---------------------------------------------------------------- frames

  /** What a parsed frame looks like to the client; `verb` is its method. */
  datatype Frame =
    | NotAnObject
    | Message(id: Option<int>, verb: Option<nat>, hasResult: bool, hasError: bool)

  /** A response has no method and carries a result or an error. */
  predicate IsResponse(f: Frame) {
    f.Message? && f.verb.None? && f.id.Some? && (f.hasResult || f.hasError)
  }

  predicate IsServerRequest(f: Frame) {
    f.Message? && f.verb.Some? && f.id.Some?
  }

  // ---------------------------------------------------------------- the transport

  type Reason = nat

  const OVERFLOW: Reason := 0
  const MAX_PENDING_FRAMES := 1024

  /** What happens at the transport: a text message, which may not parse, the end of the
      connection (close, error or a failed write), and the registration of the handlers. */
  datatype Happening =
    | Text(parsed: Option<Frame>)
    | Ended(reason: Reason)
    | MessageHandler
    | CloseHandler

  /** What the client's handlers are called with. */
  datatype Call = Deliver(frame: Frame) | Close(reason: Reason)

  /** The parseable frames, in wire order. */
  function Frames(trace: seq<Happening>): seq<Frame> {
    if trace == [] then []
    else
      var last := trace[|trace| - 1];
      Frames(trace[..|trace| - 1]) + if last.Text? && last.parsed.Some? then [last.parsed.value] else []
  }

  /** This happening closes the connection unless it is closed: it ends, or a frame arrives that
      no longer fits the buffer. */
  predicate Closes(before: seq<Happening>, x: Happening) {
    || x.Ended?
    || (x.Text? && x.parsed.Some? && MessageHandler !in before && |Frames(before)| >= MAX_PENDING_FRAMES)
  }

  /** Where the connection was closed. */
  function ClosedAt(trace: seq<Happening>): (r: Option<nat>)
    ensures r.Some? ==> r.value < |trace| && Closes(trace[..r.value], trace[r.value])
  {
    if trace == [] then None
    else
      var before := trace[..|trace| - 1];
      if ClosedAt(before).Some? then
        assert before[..ClosedAt(before).value] == trace[..ClosedAt(before).value];
        ClosedAt(before)
      else if Closes(before, trace[|trace| - 1]) then Some(|trace| - 1)
      else None
  }

  function ReasonOf(x: Happening): Reason {
    if x.Ended? then x.reason else OVERFLOW
  }

  /** The part of the trace before the close. */
  function BeforeClose(trace: seq<Happening>): seq<Happening> {
    if ClosedAt(trace).Some? then trace[..ClosedAt(trace).value] else trace
  }

  /** The frames that came before the close. */
  function Heard(trace: seq<Happening>): seq<Frame> {
    Frames(BeforeClose(trace))
  }

  function Delivers(frames: seq<Frame>): seq<Call> {
    seq(|frames|, i requires 0 <= i < |frames| => Deliver(frames[i]))
  }

  function CloseReason(trace: seq<Happening>): Option<Reason> {
    if ClosedAt(trace).Some? then Some(ReasonOf(trace[ClosedAt(trace).value])) else None
  }

  function OwedOf(msg: bool, close: bool, heard: seq<Frame>, reason: Option<Reason>): seq<Call> {
    (if msg then Delivers(heard) else []) + (if close && reason.Some? then [Close(reason.value)] else [])
  }

  /** What the handlers must have been called with: the parseable frames in wire order up to the
      close, then the close, once. */
  function Owed(trace: seq<Happening>): seq<Call> {
    OwedOf(MessageHandler in trace, CloseHandler in trace, Heard(trace), CloseReason(trace))
  }

  /** The message handler is registered before the close handler, as the client does. */
  predicate Orderly(trace: seq<Happening>) {
    trace == [] || (Orderly(trace[..|trace| - 1])
                    && (trace[|trace| - 1].CloseHandler? ==> MessageHandler in trace[..|trace| - 1]))
  }

  /** A close is the last call, and the frames are called with in wire order. */
  lemma NothingAfterTheClose(trace: seq<Happening>)
    ensures forall i :: 0 <= i < |Owed(trace)| && Owed(trace)[i].Close? ==> i == |Owed(trace)| - 1
    ensures forall i :: 0 <= i < |Owed(trace)| && Owed(trace)[i].Deliver? ==>
              i < |Heard(trace)| && Owed(trace)[i].frame == Heard(trace)[i]
  {
  }

  /** The transport's fields, and the calls it has made. */
  datatype Transport = Transport(
    msg: bool, close: bool, closed: bool, pending: seq<Frame>, late: Option<Reason>, calls: seq<Call>)

  const NEW_TRANSPORT := Transport(false, false, false, [], None, [])

  function OnEnd(b: Transport, reason: Reason): Transport {
    if b.closed then b
    else if b.close then b.(closed := true, calls := b.calls + [Close(reason)])
    else b.(closed := true, late := Some(reason))
  }

  function OnText(b: Transport, parsed: Option<Frame>): Transport {
    if b.closed || parsed.None? then b
    else if b.msg then b.(calls := b.calls + [Deliver(parsed.value)])
    else if |b.pending| >= MAX_PENDING_FRAMES then OnEnd(b, OVERFLOW)
    else b.(pending := b.pending + [parsed.value])
  }

  function Feel(b: Transport, x: Happening): Transport {
    match x
    case Text(parsed) => OnText(b, parsed)
    case Ended(reason) => OnEnd(b, reason)
    case MessageHandler => b.(msg := true, pending := [], calls := b.calls + Delivers(b.pending))
    case CloseHandler =>
      b.(close := true, late := None, calls := b.calls + if b.late.Some? then [Close(b.late.value)] else [])
  }

  function Felt(trace: seq<Happening>): Transport {
    if trace == [] then NEW_TRANSPORT else Feel(Felt(trace[..|trace| - 1]), trace[|trace| - 1])
  }

  lemma FeltOneMore(trace: seq<Happening>, x: Happening)
    ensures Felt(trace + [x]) == Feel(Felt(trace), x)
  {
    assert (trace + [x])[..|trace|] == trace;
  }

  class WsDaemonTransport {
    var hasMsgHandler: bool
    var hasCloseHandler: bool
    var closed: bool
    var pendingFrames: seq<Frame>
    var pendingCloseReason: Option<Reason>
    ghost var trace: seq<Happening>
    ghost var calls: seq<Call>

    ghost function Value(): Transport
      reads this
    {
      Transport(hasMsgHandler, hasCloseHandler, closed, pendingFrames, pendingCloseReason, calls)
    }

    ghost predicate Valid()
      reads this
    {
      Value() == Felt(trace)
    }

    constructor ()
      ensures Valid() && trace == []
    {
      hasMsgHandler, hasCloseHandler, closed, pendingFrames, pendingCloseReason := false, false, false, [], None;
      trace, calls := [], [];
    }

    method OnWsMessage(parsed: Option<Frame>)
      requires Valid()
      modifies this
      ensures Valid() && trace == old(trace) + [Text(parsed)]
    {
      FeltOneMore(trace, Text(parsed));
      trace := trace + [Text(parsed)];
      if closed || parsed.None? { return; }
      if hasMsgHandler {
        calls := calls + [Deliver(parsed.value)];
      } else if |pendingFrames| >= MAX_PENDING_FRAMES {
        CloseNow(OVERFLOW);
      } else {
        pendingFrames := pendingFrames + [parsed.value];
      }
    }

    /** The body of onWsClose. */
    method CloseNow(reason: Reason)
      modifies this`closed, this`pendingCloseReason, this`calls
      ensures Value() == OnEnd(old(Value()), reason)
    {
      if closed { return; }
      closed := true;
      if hasCloseHandler { calls := calls + [Close(reason)]; } else { pendingCloseReason := Some(reason); }
    }

    /** A close or error event, or the callback of a failed write. */
    method OnWsClose(reason: Reason)
      requires Valid()
      modifies this
      ensures Valid() && trace == old(trace) + [Ended(reason)]
    {
      FeltOneMore(trace, Ended(reason));
      trace := trace + [Ended(reason)];
      CloseNow(reason);
    }

    /** Register the message handler and replay what was buffered, in order. */
    method OnMessage()
      requires Valid()
      modifies this
      ensures Valid() && trace == old(trace) + [MessageHandler]
    {
      ghost var b := Value();
      FeltOneMore(trace, MessageHandler);
      trace := trace + [MessageHandler];
      hasMsgHandler := true;
      Replay();
      assert Value() == b.(msg := true, pending := [], calls := b.calls + Delivers(b.pending));
    }

    method Replay()
      modifies this`pendingFrames, this`calls
      ensures pendingFrames == [] && calls == old(calls) + Delivers(old(pendingFrames))
    {
      ghost var buffered, before := pendingFrames, calls;
      while |pendingFrames| > 0
        invariant |pendingFrames| <= |buffered| && pendingFrames == buffered[|buffered| - |pendingFrames|..]
        invariant calls == before + Delivers(buffered[..|buffered| - |pendingFrames|])
      {
        var frame := pendingFrames[0];
        assert frame == buffered[|buffered| - |pendingFrames|];
        pendingFrames := pendingFrames[1..];
        calls := calls + [Deliver(frame)];
      }
      assert buffered[..|buffered|] == buffered;
    }

    /** Register the close handler and hand it a close that came before. */
    method OnClose()
      requires Valid()
      modifies this
      ensures Valid() && trace == old(trace) + [CloseHandler]
    {
      FeltOneMore(trace, CloseHandler);
      trace := trace + [CloseHandler];
      hasCloseHandler := true;
      if pendingCloseReason.Some? {
        calls := calls + [Close(pendingCloseReason.value)];
        pendingCloseReason := None;
      }
    }

    /** send throws on a socket that is not open; a failed write shows up as an end later. */
    method Send(open: bool) returns (thrown: bool)
      requires Valid()
      ensures thrown <==> !open || Felt(trace).closed
    {
      thrown := closed || !open;
    }
  }

  // ---------------------------------------------------------------- the client gets what it is owed

  /** What the transport holds and has called, given the frames heard and the close so far. */
  predicate Matches(b: Transport, heard: seq<Frame>, reason: Option<Reason>, orderly: bool) {
    && (b.closed <==> reason.Some?)
    && b.pending == (if b.msg then [] else heard)
    && b.late == (if b.close then None else reason)
    && |b.pending| <= MAX_PENDING_FRAMES
    && (orderly ==> (b.close ==> b.msg) && b.calls == OwedOf(b.msg, b.close, heard, reason))
  }

  /** The close that `x` makes, if it makes one. */
  function NextReason(msg: bool, heard: seq<Frame>, reason: Option<Reason>, x: Happening): Option<Reason> {
    if reason.Some? then reason
    else if x.Ended? || (x.Text? && x.parsed.Some? && !msg && |heard| >= MAX_PENDING_FRAMES) then Some(ReasonOf(x))
    else None
  }

  function NextHeard(heard: seq<Frame>, reason: Option<Reason>, x: Happening): seq<Frame> {
    if reason.None? && x.Text? && x.parsed.Some? then heard + [x.parsed.value] else heard
  }

  lemma FeelMatches(b: Transport, heard: seq<Frame>, reason: Option<Reason>, orderly: bool, x: Happening)
    requires Matches(b, heard, reason, orderly)
    ensures var reason' := NextReason(b.msg, heard, reason, x);
            Matches(Feel(b, x), NextHeard(heard, reason', x), reason', orderly && (x.CloseHandler? ==> b.msg))
  {
    var reason' := NextReason(b.msg, heard, reason, x);
    assert Delivers(NextHeard(heard, reason', x))
        == Delivers(heard) + if reason'.None? && x.Text? && x.parsed.Some? then [Deliver(x.parsed.value)] else [];
  }

  lemma TraceGrows(trace: seq<Happening>, x: Happening)
    ensures var t, reason' := trace + [x], NextReason(MessageHandler in trace, Heard(trace), CloseReason(trace), x);
            && CloseReason(t) == reason'
            && Heard(t) == NextHeard(Heard(trace), reason', x)
            && (Orderly(t) <==> Orderly(trace) && (x.CloseHandler? ==> MessageHandler in trace))
  {
    var t := trace + [x];
    assert t[..|trace|] == trace;
    if ClosedAt(trace).Some? {
      assert t[..ClosedAt(trace).value] == trace[..ClosedAt(trace).value];
    }
  }

  predicate Right(trace: seq<Happening>) {
    var b := Felt(trace);
    && Matches(b, Heard(trace), CloseReason(trace), Orderly(trace))
    && (b.msg <==> MessageHandler in trace) && (b.close <==> CloseHandler in trace)
  }

  lemma RightOneMore(trace: seq<Happening>, x: Happening)
    requires Right(trace)
    ensures Right(trace + [x])
  {
    var b := Felt(trace);
    FeltOneMore(trace, x);
    TraceGrows(trace, x);
    FeelMatches(b, Heard(trace), CloseReason(trace), Orderly(trace), x);
    HandlersGrow(b, trace, x);
  }

  lemma HandlersGrow(b: Transport, trace: seq<Happening>, x: Happening)
    requires (b.msg <==> MessageHandler in trace) && (b.close <==> CloseHandler in trace)
    ensures (Feel(b, x).msg <==> MessageHandler in trace + [x]) && (Feel(b, x).close <==> CloseHandler in trace + [x])
  {
  }

  lemma {:induction false} AlwaysRight(trace: seq<Happening>)
    ensures Right(trace)
  {
    if trace != [] {
      AlwaysRight(trace[..|trace| - 1]);
      RightOneMore(trace[..|trace| - 1], trace[|trace| - 1]);
      assert trace == trace[..|trace| - 1] + [trace[|trace| - 1]];
    }
  }

  /** For every trace: the handlers were called exactly with what they are owed. */
  lemma ClientGetsWhatItIsOwed(trace: seq<Happening>)
    requires Orderly(trace)
    ensures Felt(trace).calls == Owed(trace)
  {
    AlwaysRight(trace);
  }

  // ---------------------------------------------------------------- the client

  /** How a request can end. */
  datatype Fate = Replied | RpcError | TimedOut | ConnectionClosed

  /** What happens at the client. `sent` and `answered` tell whether the write it makes goes
      through. */
  datatype Input =
    | Asked(budget: int, sent: bool)
    | Got(frame: Frame, answered: bool)
    | Expired(id: int)                  // a request's timer fires
    | TransportClosed
    | ClosedByClient

  /** The connection is given up: it closed, or a write failed. */
  predicate Closing(x: Input) {
    || x.TransportClosed? || x.ClosedByClient?
    || (x.Asked? && x.budget > 0 && !x.sent)
    || (x.Got? && IsServerRequest(x.frame) && !x.answered)
  }

  predicate Shut(inputs: seq<Input>) {
    exists i :: 0 <= i < |inputs| && Closing(inputs[i])
  }

  /** Where the requests were issued: while open and with some budget. The k-th, from 1, has id k. */
  function Issues(inputs: seq<Input>): (r: seq<nat>)
    ensures forall i :: 0 <= i < |r| ==> r[i] < |inputs|
  {
    if inputs == [] then []
    else
      var before, x := inputs[..|inputs| - 1], inputs[|inputs| - 1];
      Issues(before) + if x.Asked? && x.budget > 0 && !Shut(before) then [|before|] else []
  }

  predicate Settles(x: Input, id: int) {
    || Closing(x)
    || (x.Got? && IsResponse(x.frame) && x.frame.id == Some(id))
    || x == Expired(id)
  }

  function FateBy(x: Input): Fate {
    match x
    case Expired(_) => TimedOut
    case Got(f, _) => if !IsResponse(f) then ConnectionClosed else if f.hasError then RpcError else Replied
    case _ => ConnectionClosed
  }

  /** What the first input from `start` on that settles request `id` makes of it. */
  function FirstFate(inputs: seq<Input>, start: nat, id: int): Option<Fate>
    decreases |inputs|
  {
    if |inputs| <= start then None
    else
      var before, x := inputs[..|inputs| - 1], inputs[|inputs| - 1];
      var earlier := FirstFate(before, start, id);
      if earlier.Some? then earlier else if Settles(x, id) then Some(FateBy(x)) else None
  }

  function FateOf(inputs: seq<Input>, id: int): Option<Fate> {
    if 1 <= id <= |Issues(inputs)| then FirstFate(inputs, Issues(inputs)[id - 1], id) else None
  }

  /** The frames with a method that came while the client was open. */
  function Notices(inputs: seq<Input>): seq<Frame> {
    if inputs == [] then []
    else
      var before, x := inputs[..|inputs| - 1], inputs[|inputs| - 1];
      Notices(before) + if x.Got? && x.frame.Message? && x.frame.verb.Some? && !Shut(before) then [x.frame] else []
  }

  datatype Settlement = Settlement(id: int, fate: Fate)

  /** How often, and how, a request was settled. */
  function FatesOf(log: seq<Settlement>, id: int): seq<Fate> {
    if log == [] then []
    else FatesOf(log[..|log| - 1], id) + if log[|log| - 1].id == id then [log[|log| - 1].fate] else []
  }

  lemma FatesOfMore(log: seq<Settlement>, x: Settlement, id: int)
    ensures FatesOf(log + [x], id) == FatesOf(log, id) + if x.id == id then [x.fate] else []
  {
    assert (log + [x])[..|log|] == log;
  }

  lemma InputGrows(inputs: seq<Input>, x: Input)
    ensures var t := inputs + [x];
            && (Shut(t) <==> Shut(inputs) || Closing(x))
            && Issues(t) == Issues(inputs) + (if x.Asked? && x.budget > 0 && !Shut(inputs) then [|inputs|] else [])
            && Notices(t) == Notices(inputs)
                 + if x.Got? && x.frame.Message? && x.frame.verb.Some? && !Shut(inputs) then [x.frame] else []
  {
    var t := inputs + [x];
    assert t[..|inputs|] == inputs && t[|inputs|] == x;
    if Shut(inputs) {
      var i :| 0 <= i < |inputs| && Closing(inputs[i]);
      assert t[i] == inputs[i];
    }
  }

  lemma FateGrows(inputs: seq<Input>, x: Input, id: int)
    ensures FateOf(inputs + [x], id)
         == if FateOf(inputs, id).Some? then FateOf(inputs, id)
            else if 1 <= id <= |Issues(inputs + [x])| && Settles(x, id) then Some(FateBy(x)) else None
  {
    var t := inputs + [x];
    InputGrows(inputs, x);
    assert t[..|inputs|] == inputs;
    if id == |Issues(inputs)| + 1 == |Issues(t)| {
      assert FirstFate(inputs, |inputs|, id) == None;
    }
  }

  predicate Ascends(ids: seq<int>) {
    forall i, j :: 0 <= i < j < |ids| ==> ids[i] < ids[j]
  }

  /** Map.prototype.delete on the table, which keeps its order. */
  function Without(ids: seq<int>, id: int): (r: seq<int>)
    ensures forall x :: x in r <==> x in ids && x != id
  {
    if ids == [] then []
    else
      assert ids == [ids[0]] + ids[1..];
      (if ids[0] == id then [] else [ids[0]]) + Without(ids[1..], id)
  }

  lemma {:induction false} WithoutAscends(ids: seq<int>, id: int)
    requires Ascends(ids)
    ensures Ascends(Without(ids, id))
  {
    if ids != [] {
      var rest := Without(ids[1..], id);
      WithoutAscends(ids[1..], id);
      forall j | 0 <= j < |rest|
        ensures ids[0] < rest[j]
      {
        assert rest[j] in ids[1..];
      }
    }
  }

  lemma AppendAscends(ids: seq<int>, id: int)
    requires Ascends(ids) && forall x :: x in ids ==> x < id
    ensures Ascends(ids + [id])
  {
    forall i | 0 <= i < |ids|
      ensures ids[i] < id
    {
      assert ids[i] in ids;
    }
  }

  function Rejections(ids: seq<int>): seq<Settlement> {
    if ids == [] then [] else Rejections(ids[..|ids| - 1]) + [Settlement(ids[|ids| - 1], ConnectionClosed)]
  }

  // ---------------------------------------------------------------- the client's state

  datatype Client = Client(
    nextId: nat, pending: seq<int>, closed: bool, settled: seq<Settlement>, notified: seq<Frame>)

  const NEW_CLIENT := Client(1, [], false, [], [])

  function Settled(c: Client, id: int, fate: Fate): Client {
    c.(pending := Without(c.pending, id), settled := c.settled + [Settlement(id, fate)])
  }

  function ClosedNow(c: Client): Client {
    if c.closed then c else c.(closed := true, pending := [], settled := c.settled + Rejections(c.pending))
  }

  function OnAsked(c: Client, budget: int, sent: bool): Client {
    if c.closed || budget <= 0 then c
    else
      var issued := c.(pending := c.pending + [c.nextId], nextId := c.nextId + 1);
      if sent then issued else ClosedNow(issued)
  }

  function OnGot(c: Client, f: Frame, answered: bool): Client {
    if c.closed || !f.Message? then c
    else if IsResponse(f) && f.id.value in c.pending
      then Settled(c, f.id.value, if f.hasError then RpcError else Replied)
    else if f.verb.None? then c
    else
      var heard := if f.id.Some? && !answered then ClosedNow(c) else c;
      heard.(notified := heard.notified + [f])
  }

  function React(c: Client, x: Input): Client {
    match x
    case Asked(budget, sent) => OnAsked(c, budget, sent)
    case Got(f, answered) => OnGot(c, f, answered)
    case Expired(id) => if id in c.pending then Settled(c, id, TimedOut) else c
    case TransportClosed => ClosedNow(c)
    case ClosedByClient => ClosedNow(c)
  }

  function After(inputs: seq<Input>): Client {
    if inputs == [] then NEW_CLIENT else React(After(inputs[..|inputs| - 1]), inputs[|inputs| - 1])
  }

  lemma AfterOneMore(inputs: seq<Input>, x: Input)
    ensures After(inputs + [x]) == React(After(inputs), x)
  {
    assert (inputs + [x])[..|inputs|] == inputs;
  }

  datatype Asking = RefusedClosed | RefusedNoBudget | IssuedAs(id: nat)

  class CodexDaemonClient {
    const reqTimeoutMs: int
    var nextId: nat
    var pending: seq<int>             // the ids in the order they were issued
    var closed: bool
    ghost var inputs: seq<Input>
    ghost var settled: seq<Settlement>
    ghost var notified: seq<Frame>

    ghost function Value(): Client
      reads this
    {
      Client(nextId, pending, closed, settled, notified)
    }

    ghost predicate Valid()
      reads this
    {
      Value() == After(inputs)
    }

    constructor (reqTimeoutMs: int)
      ensures Valid() && inputs == [] && this.reqTimeoutMs == reqTimeoutMs
    {
      this.reqTimeoutMs := reqTimeoutMs;
      nextId, pending, closed := 1, [], false;
      inputs, settled, notified := [], [], [];
    }

    /** Remove a pending request and settle it. */
    method Settle(id: int, fate: Fate)
      modifies this`pending, this`settled
      ensures Value() == Settled(old(Value()), id, fate)
    {
      pending := Without(pending, id);
      settled := settled + [Settlement(id, fate)];
    }

    method HandleClose()
      modifies this`pending, this`settled, this`closed
      ensures Value() == ClosedNow(old(Value()))
    {
      if closed { return; }
      closed := true;
      for i := 0 to |pending|
        invariant closed && pending == old(pending) && settled == old(settled) + Rejections(pending[..i])
      {
        assert pending[..i + 1][..i] == pending[..i];
        settled := settled + [Settlement(pending[i], ConnectionClosed)];
      }
      assert pending[..|pending|] == pending;
      pending := [];
    }

    /** The transport closed, or the client closes. */
    method OnClosed(byClient: bool)
      requires Valid()
      modifies this
      ensures Valid() && inputs == old(inputs) + [if byClient then ClosedByClient else TransportClosed]
    {
      HandleClose();
      AfterOneMore(inputs, if byClient then ClosedByClient else TransportClosed);
      inputs := inputs + [if byClient then ClosedByClient else TransportClosed];
    }

    /** A request's timer. */
    method OnExpired(id: int)
      requires Valid()
      modifies this
      ensures Valid() && inputs == old(inputs) + [Expired(id)]
    {
      if id in pending { Settle(id, TimedOut); }
      AfterOneMore(inputs, Expired(id));
      inputs := inputs + [Expired(id)];
    }

    /** The call's own budget only tightens the request timeout, and is never negative. */
    function Budget(timeoutMs: Option<int>): (b: int)
      ensures 0 <= b && (reqTimeoutMs >= 0 ==> b <= reqTimeoutMs)
      ensures timeoutMs.Some? && timeoutMs.value >= 0 ==> b <= timeoutMs.value
    {
      Max(0, Min(reqTimeoutMs, if timeoutMs.Some? then timeoutMs.value else reqTimeoutMs))
    }

    method Request(timeoutMs: Option<int>, sent: bool) returns (r: Asking)
      requires Valid()
      modifies this
      ensures Valid() && inputs == old(inputs) + [Asked(Budget(timeoutMs), sent)]
      ensures r.RefusedClosed? <==> old(closed)
      ensures r.RefusedNoBudget? <==> !old(closed) && Budget(timeoutMs) <= 0
      ensures r.IssuedAs? ==> r.id == old(nextId) < nextId
    {
      var budget := Budget(timeoutMs);
      if closed {
        r := RefusedClosed;
      } else if budget <= 0 {
        r := RefusedNoBudget;
      } else {
        r := IssuedAs(nextId);
        pending := pending + [nextId];
        nextId := nextId + 1;
        if !sent { HandleClose(); }
      }
      AfterOneMore(inputs, Asked(budget, sent));
      inputs := inputs + [Asked(budget, sent)];
    }

    method HandleFrame(frame: Frame, answered: bool)
      requires Valid()
      modifies this
      ensures Valid() && inputs == old(inputs) + [Got(frame, answered)]
    {
      if !closed && frame.Message? {
        if IsResponse(frame) && frame.id.value in pending {
          Settle(frame.id.value, if frame.hasError then RpcError else Replied);
        } else if frame.verb.Some? {
          if frame.id.Some? && !answered { HandleClose(); }
          notified := notified + [frame];
        }
      }
      AfterOneMore(inputs, Got(frame, answered));
      inputs := inputs + [Got(frame, answered)];
    }
  }

  // ---------------------------------------------------------------- each request settles once

  lemma LastIsGreatest(ids: seq<int>)
    requires ids != [] && Ascends(ids)
    ensures var front, last := ids[..|ids| - 1], ids[|ids| - 1];
            Ascends(front) && last !in front && forall x :: x in ids <==> x in front || x == last
  {
    assert ids == ids[..|ids| - 1] + [ids[|ids| - 1]];
  }

  lemma {:induction false} FatesOfRejections(log: seq<Settlement>, ids: seq<int>, id: int)
    requires Ascends(ids)
    ensures FatesOf(log + Rejections(ids), id) == FatesOf(log, id) + if id in ids then [ConnectionClosed] else []
  {
    if ids == [] {
      assert log + Rejections(ids) == log;
    } else {
      var front, s := ids[..|ids| - 1], Settlement(ids[|ids| - 1], ConnectionClosed);
      LastIsGreatest(ids);
      FatesOfRejections(log, front, id);
      FatesOfMore(log + Rejections(front), s, id);
      assert log + Rejections(ids) == (log + Rejections(front)) + [s];
    }
  }

  /** The request `id` can still be settled when `x` comes: it is pending, or `x` issues it. */
  predicate Open(c: Client, x: Input, id: int) {
    id in c.pending || (x.Asked? && x.budget > 0 && !c.closed && id == c.nextId)
  }

  predicate Tidy(c: Client) {
    Ascends(c.pending) && (forall id :: id in c.pending ==> id < c.nextId) && (c.closed ==> c.pending == [])
  }

  /** One input settles exactly the open requests it should, once each, and the others stay. */
  lemma ReactSettles(c: Client, x: Input, id: int)
    requires Tidy(c)
    ensures Tidy(React(c, x))
    ensures FatesOf(React(c, x).settled, id)
         == FatesOf(c.settled, id) + if Open(c, x, id) && Settles(x, id) then [FateBy(x)] else []
    ensures id in React(c, x).pending <==> Open(c, x, id) && !Settles(x, id)
  {
    match x {
      case Asked(budget, sent) => AskedSettles(c, budget, sent, id);
      case Got(f, answered) => GotSettles(c, f, answered, id);
      case Expired(e) =>
        if e in c.pending { SettledSettles(c, e, TimedOut, id); }
      case _ => FatesOfRejections(c.settled, c.pending, id);
    }
  }

  lemma AskedSettles(c: Client, budget: int, sent: bool, id: int)
    requires Tidy(c)
    ensures var d, x := OnAsked(c, budget, sent), Asked(budget, sent);
            && Tidy(d)
            && FatesOf(d.settled, id) == FatesOf(c.settled, id)
               + (if Open(c, x, id) && Settles(x, id) then [FateBy(x)] else [])
            && (id in d.pending <==> Open(c, x, id) && !Settles(x, id))
  {
    if !c.closed && budget > 0 {
      AppendAscends(c.pending, c.nextId);
      FatesOfRejections(c.settled, c.pending + [c.nextId], id);
    }
  }

  lemma ResponseSettles(c: Client, f: Frame, answered: bool, id: int)
    requires Tidy(c) && IsResponse(f)
    ensures var d, x := OnGot(c, f, answered), Got(f, answered);
            && Tidy(d)
            && FatesOf(d.settled, id) == FatesOf(c.settled, id)
               + (if id in c.pending && Settles(x, id) then [FateBy(x)] else [])
            && (id in d.pending <==> id in c.pending && !Settles(x, id))
  {
    var e, fate := f.id.value, if f.hasError then RpcError else Replied;
    if e in c.pending {
      SettledSettles(c, e, fate, id);
    }
  }

  lemma SettledSettles(c: Client, e: int, fate: Fate, id: int)
    requires Tidy(c) && e in c.pending
    ensures Tidy(Settled(c, e, fate))
    ensures FatesOf(Settled(c, e, fate).settled, id) == FatesOf(c.settled, id) + if id == e then [fate] else []
    ensures id in Settled(c, e, fate).pending <==> id in c.pending && id != e
  {
    WithoutAscends(c.pending, e);
    FatesOfMore(c.settled, Settlement(e, fate), id);
  }

  lemma GotSettles(c: Client, f: Frame, answered: bool, id: int)
    requires Tidy(c)
    ensures var d, x := OnGot(c, f, answered), Got(f, answered);
            && Tidy(d)
            && FatesOf(d.settled, id) == FatesOf(c.settled, id)
               + (if id in c.pending && Settles(x, id) then [FateBy(x)] else [])
            && (id in d.pending <==> id in c.pending && !Settles(x, id))
  {
    if IsResponse(f) { ResponseSettles(c, f, answered, id); } else { FatesOfRejections(c.settled, c.pending, id); }
  }

  /** After any inputs: ids were issued in order, once closed nothing is pending, and only frames
      that came while the client was open were notified. */
  lemma {:induction false} ClientIsTidy(inputs: seq<Input>)
    ensures var c := After(inputs);
            && Tidy(c) && c.nextId == |Issues(inputs)| + 1
            && (c.closed <==> Shut(inputs)) && c.notified == Notices(inputs)
  {
    if inputs != [] {
      var before, x := inputs[..|inputs| - 1], inputs[|inputs| - 1];
      ClientIsTidy(before);
      assert inputs == before + [x];
      InputGrows(before, x);
      ReactSettles(After(before), x, 0);
    }
  }

  /** After any inputs, a request was settled exactly once and by the first input that settles it,
      counted from its issue, if there was one; until then it is pending. No other id ever is. */
  lemma {:induction false} SettledExactlyOnce(inputs: seq<Input>, id: int)
    ensures var c, fate := After(inputs), FateOf(inputs, id);
            && FatesOf(c.settled, id) == (if fate.Some? then [fate.value] else [])
            && (id in c.pending <==> 1 <= id <= |Issues(inputs)| && fate.None?)
  {
    if inputs != [] {
      var before, x := inputs[..|inputs| - 1], inputs[|inputs| - 1];
      SettledExactlyOnce(before, id);
      ClientIsTidy(before);
      assert inputs == before + [x];
      IssueGrows(before, x, id);
      ReactSettles(After(before), x, id);
      FateGrows(before, x, id);
    }
  }

  /** A request is open at an input exactly when it has no fate yet and is issued by then. */
  lemma IssueGrows(inputs: seq<Input>, x: Input, id: int)
    requires Tidy(After(inputs)) && After(inputs).nextId == |Issues(inputs)| + 1
    requires After(inputs).closed <==> Shut(inputs)
    requires id in After(inputs).pending <==> 1 <= id <= |Issues(inputs)| && FateOf(inputs, id).None?
    ensures Open(After(inputs), x, id) <==> 1 <= id <= |Issues(inputs + [x])| && FateOf(inputs, id).None?
  {
    InputGrows(inputs, x);
  }

  lemma {:induction false} FirstFateStays(inputs: seq<Input>, more: seq<Input>, start: nat, id: int)
    requires FirstFate(inputs, start, id).Some?
    ensures FirstFate(inputs + more, start, id) == FirstFate(inputs, start, id)
  {
    if more == [] {
      assert inputs + more == inputs;
    } else {
      FirstFateStays(inputs, more[..|more| - 1], start, id);
      assert (inputs + more)[..|inputs + more| - 1] == inputs + more[..|more| - 1];
    }
  }

  lemma {:induction false} IssuesStay(inputs: seq<Input>, more: seq<Input>)
    ensures |Issues(inputs)| <= |Issues(inputs + more)|
    ensures forall i :: 0 <= i < |Issues(inputs)| ==> Issues(inputs + more)[i] == Issues(inputs)[i]
  {
    if more == [] {
      assert inputs + more == inputs;
    } else {
      IssuesStay(inputs, more[..|more| - 1]);
      assert (inputs + more)[..|inputs + more| - 1] == inputs + more[..|more| - 1];
    }
  }

  /** A settled request stays settled the same way, whatever comes later: ids are never reused. */
  lemma FateIsFinal(inputs: seq<Input>, more: seq<Input>, id: int)
    requires FateOf(inputs, id).Some?
    ensures FateOf(inputs + more, id) == FateOf(inputs, id)
  {
    IssuesStay(inputs, more);
    FirstFateStays(inputs, more, Issues(inputs)[id - 1], id);
  }

  lemma {:induction false} ClosedSettlesAll(inputs: seq<Input>, start: nat, id: int)
    requires exists i :: start <= i < |inputs| && Closing(inputs[i])
    ensures FirstFate(inputs, start, id).Some?
  {
    var before := inputs[..|inputs| - 1];
    if !Closing(inputs[|inputs| - 1]) {
      var i :| start <= i < |inputs| && Closing(inputs[i]);
      assert before[i] == inputs[i];
      ClosedSettlesAll(before, start, id);
    }
  }

  /** Where a request was issued, the client was open. */
  lemma {:induction false} IssuedWhileOpen(inputs: seq<Input>, k: nat)
    requires k < |Issues(inputs)|
    ensures !Shut(inputs[..Issues(inputs)[k]])
  {
    var before := inputs[..|inputs| - 1];
    assert before[..|before|] == before;
    if k < |Issues(before)| {
      IssuedWhileOpen(before, k);
      assert before[..Issues(before)[k]] == inputs[..Issues(before)[k]];
    } else {
      assert inputs[..|before|] == before;
    }
  }

  /** Once the client is closed, every request it ever issued is settled. */
  lemma NothingPendingOnceShut(inputs: seq<Input>, id: int)
    requires Shut(inputs) && 1 <= id <= |Issues(inputs)|
    ensures FateOf(inputs, id).Some?
  {
    var start := Issues(inputs)[id - 1];
    IssuedWhileOpen(inputs, id - 1);
    var i :| 0 <= i < |inputs| && Closing(inputs[i]);
    ClosedSettlesAll(inputs, start, id);
  }
}
