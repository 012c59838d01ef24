/**
 The sequential loops of the reply hook (discord-reply-enforcer.py): the bounded POST loop and
 the sweep of old claim markers.
 */
module ReplyHook {
  import opened Prelude
  import opened ReplyClaim

  // ---------------------------------------------------------------- POST with retry

  const POST_BUDGET_S := 8.0
  const HTTP_TIMEOUT_S := 6.0
  const REPLY_MAX_RETRIES := 2
  const RETRY_AFTER_CAP_S := 5.0

  /** A response; status 0 stands for a network failure, retryAfter 0 for no usable header. */
  datatype Response = Response(ok: bool, status: nat, retryAfter: real)

  predicate IsTransient(status: nat) {
    status == 0 || status == 429 || status >= 500
  }

  /** What the loop did: a request with its timeout and the time left then, or a pause. */
  datatype Entry =
    | Tried(timeout: real, left: real, response: Response)
    | Slept(seconds: real, left: real)

  datatype PostResult = NoAnswer | Answered(response: Response) | SleepRaised

  function MinReal(a: real, b: real): real { if a < b then a else b }

  /** What may follow: requests and pauses alternate, at most three requests; a request fits the
      time left; a pause follows a transient failure and ends before the deadline. */
  predicate MayFollow(before: seq<Entry>, e: Entry) {
    match e
    case Tried(timeout, left, _) =>
      |before| % 2 == 0 && |before| <= 2 * REPLY_MAX_RETRIES && 0.0 < timeout <= MinReal(HTTP_TIMEOUT_S, left)
    case Slept(seconds, left) =>
      && |before| % 2 == 1
      && before[|before| - 1].Tried?
      && !before[|before| - 1].response.ok && IsTransient(before[|before| - 1].response.status)
      && 0.0 <= seconds <= RETRY_AFTER_CAP_S && seconds < left
  }

  predicate Disciplined(log: seq<Entry>) {
    log != [] ==> Disciplined(log[..|log| - 1]) && MayFollow(log[..|log| - 1], log[|log| - 1])
  }

  lemma OneMoreKeeps(log: seq<Entry>, e: Entry)
    requires Disciplined(log) && MayFollow(log, e)
    ensures Disciplined(log + [e])
  {
    assert (log + [e])[..|log|] == log;
  }

  /** One request; the server and the network decide. */
  method DiscordPost(timeout: real) returns (r: Response, took: real)
    ensures took >= 0.0
  {
    r := *;
    took := *;
    if took < 0.0 { took := 0.0; }
  }

  method Elapse(atLeast: real) returns (took: real)
    requires atLeast >= 0.0
    ensures took >= atLeast
  {
    took := *;
    if took < atLeast { took := atLeast; }
  }

  /** discord_post_with_retry: no request after a success, after a definite refusal, after two
      retries or after the deadline; the answer is the last request's. */
  method PostWithRetry() returns (result: PostResult, log: seq<Entry>)
    ensures Disciplined(log)
    ensures result.NoAnswer? <==> log == []
    ensures log != [] && log[|log| - 1].Tried? && !result.SleepRaised? ==> result == Answered(log[|log| - 1].response)
    ensures result.Answered? && log[|log| - 1].Slept? ==> result == Answered(log[|log| - 2].response)
    ensures result.SleepRaised? ==> log[|log| - 1].Tried? && log[|log| - 1].response.retryAfter < 0.0
  {
    var now := 0.0;
    var deadline := POST_BUDGET_S;
    var attempts := 0;
    result, log := NoAnswer, [];
    while true
      invariant 0 <= attempts <= REPLY_MAX_RETRIES
      invariant |log| == 2 * attempts
      invariant Disciplined(log)
      invariant log == [] ==> result.NoAnswer?
      invariant log != [] ==> log[|log| - 1].Slept? && result == Answered(log[|log| - 2].response)
      decreases REPLY_MAX_RETRIES - attempts
    {
      var pause := Elapse(0.0);
      now := now + pause;
      var remaining := deadline - now;
      if remaining <= 0.0 { break; }
      var timeout := MinReal(HTTP_TIMEOUT_S, remaining);
      var r, took := DiscordPost(timeout);
      OneMoreKeeps(log, Tried(timeout, remaining, r));
      log := log + [Tried(timeout, remaining, r)];
      result := Answered(r);
      now := now + took;
      if r.ok || attempts >= REPLY_MAX_RETRIES || !IsTransient(r.status) { break; }
      attempts := attempts + 1;
      var wait := MinReal(if r.retryAfter != 0.0 then r.retryAfter else 0.5 * attempts as real, RETRY_AFTER_CAP_S);
      if now + wait >= deadline { break; }
      if wait < 0.0 { return SleepRaised, log; }
      OneMoreKeeps(log, Slept(wait, deadline - now));
      log := log + [Slept(wait, deadline - now)];
      var slept := Elapse(wait);
      now := now + slept;
    }
  }

  // ---------------------------------------------------------------- pruning

  const STALE_RETENTION_S := 3600
  const CLAIM_KEEP := 500

  datatype File = File(content: Content, mtime: nat)

  /** A resolved marker within its retention time. */
  predicate Young(f: File, now: nat) {
    f.content.Record? && Terminal(f.content.status) && now - f.mtime <= STALE_RETENTION_S
  }

  /** Order of the pairs (mtime, path). */
  predicate Before(a: (nat, nat), b: (nat, nat)) {
    a.0 < b.0 || (a.0 == b.0 && a.1 < b.1)
  }

  /** The young resolved markers that come after `name`. */
  ghost function NewerThan(files: map<nat, File>, name: nat, now: nat): set<nat>
    requires name in files
  {
    set q | q in files && Young(files[q], now) && Before((files[name].mtime, name), (files[q].mtime, q))
  }

  /** What a sweep leaves: every marker that is not a readable resolved record, and the newest
      CLAIM_KEEP of the resolved ones within retention. */
  ghost predicate Kept(files: map<nat, File>, name: nat, now: nat)
    requires name in files
  {
    var f := files[name];
    || !(f.content.Record? && Terminal(f.content.status))
    || (Young(f, now) && |NewerThan(files, name, now)| < CLAIM_KEEP)
  }

  predicate Ordered(s: seq<(nat, nat)>) {
    forall i, j :: 0 <= i < j < |s| ==> Before(s[i], s[j])
  }

  /** terminal.sort(): insertion of one pair. */
  function Insert(s: seq<(nat, nat)>, x: (nat, nat)): (r: seq<(nat, nat)>)
    requires Ordered(s) && x !in s
    ensures Ordered(r) && |r| == |s| + 1
    ensures forall y :: y in r <==> y == x || y in s
  {
    if s == [] then [x]
    else if Before(x, s[0]) then
      assert forall y :: y in [x] + s <==> y == x || y in s;
      [x] + s
    else
      assert forall y :: y in s <==> y == s[0] || y in s[1..];
      var t := Insert(s[1..], x);
      assert forall y :: y in [s[0]] + t <==> y == s[0] || y in t;
      assert forall y :: y in t ==> Before(s[0], y);
      assert forall j :: 0 <= j < |t| ==> t[j] in t;
      [s[0]] + t
  }

  class ClaimDir {
    var files: map<nat, File>

    /** _prune_claims(), run by one process alone. */
    method Prune(now: nat)
      modifies this
      ensures files.Keys == set name | name in old(files) && Kept(old(files), name, now)
      ensures forall name :: name in files ==> files[name] == old(files)[name]
    {
      ghost var before := files;
      var todo := files.Keys;
      var terminal: seq<(nat, nat)> := [];
      while todo != {}
        invariant todo <= before.Keys
        invariant Ordered(terminal)
        invariant forall x :: x in terminal <==>
                    x.1 in before && x.1 !in todo && Young(before[x.1], now) && x.0 == before[x.1].mtime
        invariant forall name :: name in files ==> name in before && files[name] == before[name]
        invariant forall name :: name in before ==>
          (name in files <==> name in todo || !(before[name].content.Record? && Terminal(before[name].content.status))
                              || Young(before[name], now))
        decreases |todo|
      {
        var p :| p in todo;
        todo := todo - {p};
        var f := files[p];
        if f.content.Record? && Terminal(f.content.status) {
          if now - f.mtime > STALE_RETENTION_S {
            files := files - {p};
          } else {
            terminal := Insert(terminal, (f.mtime, p));
          }
        }
      }
      ghost var swept := files;
      var i := 0;
      while i < |terminal| - CLAIM_KEEP
        invariant 0 <= i <= Max(0, |terminal| - CLAIM_KEEP)
        invariant forall name :: name in files <==> name in swept && forall k :: 0 <= k < i ==> terminal[k].1 != name
        invariant forall name :: name in files ==> files[name] == before[name]
      {
        files := files - {terminal[i].1};
        i := i + 1;
      }
      forall name | name in before
        ensures name in files <==> Kept(before, name, now)
      {
        if Young(before[name], now) {
          assert (before[name].mtime, name) in terminal;
          var k :| 0 <= k < |terminal| && terminal[k] == (before[name].mtime, name);
          NewerAreAfter(before, terminal, k, now);
        }
      }
      assert files.Keys == set name | name in before && Kept(before, name, now);
    }
  }

  /** In the sorted list the markers newer than the k-th are those behind it. */
  lemma NewerAreAfter(files: map<nat, File>, terminal: seq<(nat, nat)>, k: nat, now: nat)
    requires Ordered(terminal) && k < |terminal|
    requires forall x :: x in terminal <==> x.1 in files && Young(files[x.1], now) && x.0 == files[x.1].mtime
    ensures |NewerThan(files, terminal[k].1, now)| == |terminal| - 1 - k
  {
    var after := terminal[k + 1..];
    var names := set x | x in after :: x.1;
    forall q
      ensures q in NewerThan(files, terminal[k].1, now) <==> q in names
    {
      if q in NewerThan(files, terminal[k].1, now) {
        var x := (files[q].mtime, q);
        assert x in terminal;
        var j :| 0 <= j < |terminal| && terminal[j] == x;
        assert j > k;
        assert after[j - k - 1] == x;
        assert x in after;
      }
      if q in names {
        var x :| x in after && x.1 == q;
        assert x in terminal;
        assert terminal[k] in terminal;
      }
    }
    assert NewerThan(files, terminal[k].1, now) == names;
    NamesOfOrdered(after);
  }

  lemma {:induction false} NamesOfOrdered(s: seq<(nat, nat)>)
    requires Ordered(s)
    requires forall i, j :: 0 <= i < j < |s| ==> s[i].1 != s[j].1
    ensures |set x | x in s :: x.1| == |s|
  {
    var names := set x | x in s :: x.1;
    if s == [] {
      assert names == {};
    } else {
      var rest := set x | x in s[1..] :: x.1;
      NamesOfOrdered(s[1..]);
      assert names == {s[0].1} + rest by {
        forall q
          ensures q in names <==> q == s[0].1 || q in rest
        {
          if q in names && q != s[0].1 {
            var x :| x in s && x.1 == q;
            assert x in s[1..];
          }
        }
      }
      assert s[0].1 !in rest;
    }
  }
}
