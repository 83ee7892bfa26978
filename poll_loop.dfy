/**
 * The polling loop of `main` in homework.py. One pass of `while True` is a
 * `Step` over the loop's variables (the cursor `current_timestamp`,
 * `api_error_count` and `message`) plus what the pass did to the outside
 * world: the texts handed to `send_message` and the `from_date` of every
 * request. The environment of one pass (the value of the guard at the top of
 * the `try`, the clock, the transport's answer) is a `Tick`. The class `Bot`
 * runs the same pass imperatively and is proved to agree with `Step`.
 */
module PollLoop {
  import opened Wrappers
  import opened Values
  import opened Homework

  /** Whether the process is still polling, left through `sys.exit`, or died of an uncaught exception. */
  datatype Phase = Running | Exited | Crashed

  datatype State = State(
    cursor: Value,            // current_timestamp
    apiErrorCount: int,       // api_error_count
    message: Option<string>,  // message; None while the local is unbound
    outbox: seq<string>,      // every text passed to send_message, in order
    queries: seq<Value>,      // the from_date of every request, in order
    phase: Phase)

  /**
   * The environment of one pass: what the guard of the `try` evaluated to (a
   * boolean, or the exception it raised), the clock, and the transport's answer.
   */
  datatype Tick = Tick(guard: Result<bool, Error>, now: int, reply: Transport)

  /** The guard as written: `check_response()` without its argument always raises. */
  const WrittenGuard: Result<bool, Error> :=
    Err(TypeError("check_response() missing 1 required positional argument: 'response'"))

  /** The guard the loop evidently means: `check_tokens()`. */
  function TokenGuard(tokens: Tokens): Result<bool, Error>
  {
    Ok(CheckTokens(tokens))
  }

  /** The state `main` enters the loop with, at clock reading `now`. */
  function Init(now: int): State
  {
    State(JInt(now), 0, None, [], [], Running)
  }

  /** The message of the `except` branch. */
  function FailureText(e: Error): string
  {
    "Сбой в работе программы: " + ErrorText(e) + "."
  }

  // ---------------------------------------------------------------------------
  // One pass of the loop
  // ---------------------------------------------------------------------------

  /** The notifications the `for` loop sends, and the exception that stopped it, if any. */
  datatype Batch = Batch(sent: seq<string>, failure: Option<Error>)

  /**
   * The `for` loop over the homework list: each record is formatted and sent
   * in list order, and the first record `parse_status` rejects ends the loop.
   */
  function Notify(homeworks: seq<Value>): Batch
    decreases |homeworks|
  {
    if homeworks == [] then
      Batch([], None)
    else
      match ParseStatus(homeworks[0])
      case Err(e) => Batch([], Some(e))
      case Ok(m) =>
        var rest := Notify(homeworks[1..]);
        Batch([m] + rest.sent, rest.failure)
  }

  /**
   * The notifications go out in list order, one per record, up to the first
   * record `parse_status` rejects; that record's exception stops the loop.
   */
  lemma {:induction false} NotifySends(homeworks: seq<Value>)
    ensures var b := Notify(homeworks);
      && |b.sent| <= |homeworks|
      && (forall i :: 0 <= i < |b.sent| ==> ParseStatus(homeworks[i]) == Ok(b.sent[i]))
      && (b.failure.None? ==> |b.sent| == |homeworks|)
      && (b.failure.Some? ==>
            |b.sent| < |homeworks| && ParseStatus(homeworks[|b.sent|]) == Err(b.failure.value))
    decreases |homeworks|
  {
    if homeworks != [] && ParseStatus(homeworks[0]).Ok? {
      var rest := homeworks[1..];
      NotifySends(rest);
      var b := Notify(homeworks);
      forall i | 1 <= i < |b.sent|
        ensures ParseStatus(homeworks[i]) == Ok(b.sent[i])
      {
        assert homeworks[i] == rest[i - 1] && b.sent[i] == Notify(rest).sent[i - 1];
      }
    }
  }

  /** The batch `b` with the texts `sent` already sent before it. */
  function After(sent: seq<string>, b: Batch): Batch
  {
    Batch(sent + b.sent, b.failure)
  }

  /** `Notify` unfolded at the head of the remaining list, behind the texts already sent. */
  lemma NotifyHead(sent: seq<string>, rest: seq<Value>)
    requires rest != []
    ensures ParseStatus(rest[0]).Err? ==>
      After(sent, Notify(rest)) == Batch(sent, Some(ParseStatus(rest[0]).error))
    ensures ParseStatus(rest[0]).Ok? ==>
      After(sent, Notify(rest)) == After(sent + [ParseStatus(rest[0]).value], Notify(rest[1..]))
  {
    if ParseStatus(rest[0]).Ok? {
      var m := ParseStatus(rest[0]).value;
      assert sent + ([m] + Notify(rest[1..]).sent) == sent + [m] + Notify(rest[1..]).sent;
    }
  }

  /**
   * `Notify` worked through as the `for` loop does, behind the texts already
   * sent. It serves only as the target of `Bot.NotifyAll`'s loop invariant;
   * `NotifyFromAfter` shows that it equals `Notify`.
   */
  function NotifyFrom(sent: seq<string>, rest: seq<Value>): Batch
    decreases |rest|
  {
    if rest == [] then Batch(sent, None)
    else
      match ParseStatus(rest[0])
      case Err(e) => Batch(sent, Some(e))
      case Ok(m) => NotifyFrom(sent + [m], rest[1..])
  }

  /** Working through the list one record at a time gives the batch `Notify` describes. */
  lemma {:induction false} NotifyFromAfter(sent: seq<string>, rest: seq<Value>)
    ensures NotifyFrom(sent, rest) == After(sent, Notify(rest))
    decreases |rest|
  {
    if rest != [] {
      NotifyHead(sent, rest);
      if ParseStatus(rest[0]).Ok? {
        NotifyFromAfter(sent + [ParseStatus(rest[0]).value], rest[1..]);
      }
    }
  }

  /** The value of `message` after the loop body has assigned each text of `sent`. */
  function LastSent(sent: seq<string>, prior: Option<string>): Option<string>
  {
    if sent == [] then prior else Some(sent[|sent| - 1])
  }

  /** How the `try` body ended. */
  datatype Outcome = Completed | Raised(error: Error) | Exit

  datatype Attempted = Attempted(state: State, outcome: Outcome)

  /** The `try` body: the guard, the request, the shape check, the notifications and the cursor. */
  function Attempt(s: State, t: Tick): Attempted
  {
    match t.guard
    case Err(e) => Attempted(s, Raised(e))
    case Ok(ok) =>
      if !ok then Attempted(s, Exit)
      else
        var call := GetApiAnswer(s.cursor, t.now, t.reply);
        var s1 := s.(queries := s.queries + [call.fromDate]);
        match call.answer
        case Err(e) => Attempted(s1, Raised(e))
        case Ok(response) =>
          match CheckResponse(response)
          case Err(e) => Attempted(s1, Raised(e))
          case Ok(homeworks) =>
            var b := Notify(homeworks);
            var s2 := s1.(outbox := s1.outbox + b.sent, message := LastSent(b.sent, s1.message));
            match b.failure
            case Some(e) => Attempted(s2, Raised(e))
            case None => Attempted(s2.(cursor := Get(response.fields, "current_date", s.cursor)), Completed)
  }

  /** Whether the `except` branch reports `e`: only an API outage, and only while none has been reported. */
  predicate Reports(e: Error, apiErrorCount: int)
  {
    && !e.EnvVariablesNotAvailable?
    && !e.TelegramError?
    && e.UnavailableApi?
    && apiErrorCount == 0
  }

  /** The `except` branch. */
  function Recover(s: State, e: Error): State
  {
    var text := FailureText(e);
    if Reports(e, s.apiErrorCount) then
      s.(message := Some(text), outbox := s.outbox + [text], apiErrorCount := s.apiErrorCount + 1)
    else
      s.(message := Some(text))
  }

  /**
   * One pass of `while True`. `sys.exit` raises `SystemExit`, which `except
   * Exception` does not catch; the `else` branch re-sends `message`, and if
   * that local was never bound the `UnboundLocalError` escapes `main`.
   */
  function Step(s: State, t: Tick): State
    requires s.phase == Running
  {
    var a := Attempt(s, t);
    match a.outcome
    case Exit => a.state.(phase := Exited)
    case Raised(e) => Recover(a.state, e)
    case Completed =>
      match a.state.message
      case None => a.state.(phase := Crashed)
      case Some(m) => a.state.(outbox := a.state.outbox + [m])
  }

  /** Passes of the loop, one per tick, for as long as the process runs. */
  function Run(s: State, ticks: seq<Tick>): State
    decreases |ticks|
  {
    if ticks == [] || s.phase != Running then s
    else Run(Step(s, ticks[0]), ticks[1..])
  }

  /** Whether the pass sends an outage report. */
  predicate Alerts(s: State, t: Tick)
  {
    var a := Attempt(s, t);
    a.outcome.Raised? && Reports(a.outcome.error, s.apiErrorCount)
  }

  /** The number of outage reports sent during `Run(s, ticks)`. */
  function AlertCount(s: State, ticks: seq<Tick>): nat
    decreases |ticks|
  {
    if ticks == [] || s.phase != Running then 0
    else (if Alerts(s, ticks[0]) then 1 else 0) + AlertCount(Step(s, ticks[0]), ticks[1..])
  }

  // ---------------------------------------------------------------------------
  // Properties of one pass
  // ---------------------------------------------------------------------------

  /** The `try` body changes neither the counter nor the phase, and moves the cursor only when it completes. */
  lemma AttemptKeeps(s: State, t: Tick)
    ensures Attempt(s, t).state.apiErrorCount == s.apiErrorCount
    ensures Attempt(s, t).state.phase == s.phase
    ensures !Attempt(s, t).outcome.Completed? ==> Attempt(s, t).state.cursor == s.cursor
    ensures s.outbox <= Attempt(s, t).state.outbox
  {
  }

  /**
   * A pass that raises leaves the cursor where it was and sends at most the
   * outage report; the counter goes up exactly when that report is sent.
   */
  lemma FailedPass(s: State, t: Tick)
    requires s.phase == Running && Attempt(s, t).outcome.Raised?
    ensures var e := Attempt(s, t).outcome.error; var s' := Step(s, t);
      && s'.cursor == s.cursor
      && s'.phase == Running
      && s'.message == Some(FailureText(e))
      && s'.outbox == Attempt(s, t).state.outbox + (if Alerts(s, t) then [FailureText(e)] else [])
      && s'.apiErrorCount == s.apiErrorCount + (if Alerts(s, t) then 1 else 0)
      && (Alerts(s, t) <==> e.UnavailableApi? && s.apiErrorCount == 0)
  {
    AttemptKeeps(s, t);
  }

  /** The `try` body of a pass that gets a list of homework: the request, then the `for` loop. */
  lemma ListedAttempt(s: State, t: Tick, response: Value, homeworks: seq<Value>)
    requires t.guard == Ok(true)
    requires Classify(t.reply) == Ok(response) && CheckResponse(response) == Ok(homeworks)
    ensures var b := Notify(homeworks);
      var s2 := s.(queries := s.queries + [GetApiAnswer(s.cursor, t.now, t.reply).fromDate],
                   outbox := s.outbox + b.sent, message := LastSent(b.sent, s.message));
      Attempt(s, t) == if b.failure.Some? then Attempted(s2, Raised(b.failure.value))
                       else Attempted(s2.(cursor := Get(response.fields, "current_date", s.cursor)), Completed)
  {
  }

  /** The state after a pass whose `for` loop sent at least one text and raised nothing. */
  lemma CompletedListedPass(s: State, t: Tick, response: Value, homeworks: seq<Value>)
    requires s.phase == Running && t.guard == Ok(true)
    requires Classify(t.reply) == Ok(response) && CheckResponse(response) == Ok(homeworks)
    requires Notify(homeworks).failure.None? && Notify(homeworks).sent != []
    ensures var b := Notify(homeworks); var last := b.sent[|b.sent| - 1];
      Step(s, t) == s.(queries := s.queries + [GetApiAnswer(s.cursor, t.now, t.reply).fromDate],
                       outbox := s.outbox + b.sent + [last], message := Some(last),
                       cursor := Get(response.fields, "current_date", s.cursor))
  {
    ListedAttempt(s, t, response, homeworks);
  }

  /** Where the parts of `a + b + [x]` sit. */
  lemma AppendedAt(a: seq<string>, b: seq<string>, x: string)
    ensures |a + b + [x]| == |a| + |b| + 1
    ensures (a + b + [x])[..|a|] == a
    ensures (a + b + [x])[|a| + |b|] == x
  {
    assert (a + b + [x])[..|a|] == a;
  }

  /**
   * A pass that gets a well-formed response whose records are all known
   * sends one notification per record, in list order, then sends the last
   * one again from the `else` branch; the cursor moves to `current_date`
   * when the response has one.
   */
  lemma {:induction false} SuccessfulPass(s: State, t: Tick, response: Value, homeworks: seq<Value>)
    requires s.phase == Running && t.guard == Ok(true)
    requires Classify(t.reply) == Ok(response) && CheckResponse(response) == Ok(homeworks)
    requires homeworks != [] && forall i :: 0 <= i < |homeworks| ==> ParseStatus(homeworks[i]).Ok?
    ensures var s' := Step(s, t);
      && |s'.outbox| == |s.outbox| + |homeworks| + 1
      && s'.outbox[..|s.outbox|] == s.outbox
      && (forall i :: 0 <= i < |homeworks| ==> ParseStatus(homeworks[i]) == Ok(s'.outbox[|s.outbox| + i]))
      && s'.outbox[|s'.outbox| - 1] == s'.outbox[|s'.outbox| - 2]
      && s'.message == Some(s'.outbox[|s'.outbox| - 1])
      && s'.cursor == Get(response.fields, "current_date", s.cursor)
      && s'.apiErrorCount == s.apiErrorCount
      && s'.phase == Running
      && |s'.queries| == |s.queries| + 1
  {
    var b := Notify(homeworks);
    NotifySends(homeworks);
    assert b.failure.None? && |b.sent| == |homeworks|;
    var last := b.sent[|b.sent| - 1];
    CompletedListedPass(s, t, response, homeworks);
    var s' := Step(s, t);
    assert s'.outbox == s.outbox + b.sent + [last] && s'.message == Some(last);
    AppendedAt(s.outbox, b.sent, last);
    forall i | 0 <= i < |homeworks|
      ensures ParseStatus(homeworks[i]) == Ok(s'.outbox[|s.outbox| + i])
    {
      assert s'.outbox[|s.outbox| + i] == b.sent[i];
    }
  }

  /**
   * A pass whose response lists no homework sends nothing but the current
   * `message` again, and dies if that local was never bound.
   */
  lemma QuietPass(s: State, t: Tick, response: Value)
    requires s.phase == Running && t.guard == Ok(true)
    requires Classify(t.reply) == Ok(response) && CheckResponse(response) == Ok([])
    ensures var s' := Step(s, t);
      && (s'.phase == Crashed <==> s.message.None?)
      && (s.message.Some? ==> s'.outbox == s.outbox + [s.message.value])
      && (s.message.None? ==> s'.outbox == s.outbox)
      && (s.message.Some? ==> s'.phase == Running && s'.message == s.message)
      && s'.cursor == Get(response.fields, "current_date", s.cursor)
      && s'.apiErrorCount == s.apiErrorCount
      && |s'.queries| == |s.queries| + 1
  {
  }

  /** The first pass of the process, when it finds no homework, dies on the unbound `message`. */
  lemma FirstQuietPassCrashes(now: int, t: Tick, response: Value)
    requires t.guard == Ok(true)
    requires Classify(t.reply) == Ok(response) && CheckResponse(response) == Ok([])
    ensures Step(Init(now), t).phase == Crashed
    ensures Step(Init(now), t).outbox == []
  {
    QuietPass(Init(now), t, response);
  }

  /**
   * When record `k` is the first one `parse_status` rejects, exactly the
   * notifications of records 0 to k-1 have gone out, nothing else is sent,
   * the cursor and counter stay where they were, and the process keeps
   * polling: the pass ends as a failure, not a crash.
   */
  lemma {:induction false} RejectedRecordPass(s: State, t: Tick, response: Value, homeworks: seq<Value>, k: nat)
    requires s.phase == Running && t.guard == Ok(true)
    requires Classify(t.reply) == Ok(response) && CheckResponse(response) == Ok(homeworks)
    requires k < |homeworks| && ParseStatus(homeworks[k]).Err?
    requires forall i :: 0 <= i < k ==> ParseStatus(homeworks[i]).Ok?
    ensures var s' := Step(s, t);
      && |s'.outbox| == |s.outbox| + k
      && s'.outbox[..|s.outbox|] == s.outbox
      && (forall i :: 0 <= i < k ==> ParseStatus(homeworks[i]) == Ok(s'.outbox[|s.outbox| + i]))
      && s'.message == Some(FailureText(ParseStatus(homeworks[k]).error))
      && s'.cursor == s.cursor
      && s'.apiErrorCount == s.apiErrorCount
      && s'.phase == Running
  {
    var b := Notify(homeworks);
    NotifySends(homeworks);
    ListedAttempt(s, t, response, homeworks);
    assert |b.sent| == k && b.failure.Some?;
    var s' := Step(s, t);
    assert s'.outbox == s.outbox + b.sent;
    forall i | 0 <= i < k
      ensures ParseStatus(homeworks[i]) == Ok(s'.outbox[|s.outbox| + i])
    {
      assert s'.outbox[|s.outbox| + i] == b.sent[i];
    }
  }

  /**
   * With the `check_tokens()` guard the loop works: a missing credential ends
   * the process and changes nothing else; otherwise the pass sends one request
   * with the cursor (or the clock) as `from_date`.
   */
  lemma TokenGuardedPass(s: State, t: Tick, tokens: Tokens)
    requires s.phase == Running && t.guard == TokenGuard(tokens)
    ensures Step(s, t).phase == Exited <==> !CheckTokens(tokens)
    ensures !CheckTokens(tokens) ==> Step(s, t) == s.(phase := Exited)
    ensures CheckTokens(tokens) ==>
      Step(s, t).queries == s.queries + [if Truthy(s.cursor) then s.cursor else JInt(t.now)]
  {
    AttemptKeeps(s, t);
  }

  // ---------------------------------------------------------------------------
  // Properties of runs
  // ---------------------------------------------------------------------------

  /**
   * The counter only grows, by one per outage report of the `except` branch,
   * and that branch reports at most one outage: none at all once the counter
   * has left 0. The next pass, if it finds no homework, re-sends that report
   * from the `else` branch (`OutageThenQuietPass`); in general such a pass
   * re-sends whatever `message` last held, which after a second outage is a
   * text never reported (`SecondOutageThenQuietPass`).
   */
  lemma {:induction false} CounterCountsAlerts(s: State, ticks: seq<Tick>)
    ensures Run(s, ticks).apiErrorCount == s.apiErrorCount + AlertCount(s, ticks)
    ensures AlertCount(s, ticks) <= (if s.apiErrorCount == 0 then 1 else 0)
    decreases |ticks|
  {
    if ticks != [] && s.phase == Running {
      var s' := Step(s, ticks[0]);
      AttemptKeeps(s, ticks[0]);
      assert s'.apiErrorCount == s.apiErrorCount + (if Alerts(s, ticks[0]) then 1 else 0);
      CounterCountsAlerts(s', ticks[1..]);
    }
  }

  /** A tick on which the request fails, whatever the cursor. */
  predicate Outage(t: Tick)
  {
    t.guard == Ok(true) && Classify(t.reply).Err?
  }

  /** The report an outage pass sends when none has been sent before. */
  function OutageReport(t: Tick): string
    requires Outage(t)
  {
    FailureText(Classify(t.reply).error)
  }

  /**
   * Any number of consecutive outage passes sends one report in total (the
   * first pass's, and only if none was sent before), never moves the cursor,
   * and leaves the counter at 1.
   */
  lemma {:induction false} OutageReportedOnce(s: State, ticks: seq<Tick>)
    requires s.phase == Running
    requires forall i :: 0 <= i < |ticks| ==> Outage(ticks[i])
    ensures var r := Run(s, ticks);
      && r.phase == Running
      && r.cursor == s.cursor
      && r.outbox == s.outbox + (if s.apiErrorCount == 0 && ticks != [] then [OutageReport(ticks[0])] else [])
      && r.apiErrorCount == (if s.apiErrorCount == 0 && ticks != [] then 1 else s.apiErrorCount)
    decreases |ticks|
  {
    if ticks != [] {
      var s' := Step(s, ticks[0]);
      assert Outage(ticks[0]);
      assert s'.cursor == s.cursor && s'.phase == Running;
      assert s'.apiErrorCount == (if s.apiErrorCount == 0 then 1 else s.apiErrorCount);
      assert s'.outbox == s.outbox + (if s.apiErrorCount == 0 then [OutageReport(ticks[0])] else []);
      assert forall i :: 0 <= i < |ticks[1..]| ==> Outage(ticks[1..][i]);
      OutageReportedOnce(s', ticks[1..]);
    }
  }

  /**
   * The outage report can go out twice: an outage pass leaves its report in
   * `message`, and a following pass that finds no homework re-sends it from
   * the `else` branch, although the `except` branch reported only once.
   */
  lemma OutageThenQuietPass(s: State, outage: Tick, quiet: Tick, response: Value)
    requires s.phase == Running && s.apiErrorCount == 0 && Outage(outage)
    requires quiet.guard == Ok(true)
    requires Classify(quiet.reply) == Ok(response) && CheckResponse(response) == Ok([])
    ensures var r := Run(s, [outage, quiet]);
      && r.outbox == s.outbox + [OutageReport(outage), OutageReport(outage)]
      && r.phase == Running
    ensures AlertCount(s, [outage, quiet]) == 1
  {
    var a := Attempt(s, outage);
    assert a.state == s.(queries := s.queries + [GetApiAnswer(s.cursor, outage.now, outage.reply).fromDate]);
    assert a.outcome == Raised(Classify(outage.reply).error);
    assert Alerts(s, outage);
    var s' := Step(s, outage);
    assert s' == Recover(a.state, Classify(outage.reply).error);
    assert s'.message == Some(OutageReport(outage)) && s'.phase == Running;
    assert s'.outbox == s.outbox + [OutageReport(outage)];
    QuietPass(s', quiet, response);
    assert Attempt(s', quiet).outcome == Completed;
    assert !Alerts(s', quiet);
    var ticks := [outage, quiet];
    assert ticks[1..] == [quiet] && [quiet][1..] == [];
    assert AlertCount(s', [quiet]) == 0;
    assert Run(s, ticks) == Run(s', [quiet]) == Step(s', quiet);
  }

  /**
   * What a pass that finds no homework re-sends is the last `message`, not the
   * last report: after two outages it sends the second outage's text, which
   * the `except` branch did not report because the counter had left 0.
   */
  lemma SecondOutageThenQuietPass(s: State, first: Tick, second: Tick, quiet: Tick, response: Value)
    requires s.phase == Running && s.apiErrorCount == 0 && Outage(first) && Outage(second)
    requires quiet.guard == Ok(true)
    requires Classify(quiet.reply) == Ok(response) && CheckResponse(response) == Ok([])
    ensures var r := Run(s, [first, second, quiet]);
      && r.outbox == s.outbox + [OutageReport(first), OutageReport(second)]
      && r.phase == Running
    ensures AlertCount(s, [first, second, quiet]) == 1
  {
    var ticks := [first, second, quiet];
    assert ticks[1..] == [second, quiet] && ticks[1..][1..] == [quiet] && [quiet][1..] == [];
    OutageReportedOnce(s, [first]);
    assert [first][1..] == [];
    var s1 := Step(s, first);
    assert Run(s, [first]) == Run(s1, []) == s1;
    assert Alerts(s, first);
    var a := Attempt(s1, second);
    assert a.outcome == Raised(Classify(second.reply).error);
    assert !Alerts(s1, second);
    FailedPass(s1, second);
    var s2 := Step(s1, second);
    assert s2.message == Some(OutageReport(second)) && s2.phase == Running;
    assert s2.outbox == s.outbox + [OutageReport(first)] && s2.apiErrorCount == 1;
    QuietPass(s2, quiet, response);
    assert Attempt(s2, quiet).outcome == Completed;
    assert !Alerts(s2, quiet);
    assert AlertCount(s2, [quiet]) == 0;
    assert Run(s, ticks) == Run(s1, [second, quiet]) == Run(s2, [quiet]) == Step(s2, quiet);
  }

  /**
   * As written, the guard raises on every pass, so the loop never sends a
   * request or a message and never moves the cursor or the counter; only
   * `message` takes the text of that `TypeError`.
   */
  lemma {:induction false} WrittenLoopIsInert(s: State, ticks: seq<Tick>)
    requires s.phase == Running
    requires forall i :: 0 <= i < |ticks| ==> ticks[i].guard == WrittenGuard
    ensures Run(s, ticks) == if ticks == [] then s else s.(message := Some(FailureText(WrittenGuard.error)))
    decreases |ticks|
  {
    if ticks != [] {
      var s' := Step(s, ticks[0]);
      assert s' == s.(message := Some(FailureText(WrittenGuard.error)));
      assert forall i :: 0 <= i < |ticks[1..]| ==> ticks[1..][i].guard == WrittenGuard;
      WrittenLoopIsInert(s', ticks[1..]);
    }
  }

  // ---------------------------------------------------------------------------
  // The loop as the program runs it
  // ---------------------------------------------------------------------------

  /** The locals of `main` and the effects the loop has had so far. */
  class Bot {
    var cursor: Value
    var apiErrorCount: int
    var message: Option<string>
    var outbox: seq<string>
    var queries: seq<Value>
    var phase: Phase

    function Snapshot(): State
      reads this
    {
      State(cursor, apiErrorCount, message, outbox, queries, phase)
    }

    /** The start of `main`: the cursor is the clock, the counter 0, `message` unbound. */
    constructor (now: int)
      ensures Snapshot() == Init(now)
    {
      cursor, apiErrorCount, message := JInt(now), 0, None;
      outbox, queries, phase := [], [], Running;
    }

    /** `send_message`: the text is handed to the bot; a `TelegramError` is swallowed. */
    method SendMessage(text: string)
      modifies this
      ensures outbox == old(outbox) + [text]
      ensures message == old(message)
      ensures (cursor, apiErrorCount, queries, phase) == old((cursor, apiErrorCount, queries, phase))
    {
      outbox := outbox + [text];
    }

    /** The `for` loop: format and send each record in order, stopping at the first one rejected. */
    method NotifyAll(homeworks: seq<Value>) returns (failure: Option<Error>)
      modifies this
      ensures failure == Notify(homeworks).failure
      ensures outbox == old(outbox) + Notify(homeworks).sent
      ensures message == LastSent(Notify(homeworks).sent, old(message))
      ensures (cursor, apiErrorCount, queries, phase) == old((cursor, apiErrorCount, queries, phase))
    {
      ghost var target := NotifyFrom(outbox, homeworks);
      NotifyFromAfter(outbox, homeworks);
      var rest := homeworks;
      while rest != []
        invariant NotifyFrom(outbox, rest) == target
        invariant |old(outbox)| <= |outbox|
        invariant message == if |outbox| == |old(outbox)| then old(message) else Some(outbox[|outbox| - 1])
        invariant (cursor, apiErrorCount, queries, phase) == old((cursor, apiErrorCount, queries, phase))
        decreases |rest|
      {
        var parsed := ParseStatus(rest[0]);
        if parsed.Err? {
          return Some(parsed.error);
        }
        message := Some(parsed.value);
        SendMessage(parsed.value);
        rest := rest[1..];
      }
      return None;
    }

    /** The body of the `try`. */
    method TryPass(t: Tick) returns (outcome: Outcome)
      modifies this
      ensures Attempted(Snapshot(), outcome) == Attempt(old(Snapshot()), t)
    {
      match t.guard {
        case Err(e) =>
          return Raised(e);
        case Ok(ok) =>
          if !ok {
            return Exit;
          }
      }
      var call := GetApiAnswer(cursor, t.now, t.reply);
      queries := queries + [call.fromDate];
      if call.answer.Err? {
        return Raised(call.answer.error);
      }
      var response := call.answer.value;
      var checked := CheckResponse(response);
      if checked.Err? {
        return Raised(checked.error);
      }
      var failure := NotifyAll(checked.value);
      if failure.Some? {
        return Raised(failure.value);
      }
      cursor := Get(response.fields, "current_date", cursor);
      return Completed;
    }

    /** One pass of `while True`: the `try`, then its `except` or `else` branch. */
    method Pass(t: Tick)
      requires phase == Running
      modifies this
      ensures Snapshot() == Step(old(Snapshot()), t)
    {
      var outcome := TryPass(t);
      match outcome {
        case Exit =>
          phase := Exited;
        case Raised(e) =>
          var text := FailureText(e);
          message := Some(text);
          if !e.EnvVariablesNotAvailable? && !e.TelegramError? {
            if e.UnavailableApi? {
              if apiErrorCount == 0 {
                SendMessage(text);
                apiErrorCount := apiErrorCount + 1;
              }
            }
          }
        case Completed =>
          if message.None? {
            phase := Crashed;
          } else {
            SendMessage(message.value);
          }
      }
    }

    /** `while True`, for as many passes as there are ticks, or until the process ends. */
    method Loop(ticks: seq<Tick>)
      modifies this
      ensures Snapshot() == Run(old(Snapshot()), ticks)
    {
      var i := 0;
      while i < |ticks| && phase == Running
        invariant 0 <= i <= |ticks|
        invariant Run(old(Snapshot()), ticks) == Run(Snapshot(), ticks[i..])
        decreases |ticks| - i
      {
        assert ticks[i..][1..] == ticks[i + 1..];
        Pass(ticks[i]);
        i := i + 1;
      }
    }
  }
}
