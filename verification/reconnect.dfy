/** `DoReconnect`: the fire-and-forget loop `OnClose` starts when the socket
    closes unexpectedly, and its composition with `OnClose` and `OnOpen`. */
module Reconnect {
  import opened Wrappers
  import opened Exceptions
  import opened Connection
  import opened Tasks
  import opened Handshake
  import Transport

  /** `ReconnectDelay` as both transport constructors set it: two seconds. */
  const DefaultReconnectDelayMs: nat := 2000

  /** The inputs of one loop iteration: the answers of
      `TransportHelper.VerifyLastActive` and `connection.EnsureReconnecting`
      (asked only when the first holds), and the events the socket of that
      attempt produces. */
  datatype Round = Round(lastActive: bool, ensureReconnecting: bool, events: seq<SocketEvent>)

  /** What happens, in order: connect attempts to a URL; errors the attempt
      socket's permanent OnError handler passes to `connection.OnError`
      (`Forwarded`); failures the loop's catch passes to `connection.OnError`
      (`Report`); and `Task.Delay` waits. */
  datatype Action = Attempt(url: string) | Forwarded(error: Exception) | Report(error: Exception) | Delay(ms: nat)

  /** Why the loop ended: a guard failed, the attempt succeeded, it was
      cancelled or aborted, its task never completed, or the modelled rounds
      ran out. */
  datatype Stop = NotActive | NotReconnecting | Reconnected | Cancelled | Aborted | StillWaiting | RoundsExhausted

  datatype LoopResult = LoopResult(trace: seq<Action>, stop: Stop)

  /** Stops that end an attempt without a report: the loop's `break`s and a
      task that never completes. */
  predicate EndsAttempt(s: Stop) {
    s == Reconnected || s == Cancelled || s == Aborted || s == StillWaiting
  }

  /** A failure that `DoReconnect` reports and retries after: neither an
      OperationCanceledException nor an aborted request. */
  predicate Retried(e: Exception, netStandard: bool) {
    !IsOperationCanceled(e) && !IsRequestAborted(Some(e), netStandard)
  }

  /** The trace is a run of blocks, each an attempt to `url`, the errors its
      socket forwarded, then a retried failure report and a wait of `delay`;
      the last block has no report and no wait exactly when `closed`. */
  predicate WellShaped(trace: seq<Action>, closed: bool, url: string, delay: nat, netStandard: bool)
    decreases |trace|, 1
  {
    || (trace == [] && !closed)
    || (|trace| > 0 && trace[0] == Attempt(url) && AfterAttempt(trace[1..], closed, url, delay, netStandard))
  }

  /** What may follow an attempt in a well-shaped trace. */
  predicate AfterAttempt(trace: seq<Action>, closed: bool, url: string, delay: nat, netStandard: bool)
    decreases |trace|, 0
  {
    || (trace == [] && closed)
    || (|trace| > 0 && trace[0].Forwarded? && AfterAttempt(trace[1..], closed, url, delay, netStandard))
    || (&& |trace| >= 2
        && trace[0].Report? && Retried(trace[0].error, netStandard)
        && trace[1] == Delay(delay)
        && WellShaped(trace[2..], closed, url, delay, netStandard))
  }

  /** The errors an attempt's socket forwards through its permanent OnError
      handler: one per error event, unless the request wrapper threw before
      `ConnectAsync` was called. */
  function ForwardedErrors(conn: Conn, events: seq<SocketEvent>): seq<Exception> {
    if conn.credentials.Some? then [] else ErrorsOf(events)
  }

  function Forwards(es: seq<Exception>): (r: seq<Action>)
    ensures |r| == |es|
    ensures forall i :: 0 <= i < |r| ==> r[i] == Forwarded(es[i])
  {
    if |es| == 0 then [] else [Forwarded(es[0])] + Forwards(es[1..])
  }

  lemma {:induction false} ForwardsThen(es: seq<Exception>, tail: seq<Action>, closed: bool, url: string, delay: nat, netStandard: bool)
    requires AfterAttempt(tail, closed, url, delay, netStandard)
    ensures AfterAttempt(Forwards(es) + tail, closed, url, delay, netStandard)
  {
    if |es| > 0 {
      ForwardsThen(es[1..], tail, closed, url, delay, netStandard);
      var t := Forwards(es) + tail;
      assert Forwards(es) == [Forwarded(es[0])] + Forwards(es[1..]);
      assert t[0] == Forwarded(es[0]);
      assert t[1..] == Forwards(es[1..]) + tail;
    } else {
      assert Forwards(es) + tail == tail;
    }
  }

  /** An attempt followed by its forwarded errors and a well-shaped
      continuation is well shaped. */
  lemma BlockShaped(es: seq<Exception>, tail: seq<Action>, closed: bool, url: string, delay: nat, netStandard: bool)
    requires AfterAttempt(tail, closed, url, delay, netStandard)
    ensures WellShaped([Attempt(url)] + Forwards(es) + tail, closed, url, delay, netStandard)
  {
    ForwardsThen(es, tail, closed, url, delay, netStandard);
    assert ([Attempt(url)] + Forwards(es) + tail)[1..] == Forwards(es) + tail;
  }

  /** A retried failure's report and wait may follow an attempt. */
  lemma RetryShaped(e: Exception, rest: seq<Action>, closed: bool, url: string, delay: nat, netStandard: bool)
    requires Retried(e, netStandard) && WellShaped(rest, closed, url, delay, netStandard)
    ensures AfterAttempt([Report(e), Delay(delay)] + rest, closed, url, delay, netStandard)
  {
    assert ([Report(e), Delay(delay)] + rest)[2..] == rest;
  }

  /** How one awaited attempt ends the loop: success `break`s, an
      OperationCanceledException is caught and `break`s, an aborted request
      `break`s, and a task that never completes leaves the loop waiting.
      None: the failure is reported and retried. */
  function Classify(c: ConnectResult, netStandard: bool): (r: Option<Stop>)
    ensures r.None? <==> c.Threw? && Retried(c.error, netStandard)
    ensures r.Some? ==> EndsAttempt(r.value)
    ensures r == Some(Reconnected) <==> c.Connected?
  {
    match c
    case Connected => Some(Reconnected)
    case NeverCompletes => Some(StillWaiting)
    case Threw(e) =>
      if IsOperationCanceled(e) then Some(Cancelled)
      else if IsRequestAborted(Some(e), netStandard) then Some(Aborted)
      else None
  }

  /** The loop from some iteration on. `cancellable` is true for the
      transport package, whose handshake registers a cancellation callback. */
  function Loop(conn: Conn, url: string, delay: nat, rounds: seq<Round>, cancellable: bool, netStandard: bool): (r: LoopResult)
    ensures WellShaped(r.trace, EndsAttempt(r.stop), url, delay, netStandard)
    ensures |rounds| > 0 && !rounds[0].lastActive ==> r == LoopResult([], NotActive)
    ensures |rounds| > 0 && rounds[0].lastActive && !rounds[0].ensureReconnecting ==> r == LoopResult([], NotReconnecting)
    decreases |rounds|
  {
    if |rounds| == 0 then LoopResult([], RoundsExhausted)
    else if !rounds[0].lastActive then LoopResult([], NotActive)
    else if !rounds[0].ensureReconnecting then LoopResult([], NotReconnecting)
    else
      var c := PerformConnect(conn, rounds[0].events, cancellable);
      var es := ForwardedErrors(conn, rounds[0].events);
      match Classify(c, netStandard)
      case Some(stop) =>
        BlockShaped(es, [], true, url, delay, netStandard);
        LoopResult([Attempt(url)] + Forwards(es) + [], stop)
      case None =>
        var rest := Loop(conn, url, delay, rounds[1..], cancellable, netStandard);
        RetryShaped(c.error, rest.trace, EndsAttempt(rest.stop), url, delay, netStandard);
        BlockShaped(es, [Report(c.error), Delay(delay)] + rest.trace, EndsAttempt(rest.stop), url, delay, netStandard);
        LoopResult([Attempt(url)] + Forwards(es) + ([Report(c.error), Delay(delay)] + rest.trace), rest.stop)
  }

  lemma {:induction false} WellShapedPositions(trace: seq<Action>, closed: bool, url: string, delay: nat, netStandard: bool, i: nat)
    requires WellShaped(trace, closed, url, delay, netStandard)
    requires i < |trace|
    ensures trace[i].Attempt? ==> trace[i] == Attempt(url)
    ensures trace[i].Delay? ==> trace[i] == Delay(delay)
    ensures trace[i].Report? ==> i + 1 < |trace| && trace[i + 1] == Delay(delay) && Retried(trace[i].error, netStandard)
    ensures trace[i].Report? || trace[i].Forwarded? ==> i > 0 && (trace[i - 1].Attempt? || trace[i - 1].Forwarded?)
    decreases |trace|, 1
  {
    if i > 0 {
      AfterAttemptPositions(trace[1..], closed, url, delay, netStandard, i - 1);
      assert trace[i] == trace[1..][i - 1];
      if i > 1 { assert trace[i - 1] == trace[1..][i - 2]; }
    }
  }

  /** In a well-shaped trace every attempt is to `url`, every wait is
      `delay`, every report is a retried failure followed by a wait, and
      reports and forwarded errors only follow an attempt or a forwarded
      error. */
  lemma {:induction false} AfterAttemptPositions(trace: seq<Action>, closed: bool, url: string, delay: nat, netStandard: bool, i: nat)
    requires AfterAttempt(trace, closed, url, delay, netStandard)
    requires i < |trace|
    ensures trace[i].Attempt? ==> trace[i] == Attempt(url)
    ensures trace[i].Delay? ==> trace[i] == Delay(delay)
    ensures trace[i].Report? ==> i + 1 < |trace| && trace[i + 1] == Delay(delay) && Retried(trace[i].error, netStandard)
    ensures trace[i].Report? || trace[i].Forwarded? ==> i == 0 || trace[i - 1].Attempt? || trace[i - 1].Forwarded?
    decreases |trace|, 0
  {
    if trace[0].Forwarded? && AfterAttempt(trace[1..], closed, url, delay, netStandard) {
      if i > 0 {
        AfterAttemptPositions(trace[1..], closed, url, delay, netStandard, i - 1);
        assert trace[i] == trace[1..][i - 1];
        if i > 1 { assert trace[i - 1] == trace[1..][i - 2]; }
        if trace[i].Report? { assert trace[i + 1] == trace[1..][i]; }
      }
    } else if i >= 2 {
      WellShapedPositions(trace[2..], closed, url, delay, netStandard, i - 2);
      assert trace[i] == trace[2..][i - 2];
      if trace[i].Report? { assert trace[i + 1] == trace[2..][i - 1]; }
      if i > 2 { assert trace[i - 1] == trace[2..][i - 3]; }
    }
  }

  /** The loop's own actions: the trace without the forwarded errors. */
  function Own(trace: seq<Action>): (r: seq<Action>)
    ensures |r| <= |trace|
  {
    if |trace| == 0 then []
    else (if trace[0].Forwarded? then [] else [trace[0]]) + Own(trace[1..])
  }

  /** The forwarded errors of a trace, in order. */
  function ForwardedOf(trace: seq<Action>): seq<Exception> {
    if |trace| == 0 then []
    else (if trace[0].Forwarded? then [trace[0].error] else []) + ForwardedOf(trace[1..])
  }

  lemma {:induction false} OwnAppend(a: seq<Action>, b: seq<Action>)
    ensures Own(a + b) == Own(a) + Own(b)
    ensures ForwardedOf(a + b) == ForwardedOf(a) + ForwardedOf(b)
  {
    if |a| > 0 {
      assert (a + b)[1..] == a[1..] + b;
      OwnAppend(a[1..], b);
    } else {
      assert a + b == b;
    }
  }

  lemma OwnCons(x: Action, t: seq<Action>)
    ensures Own([x] + t) == (if x.Forwarded? then [] else [x]) + Own(t)
    ensures ForwardedOf([x] + t) == (if x.Forwarded? then [x.error] else []) + ForwardedOf(t)
  {
    assert ([x] + t)[0] == x;
    assert ([x] + t)[1..] == t;
  }

  lemma {:induction false} OwnOfForwards(es: seq<Exception>)
    ensures Own(Forwards(es)) == []
    ensures ForwardedOf(Forwards(es)) == es
  {
    if |es| > 0 {
      OwnOfForwards(es[1..]);
      assert Forwards(es)[1..] == Forwards(es[1..]);
    }
  }

  /** Every error event of every attempt's socket, in round order, for
      rounds that all run an attempt. */
  function AllForwarded(conn: Conn, rounds: seq<Round>): seq<Exception> {
    if |rounds| == 0 then [] else ForwardedErrors(conn, rounds[0].events) + AllForwarded(conn, rounds[1..])
  }

  /** The first round's block: the attempt, its forwarded errors, and, when
      the attempt failed in a retried way, the report and the wait in front
      of the rest of the loop. */
  lemma FirstRound(conn: Conn, url: string, delay: nat, rounds: seq<Round>, cancellable: bool, netStandard: bool)
    requires |rounds| > 0 && rounds[0].lastActive && rounds[0].ensureReconnecting
    ensures var c := PerformConnect(conn, rounds[0].events, cancellable);
            var r := Loop(conn, url, delay, rounds, cancellable, netStandard);
            var block := [Attempt(url)] + Forwards(ForwardedErrors(conn, rounds[0].events));
            && (Classify(c, netStandard).Some? ==> r == LoopResult(block + [], Classify(c, netStandard).value))
            && (Classify(c, netStandard).None? ==>
                  var rest := Loop(conn, url, delay, rounds[1..], cancellable, netStandard);
                  r == LoopResult(block + ([Report(c.error), Delay(delay)] + rest.trace), rest.stop))
  {
  }

  /** A final attempt's block has the attempt as its only own action. */
  lemma LastBlockOwn(url: string, es: seq<Exception>)
    ensures Own([Attempt(url)] + Forwards(es) + []) == [Attempt(url)]
    ensures ForwardedOf([Attempt(url)] + Forwards(es) + []) == es
  {
    assert [Attempt(url)] + Forwards(es) + [] == [Attempt(url)] + (Forwards(es) + []);
    OwnCons(Attempt(url), Forwards(es) + []);
    ForwardsOwn(es, []);
  }

  /** The loop's own actions never exceed three per round. */
  lemma {:induction false} OwnActionsBounded(conn: Conn, url: string, delay: nat, rounds: seq<Round>, cancellable: bool, netStandard: bool)
    ensures |Own(Loop(conn, url, delay, rounds, cancellable, netStandard).trace)| <= 3 * |rounds|
    decreases |rounds|
  {
    if |rounds| > 0 && rounds[0].lastActive && rounds[0].ensureReconnecting {
      var c := PerformConnect(conn, rounds[0].events, cancellable);
      var es := ForwardedErrors(conn, rounds[0].events);
      FirstRound(conn, url, delay, rounds, cancellable, netStandard);
      if Classify(c, netStandard).None? {
        var rest := Loop(conn, url, delay, rounds[1..], cancellable, netStandard);
        OwnActionsBounded(conn, url, delay, rounds[1..], cancellable, netStandard);
        BlockOwn(url, es, c.error, delay, rest.trace);
      } else {
        LastBlockOwn(url, es);
      }
    }
  }

  /** A round whose guards hold and whose attempt fails in a retried way. */
  predicate FailsAndRetries(conn: Conn, round: Round, cancellable: bool, netStandard: bool) {
    && round.lastActive && round.ensureReconnecting
    && var c := PerformConnect(conn, round.events, cancellable);
       c.Threw? && Retried(c.error, netStandard)
  }

  /** A report and its wait are own actions and forward nothing. */
  lemma RetryOwn(e: Exception, delay: nat, rest: seq<Action>)
    ensures Own([Report(e), Delay(delay)] + rest) == [Report(e), Delay(delay)] + Own(rest)
    ensures ForwardedOf([Report(e), Delay(delay)] + rest) == ForwardedOf(rest)
  {
    assert [Report(e), Delay(delay)] + rest == [Report(e)] + ([Delay(delay)] + rest);
    OwnCons(Delay(delay), rest);
    OwnCons(Report(e), [Delay(delay)] + rest);
  }

  /** Forwarded errors in front of a trace add no own action. */
  lemma ForwardsOwn(es: seq<Exception>, tail: seq<Action>)
    ensures Own(Forwards(es) + tail) == Own(tail)
    ensures ForwardedOf(Forwards(es) + tail) == es + ForwardedOf(tail)
  {
    OwnOfForwards(es);
    OwnAppend(Forwards(es), tail);
  }

  /** The own actions of one failed attempt's block followed by the rest of
      a trace: the attempt, the report and the wait. */
  lemma BlockOwn(url: string, es: seq<Exception>, e: Exception, delay: nat, rest: seq<Action>)
    ensures Own([Attempt(url)] + Forwards(es) + ([Report(e), Delay(delay)] + rest))
            == [Attempt(url), Report(e), Delay(delay)] + Own(rest)
  {
    var fs := Forwards(es);
    var tail := [Report(e), Delay(delay)] + rest;
    assert [Attempt(url)] + fs + tail == [Attempt(url)] + (fs + tail);
    RetryOwn(e, delay, rest);
    ForwardsOwn(es, tail);
    assert Own(fs + tail) == [Report(e), Delay(delay)] + Own(rest);
    OwnCons(Attempt(url), fs + tail);
    assert Own([Attempt(url)] + (fs + tail)) == [Attempt(url)] + ([Report(e), Delay(delay)] + Own(rest));
  }

  /** The forwarded errors of one failed attempt's block followed by the
      rest of a trace: the attempt's errors, then those of the rest. */
  lemma BlockForwarded(url: string, es: seq<Exception>, e: Exception, delay: nat, rest: seq<Action>)
    ensures ForwardedOf([Attempt(url)] + Forwards(es) + ([Report(e), Delay(delay)] + rest))
            == es + ForwardedOf(rest)
  {
    var fs := Forwards(es);
    var tail := [Report(e), Delay(delay)] + rest;
    assert [Attempt(url)] + fs + tail == [Attempt(url)] + (fs + tail);
    OwnCons(Attempt(url), fs + tail);
    ForwardsOwn(es, tail);
    RetryOwn(e, delay, rest);
  }

  /** A failing round puts exactly its attempt, its forwarded errors, its
      report and its wait in front of the rest of the loop. */
  lemma FailingRound(conn: Conn, url: string, delay: nat, rounds: seq<Round>, cancellable: bool, netStandard: bool)
    requires |rounds| > 0 && FailsAndRetries(conn, rounds[0], cancellable, netStandard)
    ensures var r := Loop(conn, url, delay, rounds, cancellable, netStandard);
            var rest := Loop(conn, url, delay, rounds[1..], cancellable, netStandard);
            && r.stop == rest.stop
            && Own(r.trace) == [Attempt(url), Report(PerformConnect(conn, rounds[0].events, cancellable).error), Delay(delay)] + Own(rest.trace)
            && ForwardedOf(r.trace) == ForwardedErrors(conn, rounds[0].events) + ForwardedOf(rest.trace)
  {
    var c := PerformConnect(conn, rounds[0].events, cancellable);
    var rest := Loop(conn, url, delay, rounds[1..], cancellable, netStandard);
    FirstRound(conn, url, delay, rounds, cancellable, netStandard);
    BlockOwn(url, ForwardedErrors(conn, rounds[0].events), c.error, delay, rest.trace);
    BlockForwarded(url, ForwardedErrors(conn, rounds[0].events), c.error, delay, rest.trace);
  }

  /** While every attempt fails in a retried way, the loop never gives up:
      one attempt, one report and one wait per round. */
  lemma {:induction false} FailuresKeepRetrying(conn: Conn, url: string, delay: nat, rounds: seq<Round>, cancellable: bool, netStandard: bool)
    requires forall i :: 0 <= i < |rounds| ==> FailsAndRetries(conn, rounds[i], cancellable, netStandard)
    ensures Loop(conn, url, delay, rounds, cancellable, netStandard).stop == RoundsExhausted
    ensures |Own(Loop(conn, url, delay, rounds, cancellable, netStandard).trace)| == 3 * |rounds|
    decreases |rounds|
  {
    if |rounds| > 0 {
      FailingRound(conn, url, delay, rounds, cancellable, netStandard);
      FailuresKeepRetrying(conn, url, delay, rounds[1..], cancellable, netStandard);
    }
  }

  /** While every attempt fails in a retried way, every error event of every
      attempt's socket also reaches the connection, in order. */
  lemma {:induction false} FailuresAllForwarded(conn: Conn, url: string, delay: nat, rounds: seq<Round>, cancellable: bool, netStandard: bool)
    requires forall i :: 0 <= i < |rounds| ==> FailsAndRetries(conn, rounds[i], cancellable, netStandard)
    ensures ForwardedOf(Loop(conn, url, delay, rounds, cancellable, netStandard).trace) == AllForwarded(conn, rounds)
    decreases |rounds|
  {
    if |rounds| > 0 {
      FailingRound(conn, url, delay, rounds, cancellable, netStandard);
      FailuresAllForwarded(conn, url, delay, rounds[1..], cancellable, netStandard);
    }
  }

  /** Round `i` opens the socket after every earlier round failed in a
      retried way. */
  predicate OpensAfterFailures(conn: Conn, rounds: seq<Round>, i: int, cancellable: bool, netStandard: bool)
    requires 0 <= i < |rounds|
  {
    && rounds[i].lastActive && rounds[i].ensureReconnecting
    && PerformConnect(conn, rounds[i].events, cancellable).Connected?
    && forall j :: 0 <= j < i ==> FailsAndRetries(conn, rounds[j], cancellable, netStandard)
  }

  /** How the first round decides the loop's stop: a failed guard stops it,
      a retried failure defers to the rest, any other outcome is the stop. */
  lemma FirstStop(conn: Conn, url: string, delay: nat, rounds: seq<Round>, cancellable: bool, netStandard: bool)
    requires |rounds| > 0 && rounds[0].lastActive && rounds[0].ensureReconnecting
    ensures var c := PerformConnect(conn, rounds[0].events, cancellable);
            var stop := Loop(conn, url, delay, rounds, cancellable, netStandard).stop;
            && (Classify(c, netStandard).Some? ==> stop == Classify(c, netStandard).value)
            && (Classify(c, netStandard).None? ==> stop == Loop(conn, url, delay, rounds[1..], cancellable, netStandard).stop)
  {
    FirstRound(conn, url, delay, rounds, cancellable, netStandard);
  }

  /** The loop ends reconnected exactly when some round opens the socket
      after only retried failures before it. */
  lemma {:induction false} ReconnectedIffOpens(conn: Conn, url: string, delay: nat, rounds: seq<Round>, cancellable: bool, netStandard: bool)
    ensures Loop(conn, url, delay, rounds, cancellable, netStandard).stop == Reconnected <==>
            exists i :: 0 <= i < |rounds| && OpensAfterFailures(conn, rounds, i, cancellable, netStandard)
    decreases |rounds|
  {
    if |rounds| > 0 {
      var r := Loop(conn, url, delay, rounds, cancellable, netStandard);
      if rounds[0].lastActive && rounds[0].ensureReconnecting {
        FirstStop(conn, url, delay, rounds, cancellable, netStandard);
      }
      if FailsAndRetries(conn, rounds[0], cancellable, netStandard) {
        ReconnectedIffOpens(conn, url, delay, rounds[1..], cancellable, netStandard);
        assert !OpensAfterFailures(conn, rounds, 0, cancellable, netStandard);
        if r.stop == Reconnected {
          var k :| 0 <= k < |rounds[1..]| && OpensAfterFailures(conn, rounds[1..], k, cancellable, netStandard);
          assert OpensAfterFailures(conn, rounds, k + 1, cancellable, netStandard) by {
            forall j | 0 <= j < k + 1
              ensures FailsAndRetries(conn, rounds[j], cancellable, netStandard)
            {
              if j > 0 { assert rounds[j] == rounds[1..][j - 1]; }
            }
          }
        }
        if exists i :: 0 <= i < |rounds| && OpensAfterFailures(conn, rounds, i, cancellable, netStandard) {
          var k :| 0 <= k < |rounds| && OpensAfterFailures(conn, rounds, k, cancellable, netStandard);
          assert k > 0;
          assert OpensAfterFailures(conn, rounds[1..], k - 1, cancellable, netStandard) by {
            forall j | 0 <= j < k - 1
              ensures FailsAndRetries(conn, rounds[1..][j], cancellable, netStandard)
            {
              assert rounds[1..][j] == rounds[j + 1];
            }
          }
        }
      } else {
        if exists i :: 0 <= i < |rounds| && OpensAfterFailures(conn, rounds, i, cancellable, netStandard) {
          var k :| 0 <= k < |rounds| && OpensAfterFailures(conn, rounds, k, cancellable, netStandard);
          assert k == 0;
        }
        if r.stop == Reconnected {
          assert OpensAfterFailures(conn, rounds, 0, cancellable, netStandard);
        }
      }
    }
  }

  /** With credentials the attempt throws NotImplementedException, which the
      loop reports and retries. */
  lemma CredentialsAttemptRetried(conn: Conn, events: seq<SocketEvent>, cancellable: bool, netStandard: bool)
    requires conn.credentials.Some?
    ensures var c := PerformConnect(conn, events, cancellable);
            && c.Threw? && c.error.kind == NotImplemented
            && Classify(c, netStandard).None?
            && ForwardedErrors(conn, events) == []
  {
    var c := PerformConnect(conn, events, cancellable);
    assert ChainEnd(c.error) == c.error;
  }

  /** One round with credentials: the attempt throws NotImplementedException,
      which is retried, so the round adds an attempt, a report and a delay in
      front of the rest of the loop. */
  lemma CredentialsRound(conn: Conn, url: string, delay: nat, rounds: seq<Round>, cancellable: bool, netStandard: bool)
    requires conn.credentials.Some?
    requires |rounds| > 0 && rounds[0].lastActive && rounds[0].ensureReconnecting
    ensures var c := PerformConnect(conn, rounds[0].events, cancellable);
            && c.Threw? && c.error.kind == NotImplemented
            && Loop(conn, url, delay, rounds, cancellable, netStandard)
               == LoopResult([Attempt(url), Report(c.error), Delay(delay)]
                             + Loop(conn, url, delay, rounds[1..], cancellable, netStandard).trace,
                             Loop(conn, url, delay, rounds[1..], cancellable, netStandard).stop)
  {
    var c := PerformConnect(conn, rounds[0].events, cancellable);
    var rest := Loop(conn, url, delay, rounds[1..], cancellable, netStandard);
    CredentialsAttemptRetried(conn, rounds[0].events, cancellable, netStandard);
    FirstRound(conn, url, delay, rounds, cancellable, netStandard);
    assert Forwards([]) == [];
    assert [Attempt(url)] + [] + ([Report(c.error), Delay(delay)] + rest.trace)
           == [Attempt(url), Report(c.error), Delay(delay)] + rest.trace;
  }

  /** A connection with credentials makes every attempt throw
      NotImplementedException, which is neither a cancellation nor an abort:
      the loop retries until a guard fails, and never reconnects. */
  lemma {:induction false} CredentialsNeverReconnect(conn: Conn, url: string, delay: nat, rounds: seq<Round>, cancellable: bool, netStandard: bool)
    requires conn.credentials.Some?
    ensures Loop(conn, url, delay, rounds, cancellable, netStandard).stop !in {Reconnected, Cancelled, Aborted, StillWaiting}
    decreases |rounds|
  {
    if |rounds| > 0 && rounds[0].lastActive && rounds[0].ensureReconnecting {
      CredentialsAttemptRetried(conn, rounds[0].events, cancellable, netStandard);
      FirstStop(conn, url, delay, rounds, cancellable, netStandard);
      CredentialsNeverReconnect(conn, url, delay, rounds[1..], cancellable, netStandard);
    }
  }

  /** Every report of a trace is of a NotImplementedException. */
  predicate ReportsNotImplemented(t: seq<Action>) {
    forall i :: 0 <= i < |t| && t[i].Report? ==> t[i].error.kind == NotImplemented
  }

  lemma ReportsNotImplementedPrefix(url: string, e: Exception, delay: nat, rest: seq<Action>)
    requires e.kind == NotImplemented && ReportsNotImplemented(rest)
    ensures ReportsNotImplemented([Attempt(url), Report(e), Delay(delay)] + rest)
  {
    var t := [Attempt(url), Report(e), Delay(delay)] + rest;
    forall i | 0 <= i < |t| && t[i].Report?
      ensures t[i].error.kind == NotImplemented
    {
      if i >= 3 {
        assert t[i] == rest[i - 3];
      }
    }
  }

  /** With credentials every failure the loop reports is the wrapper's
      NotImplementedException. */
  lemma {:induction false} CredentialsReportNotImplemented(conn: Conn, url: string, delay: nat, rounds: seq<Round>, cancellable: bool, netStandard: bool)
    requires conn.credentials.Some?
    ensures var t := Loop(conn, url, delay, rounds, cancellable, netStandard).trace;
            forall i :: 0 <= i < |t| && t[i].Report? ==> t[i].error.kind == NotImplemented
    decreases |rounds|
  {
    if |rounds| > 0 && rounds[0].lastActive && rounds[0].ensureReconnecting {
      var c := PerformConnect(conn, rounds[0].events, cancellable);
      CredentialsRound(conn, url, delay, rounds, cancellable, netStandard);
      CredentialsReportNotImplemented(conn, url, delay, rounds[1..], cancellable, netStandard);
      ReportsNotImplementedPrefix(url, c.error, delay, Loop(conn, url, delay, rounds[1..], cancellable, netStandard).trace);
    }
  }

  /** `OnClose` followed by the loop it may start: nothing happens unless the
      close is unexpected (disconnect token not cancelled, no abort pending). */
  function AfterClose(disconnectCancelled: bool, abortCompletes: bool, conn: Conn, url: string, delay: nat,
                      rounds: seq<Round>, cancellable: bool, netStandard: bool): (r: LoopResult)
    ensures r.trace != [] ==> !disconnectCancelled && !abortCompletes
    ensures !disconnectCancelled && !abortCompletes ==> r == Loop(conn, url, delay, rounds, cancellable, netStandard)
  {
    if Transport.OnClose(disconnectCancelled, abortCompletes).0 == Transport.Reconnect then
      Loop(conn, url, delay, rounds, cancellable, netStandard)
    else LoopResult([], NotActive)
  }

  /** The permanent open handler runs `OnOpen` for every open event of an
      attempt's socket, starting from the connection's state during the
      attempt; the count is how many times `OnReconnected` is raised. */
  function OpenHandlerRuns(state: Transport.ConnectionState, events: seq<SocketEvent>): (r: (Transport.ConnectionState, nat))
    ensures r.1 <= 1
    ensures r.1 == 1 <==> state == Transport.ConnectionState.Reconnecting && Opened in events
    ensures r.1 == 1 ==> r.0 == Transport.ConnectionState.Connected
    ensures r.1 == 0 ==> r.0 == state
    decreases |events|
  {
    if |events| == 0 then (state, 0)
    else if events[0] == Opened then
      var (next, raised) := Transport.OnOpen(state);
      var rest := OpenHandlerRuns(next, events[1..]);
      (rest.0, rest.1 + if raised then 1 else 0)
    else
      assert Opened in events <==> Opened in events[1..] by {
        assert events == [events[0]] + events[1..];
      }
      OpenHandlerRuns(state, events[1..])
  }

  /** An attempt whose socket reports a connect failure throws it, the loop
      retries it, and the socket's error handler forwards it. */
  lemma ConnectFailureRound(conn: Conn, args: ErrorEventArgs, cancellable: bool, netStandard: bool)
    requires conn.credentials.None?
    requires args.exception == Some(Simple(Web(ConnectFailure), "Unable to connect to the remote server"))
    ensures var c := PerformConnect(conn, [Errored(args)], cancellable);
            && c == Threw(args.exception.value)
            && Classify(c, netStandard).None?
            && Forwards(ForwardedErrors(conn, [Errored(args)])) == [Forwarded(args.exception.value)]
  {
    var e := args.exception.value;
    assert ChainEnd(e) == e;
    assert Retried(e, netStandard);
    assert Decide([Errored(args)], cancellable) == Faulted([e]);
    assert ToException(args) == e;
    assert ErrorsOf([Errored(args)]) == [e];
  }

  /** A single round whose attempt opens reconnects after one attempt. */
  lemma OpeningRound(conn: Conn, url: string, delay: nat, cancellable: bool, netStandard: bool)
    requires conn.credentials.None?
    ensures Loop(conn, url, delay, [Round(true, true, [Opened])], cancellable, netStandard) == LoopResult([Attempt(url)], Reconnected)
  {
    assert PerformConnect(conn, [Opened], cancellable) == Connected;
    assert ForwardedErrors(conn, [Opened]) == [];
  }

  /** The loop for a dropped connection whose first attempt fails with a
      connect failure and whose second attempt opens. */
  lemma DropLoop(conn: Conn, url: string, args: ErrorEventArgs, cancellable: bool, netStandard: bool)
    requires conn.credentials.None?
    requires args.exception == Some(Simple(Web(ConnectFailure), "Unable to connect to the remote server"))
    ensures Loop(conn, url, DefaultReconnectDelayMs, [Round(true, true, [Errored(args)]), Round(true, true, [Opened])], cancellable, netStandard)
            == LoopResult([Attempt(url), Forwarded(args.exception.value), Report(args.exception.value), Delay(2000), Attempt(url)], Reconnected)
  {
    var e := args.exception.value;
    var rounds := [Round(true, true, [Errored(args)]), Round(true, true, [Opened])];
    ConnectFailureRound(conn, args, cancellable, netStandard);
    FirstRound(conn, url, DefaultReconnectDelayMs, rounds, cancellable, netStandard);
    assert rounds[1..] == [Round(true, true, [Opened])];
    OpeningRound(conn, url, DefaultReconnectDelayMs, cancellable, netStandard);
    assert [Attempt(url)] + [Forwarded(e)] + ([Report(e), Delay(DefaultReconnectDelayMs)] + [Attempt(url)])
           == [Attempt(url), Forwarded(e), Report(e), Delay(2000), Attempt(url)];
  }

  /** The remote end drops an established connection: `OnClose` starts the
      loop, the first attempt's socket reports a connect failure, which the
      socket's permanent error handler forwards and the failed attempt then
      reports again, the loop waits the default two seconds, the second
      attempt opens, and that socket's open handler raises `OnReconnected`
      exactly once while the first attempt's events raise it not at all. */
  lemma DropThenReconnect(conn: Conn, url: string, args: ErrorEventArgs, cancellable: bool, netStandard: bool)
    requires conn.credentials.None?
    requires args.exception == Some(Simple(Web(ConnectFailure), "Unable to connect to the remote server"))
    ensures var rounds := [Round(true, true, [Errored(args)]), Round(true, true, [Opened])];
            var r := AfterClose(false, false, conn, url, DefaultReconnectDelayMs, rounds, cancellable, netStandard);
            && r.stop == Reconnected
            && r.trace == [Attempt(url), Forwarded(args.exception.value), Report(args.exception.value), Delay(2000), Attempt(url)]
            && OpenHandlerRuns(Transport.ConnectionState.Reconnecting, rounds[0].events).1 == 0
            && OpenHandlerRuns(Transport.ConnectionState.Reconnecting, rounds[1].events)
               == (Transport.ConnectionState.Connected, 1)
  {
    DropLoop(conn, url, args, cancellable, netStandard);
    assert Opened !in [Errored(args)];
  }
}
