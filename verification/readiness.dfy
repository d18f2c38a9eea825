/** The streaming-readiness handshake shared by both ProHand wrappers
    (waitForStreamingReady in C++, wait_for_streaming_ready in Python), as a
    reference definition over a virtual millisecond clock.

    The clock starts at 0 when the handshake records its start time and only
    sleeps advance it; every library call takes no time. The library's answers
    are given by a `Host`: the code ping returns, and the codes the n-th
    running-state query and the n-th streaming-mode request return. */
module Readiness {
  import opened Outcomes
  import ProHandLib

  /** Delay after the ping for the publish/subscribe link to settle. */
  const SettleMs: nat := 200
  /** Largest sleep between two running-state polls. */
  const PollMs: nat := 50
  /** Default timeout and retry interval (1.0 s and 0.3 s). */
  const DefaultTimeoutMs: nat := 1000
  const DefaultRetryMs: nat := 300

  datatype Host = Host(pingCode: int, runningCode: nat -> int, setModeCode: nat -> int)

  /** What the handshake does, in order. */
  datatype Event =
    | Pinged(ok: bool)                 // the command-channel ping
    | Slept(at: nat, ms: nat)          // a sleep started at `at`
    | Polled(at: nat, running: bool)   // a running-state query and its answer
    | Enabled(at: nat, ok: bool)       // a streaming-mode(true) request and whether it succeeded

  datatype Attempt = Attempt(ready: bool, trace: seq<Event>, elapsed: nat)

  /** The events of one loop round that did not see the running state: the
      query, the streaming-mode request if one was due, and the sleep. */
  function Round(now: nat, resend: bool, ok: bool, d: nat): (events: seq<Event>)
  {
    [Polled(now, false)] + (if resend then [Enabled(now, ok)] else []) + [Slept(now, d)]
  }

  /** The polling loop from time `now` on, after `polls` queries and `sends`
      requests, the last successful request having been made at `last`
      (the start time while there was none). */
  function Loop(h: Host, timeout: nat, retry: nat, polls: nat, sends: nat, now: nat, last: nat): Attempt
    decreases timeout - now
  {
    if now >= timeout then
      // the loop has timed out: one last query decides
      var running := h.runningCode(polls) == 1;
      Attempt(running, [Polled(now, running)], now)
    else if h.runningCode(polls) == 1 then
      Attempt(true, [Polled(now, true)], now)
    else
      var resend := now - last >= retry;
      var ok := resend && h.setModeCode(sends) == ProHandLib.SUCCESS;
      var d := Min(PollMs, timeout - now);
      var rest := Loop(h, timeout, retry, polls + 1, if resend then sends + 1 else sends,
                       now + d, if ok then now else last);
      Attempt(rest.ready, Round(now, resend, ok, d) + rest.trace, rest.elapsed)
  }

  /** Progress of an implementation of the loop: if the events recorded so far
      (`done`) followed by the rest of the loop make up `target`, they still do
      after one more round that did not see the running state, which leaves
      the sends, clock, last success and events at `sends'`, `now'`, `last'`
      and `done'`. */
  lemma RoundPreserves(h: Host, timeout: nat, retry: nat, polls: nat, sends: nat, now: nat, last: nat,
                       done: seq<Event>, target: Attempt, sends': nat, now': nat, last': nat, done': seq<Event>)
    requires now < timeout && h.runningCode(polls) != 1
    requires var a := Loop(h, timeout, retry, polls, sends, now, last);
      done + a.trace == target.trace && a.ready == target.ready && a.elapsed == target.elapsed
    requires var resend := now - last >= retry;
      var ok := resend && h.setModeCode(sends) == ProHandLib.SUCCESS;
      && sends' == (if resend then sends + 1 else sends)
      && now' == now + Min(PollMs, timeout - now)
      && last' == (if ok then now else last)
      && done' == done + Round(now, resend, ok, Min(PollMs, timeout - now))
    ensures var next := Loop(h, timeout, retry, polls + 1, sends', now', last');
      done' + next.trace == target.trace && next.ready == target.ready && next.elapsed == target.elapsed
  {
    var resend := now - last >= retry;
    var ok := resend && h.setModeCode(sends) == ProHandLib.SUCCESS;
    var d := Min(PollMs, timeout - now);
    var next := Loop(h, timeout, retry, polls + 1, sends', now', last');
    assert done' + next.trace == done + (Round(now, resend, ok, d) + next.trace);
  }

  /** The whole handshake: ping, settle, then poll. */
  function Run(h: Host, timeout: nat, retry: nat): Attempt
  {
    if h.pingCode != ProHandLib.SUCCESS then
      Attempt(false, [Pinged(false)], 0)
    else
      var rest := Loop(h, timeout, retry, 0, 0, SettleMs, 0);
      Attempt(rest.ready, [Pinged(true), Slept(0, SettleMs)] + rest.trace, rest.elapsed)
  }

  /** Total time spent sleeping in a trace. */
  function SleptTotal(events: seq<Event>): nat
  {
    if events == [] then 0
    else (if events[0].Slept? then events[0].ms else 0) + SleptTotal(events[1..])
  }

  lemma {:induction false} SleptTotalAppend(a: seq<Event>, b: seq<Event>)
    ensures SleptTotal(a + b) == SleptTotal(a) + SleptTotal(b)
  {
    if a != [] {
      assert (a + b)[0] == a[0];
      assert (a + b)[1..] == a[1..] + b;
      SleptTotalAppend(a[1..], b);
    } else {
      assert a + b == b;
    }
  }

  lemma RoundFacts(now: nat, resend: bool, ok: bool, d: nat)
    ensures var r := Round(now, resend, ok, d);
      && SleptTotal(r) == d
      && (forall i :: 0 <= i < |r| && r[i].Polled? ==> !r[i].running)
      && (forall i :: 0 <= i < |r| && r[i].Slept? ==> r[i] == Slept(now, d))
  {
    var r := Round(now, resend, ok, d);
    assert SleptTotal([Slept(now, d)]) == d by {
      assert [Slept(now, d)][1..] == [];
    }
    if resend {
      assert r[1..][1..] == [Slept(now, d)];
      assert SleptTotal(r[1..]) == SleptTotal(r[1..][1..]);
    } else {
      assert r[1..] == [Slept(now, d)];
    }
  }

  /** A failed ping ends the handshake at once: not ready, nothing else asked
      of the library, no time spent. */
  lemma PingGate(h: Host, timeout: nat, retry: nat)
    ensures h.pingCode != ProHandLib.SUCCESS ==>
      Run(h, timeout, retry) == Attempt(false, [Pinged(false)], 0)
    ensures h.pingCode == ProHandLib.SUCCESS ==>
      Run(h, timeout, retry).trace[..2] == [Pinged(true), Slept(0, SettleMs)]
  {
  }

  /** `t` ends with a query at `elapsed` whose answer is `ready`, and no
      earlier query in it saw the running state. */
  ghost predicate EndsOnAnswer(t: seq<Event>, elapsed: nat, ready: bool)
  {
    && t != []
    && t[|t| - 1] == Polled(elapsed, ready)
    && (forall i :: 0 <= i < |t| - 1 && t[i].Polled? ==> !t[i].running)
  }

  /** The polling loop ends with a query whose answer is its result, and no
      earlier query saw the running state. */
  lemma {:induction false} LoopEndsOnAnswer(h: Host, timeout: nat, retry: nat, polls: nat, sends: nat, now: nat, last: nat)
    ensures var a := Loop(h, timeout, retry, polls, sends, now, last);
      EndsOnAnswer(a.trace, a.elapsed, a.ready)
    decreases timeout - now
  {
    if now < timeout && h.runningCode(polls) != 1 {
      var resend := now - last >= retry;
      var ok := resend && h.setModeCode(sends) == ProHandLib.SUCCESS;
      var d := Min(PollMs, timeout - now);
      var polls', sends', last' := polls + 1, if resend then sends + 1 else sends, if ok then now else last;
      var rest := Loop(h, timeout, retry, polls', sends', now + d, last');
      assert Loop(h, timeout, retry, polls, sends, now, last) == Attempt(rest.ready, Round(now, resend, ok, d) + rest.trace, rest.elapsed);
      LoopEndsOnAnswer(h, timeout, retry, polls', sends', now + d, last');
      RoundFacts(now, resend, ok, d);
      EndsOnAnswerAppend(Round(now, resend, ok, d), rest.trace, rest.elapsed, rest.ready);
    }
  }

  /** Events with no running answer, put before a trace that ends on its
      only running answer, keep it so. */
  lemma EndsOnAnswerAppend(head: seq<Event>, tail: seq<Event>, elapsed: nat, ready: bool)
    requires forall i :: 0 <= i < |head| && head[i].Polled? ==> !head[i].running
    requires EndsOnAnswer(tail, elapsed, ready)
    ensures EndsOnAnswer(head + tail, elapsed, ready)
  {
    var t := head + tail;
    forall i | 0 <= i < |t| - 1 && t[i].Polled?
      ensures !t[i].running
    {
      if i >= |head| {
        assert t[i] == tail[i - |head|];
      } else {
        assert t[i] == head[i];
      }
    }
  }

  /** The polling loop's time is accounted for by its sleeps; it ends by the
      timeout (or at once when started after it), and exactly at it when it
      gives up. */
  lemma {:induction false} LoopTime(h: Host, timeout: nat, retry: nat, polls: nat, sends: nat, now: nat, last: nat)
    ensures var a := Loop(h, timeout, retry, polls, sends, now, last);
      && a.elapsed == now + SleptTotal(a.trace)
      && now <= a.elapsed <= Max(timeout, now)
      && (!a.ready ==> a.elapsed == Max(timeout, now))
    decreases timeout - now
  {
    if now < timeout && h.runningCode(polls) != 1 {
      var resend := now - last >= retry;
      var ok := resend && h.setModeCode(sends) == ProHandLib.SUCCESS;
      var d := Min(PollMs, timeout - now);
      var polls', sends', last' := polls + 1, if resend then sends + 1 else sends, if ok then now else last;
      var rest := Loop(h, timeout, retry, polls', sends', now + d, last');
      LoopTime(h, timeout, retry, polls', sends', now + d, last');
      var head := Round(now, resend, ok, d);
      RoundFacts(now, resend, ok, d);
      SleptTotalAppend(head, rest.trace);
      assert Loop(h, timeout, retry, polls, sends, now, last) == Attempt(rest.ready, head + rest.trace, rest.elapsed);
    }
  }

  /** Every sleep of the polling loop is positive, at most one poll interval,
      and ends no later than the timeout. */
  predicate SleepsWithin(events: seq<Event>, from: nat, timeout: nat)
  {
    forall i :: 0 <= i < |events| && events[i].Slept? ==>
      0 < events[i].ms <= PollMs && from <= events[i].at && events[i].at + events[i].ms <= timeout
  }

  lemma {:induction false} LoopSleeps(h: Host, timeout: nat, retry: nat, polls: nat, sends: nat, now: nat, last: nat)
    ensures SleepsWithin(Loop(h, timeout, retry, polls, sends, now, last).trace, now, timeout)
    decreases timeout - now
  {
    if now < timeout && h.runningCode(polls) != 1 {
      var resend := now - last >= retry;
      var ok := resend && h.setModeCode(sends) == ProHandLib.SUCCESS;
      var d := Min(PollMs, timeout - now);
      var polls', sends', last' := polls + 1, if resend then sends + 1 else sends, if ok then now else last;
      var rest := Loop(h, timeout, retry, polls', sends', now + d, last');
      LoopSleeps(h, timeout, retry, polls', sends', now + d, last');
      assert 0 < d <= PollMs && now + d <= timeout;
      var head := Round(now, resend, ok, d);
      RoundFacts(now, resend, ok, d);
      var t := head + rest.trace;
      assert Loop(h, timeout, retry, polls, sends, now, last).trace == t;
      forall i | 0 <= i < |t| && t[i].Slept?
        ensures 0 < t[i].ms <= PollMs && now <= t[i].at && t[i].at + t[i].ms <= timeout
      {
        if i >= |head| {
          assert t[i] == rest.trace[i - |head|];
          assert rest.trace[i - |head|].Slept?;
        } else {
          assert t[i] == head[i];
          assert head[i] == Slept(now, d);
        }
      }
    }
  }

  /** The handshake reports ready exactly when the last running-state query
      saw the running state, and it stops at the first query that does. */
  lemma ReadyIffLastPollRunning(h: Host, timeout: nat, retry: nat)
    requires h.pingCode == ProHandLib.SUCCESS
    ensures var a := Run(h, timeout, retry);
      && a.trace[|a.trace| - 1].Polled?
      && (a.ready <==> a.trace[|a.trace| - 1].running)
      && (forall i :: 0 <= i < |a.trace| - 1 && a.trace[i].Polled? ==> !a.trace[i].running)
  {
    var rest := Loop(h, timeout, retry, 0, 0, SettleMs, 0);
    LoopEndsOnAnswer(h, timeout, retry, 0, 0, SettleMs, 0);
    EndsOnAnswerAppend([Pinged(true), Slept(0, SettleMs)], rest.trace, rest.elapsed, rest.ready);
  }

  /** Timing: the handshake's time is the sum of its sleeps; it never runs past
      the later of the timeout and the settle delay, and when it gives up it
      has waited exactly that long. */
  lemma Timing(h: Host, timeout: nat, retry: nat)
    ensures var a := Run(h, timeout, retry);
      && a.elapsed == SleptTotal(a.trace)
      && a.elapsed <= Max(timeout, SettleMs)
      && (h.pingCode == ProHandLib.SUCCESS && !a.ready ==> a.elapsed == Max(timeout, SettleMs))
  {
    if h.pingCode == ProHandLib.SUCCESS {
      var rest := Loop(h, timeout, retry, 0, 0, SettleMs, 0);
      LoopTime(h, timeout, retry, 0, 0, SettleMs, 0);
      SleptTotalAppend([Pinged(true), Slept(0, SettleMs)], rest.trace);
      assert SleptTotal([Pinged(true), Slept(0, SettleMs)]) == SettleMs by {
        assert [Pinged(true), Slept(0, SettleMs)][1..] == [Slept(0, SettleMs)];
      }
    }
  }

  /** The retry rule, checked event by event: a streaming-mode request is made
      only when at least `retry` ms have passed since the last successful one
      (or since the start), and after every query that did not see the running
      state and was not the last, a request is made exactly then. A failed
      request leaves the reference time where it was. */
  predicate RetriesSpaced(events: seq<Event>, retry: nat, last: nat)
    decreases |events|
  {
    if events == [] then true
    else match events[0]
      case Enabled(t, ok) =>
        t - last >= retry && RetriesSpaced(events[1..], retry, if ok then t else last)
      case Polled(t, running) =>
        (!running && |events| > 1 ==> (events[1].Enabled? <==> t - last >= retry))
        && RetriesSpaced(events[1..], retry, last)
      case _ => RetriesSpaced(events[1..], retry, last)
  }

  lemma {:induction false} LoopRetriesSpaced(h: Host, timeout: nat, retry: nat, polls: nat, sends: nat, now: nat, last: nat)
    requires last <= now
    ensures RetriesSpaced(Loop(h, timeout, retry, polls, sends, now, last).trace, retry, last)
    decreases timeout - now
  {
    if now < timeout && h.runningCode(polls) != 1 {
      var resend := now - last >= retry;
      var ok := resend && h.setModeCode(sends) == ProHandLib.SUCCESS;
      var d := Min(PollMs, timeout - now);
      var polls', sends', last' := polls + 1, if resend then sends + 1 else sends, if ok then now else last;
      var rest := Loop(h, timeout, retry, polls', sends', now + d, last');
      var tail := [Slept(now, d)] + rest.trace;
      assert RetriesSpaced(tail, retry, last') by {
        LoopRetriesSpaced(h, timeout, retry, polls', sends', now + d, last');
        assert tail[1..] == rest.trace;
      }
      RoundSpaced(now, last, retry, resend, ok, tail);
      assert Loop(h, timeout, retry, polls, sends, now, last).trace == RoundHead(now, resend, ok) + tail by {
        assert Loop(h, timeout, retry, polls, sends, now, last).trace == Round(now, resend, ok, d) + rest.trace;
        assert Round(now, resend, ok, d) + rest.trace == RoundHead(now, resend, ok) + tail;
      }
    }
  }

  /** The events of a round before its sleep. */
  function RoundHead(now: nat, resend: bool, ok: bool): seq<Event>
  {
    [Polled(now, false)] + (if resend then [Enabled(now, ok)] else [])
  }

  /** One round keeps the retry rule: its request, if any, is due, and the
      rest of the trace is measured from the right reference time. */
  lemma RoundSpaced(now: nat, last: nat, retry: nat, resend: bool, ok: bool, tail: seq<Event>)
    requires last <= now && resend == (now - last >= retry)
    requires RetriesSpaced(tail, retry, if resend && ok then now else last)
    requires tail != [] && tail[0].Slept?
    ensures RetriesSpaced(RoundHead(now, resend, ok) + tail, retry, last)
  {
    var t := RoundHead(now, resend, ok) + tail;
    if resend {
      assert t[1..][1..] == tail;
    } else {
      assert t[1..] == tail;
    }
  }

  lemma RetryDiscipline(h: Host, timeout: nat, retry: nat)
    ensures RetriesSpaced(Run(h, timeout, retry).trace, retry, 0)
  {
    if h.pingCode == ProHandLib.SUCCESS {
      var rest := Loop(h, timeout, retry, 0, 0, SettleMs, 0);
      LoopRetriesSpaced(h, timeout, retry, 0, 0, SettleMs, 0);
      var t := Run(h, timeout, retry).trace;
      assert t[1..] == [Slept(0, SettleMs)] + rest.trace;
      assert t[1..][1..] == rest.trace;
    }
  }

  /** Called with its default arguments (1.0 s and 0.3 s), the handshake
      ends within one second, spends exactly that second when it gives up
      after a good ping, and re-requests streaming at most every 300 ms. */
  lemma DefaultWait(h: Host)
    ensures var a := Run(h, DefaultTimeoutMs, DefaultRetryMs);
      && a.elapsed <= 1000
      && (h.pingCode == ProHandLib.SUCCESS && !a.ready ==> a.elapsed == 1000)
      && RetriesSpaced(a.trace, 300, 0)
  {
    Timing(h, DefaultTimeoutMs, DefaultRetryMs);
    RetryDiscipline(h, DefaultTimeoutMs, DefaultRetryMs);
  }
}
