/** The per-server health watchdog (the record built by newTest in index.js):
    the counters it keeps, the handler it runs for each event of its connection,
    and the alerts those handlers raise. Seconds in the source are compared here
    as integer milliseconds: (now - x) / 1000 > 30 is now - x > 30000. */
module Watchdog {
  import opened Notifier
  import opened Connection

  /** Probe results closer together than this are ignored, in ms. */
  const ProbeThrottleMs: nat := 30000
  /** An outage longer than this raises the one "unreachable" alert, in ms. */
  const DownWarnAfterMs: nat := 30000
  /** The second arm of the close handler's condition, 10 minutes in ms. */
  const RewarnAfterMs: nat := 600000
  /** A failed probe alerts only while the outage is shorter than this, in ms. */
  const ProbeAlertWindowMs: nat := 180000

  /** The counters of one watchdog. A time stamp of 0 means "not set";
      maxHeart is the longest heartbeat gap seen, in ms. */
  datatype Health = Health(lastTime: nat, connectCount: nat, downTime: nat, lastWarnTime: nat,
                           lastCheckTime: nat, lastPing: nat, maxHeart: nat,
                           connect: bool, sendDownWarn: bool)

  function Initial(): Health {
    Health(0, 0, 0, 0, 0, 0, 0, false, false)
  }

  /** What a handler leaves behind: the new counters and the alerts it passed to notify. */
  datatype Step = Step(health: Health, alerts: seq<Alert>)

  /** The relations the handlers keep between the counters. */
  ghost predicate Inv(h: Health) {
    (h.sendDownWarn ==> h.downTime != 0) &&
    (h.lastWarnTime != 0 ==> h.downTime != 0 && h.downTime <= h.lastWarnTime)
  }

  /** No recorded time stamp is later than `now`. */
  predicate NotAfter(h: Health, now: nat) {
    h.lastTime <= now && h.downTime <= now && h.lastWarnTime <= now &&
    h.lastCheckTime <= now && h.lastPing <= now
  }

  /** The open handler: every outage counter is cleared and the connection counted. */
  function OnOpen(h: Health, now: nat): Health {
    h.(lastTime := now, lastPing := 0, connect := true, sendDownWarn := false,
       downTime := 0, lastWarnTime := 0, maxHeart := 0, connectCount := h.connectCount + 1)
  }

  /** The first two steps of the close handler: stamp the outage start and the
      warning clock if they are not set. */
  function MarkDown(h: Health, now: nat): Health {
    h.(downTime := if h.downTime == 0 then now else h.downTime,
       lastWarnTime := if h.lastWarnTime == 0 then now else h.lastWarnTime)
  }

  /** The condition guarding the "already down" branch of the close handler. */
  predicate DownAlertDue(h: Health, now: nat) {
    (now - h.downTime > DownWarnAfterMs && !h.sendDownWarn) || now - h.lastWarnTime > RewarnAfterMs
  }

  /** The close handler; `disconnects` is the connection's disconnect counter. */
  function OnClose(h: Health, now: nat, disconnects: nat): Step {
    var m := MarkDown(h, now);
    if m.connect then
      var uptime := if m.lastTime != 0 then UpFor(now - m.lastTime) else UnknownUptime;
      Step(m.(connect := false), [Dropped(disconnects, uptime)])
    else if DownAlertDue(m, now) then
      if !m.sendDownWarn then Step(m.(lastWarnTime := now, sendDownWarn := true), [Unreachable(now - m.downTime)])
      else Step(m.(sendDownWarn := true), [])
    else
      Step(m, [])
  }

  /** The ping handler; `timeoutMs` is the configured heartbeat limit in milliseconds. */
  function OnPing(h: Health, now: nat, timeoutMs: nat): Step {
    if h.lastPing > 0 then
      var gap := now - h.lastPing;
      Step(h.(maxHeart := if gap > h.maxHeart then gap else h.maxHeart, lastPing := now),
           if gap > timeoutMs then [HeartbeatGap(gap)] else [])
    else
      Step(h.(lastPing := now), [])
  }

  /** The error handler changes nothing and alerts only while connected. */
  function OnError(h: Health, message: string): seq<Alert> {
    if h.connect then [ConnectionError(message)] else []
  }

  /** Probe results within 30 s of the last one acted on are ignored. */
  predicate ProbeThrottled(h: Health, now: nat) {
    h.lastCheckTime != 0 && now - h.lastCheckTime < ProbeThrottleMs
  }

  /** The newStart handler, run with the outcome of the probe. */
  function OnNewStart(h: Health, now: nat, outcome: ProbeOutcome): Step {
    var d := if outcome.ProbeFailure? && h.downTime == 0 then h.(downTime := now) else h;
    if ProbeThrottled(d, now) then
      Step(d, [])
    else
      Step(d.(lastCheckTime := now),
           if outcome.ProbeFailure? && now - d.downTime < ProbeAlertWindowMs then [ProbeError(outcome.message)] else [])
  }

  // ---------------------------------------------------------------------------
  // Traces of handler runs

  /** One event the watchdog handles, with the clock reading when it runs. */
  datatype Event =
    | OpenAt(at: nat)
    | CloseAt(at: nat, disconnects: nat)
    | PingAt(at: nat)
    | ErrorAt(at: nat, message: string)
    | ProbeAt(at: nat, outcome: ProbeOutcome)

  function Apply(h: Health, e: Event, timeoutMs: nat): Step {
    match e
    case OpenAt(now) => Step(OnOpen(h, now), [])
    case CloseAt(now, n) => OnClose(h, now, n)
    case PingAt(now) => OnPing(h, now, timeoutMs)
    case ErrorAt(_, message) => Step(h, OnError(h, message))
    case ProbeAt(now, outcome) => OnNewStart(h, now, outcome)
  }

  /** The counters after a sequence of events, and every alert raised on the way. */
  function Run(h: Health, evs: seq<Event>, timeoutMs: nat): Step
    decreases |evs|
  {
    if evs == [] then Step(h, [])
    else
      var s := Run(h, evs[..|evs| - 1], timeoutMs);
      var t := Apply(s.health, evs[|evs| - 1], timeoutMs);
      Step(t.health, s.alerts + t.alerts)
  }

  /** Clock readings are positive, not before `t0`, and never go backwards. */
  ghost predicate Chronological(t0: nat, evs: seq<Event>) {
    (forall i :: 0 <= i < |evs| ==> 0 < evs[i].at && t0 <= evs[i].at) &&
    (forall i :: 0 < i < |evs| ==> evs[i - 1].at <= evs[i].at)
  }

  function LastAt(t0: nat, evs: seq<Event>): nat {
    if evs == [] then t0 else evs[|evs| - 1].at
  }

  function Count(alerts: seq<Alert>, p: Alert -> bool): nat
    decreases |alerts|
  {
    if alerts == [] then 0
    else Count(alerts[..|alerts| - 1], p) + (if p(alerts[|alerts| - 1]) then 1 else 0)
  }

  predicate IsUnreachable(a: Alert) { a.Unreachable? }
  predicate IsDropped(a: Alert) { a.Dropped? }
  predicate IsProbeError(a: Alert) { a.ProbeError? }

  function Opens(evs: seq<Event>): nat
    decreases |evs|
  {
    if evs == [] then 0 else Opens(evs[..|evs| - 1]) + (if evs[|evs| - 1].OpenAt? then 1 else 0)
  }

  lemma {:induction false} CountAppend(a: seq<Alert>, b: seq<Alert>, p: Alert -> bool)
    ensures Count(a + b, p) == Count(a, p) + Count(b, p)
    decreases |b|
  {
    if b == [] {
      assert a + b == a;
    } else {
      var b' := b[..|b| - 1];
      assert (a + b)[..|a + b| - 1] == a + b';
      assert (a + b)[|a + b| - 1] == b[|b| - 1];
      CountAppend(a, b', p);
    }
  }

  /** One handler run keeps the invariant, given a clock reading after every stamp. */
  lemma ApplyKeepsInv(h: Health, e: Event, timeoutMs: nat)
    requires Inv(h) && 0 < e.at && NotAfter(h, e.at)
    ensures Inv(Apply(h, e, timeoutMs).health) && NotAfter(Apply(h, e, timeoutMs).health, e.at)
  {
  }

  /** sendDownWarn implies a recorded outage start, and the warning clock never
      runs ahead of the outage start, after any chronological run of handlers. */
  lemma {:induction false} RunKeepsInv(h: Health, t0: nat, evs: seq<Event>, timeoutMs: nat)
    requires Inv(h) && NotAfter(h, t0) && Chronological(t0, evs)
    ensures Inv(Run(h, evs, timeoutMs).health) && NotAfter(Run(h, evs, timeoutMs).health, LastAt(t0, evs))
    decreases |evs|
  {
    if evs != [] {
      var front := evs[..|evs| - 1];
      var e := evs[|evs| - 1];
      assert Chronological(t0, front) by {
        forall i | 0 <= i < |front| ensures 0 < front[i].at && t0 <= front[i].at {
          assert front[i] == evs[i];
        }
        forall i | 0 < i < |front| ensures front[i - 1].at <= front[i].at {
          assert front[i] == evs[i] && front[i - 1] == evs[i - 1];
        }
      }
      RunKeepsInv(h, t0, front, timeoutMs);
      var s := Run(h, front, timeoutMs).health;
      assert LastAt(t0, front) <= e.at by {
        if front != [] {
          assert front[|front| - 1] == evs[|evs| - 2];
        }
      }
      assert 0 < e.at;
      ApplyKeepsInv(s, e, timeoutMs);
    }
  }

  /** No handler except open clears the latch, and an "unreachable" alert is
      raised only while the latch is clear and sets it. */
  lemma ApplyLatch(h: Health, e: Event, timeoutMs: nat)
    requires !e.OpenAt?
    ensures var t := Apply(h, e, timeoutMs);
      Count(t.alerts, IsUnreachable) + (if h.sendDownWarn then 1 else 0) <= (if t.health.sendDownWarn then 1 else 0)
  {
    var t := Apply(h, e, timeoutMs);
    assert |t.alerts| <= 1;
    if t.alerts != [] {
      assert t.alerts[..0] == [];
    }
  }

  /** Without an open event in between, at most one "unreachable" alert is
      raised, none at all if one was already sent for this outage, and once
      raised the latch stays set. */
  lemma {:induction false} OneUnreachablePerOutage(h: Health, evs: seq<Event>, timeoutMs: nat)
    requires forall i :: 0 <= i < |evs| ==> !evs[i].OpenAt?
    ensures var r := Run(h, evs, timeoutMs);
      Count(r.alerts, IsUnreachable) + (if h.sendDownWarn then 1 else 0) <= (if r.health.sendDownWarn then 1 else 0)
    decreases |evs|
  {
    if evs != [] {
      var front := evs[..|evs| - 1];
      assert forall i :: 0 <= i < |front| ==> front[i] == evs[i];
      OneUnreachablePerOutage(h, front, timeoutMs);
      var s := Run(h, front, timeoutMs);
      var t := Apply(s.health, evs[|evs| - 1], timeoutMs);
      ApplyLatch(s.health, evs[|evs| - 1], timeoutMs);
      CountAppend(s.alerts, t.alerts, IsUnreachable);
    }
  }

  lemma ApplyDropped(h: Health, e: Event, timeoutMs: nat)
    ensures var t := Apply(h, e, timeoutMs);
      Count(t.alerts, IsDropped) + (if t.health.connect then 1 else 0)
        <= (if h.connect then 1 else 0) + (if e.OpenAt? then 1 else 0)
  {
    var t := Apply(h, e, timeoutMs);
    assert |t.alerts| <= 1;
    if t.alerts != [] {
      assert t.alerts[..0] == [];
    }
  }

  /** Every "connection dropped" alert is paid for by a connection: the initial
      one or an open event of the run. */
  lemma {:induction false} DroppedNeedsOpen(h: Health, evs: seq<Event>, timeoutMs: nat)
    ensures var r := Run(h, evs, timeoutMs);
      Count(r.alerts, IsDropped) + (if r.health.connect then 1 else 0) <= (if h.connect then 1 else 0) + Opens(evs)
    decreases |evs|
  {
    if evs != [] {
      var front := evs[..|evs| - 1];
      DroppedNeedsOpen(h, front, timeoutMs);
      var s := Run(h, front, timeoutMs);
      var t := Apply(s.health, evs[|evs| - 1], timeoutMs);
      ApplyDropped(s.health, evs[|evs| - 1], timeoutMs);
      CountAppend(s.alerts, t.alerts, IsDropped);
    }
  }

  /** The baseline for the next heartbeat gap: the last ping time, 0 for none. */
  function PingBaseline(last: nat, evs: seq<Event>): nat {
    if evs == [] then last else evs[|evs| - 1].at
  }

  /** The gaps between consecutive pings, starting from the baseline `last`
      when it is set. */
  function Gaps(last: nat, evs: seq<Event>): seq<int>
    decreases |evs|
  {
    if evs == [] then []
    else
      var front := evs[..|evs| - 1];
      var p := PingBaseline(last, front);
      Gaps(last, front) + (if p > 0 then [evs[|evs| - 1].at - p] else [])
  }

  /** One heartbeat alert for each gap over the limit, in order. */
  function SlowBeats(gaps: seq<int>, limit: int): (r: seq<Alert>)
    decreases |gaps|
  {
    if gaps == [] then []
    else
      var g := gaps[|gaps| - 1];
      SlowBeats(gaps[..|gaps| - 1], limit) + (if g > limit then [HeartbeatGap(g)] else [])
  }

  /** A run of pings changes only lastPing, which ends at the last ping's
      time, and maxHeart, which ends as the largest of the old maximum and
      every gap measured. The first ping after an open only sets the baseline. */
  lemma {:induction false} PingsMeasureGaps(h: Health, evs: seq<Event>, timeoutMs: nat)
    requires forall i :: 0 <= i < |evs| ==> evs[i].PingAt? && 0 < evs[i].at
    ensures Run(h, evs, timeoutMs).health == h.(lastPing := PingBaseline(h.lastPing, evs),
                                              maxHeart := Run(h, evs, timeoutMs).health.maxHeart)
    ensures h.maxHeart <= Run(h, evs, timeoutMs).health.maxHeart
    ensures forall g :: g in Gaps(h.lastPing, evs) ==> g <= Run(h, evs, timeoutMs).health.maxHeart
    ensures Run(h, evs, timeoutMs).health.maxHeart == h.maxHeart
         || Run(h, evs, timeoutMs).health.maxHeart in Gaps(h.lastPing, evs)
    decreases |evs|
  {
    if evs != [] {
      var front := evs[..|evs| - 1];
      var e := evs[|evs| - 1];
      assert forall i :: 0 <= i < |front| ==> front[i] == evs[i];
      PingsMeasureGaps(h, front, timeoutMs);
      var s := Run(h, front, timeoutMs).health;
      var t := OnPing(s, e.at, timeoutMs);
      assert Run(h, evs, timeoutMs).health == t.health;
      var g0 := Gaps(h.lastPing, front);
      if s.lastPing > 0 {
        assert Gaps(h.lastPing, evs) == g0 + [e.at - s.lastPing];
      } else {
        assert Gaps(h.lastPing, evs) == g0;
      }
    }
  }

  /** After a run of pings, lastPing is the last ping's time. */
  lemma {:induction false} LastPingIsBaseline(h: Health, evs: seq<Event>, timeoutMs: nat)
    requires forall i :: 0 <= i < |evs| ==> evs[i].PingAt?
    ensures Run(h, evs, timeoutMs).health.lastPing == PingBaseline(h.lastPing, evs)
    decreases |evs|
  {
    if evs != [] {
      var front := evs[..|evs| - 1];
      assert forall i :: 0 <= i < |front| ==> front[i] == evs[i];
      LastPingIsBaseline(h, front, timeoutMs);
    }
  }

  /** One more gap adds its alert, if any, at the end. */
  lemma SlowBeatsSnoc(gaps: seq<int>, g: int, limit: int)
    ensures SlowBeats(gaps + [g], limit) == SlowBeats(gaps, limit) + (if g > limit then [HeartbeatGap(g)] else [])
  {
    assert (gaps + [g])[..|gaps|] == gaps;
  }

  /** One more ping measures one more gap when a baseline is set. */
  lemma GapsSnoc(last: nat, front: seq<Event>, e: Event)
    ensures Gaps(last, front + [e]) == Gaps(last, front)
      + (if PingBaseline(last, front) > 0 then [e.at - PingBaseline(last, front)] else [])
  {
    assert (front + [e])[..|front|] == front;
  }

  /** Running one more ping appends the ping handler's alerts. */
  lemma RunPingSnoc(h: Health, front: seq<Event>, e: Event, timeoutMs: nat)
    requires e.PingAt?
    ensures Run(h, front + [e], timeoutMs).alerts
         == Run(h, front, timeoutMs).alerts + OnPing(Run(h, front, timeoutMs).health, e.at, timeoutMs).alerts
  {
    assert (front + [e])[..|front|] == front;
  }

  /** The last step of PingAlertsAreSlowBeats, on values: if the alerts so far
      are those of the gaps so far, one more ping keeps it so. */
  lemma PingAlertStep(s: Step, gaps: seq<int>, at: nat, timeoutMs: nat)
    requires s.alerts == SlowBeats(gaps, timeoutMs)
    ensures s.alerts + OnPing(s.health, at, timeoutMs).alerts
         == SlowBeats(gaps + (if s.health.lastPing > 0 then [at - s.health.lastPing] else []), timeoutMs)
  {
    if s.health.lastPing > 0 {
      SlowBeatsSnoc(gaps, at - s.health.lastPing, timeoutMs);
    } else {
      assert gaps + [] == gaps;
    }
  }

  /** A run of pings raises one heartbeat alert per measured gap over the
      limit, in order, and no other alert. */
  lemma {:induction false} PingAlertsAreSlowBeats(h: Health, evs: seq<Event>, timeoutMs: nat)
    requires forall i :: 0 <= i < |evs| ==> evs[i].PingAt?
    ensures Run(h, evs, timeoutMs).alerts == SlowBeats(Gaps(h.lastPing, evs), timeoutMs)
    decreases |evs|
  {
    if evs != [] {
      var front, e := evs[..|evs| - 1], evs[|evs| - 1];
      assert evs == front + [e];
      assert forall i :: 0 <= i < |front| ==> front[i].PingAt? by {
        forall i | 0 <= i < |front| ensures front[i].PingAt? {
          assert front[i] == evs[i];
        }
      }
      PingAlertsAreSlowBeats(h, front, timeoutMs);
      LastPingIsBaseline(h, front, timeoutMs);
      RunPingSnoc(h, front, e, timeoutMs);
      GapsSnoc(h.lastPing, front, e);
      PingAlertStep(Run(h, front, timeoutMs), Gaps(h.lastPing, front), e.at, timeoutMs);
    }
  }

  /** The times at which probe results were acted on rather than ignored. */
  function CheckTimes(h: Health, evs: seq<Event>, timeoutMs: nat): seq<nat>
    decreases |evs|
  {
    if evs == [] then []
    else
      var front := evs[..|evs| - 1];
      var e := evs[|evs| - 1];
      CheckTimes(h, front, timeoutMs) +
        (if Checks(Run(h, front, timeoutMs).health, e) then [e.at] else [])
  }

  /** Whether a handler run acts on a probe result. */
  predicate Checks(h: Health, e: Event) {
    e.ProbeAt? && !ProbeThrottled(h, e.at)
  }

  /** One handler run moves lastCheckTime only when it acts on a probe result,
      and only then can it raise a probe alert. */
  lemma ApplyCheck(h: Health, e: Event, timeoutMs: nat)
    ensures Apply(h, e, timeoutMs).health.lastCheckTime == if Checks(h, e) then e.at else h.lastCheckTime
    ensures Count(Apply(h, e, timeoutMs).alerts, IsProbeError) <= if Checks(h, e) then 1 else 0
  {
    var t := Apply(h, e, timeoutMs);
    assert |t.alerts| <= 1;
    if t.alerts != [] {
      assert t.alerts[..0] == [];
    }
  }

  /** lastCheckTime is the time of the last probe result acted on. */
  lemma {:induction false} LastCheckIsLastCheckTime(h: Health, evs: seq<Event>, timeoutMs: nat)
    ensures Run(h, evs, timeoutMs).health.lastCheckTime == LastOr(h.lastCheckTime, CheckTimes(h, evs, timeoutMs))
    decreases |evs|
  {
    if evs != [] {
      var front := evs[..|evs| - 1];
      var e := evs[|evs| - 1];
      LastCheckIsLastCheckTime(h, front, timeoutMs);
      var s := Run(h, front, timeoutMs).health;
      ApplyCheck(s, e, timeoutMs);
      if !Checks(s, e) {
        assert CheckTimes(h, evs, timeoutMs) == CheckTimes(h, front, timeoutMs);
      }
    }
  }

  /** Times of acted-on probe results: all positive, each at least 30 s after
      the one before, and the first at least 30 s after `last` when that is set. */
  ghost predicate ThrottledChecks(last: nat, times: seq<nat>) {
    (forall i :: 0 <= i < |times| ==> 0 < times[i]) &&
    (forall i :: 0 < i < |times| ==> times[i - 1] + ProbeThrottleMs <= times[i]) &&
    (last != 0 && times != [] ==> last + ProbeThrottleMs <= times[0])
  }

  /** The last step of ProbeChecksSpaced, on values: a positive time that is
      not throttled by the previous check keeps the times spaced. */
  lemma CheckTimesSnoc(last: nat, c0: seq<nat>, at: nat)
    requires ThrottledChecks(last, c0)
    requires 0 < at && (LastOr(last, c0) != 0 ==> LastOr(last, c0) + ProbeThrottleMs <= at)
    ensures ThrottledChecks(last, c0 + [at])
  {
    var c := c0 + [at];
    forall i | 0 <= i < |c| ensures 0 < c[i] {
      if i < |c0| { assert c[i] == c0[i]; }
    }
    forall i | 0 < i < |c| ensures c[i - 1] + ProbeThrottleMs <= c[i] {
      if i < |c0| {
        assert c[i] == c0[i] && c[i - 1] == c0[i - 1];
      } else {
        assert c[i - 1] == c0[|c0| - 1];
      }
    }
    if c0 != [] {
      assert c[0] == c0[0];
    }
  }

  /** Probe results are acted on at most once per 30 s, whatever order the
      clock readings come in, the first one 30 s after a set lastCheckTime. */
  lemma {:induction false} ProbeChecksSpaced(h: Health, evs: seq<Event>, timeoutMs: nat)
    requires forall i :: 0 <= i < |evs| ==> 0 < evs[i].at
    ensures ThrottledChecks(h.lastCheckTime, CheckTimes(h, evs, timeoutMs))
    decreases |evs|
  {
    if evs != [] {
      var front := evs[..|evs| - 1];
      var e := evs[|evs| - 1];
      assert forall i :: 0 <= i < |front| ==> front[i] == evs[i];
      ProbeChecksSpaced(h, front, timeoutMs);
      LastCheckIsLastCheckTime(h, front, timeoutMs);
      var s := Run(h, front, timeoutMs).health;
      var c0 := CheckTimes(h, front, timeoutMs);
      if Checks(s, e) {
        assert CheckTimes(h, evs, timeoutMs) == c0 + [e.at];
        CheckTimesSnoc(h.lastCheckTime, c0, e.at);
      } else {
        assert CheckTimes(h, evs, timeoutMs) == c0;
      }
    }
  }

  /** Only a probe result that is acted on raises a probe alert. */
  lemma {:induction false} ProbeAlertsNeedChecks(h: Health, evs: seq<Event>, timeoutMs: nat)
    ensures Count(Run(h, evs, timeoutMs).alerts, IsProbeError) <= |CheckTimes(h, evs, timeoutMs)|
    decreases |evs|
  {
    if evs != [] {
      var front := evs[..|evs| - 1];
      var e := evs[|evs| - 1];
      ProbeAlertsNeedChecks(h, front, timeoutMs);
      var s := Run(h, front, timeoutMs);
      var t := Apply(s.health, e, timeoutMs);
      ApplyCheck(s.health, e, timeoutMs);
      CountAppend(s.alerts, t.alerts, IsProbeError);
    }
  }

  /** Closing while already down raises an alert exactly when none was sent for
      this outage and the outage is more than 30 s old: the 10-minute arm of the
      condition never adds an alert of its own. Whenever the condition holds,
      the latch is set. */
  lemma CloseWhileDown(h: Health, now: nat, disconnects: nat)
    requires Inv(h) && h.downTime <= now && 0 < now && !h.connect
    ensures var r := OnClose(h, now, disconnects);
      var d := MarkDown(h, now).downTime;
      && !r.health.connect && r.health.downTime == d && d != 0
      && (r.alerts != [] <==> !h.sendDownWarn && now - d > DownWarnAfterMs)
      && (r.alerts != [] ==> r.alerts == [Unreachable(now - d)] && r.health.lastWarnTime == now)
      && (DownAlertDue(MarkDown(h, now), now) ==> r.health.sendDownWarn)
  {
  }

  // ---------------------------------------------------------------------------
  // Scenarios

  /** Heartbeat limit 20 s, pings 10 s and then 25 s apart after an open: one
      alert, for the 25 s gap. */
  lemma HeartbeatScenario()
    ensures Run(OnOpen(Initial(), 1000), [PingAt(1000), PingAt(11000), PingAt(36000)], 20000).alerts
         == [HeartbeatGap(25000)]
  {
    var h := OnOpen(Initial(), 1000);
    var p1, p2, p3 := [PingAt(1000)], [PingAt(1000), PingAt(11000)], [PingAt(1000), PingAt(11000), PingAt(36000)];
    assert p1[..0] == [] && p2[..1] == p1 && p3[..2] == p2;
    assert Run(h, p1, 20000) == Step(h.(lastPing := 1000), []);
    assert Run(h, p2, 20000) == Step(h.(lastPing := 11000, maxHeart := 10000), []);
    assert Run(h, p3, 20000) == Step(h.(lastPing := 36000, maxHeart := 25000), [HeartbeatGap(25000)]);
  }

  /** Up at 1 s, dropped at 6 s: one "dropped" alert at once; a close exactly
      30 s into the outage does not alert, the first one after does, and
      nothing more is raised later in the same outage, even after 10 minutes. */
  lemma OutageScenario()
    ensures Run(Initial(), [OpenAt(1000), CloseAt(6000, 1), CloseAt(36000, 1), CloseAt(36001, 1), CloseAt(700000, 1)], 20000).alerts
         == [Dropped(1, UpFor(5000)), Unreachable(30001)]
  {
    var p1 := [OpenAt(1000)];
    var p2 := p1 + [CloseAt(6000, 1)];
    var p3 := p2 + [CloseAt(36000, 1)];
    var p4 := p3 + [CloseAt(36001, 1)];
    var p5 := p4 + [CloseAt(700000, 1)];
    assert p1[..0] == [] && p2[..1] == p1 && p3[..2] == p2 && p4[..3] == p3 && p5[..4] == p4;
    var up := Health(1000, 1, 0, 0, 0, 0, 0, true, false);
    var down := Health(1000, 1, 6000, 6000, 0, 0, 0, false, false);
    var warned := down.(lastWarnTime := 36001, sendDownWarn := true);
    assert Run(Initial(), p1, 20000) == Step(up, []);
    assert Run(Initial(), p2, 20000) == Step(down, [Dropped(1, UpFor(5000))]);
    assert Run(Initial(), p3, 20000) == Step(down, [Dropped(1, UpFor(5000))]);
    assert Run(Initial(), p4, 20000) == Step(warned, [Dropped(1, UpFor(5000)), Unreachable(30001)]);
    assert Run(Initial(), p5, 20000) == Step(warned, [Dropped(1, UpFor(5000)), Unreachable(30001)]);
    assert p5 == [OpenAt(1000), CloseAt(6000, 1), CloseAt(36000, 1), CloseAt(36001, 1), CloseAt(700000, 1)];
  }

  /** A clock that steps back: a failed probe at 700 s starts the outage, a
      close read at 100 s starts the warning clock before it, and a close at
      710 s then pushes "unreachable" through the 10-minute arm only 10 s
      into the outage. */
  lemma BackwardClockScenario()
    ensures !Inv(Run(Initial(), [ProbeAt(700000, ProbeFailure("x")), CloseAt(100000, 0)], 20000).health)
    ensures Run(Initial(), [ProbeAt(700000, ProbeFailure("x")), CloseAt(100000, 0), CloseAt(710000, 0)], 20000).alerts
         == [ProbeError("x"), Unreachable(10000)]
  {
    var p1 := [ProbeAt(700000, ProbeFailure("x"))];
    var p2 := p1 + [CloseAt(100000, 0)];
    var p3 := p2 + [CloseAt(710000, 0)];
    assert p1[..0] == [] && p2[..1] == p1 && p3[..2] == p2;
    var probed := Initial().(downTime := 700000, lastCheckTime := 700000);
    assert Run(Initial(), p1, 20000) == Step(probed, [ProbeError("x")]);
    assert Run(Initial(), p2, 20000) == Step(probed.(lastWarnTime := 100000), [ProbeError("x")]);
    assert Run(Initial(), p3, 20000)
        == Step(probed.(lastWarnTime := 710000, sendDownWarn := true), [ProbeError("x"), Unreachable(10000)]);
    assert p2 == [ProbeAt(700000, ProbeFailure("x")), CloseAt(100000, 0)];
    assert p3 == [ProbeAt(700000, ProbeFailure("x")), CloseAt(100000, 0), CloseAt(710000, 0)];
  }

  /** Two failed probes 10 s apart: only the first is acted on and alerts. */
  lemma ProbeScenario(message: string)
    ensures Run(Initial(), [ProbeAt(1000, ProbeFailure(message)), ProbeAt(11000, ProbeFailure(message))], 20000).alerts
         == [ProbeError(message)]
  {
    var p1 := [ProbeAt(1000, ProbeFailure(message))];
    var p2 := p1 + [ProbeAt(11000, ProbeFailure(message))];
    assert p1[..0] == [] && p2[..1] == p1;
    var checked := Initial().(downTime := 1000, lastCheckTime := 1000);
    assert Run(Initial(), p1, 20000) == Step(checked, [ProbeError(message)]);
    assert Run(Initial(), p2, 20000) == Step(checked, [ProbeError(message)]);
  }

  // ---------------------------------------------------------------------------
  // The watchdog record and its handlers

  /** The record newTest builds for one server, owning its connection. Each
      method is one handler, run right after the connection's own handler for
      the same transport event. */
  class Monitor {
    const obj: Test
    const url: string
    const key: string
    const timeoutMs: nat
    var lastTime: nat
    var connectCount: nat
    var downTime: nat
    var lastWarnTime: nat
    var lastCheckTime: nat
    var lastPing: nat
    var maxHeart: nat
    var connect: bool
    var sendDownWarn: bool
    /** Every push request sent so far, oldest first. */
    ghost var dispatched: seq<Push>

    function Model(): Health
      reads this
    {
      Health(lastTime, connectCount, downTime, lastWarnTime, lastCheckTime, lastPing, maxHeart, connect, sendDownWarn)
    }

    /** The watchdog's invariant, and its agreement with its connection: both
        say connected at the same moments, and every disconnect follows a
        counted connection. */
    ghost predicate Valid()
      reads this, obj
    {
      Inv(Model()) && obj.connected == connect &&
      obj.disconnectCount + (if connect then 1 else 0) <= connectCount
    }

    /** The clock reading the close listener needs: positive, and not before
        the recorded outage start. */
    predicate OnTime(now: nat)
      reads this
    {
      0 < now && downTime <= now
    }

    /** newTest: create the connection (which starts at once), zero the
        counters and switch auto-retry on. */
    constructor (server: string, key: string, timeoutMs: nat, now: nat)
      ensures Valid() && fresh(obj)
      ensures url == server && obj.server == server && this.key == key && this.timeoutMs == timeoutMs
      ensures Model() == Initial() && dispatched == []
      ensures obj.Model() == StartStep(Created(), now).(autoRetry := true) && obj.sent == []
    {
      obj := new Test(server, now);
      url := server;
      this.key := key;
      this.timeoutMs := timeoutMs;
      lastTime, connectCount, downTime, lastWarnTime := 0, 0, 0, 0;
      lastCheckTime, lastPing, maxHeart := 0, 0, 0;
      connect, sendDownWarn := false, false;
      dispatched := [];
      new;
      obj.SetAutoRetry(true);
    }

    /** Socket `gen` opens: the connection marks itself connected, then the
        watchdog clears the outage, counts the connection and sends the init
        command. */
    method Open(now: nat, gen: nat)
      requires Valid() && 0 < now
      modifies this, obj
      ensures Valid()
      ensures connect && !sendDownWarn && lastTime == now
      ensures downTime == 0 && lastWarnTime == 0 && lastPing == 0 && maxHeart == 0
      ensures connectCount == old(connectCount) + 1 && lastCheckTime == old(lastCheckTime)
      ensures Model() == OnOpen(old(Model()), now) && dispatched == old(dispatched)
      ensures obj.Model() == OpenStep(old(obj.Model()), gen)
      ensures obj.sent == old(obj.sent) + if obj.ws.Socket? then [Data(obj.ws.generation, InitCommand(now))] else []
    {
      obj.OnOpen(gen);
      lastTime := now;
      lastPing := 0;
      connect := true;
      sendDownWarn := false;
      downTime := 0;
      lastWarnTime := 0;
      maxHeart := 0;
      connectCount := connectCount + 1;
      obj.Send(InitCommand(now));
    }

    /** Socket `gen` closes: the connection counts the disconnect, then the
        watchdog's close listener runs with the new count. */
    method Close(now: nat, gen: nat) returns (retryScheduled: bool)
      requires Valid() && OnTime(now)
      modifies this, obj
      ensures Valid() && !connect
      ensures retryScheduled == obj.autoRetry
      ensures obj.Model() == CloseStep(old(obj.Model()), gen) && obj.sent == old(obj.sent)
      ensures obj.disconnectCount == old(obj.disconnectCount) + (if old(connect) then 1 else 0)
      ensures Model() == OnClose(old(Model()), now, obj.disconnectCount).health
      ensures dispatched == old(dispatched) + NotifyAll(url, OnClose(old(Model()), now, obj.disconnectCount).alerts, key)
    {
      var disconnect;
      disconnect, retryScheduled := obj.OnClose(gen);
      HandleClose(now, obj.disconnectCount);
    }

    /** The close listener, given the connection's disconnect counter. */
    method HandleClose(now: nat, disconnects: nat)
      requires Inv(Model()) && OnTime(now)
      modifies this
      ensures Inv(Model()) && !connect
      ensures old(connect) ==> downTime == (if old(downTime) == 0 then now else old(downTime))
      ensures old(connect) ==> lastWarnTime == (if old(lastWarnTime) == 0 then now else old(lastWarnTime))
      ensures old(connect) ==> sendDownWarn == old(sendDownWarn)
      ensures old(connect) ==> var uptime := if lastTime != 0 then UpFor(now - lastTime) else UnknownUptime;
        dispatched == old(dispatched) + Notify(url, Dropped(disconnects, uptime), key)
      ensures !old(connect) ==> downTime != 0 && (old(downTime) != 0 ==> downTime == old(downTime))
      ensures !old(connect) && DownAlertDue(MarkDown(old(Model()), now), now) ==> sendDownWarn
      ensures !old(connect) && !old(sendDownWarn) && now - downTime > DownWarnAfterMs ==>
        dispatched == old(dispatched) + Notify(url, Unreachable(now - downTime), key) && lastWarnTime == now
      ensures !old(connect) && (old(sendDownWarn) || now - downTime <= DownWarnAfterMs) ==>
        dispatched == old(dispatched)
      ensures Model() == OnClose(old(Model()), now, disconnects).health
      ensures dispatched == old(dispatched) + NotifyAll(url, OnClose(old(Model()), now, disconnects).alerts, key)
    {
      ghost var before := Model();
      StampOutage(now);
      if connect {
        connect := false;
        var uptime := if lastTime != 0 then UpFor(now - lastTime) else UnknownUptime;
        dispatched := dispatched + Notify(url, Dropped(disconnects, uptime), key);
      } else {
        CloseWhileDown(before, now, disconnects);
        var down := now - downTime;
        var sinceWarn := now - lastWarnTime;
        if (down > DownWarnAfterMs && !sendDownWarn) || sinceWarn > RewarnAfterMs {
          if !sendDownWarn {
            dispatched := dispatched + Notify(url, Unreachable(down), key);
            lastWarnTime := now;
          }
          sendDownWarn := true;
        }
      }
    }

    /** The first two steps of the close listener: stamp the outage start and
        the warning clock if they are not set. */
    method StampOutage(now: nat)
      modifies this
      ensures Model() == MarkDown(old(Model()), now) && dispatched == old(dispatched)
    {
      if downTime == 0 {
        downTime := now;
      }
      if lastWarnTime == 0 {
        lastWarnTime := now;
      }
    }

    /** A ping arrives: the gap to the previous ping updates the maximum and
        alerts when over the limit; the first ping only sets the baseline. */
    method Ping(now: nat)
      requires Valid() && 0 < now
      modifies this
      ensures Valid() && lastPing == now
      ensures old(lastPing) == 0 ==> maxHeart == old(maxHeart) && dispatched == old(dispatched)
      ensures old(lastPing) != 0 ==> var gap := now - old(lastPing);
        && maxHeart == (if gap > old(maxHeart) then gap else old(maxHeart))
        && dispatched == old(dispatched) + (if gap > timeoutMs then Notify(url, HeartbeatGap(gap), key) else [])
      ensures Model() == OnPing(old(Model()), now, timeoutMs).health
      ensures dispatched == old(dispatched) + NotifyAll(url, OnPing(old(Model()), now, timeoutMs).alerts, key)
    {
      var gap := now - lastPing;
      if lastPing > 0 {
        if gap > maxHeart {
          maxHeart := gap;
        }
        if gap > timeoutMs {
          dispatched := dispatched + Notify(url, HeartbeatGap(gap), key);
        }
      }
      lastPing := now;
    }

    /** A socket error: alerts only while connected, and changes nothing. */
    method Error(message: string)
      requires Valid()
      modifies this
      ensures Model() == old(Model()) && Valid()
      ensures dispatched == old(dispatched) + if connect then Notify(url, ConnectionError(message), key) else []
      ensures dispatched == old(dispatched) + NotifyAll(url, OnError(old(Model()), message), key)
    {
      if !connect {
        return;
      }
      dispatched := dispatched + Notify(url, ConnectionError(message), key);
    }

    /** The probe of a start() settles: the connection finishes start(), and
        the watchdog's newStart handler records a failure as an outage start
        and, unless throttled, notes the check and alerts about a failure
        early in an outage. */
    method ProbeSettled(now: nat, outcome: ProbeOutcome) returns (retryScheduled: bool)
      requires Valid() && 0 < now
      modifies this, obj
      ensures Valid()
      ensures retryScheduled == ProbeRetries(old(obj.Model()), outcome)
      ensures obj.Model() == ProbeStep(old(obj.Model()), outcome) && obj.sent == old(obj.sent)
      ensures Model() == OnNewStart(old(Model()), now, outcome).health
      ensures dispatched == old(dispatched) + NotifyAll(url, OnNewStart(old(Model()), now, outcome).alerts, key)
    {
      retryScheduled := obj.ProbeSettled(outcome);
      HandleNewStart(now, outcome);
    }

    /** The newStart listener, given the outcome the event carries. */
    method HandleNewStart(now: nat, outcome: ProbeOutcome)
      requires Inv(Model()) && 0 < now
      modifies this
      ensures Inv(Model()) && connect == old(connect) && connectCount == old(connectCount)
      ensures downTime == if outcome.ProbeFailure? && old(downTime) == 0 then now else old(downTime)
      ensures ProbeThrottled(old(Model()), now) ==> Model() == old(Model()).(downTime := downTime) && dispatched == old(dispatched)
      ensures !ProbeThrottled(old(Model()), now) ==> lastCheckTime == now
      ensures !ProbeThrottled(old(Model()), now) && outcome.ProbeFailure? && now - downTime < ProbeAlertWindowMs ==>
        dispatched == old(dispatched) + Notify(url, ProbeError(outcome.message), key)
      ensures outcome.ProbeBody? || now - downTime >= ProbeAlertWindowMs ==> dispatched == old(dispatched)
      ensures Model() == OnNewStart(old(Model()), now, outcome).health
      ensures dispatched == old(dispatched) + NotifyAll(url, OnNewStart(old(Model()), now, outcome).alerts, key)
    {
      if outcome.ProbeFailure? && downTime == 0 {
        downTime := now;
      }
      if lastCheckTime != 0 && now - lastCheckTime < ProbeThrottleMs {
        return;
      }
      lastCheckTime := now;
      if outcome.ProbeFailure? {
        if now - downTime < ProbeAlertWindowMs {
          dispatched := dispatched + Notify(url, ProbeError(outcome.message), key);
        }
      }
    }
  }
}
