/**
 The agent's heartbeat timer on an idealised clock: a ticker that fires every interval and is reset by
 every beat, a one-place channel of fired ticks, and a check that runs when a tick is handled.
 */
module Heartbeat {
  import opened Options

  /** Nanoseconds, as in time.Duration. */
  const SECOND: nat := 1_000_000_000

  /** `due` is when the ticker fires next; `tick` is the time of a fired tick not yet handled. */
  datatype Timer = Timer(lastBeat: int, due: int, tick: Option<int>, now: int, timedOut: bool)

  datatype Event = Fire | HandleTick | Beat

  /** Something the loop or the runtime does, and when. */
  datatype Stamped = Stamped(at: int, what: Event)

  function Interval(h: nat): nat { h * SECOND }

  /** The state on entering the loop at time `t0`. */
  function StartAt(h: nat, t0: int): Timer {
    Timer(t0 + Interval(h) / 2, t0 + Interval(h), None, t0, false)
  }

  /** The agent gives up when the last beat is more than an interval and a second ago. */
  predicate TooOld(h: nat, t: Timer, at: int) { at - t.lastBeat > Interval(h) + SECOND }

  /** Time moves on, the ticker fires exactly when due, and nothing happens after a timeout. */
  predicate Enabled(t: Timer, e: Stamped) {
    && !t.timedOut && t.now <= e.at <= t.due
    && (e.what.Fire? ==> e.at == t.due)
    && (e.what.HandleTick? ==> t.tick.Some?)
  }

  function Next(h: nat, t: Timer, e: Stamped): Timer {
    match e.what
    case Fire => t.(due := t.due + Interval(h), tick := if t.tick.None? then Some(e.at) else t.tick, now := e.at)
    case HandleTick => t.(tick := None, now := e.at, timedOut := TooOld(h, t, e.at))
    case Beat => t.(lastBeat := e.at, due := e.at + Interval(h), now := e.at)
  }

  predicate IsTrace(h: nat, t: Timer, es: seq<Stamped>)
    decreases |es|
  {
    es == [] || (Enabled(t, es[0]) && IsTrace(h, Next(h, t, es[0]), es[1..]))
  }

  function After(h: nat, t: Timer, es: seq<Stamped>): Timer
    decreases |es|
  {
    if es == [] then t else After(h, Next(h, t, es[0]), es[1..])
  }

  /** The part of the agent that its event loop updates, with the ticker it owns. */
  class Agent {
    const h: nat
    var lastBeatTime: int
    var due: int
    var tick: Option<int>
    var now: int

    ghost function View(timedOut: bool): Timer
      reads this
    {
      Timer(lastBeatTime, due, tick, now, timedOut)
    }

    constructor (h: nat, t0: int)
      ensures this.h == h && View(false) == StartAt(h, t0)
    {
      this.h := h;
      lastBeatTime, due, tick, now := t0 + Interval(h) / 2, t0 + Interval(h), None, t0;
    }

    /** The loop, over the events as they come; it returns at the first tick that finds the last beat too old. */
    method Run(es: seq<Stamped>) returns (timedOut: bool)
      requires IsTrace(h, View(false), es)
      modifies this
      ensures View(timedOut) == After(h, old(View(false)), es)
    {
      for i := 0 to |es|
        invariant IsTrace(h, View(false), es[i..])
        invariant After(h, View(false), es[i..]) == After(h, old(View(false)), es)
      {
        var e := es[i];
        assert es[i..][1..] == es[i + 1..];
        now := e.at;
        match e.what {
          case Fire =>
            due := due + Interval(h);
            if tick.None? {
              tick := Some(now);
            }
          case HandleTick =>
            tick := None;
            if now - lastBeatTime > Interval(h) + SECOND {
              return true;
            }
          case Beat =>
            due := now + Interval(h);
            lastBeatTime := now;
        }
      }
      return false;
    }
  }

  // ---- Beats between ticks keep the agent alive ----

  /** Every tick is handled at most `late` after it fired. */
  predicate HandledWithin(h: nat, t: Timer, es: seq<Stamped>, late: nat)
    decreases |es|
  {
    es == [] ||
    ((es[0].what.HandleTick? && t.tick.Some? ==> es[0].at <= t.tick.value + late)
     && HandledWithin(h, Next(h, t, es[0]), es[1..], late))
  }

  /** Between any two handled ticks there is a beat; `armed` says that one came since the last tick. */
  predicate BeatBetweenTicks(es: seq<Stamped>, armed: bool) {
    es == [] ||
    (match es[0].what
     case Fire => BeatBetweenTicks(es[1..], armed)
     case Beat => BeatBetweenTicks(es[1..], true)
     case HandleTick => armed && BeatBetweenTicks(es[1..], false))
  }

  /** Once a beat has come since the last handled tick, the next tick cannot be too old. */
  ghost predicate Safe(h: nat, t: Timer, armed: bool) {
    && !t.timedOut && (t.tick.Some? ==> t.tick.value <= t.now)
    && (armed ==> t.due <= t.lastBeat + Interval(h) || t.tick.Some?)
    && (armed && t.tick.Some? ==> t.tick.value <= t.lastBeat + Interval(h))
  }

  lemma {:induction false} BeatsKeepAlive(h: nat, t: Timer, es: seq<Stamped>, armed: bool)
    requires Safe(h, t, armed) && IsTrace(h, t, es) && HandledWithin(h, t, es, SECOND) && BeatBetweenTicks(es, armed)
    ensures !After(h, t, es).timedOut
    decreases |es|
  {
    if es != [] {
      var armed' := if es[0].what.Beat? then true else if es[0].what.HandleTick? then false else armed;
      BeatsKeepAlive(h, Next(h, t, es[0]), es[1..], armed');
    }
  }

  /**
   The agent never times out in a run in which every tick is handled within a second and a beat is
   processed between every two handled ticks; the first tick needs no beat before it.
   */
  lemma NeverTimesOut(h: nat, t0: int, es: seq<Stamped>)
    requires h >= 1 && IsTrace(h, StartAt(h, t0), es)
    requires HandledWithin(h, StartAt(h, t0), es, SECOND) && BeatBetweenTicks(es, true)
    ensures !After(h, StartAt(h, t0), es).timedOut
  {
    BeatsKeepAlive(h, StartAt(h, t0), es, true);
  }

  /** One second is the most that can be allowed: a tick one nanosecond later than that times out. */
  lemma LatenessIsTight(h: nat, t0: int) returns (es: seq<Stamped>)
    requires h >= 1
    ensures IsTrace(h, StartAt(h, t0), es) && BeatBetweenTicks(es, true)
    ensures HandledWithin(h, StartAt(h, t0), es, SECOND + 1) && After(h, StartAt(h, t0), es).timedOut
  {
    var s0 := StartAt(h, t0);
    var e1 := Stamped(t0, Beat);
    var s1 := Next(h, s0, e1);
    var e2 := Stamped(t0 + Interval(h), Fire);
    var s2 := Next(h, s1, e2);
    var e3 := Stamped(t0 + Interval(h) + SECOND, Fire); // only if the interval is one second
    var s3 := if h == 1 then Next(h, s2, e3) else s2;
    var e4 := Stamped(t0 + Interval(h) + SECOND + 1, HandleTick);
    var s4 := Next(h, s3, e4);
    var last := [e4];
    var late := if h == 1 then [e3] + last else last;
    var ticks := [e2] + late;
    es := [e1] + ticks;
    assert last[1..] == [] && ticks[1..] == late && es[1..] == ticks && (h == 1 ==> late[1..] == last);
    assert BeatBetweenTicks(last, true) && BeatBetweenTicks(late, true) && BeatBetweenTicks(ticks, true);
    assert After(h, s3, last) == After(h, Next(h, s3, last[0]), last[1..]);
    assert After(h, s4, []) == s4;
    assert IsTrace(h, s3, last) && After(h, s3, last) == s4 && HandledWithin(h, s3, last, SECOND + 1);
    assert IsTrace(h, s2, late) && After(h, s2, late) == s4 && HandledWithin(h, s2, late, SECOND + 1);
    assert IsTrace(h, s1, ticks) && After(h, s1, ticks) == s4 && HandledWithin(h, s1, ticks, SECOND + 1);
  }

  // ---- Silence is detected ----

  /**
   When silence is noticed, counted from the time `b` at which the ticker was last reset: at the first tick
   for which the stored time of the last beat, `b + lead`, is too old, which is the second or the third.
   */
  function DetectedAfter(h: nat, lead: nat): nat {
    if 2 * Interval(h) - lead > Interval(h) + SECOND then 2 * Interval(h) else 3 * Interval(h)
  }

  predicate Silent(es: seq<Stamped>) { forall i :: 0 <= i < |es| ==> !es[i].what.Beat? }

  /** One, two or three intervals after `b`, up to the detecting tick. */
  predicate Multiple(h: nat, b: int, lead: nat, at: int) {
    && (at == b + Interval(h) || at == b + 2 * Interval(h) || at == b + 3 * Interval(h))
    && at <= b + DetectedAfter(h, lead)
  }

  /** The time of the fired tick is a whole number of intervals after the reset, at most the detecting one. */
  ghost predicate Counting(h: nat, b: int, lead: nat, t: Timer) {
    && t.lastBeat == b + lead && !t.timedOut && t.now <= t.due && b <= t.now
    && (t.tick.None? ==> Multiple(h, b, lead, t.due))
    && (t.tick.Some? ==> t.due == t.tick.value + Interval(h) && t.now == t.tick.value)
    && (t.tick.Some? ==> t.tick.value == b || Multiple(h, b, lead, t.tick.value))
  }

  lemma SilenceStep(h: nat, b: int, lead: nat, t: Timer, e: Stamped)
    requires h >= 1 && 2 * lead <= Interval(h) && Counting(h, b, lead, t) && Enabled(t, e) && !e.what.Beat?
    requires e.what.HandleTick? ==> e.at == t.tick.value
    requires e.what.Fire? ==> t.tick.None?
    ensures var t' := Next(h, t, e);
            if t'.timedOut then e.at == b + DetectedAfter(h, lead) else Counting(h, b, lead, t')
    ensures e.at <= b + DetectedAfter(h, lead)
  {
  }

  /** Ticks are handled on time: each at the moment it fired, before the next one fires. */
  predicate OnTime(h: nat, t: Timer, es: seq<Stamped>)
    decreases |es|
  {
    es == [] ||
    ((es[0].what.HandleTick? && t.tick.Some? ==> es[0].at == t.tick.value)
     && (es[0].what.Fire? ==> t.tick.None?)
     && OnTime(h, Next(h, t, es[0]), es[1..]))
  }

  lemma {:induction false} SilenceRuns(h: nat, b: int, lead: nat, t: Timer, es: seq<Stamped>)
    requires h >= 1 && 2 * lead <= Interval(h) && Counting(h, b, lead, t)
    requires IsTrace(h, t, es) && Silent(es) && OnTime(h, t, es)
    ensures After(h, t, es).now <= b + DetectedAfter(h, lead)
    ensures After(h, t, es).timedOut ==> After(h, t, es).now == b + DetectedAfter(h, lead)
    ensures !After(h, t, es).timedOut ==> Counting(h, b, lead, After(h, t, es))
    decreases |es|
  {
    if es != [] {
      SilenceStep(h, b, lead, t, es[0]);
      var t' := Next(h, t, es[0]);
      if !t'.timedOut { SilenceRuns(h, b, lead, t', es[1..]); }
    }
  }

  /**
   Silence after a beat, with ticks handled on time, is always detected: the clock cannot pass the
   detecting tick without a timeout, the timeout comes exactly then, and that is within 2H+1 seconds,
   at the second tick after the beat, or the third if the interval is one second.
   */
  lemma SilenceIsDetected(h: nat, t: Timer, b: int, es: seq<Stamped>)
    requires h >= 1 && Enabled(t, Stamped(b, Beat)) && (t.tick.None? || t.tick.value == b)
    requires var s := Next(h, t, Stamped(b, Beat));
             IsTrace(h, s, es) && Silent(es) && OnTime(h, s, es)
    ensures var end := After(h, Next(h, t, Stamped(b, Beat)), es);
            var limit := if h == 1 then 3 * SECOND else 2 * Interval(h);
            && end.now <= b + limit <= b + (2 * h + 1) * SECOND
            && (end.timedOut ==> end.now == b + limit)
            && (!end.timedOut && end.now == b + limit ==>
                  if end.tick.Some? then TooOld(h, end, end.now) else end.due == end.now)
  {
    SilenceRuns(h, b, 0, Next(h, t, Stamped(b, Beat)), es);
  }

  /**
   If no beat ever comes, with ticks handled on time, the agent gives up exactly at its second tick, or
   at the third if the interval is at most two seconds: its first deadline counts from half an interval.
   */
  lemma SilenceFromStart(h: nat, t0: int, es: seq<Stamped>)
    requires h >= 1 && IsTrace(h, StartAt(h, t0), es) && Silent(es) && OnTime(h, StartAt(h, t0), es)
    ensures var end, limit := After(h, StartAt(h, t0), es), if h <= 2 then 3 * Interval(h) else 2 * Interval(h);
            && end.now <= t0 + limit
            && (end.timedOut ==> end.now == t0 + limit)
            && (!end.timedOut && end.now == t0 + limit ==>
                  if end.tick.Some? then TooOld(h, end, end.now) else end.due == end.now)
  {
    SilenceRuns(h, t0, Interval(h) / 2, StartAt(h, t0), es);
  }
}
