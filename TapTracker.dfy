/**
 * The multi-tap screen: counts taps on the screen and on a button, measures the gap
 * between consecutive taps (one "last tap time" shared by both sources), remembers the
 * last screen coordinates and keeps a newest-first log of at most 20 taps.
 *
 * The clock is a parameter: `now` is the reading taken when a handler starts, `id` the
 * second reading taken when the log entry is built, `timestamp` the formatted time.
 */
module TapTracker {

  import opened Wrappers
  import opened BoundedLog

  const TAP_LOG_CAP: nat := 20

  /** The `type` of a tap entry ("screen", "button" or "absolute"). */
  datatype TapKind = Screen | Button | Absolute

  datatype Point = Point(x: real, y: real)

  datatype TapLog = TapLog(
    id: int,
    kind: TapKind,
    coordinates: Option<Point>,
    timestamp: string,
    timeSinceLast: Option<int>)

  /** The screen's state, one field per state variable. */
  datatype TapState = TapState(
    tapCount: int,
    lastTapTime: Option<int>,
    timeBetweenTaps: Option<int>,
    tapCoordinates: Option<Point>,
    tapLogs: seq<TapLog>)

  /** An entry carries coordinates exactly when it is a screen tap, and no handler logs "absolute". */
  predicate WellFormed(e: TapLog)
  {
    e.kind != Absolute && (e.coordinates.Some? <==> e.kind == Screen)
  }

  /** What holds of every state the screen can reach from its initial state. */
  predicate Consistent(s: TapState)
  {
    && s.tapCount >= 0
    && |s.tapLogs| == Min(s.tapCount, TAP_LOG_CAP)
    && (s.lastTapTime.None? <==> s.tapCount == 0)
    && (s.timeBetweenTaps.Some? ==> s.tapCount >= 2)
    && (s.tapLogs != [] ==> s.tapLogs[0].timeSinceLast == s.timeBetweenTaps)
    && (s.tapLogs != [] && s.tapLogs[0].kind == Screen ==> s.tapCoordinates == s.tapLogs[0].coordinates)
    && (forall i :: 0 <= i < |s.tapLogs| ==> WellFormed(s.tapLogs[i]))
    // only the first tap since the start or the last reset has no gap
    && (forall i :: 0 <= i < |s.tapLogs| && s.tapLogs[i].timeSinceLast.None? ==> i == s.tapCount - 1)
  }

  /** The state on mount and after a reset. */
  function Initial(): (r: TapState)
    ensures r.tapCount == 0 && r.tapLogs == []
    ensures r.lastTapTime.None? && r.timeBetweenTaps.None? && r.tapCoordinates.None?
    ensures Consistent(r)
  {
    TapState(0, None, None, None, [])
  }

  /** The gap to the previous tap: absent when there was none, otherwise `now - lastTapTime`. */
  function Gap(lastTapTime: Option<int>, now: int): (r: Option<int>)
    ensures r.None? <==> lastTapTime.None?
    ensures r.Some? ==> lastTapTime.value + r.value == now
  {
    if lastTapTime.Some? then Some(now - lastTapTime.value) else None
  }

  /** The tap log after `logTap(kind, coordinates, timeDiff)`. */
  function LoggedTaps(logs: seq<TapLog>, kind: TapKind, coordinates: Option<Point>, timeDiff: Option<int>,
                      id: int, timestamp: string): (r: seq<TapLog>)
    ensures |r| == Min(|logs| + 1, TAP_LOG_CAP)
    ensures r[0] == TapLog(id, kind, coordinates, timestamp, timeDiff)
    ensures r[1..] == logs[..Min(|logs|, TAP_LOG_CAP - 1)]
  {
    Prepend(TapLog(id, kind, coordinates, timestamp, timeDiff), logs, TAP_LOG_CAP)
  }

  /** The state after `handleScreenTap` with the event's `pageX` and `pageY`. */
  function ScreenTap(s: TapState, now: int, id: int, timestamp: string, pageX: real, pageY: real): (r: TapState)
    ensures r.tapCount == s.tapCount + 1
    ensures |r.tapLogs| == Min(|s.tapLogs| + 1, TAP_LOG_CAP)
    ensures r.lastTapTime == Some(now)
    ensures r.tapCoordinates == Some(Point(pageX, pageY))
    ensures r.tapLogs[0].kind == Screen && r.tapLogs[0].coordinates == r.tapCoordinates
    ensures r.tapLogs[0].id == id && r.tapLogs[0].timestamp == timestamp
    ensures s.lastTapTime.None? ==> r.tapLogs[0].timeSinceLast.None? && r.timeBetweenTaps == s.timeBetweenTaps
    ensures s.lastTapTime.Some? ==>
              r.tapLogs[0].timeSinceLast == r.timeBetweenTaps == Some(now - s.lastTapTime.value)
    ensures r.tapLogs[1..] == s.tapLogs[..|r.tapLogs| - 1]
  {
    var timeDiff := Gap(s.lastTapTime, now);
    var coordinates := Some(Point(pageX, pageY));
    TapState(
      s.tapCount + 1,
      Some(now),
      if timeDiff.Some? then timeDiff else s.timeBetweenTaps,
      coordinates,
      LoggedTaps(s.tapLogs, Screen, coordinates, timeDiff, id, timestamp))
  }

  /** The state after `handleButtonTap`. */
  function ButtonTap(s: TapState, now: int, id: int, timestamp: string): (r: TapState)
    ensures r.tapCount == s.tapCount + 1
    ensures |r.tapLogs| == Min(|s.tapLogs| + 1, TAP_LOG_CAP)
    ensures r.lastTapTime == Some(now)
    ensures r.tapCoordinates == s.tapCoordinates
    ensures r.tapLogs[0].kind == Button && r.tapLogs[0].coordinates.None?
    ensures r.tapLogs[0].id == id && r.tapLogs[0].timestamp == timestamp
    ensures s.lastTapTime.None? ==> r.tapLogs[0].timeSinceLast.None? && r.timeBetweenTaps == s.timeBetweenTaps
    ensures s.lastTapTime.Some? ==>
              r.tapLogs[0].timeSinceLast == r.timeBetweenTaps == Some(now - s.lastTapTime.value)
    ensures r.tapLogs[1..] == s.tapLogs[..|r.tapLogs| - 1]
  {
    var timeDiff := Gap(s.lastTapTime, now);
    TapState(
      s.tapCount + 1,
      Some(now),
      if timeDiff.Some? then timeDiff else s.timeBetweenTaps,
      s.tapCoordinates,
      LoggedTaps(s.tapLogs, Button, None, timeDiff, id, timestamp))
  }

  /** One user action on the screen. */
  datatype TapEvent =
    | ScreenPress(now: int, id: int, timestamp: string, pageX: real, pageY: real)
    | ButtonPress(now: int, id: int, timestamp: string)
    | ResetPress

  function Step(s: TapState, e: TapEvent): TapState
  {
    match e
    case ScreenPress(now, id, timestamp, x, y) => ScreenTap(s, now, id, timestamp, x, y)
    case ButtonPress(now, id, timestamp) => ButtonTap(s, now, id, timestamp)
    case ResetPress => Initial()
  }

  /** The state after the events, in order. */
  function Run(s: TapState, events: seq<TapEvent>): TapState
    decreases |events|
  {
    if events == [] then s else Run(Step(s, events[0]), events[1..])
  }

  /** Every handler keeps the state consistent. */
  lemma StepKeepsConsistent(s: TapState, e: TapEvent)
    requires Consistent(s)
    ensures Consistent(Step(s, e))
  {
    var r := Step(s, e);
    if !e.ResetPress? {
      forall i | 0 <= i < |r.tapLogs| && r.tapLogs[i].timeSinceLast.None?
        ensures i == r.tapCount - 1
      {
        if i > 0 {
          assert r.tapLogs[i] == s.tapLogs[i - 1];
        }
      }
      forall i | 0 <= i < |r.tapLogs| ensures WellFormed(r.tapLogs[i]) {
        if i > 0 {
          assert r.tapLogs[i] == s.tapLogs[i - 1];
        }
      }
    }
  }

  /** Every state reached from a consistent one, in particular from the initial state, is consistent. */
  lemma {:induction false} RunKeepsConsistent(s: TapState, events: seq<TapEvent>)
    requires Consistent(s)
    ensures Consistent(Run(s, events))
    decreases |events|
  {
    if events != [] {
      StepKeepsConsistent(s, events[0]);
      RunKeepsConsistent(Step(s, events[0]), events[1..]);
    }
  }

  /** Between resets the counter goes up by exactly one per tap, whatever its source. */
  lemma {:induction false} RunCountsTaps(s: TapState, events: seq<TapEvent>)
    requires forall i :: 0 <= i < |events| ==> !events[i].ResetPress?
    ensures Run(s, events).tapCount == s.tapCount + |events|
    decreases |events|
  {
    if events != [] {
      RunCountsTaps(Step(s, events[0]), events[1..]);
    }
  }

  /**
   * The gap always refers to the tap just before, of either source:
   * for taps at t0, t1, t2 the third gap is t2 - t1.
   */
  lemma GapIsToPreviousTap(s: TapState, first: TapEvent, second: TapEvent)
    requires !first.ResetPress? && !second.ResetPress?
    ensures Step(Step(s, first), second).timeBetweenTaps == Some(second.now - first.now)
    ensures Step(Step(s, first), second).tapLogs[0].timeSinceLast == Some(second.now - first.now)
  {
  }

  lemma ThirdTapGap(t0: TapEvent, t1: TapEvent, t2: TapEvent)
    requires !t0.ResetPress? && !t1.ResetPress? && !t2.ResetPress?
    ensures Run(Initial(), [t0, t1, t2]).timeBetweenTaps == Some(t2.now - t1.now)
    ensures var first := Run(Initial(), [t0]); |first.tapLogs| == 1 && first.tapLogs[0].timeSinceLast.None?
  {
    var s0 := Step(Initial(), t0);
    GapIsToPreviousTap(s0, t1, t2);
    assert Run(Initial(), [t0]) == Run(s0, []) == s0;
    calc {
      Run(Initial(), [t0, t1, t2]);
      Run(s0, [t1, t2]);
      { assert [t1, t2][1..] == [t2]; }
      Run(Step(s0, t1), [t2]);
      Run(Step(Step(s0, t1), t2), []);
    }
  }

  /** Resetting twice is the same as resetting once. */
  lemma ResetIdempotent(s: TapState)
    ensures Step(Step(s, ResetPress), ResetPress) == Step(s, ResetPress)
  {
  }

  /** The screen component, with its state variables as fields. */
  class MultiTap {
    var tapCount: int
    var lastTapTime: Option<int>
    var timeBetweenTaps: Option<int>
    var tapCoordinates: Option<Point>
    var tapLogs: seq<TapLog>

    function State(): TapState
      reads this
    {
      TapState(tapCount, lastTapTime, timeBetweenTaps, tapCoordinates, tapLogs)
    }

    constructor ()
      ensures State() == Initial()
    {
      tapCount, lastTapTime, timeBetweenTaps, tapCoordinates, tapLogs := 0, None, None, None, [];
    }

    method LogTap(kind: TapKind, coordinates: Option<Point>, timeDiff: Option<int>, id: int, timestamp: string)
      modifies this`tapLogs
      ensures tapLogs == LoggedTaps(old(tapLogs), kind, coordinates, timeDiff, id, timestamp)
    {
      var newLog := TapLog(id, kind, coordinates, timestamp, timeDiff);
      tapLogs := [newLog] + Take(tapLogs, TAP_LOG_CAP - 1);
    }

    method HandleScreenTap(now: int, id: int, timestamp: string, pageX: real, pageY: real)
      modifies this
      ensures State() == ScreenTap(old(State()), now, id, timestamp, pageX, pageY)
    {
      var currentTime := now;
      var timeDiff: Option<int> := None;
      tapCount := tapCount + 1;
      if lastTapTime.Some? {
        timeDiff := Some(currentTime - lastTapTime.value);
        timeBetweenTaps := timeDiff;
      }
      tapCoordinates := Some(Point(pageX, pageY));
      LogTap(Screen, Some(Point(pageX, pageY)), timeDiff, id, timestamp);
      lastTapTime := Some(currentTime);
    }

    method HandleButtonTap(now: int, id: int, timestamp: string)
      modifies this
      ensures State() == ButtonTap(old(State()), now, id, timestamp)
    {
      var currentTime := now;
      var timeDiff: Option<int> := None;
      tapCount := tapCount + 1;
      if lastTapTime.Some? {
        timeDiff := Some(currentTime - lastTapTime.value);
        timeBetweenTaps := timeDiff;
      }
      LogTap(Button, None, timeDiff, id, timestamp);
      lastTapTime := Some(currentTime);
    }

    method ResetTaps()
      modifies this
      ensures State() == Initial()
    {
      tapCount := 0;
      lastTapTime := None;
      timeBetweenTaps := None;
      tapCoordinates := None;
      tapLogs := [];
    }
  }
}
