/**
 * The multi-swipe screen: only a pan gesture's END event is recorded. Its translation is
 * classified into one of four directions and logged, newest first, keeping at most 10
 * swipes, and the swipe counter goes up by one. The rounded distance and speed
 * (`Math.round(Math.sqrt(..))` of the translation and of the velocity) and the formatted
 * time are supplied by the caller.
 */
module SwipeTracker {

  import opened BoundedLog

  const SWIPE_LOG_CAP: nat := 10

  /** The gesture handler's states; only `End` produces an entry. */
  datatype GestureState = Undetermined | Failed | Began | Cancelled | Active | End

  datatype GestureEvent = GestureEvent(
    translationX: real,
    translationY: real,
    velocityX: real,
    velocityY: real,
    state: GestureState)

  datatype SwipeData = SwipeData(direction: string, distance: nat, velocity: nat, timestamp: string)

  datatype SwipeState = SwipeState(swipes: seq<SwipeData>, swipeCount: int)

  /** `Math.abs`. */
  function Abs(x: real): real
  {
    if x < 0.0 then -x else x
  }

  predicate IsDirection(d: string)
  {
    d == "Up" || d == "Down" || d == "Left" || d == "Right"
  }

  /**
   * The direction of a translation: horizontal when |dx| is strictly larger than |dy|,
   * vertical otherwise, so a tie goes to the vertical axis, and a vertical translation
   * that is not strictly downward, the zero vector included, is "Up".
   */
  function Direction(dx: real, dy: real): (d: string)
    ensures IsDirection(d)
    ensures d == "Right" <==> dx > Abs(dy)
    ensures d == "Left" <==> -dx > Abs(dy)
    ensures d == "Down" <==> 0.0 < dy && Abs(dx) <= dy
    ensures d == "Up" <==> Abs(dx) <= -dy
  {
    if Abs(dx) > Abs(dy) then
      if dx > 0.0 then "Right" else "Left"
    else
      if dy > 0.0 then "Down" else "Up"
  }

  function Opposite(d: string): string
  {
    match d
    case "Up" => "Down"
    case "Down" => "Up"
    case "Left" => "Right"
    case _ => "Left"
  }

  /** Reversing a non-zero translation reverses its direction. */
  lemma DirectionOfReversed(dx: real, dy: real)
    requires dx != 0.0 || dy != 0.0
    ensures Direction(-dx, -dy) == Opposite(Direction(dx, dy))
  {
  }

  /** Multiplying by a positive factor keeps strict order. */
  lemma ScaleKeepsOrder(k: real, a: real, b: real)
    requires k > 0.0
    ensures k * a > k * b <==> a > b
  {
    assert k * a - k * b == k * (a - b);
    if a > b {
      assert k * (a - b) > 0.0;
    } else {
      assert k * (b - a) >= 0.0;
    }
  }

  /** Multiplying by a positive factor scales the absolute value and keeps the sign. */
  lemma ScaleKeepsSign(k: real, a: real)
    requires k > 0.0
    ensures Abs(k * a) == k * Abs(a)
    ensures k * a > 0.0 <==> a > 0.0
  {
    if a < 0.0 {
      assert k * a < 0.0 && -(k * a) == k * -a;
    } else if a > 0.0 {
      assert k * a > 0.0;
    } else {
      assert k * a == 0.0;
    }
  }

  /** Multiplying both by a positive factor keeps the order of absolute values. */
  lemma ScaleKeepsAbsOrder(k: real, a: real, b: real)
    requires k > 0.0
    ensures Abs(k * a) > Abs(k * b) <==> Abs(a) > Abs(b)
  {
    ScaleKeepsSign(k, a);
    ScaleKeepsSign(k, b);
    ScaleKeepsOrder(k, Abs(a), Abs(b));
  }

  /** Two translations whose three comparisons agree have the same direction. */
  lemma SameComparisonsSameDirection(dx: real, dy: real, ex: real, ey: real)
    requires Abs(dx) > Abs(dy) <==> Abs(ex) > Abs(ey)
    requires dx > 0.0 <==> ex > 0.0
    requires dy > 0.0 <==> ey > 0.0
    ensures Direction(dx, dy) == Direction(ex, ey)
  {
  }

  /** The direction depends only on the translation's orientation, not on its length. */
  lemma DirectionOfScaled(dx: real, dy: real, k: real)
    requires k > 0.0
    ensures Direction(k * dx, k * dy) == Direction(dx, dy)
  {
    var sx, sy := k * dx, k * dy;
    ScaleKeepsSign(k, dx);
    ScaleKeepsSign(k, dy);
    ScaleKeepsAbsOrder(k, dx, dy);
    SameComparisonsSameDirection(sx, sy, dx, dy);
  }

  /** The classification on particular translations, ties and the zero vector included. */
  lemma DirectionTable()
    ensures Direction(100.0, 0.0) == "Right"
    ensures Direction(-50.0, 10.0) == "Left"
    ensures Direction(0.0, 80.0) == "Down"
    ensures Direction(5.0, 5.0) == "Down"
    ensures Direction(5.0, -5.0) == "Up"
    ensures Direction(0.0, 0.0) == "Up"
  {
  }

  /** The state after `handleSwipe(event)`; `distance` and `velocity` are the rounded magnitudes. */
  function Swipe(s: SwipeState, event: GestureEvent, distance: nat, velocity: nat, timestamp: string): (r: SwipeState)
    ensures event.state != End ==> r == s
    ensures event.state == End ==>
              && r.swipeCount == s.swipeCount + 1
              && |r.swipes| == Min(|s.swipes| + 1, SWIPE_LOG_CAP)
              && r.swipes[0] == SwipeData(Direction(event.translationX, event.translationY), distance, velocity, timestamp)
              && r.swipes[1..] == s.swipes[..|r.swipes| - 1]
  {
    if event.state == End then
      var swipeData := SwipeData(Direction(event.translationX, event.translationY), distance, velocity, timestamp);
      SwipeState(Prepend(swipeData, s.swipes, SWIPE_LOG_CAP), s.swipeCount + 1)
    else
      s
  }

  /** What holds of every state the screen can reach from its initial state. */
  predicate Consistent(s: SwipeState)
  {
    && s.swipeCount >= 0
    && |s.swipes| == Min(s.swipeCount, SWIPE_LOG_CAP)
    && (forall i :: 0 <= i < |s.swipes| ==> IsDirection(s.swipes[i].direction))
  }

  function Initial(): (r: SwipeState)
    ensures r.swipes == [] && r.swipeCount == 0
    ensures Consistent(r)
  {
    SwipeState([], 0)
  }

  /** One input to the screen: a gesture event with its rounded magnitudes and time, or "Reset". */
  datatype SwipeInput =
    | Gesture(event: GestureEvent, distance: nat, velocity: nat, timestamp: string)
    | ResetPress

  function Step(s: SwipeState, input: SwipeInput): SwipeState
  {
    match input
    case Gesture(event, distance, velocity, timestamp) => Swipe(s, event, distance, velocity, timestamp)
    case ResetPress => Initial()
  }

  function Run(s: SwipeState, inputs: seq<SwipeInput>): SwipeState
    decreases |inputs|
  {
    if inputs == [] then s else Run(Step(s, inputs[0]), inputs[1..])
  }

  /** The number of gesture-END events among the inputs. */
  function Ends(inputs: seq<SwipeInput>): nat
    decreases |inputs|
  {
    if inputs == [] then 0
    else (if inputs[0].Gesture? && inputs[0].event.state == End then 1 else 0) + Ends(inputs[1..])
  }

  lemma StepKeepsConsistent(s: SwipeState, input: SwipeInput)
    requires Consistent(s)
    ensures Consistent(Step(s, input))
  {
    var r := Step(s, input);
    if input.Gesture? && input.event.state == End {
      forall i | 0 <= i < |r.swipes| ensures IsDirection(r.swipes[i].direction) {
        if i > 0 {
          assert r.swipes[i] == s.swipes[i - 1];
        }
      }
    }
  }

  lemma {:induction false} RunKeepsConsistent(s: SwipeState, inputs: seq<SwipeInput>)
    requires Consistent(s)
    ensures Consistent(Run(s, inputs))
    decreases |inputs|
  {
    if inputs != [] {
      StepKeepsConsistent(s, inputs[0]);
      RunKeepsConsistent(Step(s, inputs[0]), inputs[1..]);
    }
  }

  /**
   * Between resets the counter only goes up, by exactly the number of END events; every
   * other gesture event leaves the whole state as it was.
   */
  lemma {:induction false} RunCountsEnds(s: SwipeState, inputs: seq<SwipeInput>)
    requires forall i :: 0 <= i < |inputs| ==> inputs[i].Gesture?
    ensures Run(s, inputs).swipeCount == s.swipeCount + Ends(inputs)
    ensures Ends(inputs) == 0 ==> Run(s, inputs) == s
    decreases |inputs|
  {
    if inputs != [] {
      RunCountsEnds(Step(s, inputs[0]), inputs[1..]);
    }
  }

  /** Resetting twice is the same as resetting once. */
  lemma ResetIdempotent(s: SwipeState)
    ensures Step(Step(s, ResetPress), ResetPress) == Step(s, ResetPress)
  {
  }

  /** The screen component, with its state variables as fields. */
  class MultiSwipe {
    var swipes: seq<SwipeData>
    var swipeCount: int

    function State(): SwipeState
      reads this
    {
      SwipeState(swipes, swipeCount)
    }

    constructor ()
      ensures State() == Initial()
    {
      swipes, swipeCount := [], 0;
    }

    method HandleSwipe(event: GestureEvent, distance: nat, velocity: nat, timestamp: string)
      modifies this
      ensures State() == Swipe(old(State()), event, distance, velocity, timestamp)
    {
      if event.state == End {
        var direction := Direction(event.translationX, event.translationY);
        var swipeData := SwipeData(direction, distance, velocity, timestamp);
        swipes := [swipeData] + Take(swipes, SWIPE_LOG_CAP - 1);
        swipeCount := swipeCount + 1;
      }
    }

    method ResetSwipes()
      modifies this
      ensures State() == Initial()
    {
      swipes := [];
      swipeCount := 0;
    }
  }
}
