/**
 * The manual-drive pad: each direction button becomes one `/cmd_vel` twist message with a
 * fixed linear speed of 0.5 and a fixed turn rate of 1.0 on exactly one axis.
 */
module Velocity {

  datatype Direction = Forward | Backward | Left | Right | Stop | TurnLeft | TurnRight

  /** The direction as the alert text spells it. */
  function DirectionName(d: Direction): string {
    match d
    case Forward => "forward"
    case Backward => "backward"
    case Left => "left"
    case Right => "right"
    case Stop => "stop"
    case TurnLeft => "turn_left"
    case TurnRight => "turn_right"
  }

  const SPEED: real := 0.5
  const TURN: real := 1.0

  datatype Vector3 = Vector3(x: real, y: real, z: real)

  datatype Twist = Twist(linear: Vector3, angular: Vector3)

  function Indicator(r: real): nat {
    if r != 0.0 then 1 else 0
  }

  /** How many of the six components are set. */
  function NonZeroCount(t: Twist): nat {
    Indicator(t.linear.x) + Indicator(t.linear.y) + Indicator(t.linear.z)
    + Indicator(t.angular.x) + Indicator(t.angular.y) + Indicator(t.angular.z)
  }

  function Sum(t: Twist): real {
    t.linear.x + t.linear.y + t.linear.z + t.angular.x + t.angular.y + t.angular.z
  }

  /**
   * The message for a direction: Stop leaves all six components zero; every other
   * direction sets exactly one, linear x for forward/backward, linear y for left/right,
   * angular z for the turns, with magnitude SPEED for moves and TURN for turns, positive
   * for forward, left and turn_left.
   */
  predicate IsCommandFor(d: Direction, t: Twist) {
    && NonZeroCount(t) == (if d == Stop then 0 else 1)
    && (t.linear.x != 0.0 <==> d == Forward || d == Backward)
    && (t.linear.y != 0.0 <==> d == Left || d == Right)
    && (t.angular.z != 0.0 <==> d == TurnLeft || d == TurnRight)
    && (Sum(t) > 0.0 <==> d == Forward || d == Left || d == TurnLeft)
    && (d in {Forward, Backward, Left, Right} ==> Sum(t) in {SPEED, -SPEED})
    && (d in {TurnLeft, TurnRight} ==> Sum(t) in {TURN, -TURN})
  }

  /** The description above leaves no freedom: it fixes the message completely. */
  lemma CommandIsDetermined(d: Direction, t: Twist, u: Twist)
    requires IsCommandFor(d, t) && IsCommandFor(d, u)
    ensures t == u
  {
  }

  function Negate(t: Twist): Twist {
    Twist(Vector3(-t.linear.x, -t.linear.y, -t.linear.z), Vector3(-t.angular.x, -t.angular.y, -t.angular.z))
  }

  /** Opposite buttons send opposite messages. */
  lemma OppositeDirections(t: Twist, u: Twist)
    ensures IsCommandFor(Forward, t) && IsCommandFor(Backward, u) ==> u == Negate(t)
    ensures IsCommandFor(Left, t) && IsCommandFor(Right, u) ==> u == Negate(t)
    ensures IsCommandFor(TurnLeft, t) && IsCommandFor(TurnRight, u) ==> u == Negate(t)
  {
  }

  /** `handleMove`'s switch over the direction, starting from two zero vectors. */
  method Command(d: Direction) returns (t: Twist)
    ensures IsCommandFor(d, t)
  {
    var linear := Vector3(0.0, 0.0, 0.0);
    var angular := Vector3(0.0, 0.0, 0.0);
    match d {
      case Forward => linear := linear.(x := SPEED);
      case Backward => linear := linear.(x := -SPEED);
      case Left => linear := linear.(y := SPEED);
      case Right => linear := linear.(y := -SPEED);
      case TurnLeft => angular := angular.(z := TURN);
      case TurnRight => angular := angular.(z := -TURN);
      case Stop =>
    }
    t := Twist(linear, angular);
  }
}
