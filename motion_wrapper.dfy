/**
 * The entry animation of `MotionWrapper` (components/motion-wrapper.tsx): the element starts
 * offset by 50 pixels along one axis, in the direction it comes from, and moves to its place;
 * when the user prefers reduced motion, or the direction is "none", it only fades in.
 * Durations, easing and the pre-mount plain rendering are not modelled.
 */
module MotionWrapper {
  import Wrappers

  /** The `direction` prop. */
  datatype Direction = Up | Down | Left | Right | None

  /** The distance, in pixels, of a directional entry. */
  const Distance: int := 50

  /** The optional props that shape the animation; `None` stands for undefined. */
  datatype MotionProps = MotionProps(delay: Wrappers.Option<real>, direction: Wrappers.Option<Direction>)

  /** Where the element starts and how long it waits before moving. */
  datatype Entry = Entry(x: int, y: int, delay: real)

  /** `prefersReducedMotion || direction === "none"`; a null preference reads as false. */
  predicate ShouldReduceMotion(prefersReduced: bool, direction: Direction)
    ensures prefersReduced ==> ShouldReduceMotion(prefersReduced, direction)
    ensures !prefersReduced ==> (ShouldReduceMotion(prefersReduced, direction) <==> direction == None)
  {
    prefersReduced || direction == None
  }

  predicate IsOffset(v: int)
  {
    v == 0 || v == Distance || v == -Distance
  }

  /** `getDirectionOffset`: the signed distance, positive for "up" and "left". */
  function DirectionOffset(direction: Direction, prefersReduced: bool): (o: int)
    ensures IsOffset(o)
    ensures o == 0 <==> ShouldReduceMotion(prefersReduced, direction)
  {
    if ShouldReduceMotion(prefersReduced, direction) then 0
    else match direction
      case Up => Distance
      case Down => -Distance
      case Left => Distance
      case Right => -Distance
      case None => 0
  }

  /** `getXOffset`: the direction offset for a horizontal direction, otherwise 0. */
  function XOffset(direction: Direction, prefersReduced: bool): (x: int)
    ensures IsOffset(x)
    ensures x != 0 <==> !ShouldReduceMotion(prefersReduced, direction) && (direction == Left || direction == Right)
  {
    if ShouldReduceMotion(prefersReduced, direction) then 0
    else if direction in {Left, Right} then DirectionOffset(direction, prefersReduced)
    else 0
  }

  /** `getYOffset`: the direction offset for a vertical direction, otherwise 0. */
  function YOffset(direction: Direction, prefersReduced: bool): (y: int)
    ensures IsOffset(y)
    ensures y != 0 <==> !ShouldReduceMotion(prefersReduced, direction) && (direction == Up || direction == Down)
  {
    if ShouldReduceMotion(prefersReduced, direction) then 0
    else if direction in {Up, Down} then DirectionOffset(direction, prefersReduced)
    else 0
  }

  /** The initial state of the animation, with the defaults `delay = 0` and
      `direction = "up"` for props left undefined. */
  function InitialEntry(props: MotionProps, prefersReduced: bool): (e: Entry)
    ensures props.delay.Some? ==> e.delay == props.delay.value
    ensures props.delay.None? ==> e.delay == 0.0
    ensures props.direction.Some? ==>
              e.x == XOffset(props.direction.value, prefersReduced) && e.y == YOffset(props.direction.value, prefersReduced)
    ensures props.direction.None? ==> e.x == 0 && e.y == (if prefersReduced then 0 else Distance)
  {
    var direction := props.direction.GetOr(Up);
    Entry(XOffset(direction, prefersReduced), YOffset(direction, prefersReduced), props.delay.GetOr(0.0))
  }

  /** The offsets direction by direction: the element comes from below for "up", from above
      for "down", from the right for "left" and from the left for "right"; nothing moves when
      motion is reduced or the direction is "none". */
  lemma OffsetTable(direction: Direction, prefersReduced: bool)
    ensures ShouldReduceMotion(prefersReduced, direction) ==>
              XOffset(direction, prefersReduced) == 0 && YOffset(direction, prefersReduced) == 0
    ensures !prefersReduced ==> match direction
      case Up => XOffset(direction, false) == 0 && YOffset(direction, false) == 50
      case Down => XOffset(direction, false) == 0 && YOffset(direction, false) == -50
      case Left => XOffset(direction, false) == 50 && YOffset(direction, false) == 0
      case Right => XOffset(direction, false) == -50 && YOffset(direction, false) == 0
      case None => XOffset(direction, false) == 0 && YOffset(direction, false) == 0
  {
  }

  /** An element never enters diagonally: at most one axis is offset. */
  lemma OneAxisAtMost(props: MotionProps, prefersReduced: bool)
    ensures var e := InitialEntry(props, prefersReduced);
      (e.x == 0 || e.y == 0) && IsOffset(e.x) && IsOffset(e.y)
  {
  }

  /** Without props the element waits 0 seconds and rises 50 pixels into place, or, when
      reduced motion is preferred, only fades in. */
  lemma DefaultEntry(prefersReduced: bool)
    ensures InitialEntry(MotionProps(Wrappers.None, Wrappers.None), prefersReduced)
            == if prefersReduced then Entry(0, 0, 0.0) else Entry(0, Distance, 0.0)
  {
  }
}
