/** The four compass directions a rover can face, and the turn tables of Rover.Spin. */
module Directions {

  /** The Directions enumeration: north, east, south, west. */
  datatype Direction = N | E | S | W

  /** The direction after a right (clockwise) spin, as tabulated by Rover.Spin('R'). */
  function Right(d: Direction): Direction {
    match d
    case N => E
    case S => W
    case E => S
    case W => N
  }

  /** The direction after a left (counter-clockwise) spin, as tabulated by Rover.Spin('L'). */
  function Left(d: Direction): Direction {
    match d
    case N => W
    case S => E
    case E => N
    case W => S
  }

  /** Position of a direction in the clockwise order N, E, S, W. */
  function Index(d: Direction): (i: nat)
    ensures i < 4
    ensures FromIndex(i) == d
  {
    match d
    case N => 0
    case E => 1
    case S => 2
    case W => 3
  }

  /** The direction at a position of the clockwise order N, E, S, W. */
  function FromIndex(i: nat): Direction
    requires i < 4
  {
    if i == 0 then N else if i == 1 then E else if i == 2 then S else W
  }

  /** The right-turn table is one step forward in the clockwise order. */
  lemma RightIsClockwiseStep(d: Direction)
    ensures Right(d) == FromIndex((Index(d) + 1) % 4)
  {
  }

  /** The left-turn table is one step backward in the clockwise order. */
  lemma LeftIsCounterClockwiseStep(d: Direction)
    ensures Left(d) == FromIndex((Index(d) + 3) % 4)
  {
  }

  /** A right spin and a left spin undo each other, in either order. */
  lemma LeftUndoesRight(d: Direction)
    ensures Left(Right(d)) == d
    ensures Right(Left(d)) == d
  {
  }

  /** The direction after k consecutive right spins. */
  function RightTurns(d: Direction, k: nat): Direction {
    if k == 0 then d else Right(RightTurns(d, k - 1))
  }

  /** The direction after k consecutive left spins. */
  function LeftTurns(d: Direction, k: nat): Direction {
    if k == 0 then d else Left(LeftTurns(d, k - 1))
  }

  /** k right spins advance k steps through the clockwise order. */
  lemma {:induction false} RightTurnsAdvance(d: Direction, k: nat)
    ensures RightTurns(d, k) == FromIndex((Index(d) + k) % 4)
  {
    if k > 0 {
      RightTurnsAdvance(d, k - 1);
      RightIsClockwiseStep(RightTurns(d, k - 1));
    }
  }

  /** k left spins go back k steps through the clockwise order. */
  lemma {:induction false} LeftTurnsRetreat(d: Direction, k: nat)
    ensures LeftTurns(d, k) == FromIndex((Index(d) + 3 * k) % 4)
  {
    if k > 0 {
      LeftTurnsRetreat(d, k - 1);
      LeftIsCounterClockwiseStep(LeftTurns(d, k - 1));
    }
  }

  /** Turning has order four: four spins the same way restore the direction, for any number of full cycles. */
  lemma TurnsHaveOrderFour(d: Direction, k: nat)
    ensures RightTurns(d, 4 * k) == d
    ensures LeftTurns(d, 4 * k) == d
  {
    RightTurnsAdvance(d, 4 * k);
    LeftTurnsRetreat(d, 4 * k);
  }
}
