/**
 * Rover.Move on the 32-bit integers of the source. The rest of the model
 * uses unbounded integers; this module shows where the two part.
 */
module Int32Move {
  import opened Directions
  import opened Rovers

  const IntMin: int := -0x8000_0000
  const IntMax: int := 0x7FFF_FFFF

  /** Unchecked 32-bit arithmetic: the value congruent to v modulo 2^32 in [IntMin, IntMax]. */
  function Wrap(v: int): (w: int)
    ensures IntMin <= w <= IntMax
    ensures (w - v) % 0x1_0000_0000 == 0
    ensures IntMin <= v <= IntMax ==> w == v
  {
    (v - IntMin) % 0x1_0000_0000 + IntMin
  }

  /** Rover.Move as written: the guard and the increment are both 32-bit and wrap silently. */
  function StepAsWritten(p: Pose, boundaryE: int, boundaryN: int): MoveResult {
    match p.facing
    case N => if Wrap(p.y + 1) > boundaryN then FellOff(N) else Moved(p.(y := Wrap(p.y + 1)))
    case S => if Wrap(p.y - 1) < 0 then FellOff(S) else Moved(p.(y := Wrap(p.y - 1)))
    case W => if Wrap(p.x - 1) < 0 then FellOff(W) else Moved(p.(x := Wrap(p.x - 1)))
    case E => if Wrap(p.x + 1) > boundaryE then FellOff(E) else Moved(p.(x := Wrap(p.x + 1)))
  }

  /** Away from the largest int the 32-bit step is the unbounded one. */
  lemma AsWrittenAgreesBelowIntMax(p: Pose, boundaryE: int, boundaryN: int)
    requires boundaryE <= IntMax && boundaryN <= IntMax
    requires InBounds(p.x, p.y, boundaryE, boundaryN)
    requires p.facing == N ==> p.y < IntMax
    requires p.facing == E ==> p.x < IntMax
    ensures StepAsWritten(p, boundaryE, boundaryN) == Step(p, boundaryE, boundaryN)
  {
  }

  /**
   * With the north boundary at the largest int, a rover on that edge facing
   * north is not stopped: Y + 1 wraps to the smallest int, the guard passes,
   * and the rover lands far off the plateau. The unbounded step refuses.
   */
  lemma NorthEdgeAtIntMaxWraps()
    ensures InBounds(0, IntMax, IntMax, IntMax)
    ensures StepAsWritten(Pose(0, IntMax, N), IntMax, IntMax) == Moved(Pose(0, IntMin, N))
    ensures !InBounds(0, IntMin, IntMax, IntMax)
    ensures Step(Pose(0, IntMax, N), IntMax, IntMax) == FellOff(N)
  {
  }

  /** The same on the east edge: X + 1 wraps and the rover leaves the plateau. */
  lemma EastEdgeAtIntMaxWraps()
    ensures InBounds(IntMax, 0, IntMax, IntMax)
    ensures StepAsWritten(Pose(IntMax, 0, E), IntMax, IntMax) == Moved(Pose(IntMin, 0, E))
    ensures !InBounds(IntMin, 0, IntMax, IntMax)
    ensures Step(Pose(IntMax, 0, E), IntMax, IntMax) == FellOff(E)
  {
  }
}
