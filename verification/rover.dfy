/** The rover state machine: position, facing, and the Move and Spin transitions. */
module Rovers {
  import opened Directions
  import opened Options

  /** Identifiers are opaque; an integer stands for a Guid. */
  type Guid = int

  /** The mutable part of a rover: its cell and its facing. */
  datatype Pose = Pose(x: int, y: int, facing: Direction)

  /** The outcome of one forward step: the new pose, or the edge the rover would fall off. */
  datatype MoveResult = Moved(pose: Pose) | FellOff(edge: Direction)

  /** The inclusive rectangle [0, boundaryE] x [0, boundaryN] of a plateau. */
  predicate InBounds(x: int, y: int, boundaryE: int, boundaryN: int) {
    0 <= x <= boundaryE && 0 <= y <= boundaryN
  }

  /** The cell one step ahead along the facing, whether or not it is on the plateau. */
  function Ahead(p: Pose): Pose {
    match p.facing
    case N => p.(y := p.y + 1)
    case S => p.(y := p.y - 1)
    case E => p.(x := p.x + 1)
    case W => p.(x := p.x - 1)
  }

  /**
   * One Rover.Move: each facing guards only the coordinate it changes, and the
   * guard runs before the coordinate is touched.
   */
  function Step(p: Pose, boundaryE: int, boundaryN: int): (r: MoveResult)
    ensures r.Moved? ==> r.pose.facing == p.facing
    ensures r.FellOff? ==> r.edge == p.facing
  {
    match p.facing
    case N => if p.y + 1 > boundaryN then FellOff(N) else Moved(p.(y := p.y + 1))
    case S => if p.y - 1 < 0 then FellOff(S) else Moved(p.(y := p.y - 1))
    case W => if p.x - 1 < 0 then FellOff(W) else Moved(p.(x := p.x - 1))
    case E => if p.x + 1 > boundaryE then FellOff(E) else Moved(p.(x := p.x + 1))
  }

  /** The pose after a step: the new pose, or the old one when the step failed. */
  function After(p: Pose, r: MoveResult): Pose {
    if r.Moved? then r.pose else p
  }

  /** A successful step changes exactly one coordinate by one, in the facing's direction. */
  lemma StepMovesOneCell(p: Pose, boundaryE: int, boundaryN: int)
    requires Step(p, boundaryE, boundaryN).Moved?
    ensures Step(p, boundaryE, boundaryN).pose == Ahead(p)
    ensures p.facing == N ==> Ahead(p) == Pose(p.x, p.y + 1, N)
    ensures p.facing == S ==> Ahead(p) == Pose(p.x, p.y - 1, S)
    ensures p.facing == E ==> Ahead(p) == Pose(p.x + 1, p.y, E)
    ensures p.facing == W ==> Ahead(p) == Pose(p.x - 1, p.y, W)
  {
  }

  /** Move throws exactly on the four guards of the source, one per facing. */
  lemma StepFailsExactly(p: Pose, boundaryE: int, boundaryN: int)
    ensures Step(p, boundaryE, boundaryN).FellOff? <==>
      (p.facing == N && p.y + 1 > boundaryN) ||
      (p.facing == S && p.y - 1 < 0) ||
      (p.facing == W && p.x - 1 < 0) ||
      (p.facing == E && p.x + 1 > boundaryE)
  {
  }

  /** From a cell on the plateau, a step fails exactly when the cell ahead is off the plateau. */
  lemma StepFailsIffAheadOff(p: Pose, boundaryE: int, boundaryN: int)
    requires InBounds(p.x, p.y, boundaryE, boundaryN)
    ensures Step(p, boundaryE, boundaryN).FellOff? <==>
      !InBounds(Ahead(p).x, Ahead(p).y, boundaryE, boundaryN)
  {
  }

  /** A rover on the plateau stays on it after a step, whether the step succeeds or fails. */
  lemma StepKeepsBounds(p: Pose, boundaryE: int, boundaryN: int)
    requires InBounds(p.x, p.y, boundaryE, boundaryN)
    ensures var q := After(p, Step(p, boundaryE, boundaryN));
      InBounds(q.x, q.y, boundaryE, boundaryN) && q.facing == p.facing
  {
  }

  /** From a strictly interior cell a step never fails. */
  lemma InteriorStepSucceeds(p: Pose, boundaryE: int, boundaryN: int)
    requires 0 < p.x < boundaryE && 0 < p.y < boundaryN
    ensures Step(p, boundaryE, boundaryN) == Moved(Ahead(p))
  {
  }

  /** One Rover.Spin on a facing: 'R' and 'L' turn, any other character is refused. */
  function Turned(d: Direction, c: char): (r: Option<Direction>)
    ensures r.Some? <==> c == 'R' || c == 'L'
  {
    if c == 'R' then Some(Right(d))
    else if c == 'L' then Some(Left(d))
    else None
  }

  /** A rover: an identity fixed at construction, and a pose changed in place by Move and Spin. */
  class Rover {
    const id: Guid
    const name: string
    var x: int
    var y: int
    var facing: Direction

    /** The current pose. */
    function State(): Pose
      reads this
    {
      Pose(x, y, facing)
    }

    /** A rover at (x, y) facing the given direction, with the given name and id (the source draws a new Guid here). */
    constructor (x: int, y: int, name: string, facing: Direction, id: Guid)
      ensures this.id == id && this.name == name
      ensures State() == Pose(x, y, facing)
    {
      this.id := id;
      this.name := name;
      this.x := x;
      this.y := y;
      this.facing := facing;
    }

    /**
     * Step one cell along the facing. The result reports the edge the rover
     * would fall off (the exception of the source); the pose is then unchanged.
     */
    method Move(boundaryE: int, boundaryN: int) returns (r: MoveResult)
      modifies this
      ensures r == Step(old(State()), boundaryE, boundaryN)
      ensures State() == After(old(State()), r)
    {
      match facing {
        case N =>
          if y + 1 > boundaryN { return FellOff(N); }
          y := y + 1;
        case S =>
          if y - 1 < 0 { return FellOff(S); }
          y := y - 1;
        case W =>
          if x - 1 < 0 { return FellOff(W); }
          x := x - 1;
        case E =>
          if x + 1 > boundaryE { return FellOff(E); }
          x := x + 1;
      }
      r := Moved(State());
    }

    /**
     * Turn on the spot. Returns false (the exception of the source) for a
     * character other than 'R' or 'L', leaving the rover unchanged.
     */
    method Spin(c: char) returns (ok: bool)
      modifies this
      ensures ok <==> c == 'R' || c == 'L'
      ensures x == old(x) && y == old(y)
      ensures facing == if ok then Turned(old(facing), c).value else old(facing)
    {
      if c == 'R' {
        facing := Right(facing);
      } else if c == 'L' {
        facing := Left(facing);
      } else {
        return false;
      }
      return true;
    }
  }
}
