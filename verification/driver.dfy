/**
 * The console driver without the console: the range checks on the numbers it
 * reads, the validation and left-to-right execution of a command line, and
 * the loop that lands rovers until two are on the plateau.
 */
module Driver {
  import opened Directions
  import opened Options
  import opened Rovers
  import opened RoverCollections
  import opened Plateaus

  /** Why the driver refused a line of input. */
  datatype Rejection =
    | NegativeBoundary(axis: Direction)
    | StartOutOfRange(axis: Direction)
    | PoolExhausted
    | InvalidCommands

  // ---------------------------------------------------------------------------
  // Plateau and landing checks

  /** The checks of ReadPlateauInput: the east boundary first, then the north one. */
  function CheckBoundaries(boundaryE: int, boundaryN: int): (r: Option<Rejection>)
    ensures r.None? <==> boundaryE >= 0 && boundaryN >= 0
  {
    if boundaryE < 0 then Some(NegativeBoundary(E))
    else if boundaryN < 0 then Some(NegativeBoundary(N))
    else None
  }

  /** Build the plateau from boundaries already read, or refuse a negative one. */
  method ReadPlateau(id: Guid, boundaryE: int, boundaryN: int) returns (r: Option<Plateau>)
    ensures r.None? <==> CheckBoundaries(boundaryE, boundaryN).Some?
    ensures r.Some? ==>
      fresh(r.value) && fresh(r.value.rovers) && r.value.Valid() &&
      r.value.id == id && r.value.boundaryE == boundaryE && r.value.boundaryN == boundaryN &&
      r.value.rovers.rovers == [] && r.value.rovers.names == InitialNames
  {
    if CheckBoundaries(boundaryE, boundaryN).Some? {
      return None;
    }
    var plateau := new Plateau(id, boundaryE, boundaryN);
    return Some(plateau);
  }

  /** The start-position checks of InitializeRover: x against the east boundary first, then y against the north one. */
  function CheckStart(boundaryE: int, boundaryN: int, x: int, y: int): (r: Option<Rejection>)
    ensures r.None? <==> InBounds(x, y, boundaryE, boundaryN)
  {
    if x < 0 || x > boundaryE then Some(StartOutOfRange(E))
    else if y < 0 || y > boundaryN then Some(StartOutOfRange(N))
    else None
  }

  /** The outcome of landing a rover: the rover, or why it was refused. */
  datatype LandResult = Landed(rover: Rover) | Refused(why: Rejection)

  /**
   * Land a rover at a position already read: check it against the plateau,
   * add it to the collection (pick is the random draw of a name), and look
   * the new id up. A refusal adds no rover and uses no name.
   */
  method InitializeRover(p: Plateau, x: int, y: int, facing: Direction, pick: nat, roverId: Guid)
    returns (r: LandResult)
    requires p.Valid()
    requires pick < |p.rovers.names| || pick == 0
    requires roverId !in IdsOf(p.rovers.rovers)
    modifies p.rovers
    ensures p.Valid()
    ensures r.Refused? <==> !InBounds(x, y, p.boundaryE, p.boundaryN) || old(p.rovers.names) == []
    ensures r.Refused? ==>
      r.why == (if CheckStart(p.boundaryE, p.boundaryN, x, y).Some?
                then CheckStart(p.boundaryE, p.boundaryN, x, y).value else PoolExhausted) &&
      p.rovers.rovers == old(p.rovers.rovers) && p.rovers.names == old(p.rovers.names)
    ensures r.Landed? ==>
      fresh(r.rover) && p.rovers.rovers == old(p.rovers.rovers) + [r.rover] &&
      r.rover.State() == Pose(x, y, facing) && r.rover.id == roverId &&
      r.rover.name == old(p.rovers.names)[pick] &&
      p.rovers.names == old(p.rovers.names)[..pick] + old(p.rovers.names)[pick + 1..]
  {
    var bad := CheckStart(p.boundaryE, p.boundaryN, x, y);
    if bad.Some? {
      return Refused(bad.value);
    }
    r := LandChecked(p, x, y, facing, pick, roverId);
  }

  /** The part of InitializeRover after the checks: Add, then the indexer on the returned id. */
  method LandChecked(p: Plateau, x: int, y: int, facing: Direction, pick: nat, roverId: Guid)
    returns (r: LandResult)
    requires p.Valid()
    requires InBounds(x, y, p.boundaryE, p.boundaryN)
    requires pick < |p.rovers.names| || pick == 0
    requires roverId !in IdsOf(p.rovers.rovers)
    modifies p.rovers
    ensures p.Valid()
    ensures r.Refused? <==> old(p.rovers.names) == []
    ensures r.Refused? ==>
      r.why == PoolExhausted &&
      p.rovers.rovers == old(p.rovers.rovers) && p.rovers.names == old(p.rovers.names)
    ensures r.Landed? ==>
      fresh(r.rover) && p.rovers.rovers == old(p.rovers.rovers) + [r.rover] &&
      r.rover.State() == Pose(x, y, facing) && r.rover.id == roverId &&
      r.rover.name == old(p.rovers.names)[pick] &&
      p.rovers.names == old(p.rovers.names)[..pick] + old(p.rovers.names)[pick + 1..]
  {
    ghost var before := p.rovers.rovers;
    var added := p.rovers.Add(x, y, facing, pick, roverId);
    if added.NamePoolExhausted? {
      assert p.rovers.rovers == before;
      return Refused(PoolExhausted);
    }
    ghost var last := p.rovers.rovers[|p.rovers.rovers| - 1];
    assert forall i :: 0 <= i < |before| ==> InBounds(before[i].x, before[i].y, p.boundaryE, p.boundaryN);
    AppendedInside(p, before);
    var found := p.rovers.Get(added.id);
    assert found == Some(last);
    return Landed(found.value);
  }

  /** A rover appended inside the boundaries to rovers that were inside keeps the plateau valid. */
  lemma AppendedInside(p: Plateau, before: seq<Rover>)
    requires p.rovers.Valid() && p.rovers.plateauId == p.id
    requires |p.rovers.rovers| == |before| + 1 && p.rovers.rovers == before + [p.rovers.rovers[|before|]]
    requires forall i :: 0 <= i < |before| ==> InBounds(before[i].x, before[i].y, p.boundaryE, p.boundaryN)
    requires InBounds(p.rovers.rovers[|before|].x, p.rovers.rovers[|before|].y, p.boundaryE, p.boundaryN)
    ensures p.Valid()
  {
    forall i | 0 <= i < |p.rovers.rovers|
      ensures InBounds(p.rovers.rovers[i].x, p.rovers.rovers[i].y, p.boundaryE, p.boundaryN)
    {
      if i < |before| {
        assert p.rovers.rovers[i] == before[i];
      }
    }
  }

  // ---------------------------------------------------------------------------
  // Command lines

  /** char.IsWhiteSpace: the Unicode separators and the control characters counted as white space. */
  predicate IsWhiteSpace(c: char) {
    c == ' ' || '\t' <= c <= '\r' || c == '\U{85}' || c == '\U{A0}' || c == '\U{1680}' ||
    '\U{2000}' <= c <= '\U{200A}' || c == '\U{2028}' || c == '\U{2029}' ||
    c == '\U{202F}' || c == '\U{205F}' || c == '\U{3000}'
  }

  /** ToUpperInvariant on one character, for the Latin letters a-z. */
  function ToUpper(c: char): char {
    if 'a' <= c <= 'z' then (c as int - 32) as char else c
  }

  /** ToUpperInvariant on a string, character by character. */
  function UpperString(s: string): string {
    seq(|s|, i requires 0 <= i < |s| => ToUpper(s[i]))
  }

  /** The command characters MoveRover accepts after upper-casing: Left, Right, Move. */
  predicate Accepted(c: char) {
    c == 'L' || c == 'R' || c == 'M'
  }

  /** The letters of a command line in either case. */
  predicate CommandLetter(c: char) {
    c == 'L' || c == 'R' || c == 'M' || c == 'l' || c == 'r' || c == 'm'
  }

  /** A character passes MoveRover's per-character check exactly when it is a command letter, and no white space does. */
  lemma AcceptedAfterUpper(c: char)
    ensures Accepted(ToUpper(c)) <==> CommandLetter(c)
    ensures IsWhiteSpace(c) ==> !CommandLetter(c)
  {
  }

  /**
   * MoveRover's validation: not null-or-white-space, and every character,
   * upper-cased, is an accepted command. Equivalently, a non-empty line of
   * the letters L, R, M in either case.
   */
  function CommandsValid(s: string): (ok: bool)
    ensures ok <==> |s| > 0 && forall i :: 0 <= i < |s| ==> CommandLetter(s[i])
  {
    var blank := forall i :: 0 <= i < |s| ==> IsWhiteSpace(s[i]);
    var accepted := forall i :: 0 <= i < |s| ==> Accepted(ToUpper(s[i]));
    assert accepted <==> forall i :: 0 <= i < |s| ==> CommandLetter(s[i]) by {
      forall i | 0 <= i < |s| { AcceptedAfterUpper(s[i]); }
    }
    assert accepted && |s| > 0 ==> !blank by { if |s| > 0 { AcceptedAfterUpper(s[0]); } }
    !blank && accepted
  }

  /** Why the execution of a command line stopped early: Move or Spin threw. */
  datatype Interruption = OffEdge(edge: Direction) | BadSpin(c: char)

  /** How a command line ended: all applied, refused before any, or stopped at position at. */
  datatype Outcome = Completed | Rejected | Interrupted(at: nat, why: Interruption)

  /** The rover's pose after a command line, and how the line ended. */
  datatype Run = Run(pose: Pose, outcome: Outcome)

  /**
   * The foreach loop of MoveRover from position i on: 'M' moves, any other
   * character spins, and the first exception ends the loop with the pose
   * reached so far.
   */
  function ApplyFrom(p: Pose, cmds: string, i: nat, boundaryE: int, boundaryN: int): (r: Run)
    requires i <= |cmds|
    decreases |cmds| - i
    ensures !r.outcome.Rejected?
    ensures r.outcome.Interrupted? ==> i <= r.outcome.at < |cmds|
  {
    if i == |cmds| then Run(p, Completed)
    else if cmds[i] == 'M' then
      match Step(p, boundaryE, boundaryN)
      case FellOff(e) => Run(p, Interrupted(i, OffEdge(e)))
      case Moved(q) => ApplyFrom(q, cmds, i + 1, boundaryE, boundaryN)
    else
      match Turned(p.facing, cmds[i])
      case None => Run(p, Interrupted(i, BadSpin(cmds[i])))
      case Some(d) => ApplyFrom(p.(facing := d), cmds, i + 1, boundaryE, boundaryN)
  }

  /** MoveRover on one line: refuse an invalid line outright, otherwise run its upper-cased form. */
  function Navigate(p: Pose, commands: string, boundaryE: int, boundaryN: int): (r: Run)
    ensures r.outcome.Rejected? <==> !CommandsValid(commands)
    ensures r.outcome.Rejected? ==> r.pose == p
  {
    if !CommandsValid(commands) then Run(p, Rejected)
    else ApplyFrom(p, UpperString(commands), 0, boundaryE, boundaryN)
  }

  /**
   * Commands run left to right: running a line is running its first n
   * characters and then, if they all succeeded, the rest from where they
   * left the rover; if they did not, the rest is never run.
   */
  lemma {:induction false} ApplyInTwoParts(p: Pose, cmds: string, i: nat, n: nat, boundaryE: int, boundaryN: int)
    requires i <= n <= |cmds|
    decreases n - i
    ensures var m := ApplyFrom(p, cmds[..n], i, boundaryE, boundaryN);
      (m.outcome.Completed? ==> ApplyFrom(p, cmds, i, boundaryE, boundaryN) == ApplyFrom(m.pose, cmds, n, boundaryE, boundaryN)) &&
      (m.outcome.Interrupted? ==> ApplyFrom(p, cmds, i, boundaryE, boundaryN) == m)
  {
    if i < n {
      assert cmds[..n][i] == cmds[i];
      if cmds[i] == 'M' {
        match Step(p, boundaryE, boundaryN)
        case FellOff(e) =>
        case Moved(q) => ApplyInTwoParts(q, cmds, i + 1, n, boundaryE, boundaryN);
      } else {
        match Turned(p.facing, cmds[i])
        case None =>
        case Some(d) => ApplyInTwoParts(p.(facing := d), cmds, i + 1, n, boundaryE, boundaryN);
      }
    }
  }

  /**
   * When a line stops at position k, every command before k was applied, the
   * command at k threw without changing the rover, and nothing after k ran.
   */
  lemma StopsAtFirstFailure(p: Pose, cmds: string, boundaryE: int, boundaryN: int)
    requires ApplyFrom(p, cmds, 0, boundaryE, boundaryN).outcome.Interrupted?
    ensures var r := ApplyFrom(p, cmds, 0, boundaryE, boundaryN);
      var k := r.outcome.at;
      ApplyFrom(p, cmds[..k], 0, boundaryE, boundaryN) == Run(r.pose, Completed) &&
      (r.outcome.why.OffEdge? ==> cmds[k] == 'M' && Step(r.pose, boundaryE, boundaryN) == FellOff(r.outcome.why.edge)) &&
      (r.outcome.why.BadSpin? ==> cmds[k] != 'M' && Turned(r.pose.facing, cmds[k]).None?)
  {
    var r := ApplyFrom(p, cmds, 0, boundaryE, boundaryN);
    var k := r.outcome.at;
    ApplyInTwoParts(p, cmds, 0, k, boundaryE, boundaryN);
    var m := ApplyFrom(p, cmds[..k], 0, boundaryE, boundaryN);
    assert |cmds[..k]| == k;
  }

  /** A rover on the plateau stays on it, whatever the line does. */
  lemma {:induction false} ApplyKeepsBounds(p: Pose, cmds: string, i: nat, boundaryE: int, boundaryN: int)
    requires i <= |cmds|
    requires InBounds(p.x, p.y, boundaryE, boundaryN)
    decreases |cmds| - i
    ensures var q := ApplyFrom(p, cmds, i, boundaryE, boundaryN).pose;
      InBounds(q.x, q.y, boundaryE, boundaryN)
  {
    if i < |cmds| {
      if cmds[i] == 'M' {
        StepKeepsBounds(p, boundaryE, boundaryN);
        match Step(p, boundaryE, boundaryN)
        case FellOff(e) =>
        case Moved(q) => ApplyKeepsBounds(q, cmds, i + 1, boundaryE, boundaryN);
      } else {
        match Turned(p.facing, cmds[i])
        case None =>
        case Some(d) => ApplyKeepsBounds(p.(facing := d), cmds, i + 1, boundaryE, boundaryN);
      }
    }
  }

  /** A whole command line keeps a rover on the plateau. */
  lemma NavigateKeepsBounds(p: Pose, commands: string, boundaryE: int, boundaryN: int)
    requires InBounds(p.x, p.y, boundaryE, boundaryN)
    ensures var q := Navigate(p, commands, boundaryE, boundaryN).pose;
      InBounds(q.x, q.y, boundaryE, boundaryN)
  {
    if CommandsValid(commands) {
      ApplyKeepsBounds(p, UpperString(commands), 0, boundaryE, boundaryN);
    }
  }

  /** On a line of accepted commands only a Move can stop the run: Spin never throws there. */
  lemma {:induction false} AcceptedLineStopsOnlyAtEdges(p: Pose, cmds: string, i: nat, boundaryE: int, boundaryN: int)
    requires i <= |cmds|
    requires forall j :: 0 <= j < |cmds| ==> Accepted(cmds[j])
    decreases |cmds| - i
    ensures var r := ApplyFrom(p, cmds, i, boundaryE, boundaryN);
      r.outcome.Interrupted? ==> r.outcome.why.OffEdge? && cmds[r.outcome.at] == 'M'
  {
    if i < |cmds| {
      if cmds[i] == 'M' {
        match Step(p, boundaryE, boundaryN)
        case FellOff(e) =>
        case Moved(q) => AcceptedLineStopsOnlyAtEdges(q, cmds, i + 1, boundaryE, boundaryN);
      } else {
        AcceptedLineStopsOnlyAtEdges(p.(facing := Turned(p.facing, cmds[i]).value), cmds, i + 1, boundaryE, boundaryN);
      }
    }
  }

  /** Upper-casing is idempotent, so a line and its upper-cased form are the same commands. */
  lemma UpperTwiceIsUpper(s: string)
    ensures UpperString(UpperString(s)) == UpperString(s)
    ensures CommandsValid(UpperString(s)) == CommandsValid(s)
  {
    var u := UpperString(s);
    forall i | 0 <= i < |s| ensures CommandLetter(u[i]) <==> CommandLetter(s[i]) {
      AcceptedAfterUpper(s[i]);
      AcceptedAfterUpper(u[i]);
    }
  }

  /** Lower-case command letters behave exactly like upper-case ones. */
  lemma NavigateIgnoresCase(p: Pose, commands: string, boundaryE: int, boundaryN: int)
    ensures Navigate(p, commands, boundaryE, boundaryN) == Navigate(p, UpperString(commands), boundaryE, boundaryN)
  {
    UpperTwiceIsUpper(commands);
  }

  /** A right spin undone by a left one, or the reverse, and four spins the same way leave the rover as it was. */
  lemma SpinsCancel(p: Pose, boundaryE: int, boundaryN: int)
    ensures Navigate(p, "RL", boundaryE, boundaryN) == Run(p, Completed)
    ensures Navigate(p, "LR", boundaryE, boundaryN) == Run(p, Completed)
    ensures Navigate(p, "RRRR", boundaryE, boundaryN) == Run(p, Completed)
    ensures Navigate(p, "llll", boundaryE, boundaryN) == Run(p, Completed)
  {
    LeftUndoesRight(p.facing);
    TurnsHaveOrderFour(p.facing, 1);
    assert RightTurns(p.facing, 4) == Right(Right(Right(Right(p.facing))));
    assert LeftTurns(p.facing, 4) == Left(Left(Left(Left(p.facing))));
    assert UpperString("RL") == "RL";
    assert UpperString("LR") == "LR";
    assert UpperString("RRRR") == "RRRR";
    assert UpperString("llll") == "LLLL";
    var d := p.facing;
    assert ApplyFrom(p.(facing := Left(Left(Left(d)))), "LLLL", 3, boundaryE, boundaryN) == Run(p, Completed);
    assert ApplyFrom(p.(facing := Left(d)), "LLLL", 1, boundaryE, boundaryN) == Run(p, Completed);
  }

  /** On a 5 x 5 plateau, (1, 2) facing north with LMLMLMLMM ends at (1, 3) facing north. */
  lemma FirstRoverScenario()
    ensures Navigate(Pose(1, 2, N), "LMLMLMLMM", 5, 5) == Run(Pose(1, 3, N), Completed)
  {
    assert UpperString("LMLMLMLMM") == "LMLMLMLMM";
    var s := "LMLMLMLMM";
    assert ApplyFrom(Pose(1, 2, N), s, 8, 5, 5) == Run(Pose(1, 3, N), Completed);
    assert ApplyFrom(Pose(1, 1, N), s, 7, 5, 5) == Run(Pose(1, 3, N), Completed);
    assert ApplyFrom(Pose(1, 1, E), s, 6, 5, 5) == Run(Pose(1, 3, N), Completed);
    assert ApplyFrom(Pose(0, 1, E), s, 5, 5, 5) == Run(Pose(1, 3, N), Completed);
    assert ApplyFrom(Pose(0, 1, S), s, 4, 5, 5) == Run(Pose(1, 3, N), Completed);
    assert ApplyFrom(Pose(0, 2, S), s, 3, 5, 5) == Run(Pose(1, 3, N), Completed);
    assert ApplyFrom(Pose(0, 2, W), s, 2, 5, 5) == Run(Pose(1, 3, N), Completed);
    assert ApplyFrom(Pose(1, 2, W), s, 1, 5, 5) == Run(Pose(1, 3, N), Completed);
    assert ApplyFrom(Pose(1, 2, N), s, 0, 5, 5) == Run(Pose(1, 3, N), Completed);
  }

  /** On a 5 x 5 plateau, (3, 3) facing east with MMRMMRMRRM ends at (5, 1) facing east. */
  lemma SecondRoverScenario()
    ensures Navigate(Pose(3, 3, E), "MMRMMRMRRM", 5, 5) == Run(Pose(5, 1, E), Completed)
  {
    assert UpperString("MMRMMRMRRM") == "MMRMMRMRRM";
    var s := "MMRMMRMRRM";
    assert ApplyFrom(Pose(4, 1, E), s, 9, 5, 5) == Run(Pose(5, 1, E), Completed);
    assert ApplyFrom(Pose(4, 1, N), s, 8, 5, 5) == Run(Pose(5, 1, E), Completed);
    assert ApplyFrom(Pose(4, 1, W), s, 7, 5, 5) == Run(Pose(5, 1, E), Completed);
    assert ApplyFrom(Pose(5, 1, W), s, 6, 5, 5) == Run(Pose(5, 1, E), Completed);
    assert ApplyFrom(Pose(5, 1, S), s, 5, 5, 5) == Run(Pose(5, 1, E), Completed);
    assert ApplyFrom(Pose(5, 2, S), s, 4, 5, 5) == Run(Pose(5, 1, E), Completed);
    assert ApplyFrom(Pose(5, 3, S), s, 3, 5, 5) == Run(Pose(5, 1, E), Completed);
    assert ApplyFrom(Pose(5, 3, E), s, 2, 5, 5) == Run(Pose(5, 1, E), Completed);
    assert ApplyFrom(Pose(4, 3, E), s, 1, 5, 5) == Run(Pose(5, 1, E), Completed);
    assert ApplyFrom(Pose(3, 3, E), s, 0, 5, 5) == Run(Pose(5, 1, E), Completed);
  }

  /** At (0, 0) facing west, a single M stops at the west edge and the rover stays put. */
  lemma WestEdgeScenario(boundaryE: int, boundaryN: int)
    ensures Navigate(Pose(0, 0, W), "M", boundaryE, boundaryN) == Run(Pose(0, 0, W), Interrupted(0, OffEdge(W)))
  {
    assert UpperString("M") == "M";
  }

  /**
   * MoveRover on a line already read: validate it, then apply its upper-cased
   * characters in order, stopping at the first exception. The rover keeps
   * the pose reached before the failing command.
   */
  method MoveRover(rover: Rover, boundaryE: int, boundaryN: int, commands: string) returns (outcome: Outcome)
    modifies rover
    ensures Run(rover.State(), outcome) == Navigate(old(rover.State()), commands, boundaryE, boundaryN)
  {
    if !CommandsValid(commands) {
      return Rejected;
    }
    var upper := UpperString(commands);
    forall j | 0 <= j < |upper| ensures Accepted(upper[j]) {
      AcceptedAfterUpper(commands[j]);
    }
    var i := 0;
    while i < |upper|
      invariant 0 <= i <= |upper|
      invariant forall j :: 0 <= j < |upper| ==> Accepted(upper[j])
      invariant ApplyFrom(rover.State(), upper, i, boundaryE, boundaryN) ==
        Navigate(old(rover.State()), commands, boundaryE, boundaryN)
    {
      if upper[i] == 'M' {
        var moved := rover.Move(boundaryE, boundaryN);
        if moved.FellOff? {
          return Interrupted(i, OffEdge(moved.edge));
        }
      } else {
        var ok := rover.Spin(upper[i]);
        assert ok;
      }
      i := i + 1;
    }
    return Completed;
  }

  // ---------------------------------------------------------------------------
  // The landing loop of Main

  /**
   * InitializeRover as Main calls it, while fewer than two rovers have
   * landed: the pool then still holds at least two names, so the draw
   * (reduced into the pool's range) never meets an empty pool.
   */
  method LandNext(p: Plateau, x: int, y: int, facing: Direction, draw: nat, roverId: Guid)
    returns (r: LandResult)
    requires p.Valid()
    requires p.rovers.Count() < 2
    requires roverId !in IdsOf(p.rovers.rovers)
    modifies p.rovers
    ensures p.Valid()
    ensures r.Landed? <==> InBounds(x, y, p.boundaryE, p.boundaryN)
    ensures r.Refused? ==>
      r.why != PoolExhausted && CheckStart(p.boundaryE, p.boundaryN, x, y) == Some(r.why) &&
      p.rovers.rovers == old(p.rovers.rovers) && p.rovers.names == old(p.rovers.names)
    ensures r.Landed? ==>
      fresh(r.rover) && p.rovers.rovers == old(p.rovers.rovers) + [r.rover] &&
      r.rover.id == roverId && r.rover.State() == Pose(x, y, facing)
  {
    p.rovers.NamesUnique();
    r := InitializeRover(p, x, y, facing, draw % |p.rovers.names|, roverId);
  }

  /** MoveRover called on a rover of the plateau with the plateau's boundaries keeps every rover inside. */
  method DriveLanded(p: Plateau, rover: Rover, line: string) returns (outcome: Outcome)
    requires p.Valid()
    requires rover in p.rovers.rovers
    modifies rover
    ensures p.Valid()
    ensures Run(rover.State(), outcome) == Navigate(old(rover.State()), line, p.boundaryE, p.boundaryN)
  {
    NavigateKeepsBounds(rover.State(), line, p.boundaryE, p.boundaryN);
    outcome := MoveRover(rover, p.boundaryE, p.boundaryN, line);
  }

  /**
   * One line of console input, already parsed: a landing position with the
   * random draw for the name, or a command line.
   */
  datatype Input =
    | Landing(x: int, y: int, facing: Direction, draw: nat)
    | Commands(line: string)

  /**
   * What Main's loop has done after some inputs: the poses of the rovers
   * landed, in landing order; whether the last of them is still being driven
   * (its last command line has not yet run to the end); and the refusals of
   * landings, in order.
   */
  datatype MainState = MainState(poses: seq<Pose>, driving: bool, refusals: seq<Rejection>)

  /**
   * One input to Main's loop. A landing while no rover is being driven lands
   * a rover inside the plateau, or is refused with the start check's reason;
   * a command line while a rover is being driven runs on it, and the next
   * rover is awaited once a line completes. Input of the other kind is skipped.
   */
  function MainStep(m: MainState, input: Input, boundaryE: int, boundaryN: int): (r: MainState)
    ensures |m.poses| <= |r.poses| <= |m.poses| + 1
    ensures |r.poses| == |m.poses| + 1 ==> r.driving && r.poses[..|m.poses|] == m.poses
  {
    match input
    case Landing(x, y, facing, _) =>
      if m.driving then m
      else if InBounds(x, y, boundaryE, boundaryN) then MainState(m.poses + [Pose(x, y, facing)], true, m.refusals)
      else MainState(m.poses, false, m.refusals + [CheckStart(boundaryE, boundaryN, x, y).value])
    case Commands(line) =>
      if !m.driving || m.poses == [] then m
      else
        var run := Navigate(m.poses[|m.poses| - 1], line, boundaryE, boundaryN);
        MainState(m.poses[|m.poses| - 1 := run.pose], !run.outcome.Completed?, m.refusals)
  }

  /** Main's loop goes on while a rover is being driven or fewer than two have landed. */
  predicate Running(m: MainState) {
    m.driving || |m.poses| < 2
  }

  /** Where Main's loop ends: how many inputs it read, and its state then. */
  datatype Finish = Finish(read: nat, state: MainState)

  /**
   * Main's loop from the j-th input in state m: it stops at the end of the
   * input, or before the next input once it no longer runs.
   */
  function RunFrom(inputs: seq<Input>, j: nat, m: MainState, boundaryE: int, boundaryN: int): (f: Finish)
    requires j <= |inputs|
    decreases |inputs| - j
    ensures j <= f.read <= |inputs|
    ensures f.read < |inputs| ==> !Running(f.state)
    ensures !Running(m) ==> f == Finish(j, m)
  {
    if j == |inputs| || !Running(m) then Finish(j, m)
    else RunFrom(inputs, j + 1, MainStep(m, inputs[j], boundaryE, boundaryN), boundaryE, boundaryN)
  }

  /** Main's loop over the inputs, from a plateau with no rovers. */
  function MainLoop(inputs: seq<Input>, boundaryE: int, boundaryN: int): Finish {
    RunFrom(inputs, 0, MainState([], false, []), boundaryE, boundaryN)
  }

  /** The state has every landed rover inside the boundaries and no refusal for want of a name. */
  predicate Sound(m: MainState, boundaryE: int, boundaryN: int) {
    (forall k :: 0 <= k < |m.poses| ==> InBounds(m.poses[k].x, m.poses[k].y, boundaryE, boundaryN)) &&
    PoolExhausted !in m.refusals
  }

  /** One input keeps the state sound. */
  lemma StepKeepsSound(m: MainState, input: Input, boundaryE: int, boundaryN: int)
    requires Sound(m, boundaryE, boundaryN)
    ensures Sound(MainStep(m, input, boundaryE, boundaryN), boundaryE, boundaryN)
  {
    if input.Commands? && m.driving && m.poses != [] {
      NavigateKeepsBounds(m.poses[|m.poses| - 1], input.line, boundaryE, boundaryN);
    }
  }

  /** Every rover Main lands is, and stays, inside the boundaries, and no refusal is for want of a name. */
  lemma {:induction false} MainLoopSound(inputs: seq<Input>, j: nat, m: MainState, boundaryE: int, boundaryN: int)
    requires j <= |inputs| && Sound(m, boundaryE, boundaryN)
    decreases |inputs| - j
    ensures Sound(RunFrom(inputs, j, m, boundaryE, boundaryN).state, boundaryE, boundaryN)
  {
    if j < |inputs| && Running(m) {
      StepKeepsSound(m, inputs[j], boundaryE, boundaryN);
      MainLoopSound(inputs, j + 1, MainStep(m, inputs[j], boundaryE, boundaryN), boundaryE, boundaryN);
    }
  }

  /** Within Main's loop, each sample command line completes on its rover, which is then left. */
  lemma SampleLinesComplete()
    ensures MainStep(MainState([Pose(1, 2, N)], true, [StartOutOfRange(E)]), Commands("LMLMLMLMM"), 5, 5) ==
      MainState([Pose(1, 3, N)], false, [StartOutOfRange(E)])
    ensures MainStep(MainState([Pose(1, 3, N), Pose(3, 3, E)], true, [StartOutOfRange(E)]), Commands("MMRMMRMRRM"), 5, 5) ==
      MainState([Pose(1, 3, N), Pose(5, 1, E)], false, [StartOutOfRange(E)])
  {
    FirstRoverScenario();
    SecondRoverScenario();
    assert [Pose(1, 3, N), Pose(3, 3, E)][..1] == [Pose(1, 3, N)];
  }

  /**
   * The sample session on a 5 x 5 plateau, after a landing off the plateau:
   * that landing is refused at the east edge, the two sample rovers land and
   * complete their lines, and the loop stops before the last line.
   */
  lemma MainScenario()
    ensures var inputs := [Landing(6, 0, N, 0), Landing(1, 2, N, 0), Commands("LMLMLMLMM"),
                           Landing(3, 3, E, 1), Commands("MMRMMRMRRM"), Commands("M")];
      MainLoop(inputs, 5, 5) == Finish(5, MainState([Pose(1, 3, N), Pose(5, 1, E)], false, [StartOutOfRange(E)]))
  {
    var inputs := [Landing(6, 0, N, 0), Landing(1, 2, N, 0), Commands("LMLMLMLMM"),
                   Landing(3, 3, E, 1), Commands("MMRMMRMRRM"), Commands("M")];
    var m0 := MainState([], false, []);
    var m1 := MainState([], false, [StartOutOfRange(E)]);
    var m2 := MainState([Pose(1, 2, N)], true, [StartOutOfRange(E)]);
    var m3 := MainState([Pose(1, 3, N)], false, [StartOutOfRange(E)]);
    var m4 := MainState([Pose(1, 3, N), Pose(3, 3, E)], true, [StartOutOfRange(E)]);
    var m5 := MainState([Pose(1, 3, N), Pose(5, 1, E)], false, [StartOutOfRange(E)]);
    assert MainStep(m0, inputs[0], 5, 5) == m1;
    assert MainStep(m1, inputs[1], 5, 5) == m2;
    SampleLinesComplete();
    assert MainStep(m3, inputs[3], 5, 5) == m4;
    assert RunFrom(inputs, 5, m5, 5, 5) == Finish(5, m5);
    assert RunFrom(inputs, 4, m4, 5, 5) == Finish(5, m5);
    assert RunFrom(inputs, 3, m3, 5, 5) == Finish(5, m5);
    assert RunFrom(inputs, 2, m2, 5, 5) == Finish(5, m5);
    assert RunFrom(inputs, 1, m1, 5, 5) == Finish(5, m5);
  }

  /**
   * Main's loop once the plateau exists: while fewer than two rovers have
   * landed, land a rover and drive it until one command line runs to the
   * end. A landing refused is asked for again; a command line refused or
   * interrupted is followed by another for the same rover. Input of the other
   * kind than the one awaited is a line that fails to parse, and is skipped.
   * The rover landed when k rovers are already on the plateau gets id k,
   * standing for a fresh Guid. Returns how
   * many inputs were read and the refusals of landings, in order.
   */
  method Mission(p: Plateau, inputs: seq<Input>) returns (used: nat, refusals: seq<Rejection>)
    requires p.Valid()
    requires p.rovers.rovers == []
    modifies p.rovers
    ensures p.Valid()
    ensures used <= |inputs|
    ensures |p.rovers.rovers| <= 2
    ensures used < |inputs| ==> |p.rovers.rovers| == 2
    ensures PoolExhausted !in refusals
    ensures p.rovers.names != []
    ensures var f := MainLoop(inputs, p.boundaryE, p.boundaryN);
      used == f.read && refusals == f.state.refusals && |p.rovers.rovers| == |f.state.poses| &&
      (forall k :: 0 <= k < |p.rovers.rovers| ==> p.rovers.rovers[k].State() == f.state.poses[k]) &&
      (used < |inputs| ==> !f.state.driving)
  {
    var current: Rover? := null;
    used, refusals := 0, [];
    ghost var m := MainState([], false, []);
    while used < |inputs| && (current != null || p.rovers.Count() < 2)
      invariant used <= |inputs|
      invariant Tracks(p, current, m) && refusals == m.refusals
      invariant RunFrom(inputs, used, m, p.boundaryE, p.boundaryN) == MainLoop(inputs, p.boundaryE, p.boundaryN)
      invariant Sound(m, p.boundaryE, p.boundaryN)
      invariant current != null ==> fresh(current)
      decreases |inputs| - used
    {
      assert Running(m);
      StepKeepsSound(m, inputs[used], p.boundaryE, p.boundaryN);
      var refusal;
      current, refusal := Feed(p, current, inputs[used], m);
      m := MainStep(m, inputs[used], p.boundaryE, p.boundaryN);
      if refusal.Some? {
        refusals := refusals + [refusal.value];
      }
      used := used + 1;
    }
    p.rovers.NamesUnique();
  }

  /**
   * The plateau and the rover being driven agree with Main's state m: the
   * rovers are m's poses in landing order, the k-th landed has id k, and the
   * rover being driven, if any, is the last one landed.
   */
  ghost predicate Tracks(p: Plateau, current: Rover?, m: MainState)
    reads p.rovers, p.rovers.rovers, current
  {
    p.Valid() && |p.rovers.rovers| == |m.poses| <= 2 &&
    (forall k :: 0 <= k < |p.rovers.rovers| ==>
      p.rovers.rovers[k].id == k && p.rovers.rovers[k].State() == m.poses[k]) &&
    (current != null <==> m.driving) &&
    (current != null ==> |p.rovers.rovers| > 0 && current == p.rovers.rovers[|p.rovers.rovers| - 1])
  }

  /** One pass of Main's loop on one input: it does what MainStep says. */
  method Feed(p: Plateau, current: Rover?, input: Input, ghost m: MainState)
    returns (next: Rover?, refusal: Option<Rejection>)
    requires Tracks(p, current, m) && (current != null || |m.poses| < 2)
    modifies p.rovers, current
    ensures Tracks(p, next, MainStep(m, input, p.boundaryE, p.boundaryN))
    ensures MainStep(m, input, p.boundaryE, p.boundaryN).refusals ==
      m.refusals + (if refusal.Some? then [refusal.value] else [])
    ensures next != null ==> next == current || fresh(next)
  {
    next, refusal := current, None;
    match input {
      case Landing(x, y, facing, draw) =>
        if current == null {
          next, refusal := LandOne(p, x, y, facing, draw, m);
        } else {
          assert MainStep(m, input, p.boundaryE, p.boundaryN) == m;
        }
      case Commands(line) =>
        if current != null {
          next := DriveOne(p, current, line, m);
        } else {
          assert MainStep(m, input, p.boundaryE, p.boundaryN) == m;
        }
    }
  }

  /** A Landing input while no rover is being driven. */
  method LandOne(p: Plateau, x: int, y: int, facing: Direction, draw: nat, ghost m: MainState)
    returns (next: Rover?, refusal: Option<Rejection>)
    requires Tracks(p, null, m) && |m.poses| < 2
    modifies p.rovers
    ensures Tracks(p, next, MainStep(m, Landing(x, y, facing, draw), p.boundaryE, p.boundaryN))
    ensures MainStep(m, Landing(x, y, facing, draw), p.boundaryE, p.boundaryN).refusals ==
      m.refusals + (if refusal.Some? then [refusal.value] else [])
    ensures next != null ==> fresh(next)
  {
    var newId := |p.rovers.rovers|;
    assert newId !in IdsOf(p.rovers.rovers);
    var landed := LandNext(p, x, y, facing, draw, newId);
    if landed.Landed? {
      next, refusal := landed.rover, None;
    } else {
      next, refusal := null, Some(landed.why);
    }
  }

  /** A command line while a rover is being driven. */
  method DriveOne(p: Plateau, current: Rover, line: string, ghost m: MainState) returns (next: Rover?)
    requires Tracks(p, current, m)
    modifies current
    ensures Tracks(p, next, MainStep(m, Commands(line), p.boundaryE, p.boundaryN))
    ensures MainStep(m, Commands(line), p.boundaryE, p.boundaryN).refusals == m.refusals
  {
    ghost var last := |p.rovers.rovers| - 1;
    ghost var run := Navigate(m.poses[last], line, p.boundaryE, p.boundaryN);
    ghost var after := MainState(m.poses[last := run.pose], !run.outcome.Completed?, m.refusals);
    assert MainStep(m, Commands(line), p.boundaryE, p.boundaryN) == after;
    assert forall k :: 0 <= k < last ==> p.rovers.rovers[k] != current;
    var outcome := DriveLanded(p, current, line);
    next := if outcome.Completed? then null else current;
    assert current.State() == run.pose && outcome == run.outcome;
    forall k | 0 <= k < |p.rovers.rovers| ensures p.rovers.rovers[k].State() == after.poses[k] {
      if k < last {
        assert p.rovers.rovers[k] != current;
      }
    }
  }
}
