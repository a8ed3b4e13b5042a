# Mars rovers — a Dafny model

This project models the MarsRovers2 simulator. A plateau is a rectangle of
cells `[0, BoundaryE] × [0, BoundaryN]`. It owns a collection of rovers. Each
rover has a fixed id and name, a cell and a facing (N, E, S or W). A rover
turns with `Spin('L' | 'R')` and steps forward with `Move`. `Move` refuses a
step that would leave the plateau, before anything changes (except when a
boundary is int.MaxValue; see Findings). The collection
names each new rover from a pool of three names, and the same name is never
given twice. The console driver (`Program.cs`) checks the boundaries and the
start cell. It validates a whole command line before running any of it, runs
the line left to right, and stops at the first refused move. It lands rovers
until two are on the plateau.

Files, one module each:

- `directions.dfy` (`Directions`): the direction enumeration, the two turn
  tables of `Spin`, and their algebra (inverse pairs, order four).
- `rover.dfy` (`Rovers`): the pose, the step function `Step` that specifies
  `Move`, the turn function `Turned` that specifies `Spin`, and the class
  `Rover`. Its id and name are `const` fields and its cell and facing are
  mutable.
- `rover_collection.dfy` (`RoverCollections`): the class `RoverCollection`. It
  holds the rover list and the name pool. Its invariant says that names in use
  plus names left make up the initial pool, and that ids are distinct. It
  also has the first-match search behind the indexer.
- `plateau.dfy` (`Plateaus`): the class `Plateau`. Its invariant says that
  every rover stands inside the boundaries.
- `driver.dfy` (`Driver`): the checks of `ReadPlateauInput` and
  `InitializeRover`, the validation and command loop of `MoveRover`, and the
  landing loop of `Main`, all over values already read from the console. The
  landing loop is specified by `MainStep`, the effect of one input on Main's
  state, and `MainLoop`, its fold over the inputs until the loop stops.
- `overflow.dfy` (`Int32Move`): `Move` on 32-bit integers (see Findings).
- `options.dfy` (`Options`): the optional value used for null results.

Three behaviours of the code that a reader might expect otherwise; the model follows the code:

- The `Plateau` constructor accepts any boundaries. Negative boundaries are
  refused by `ReadPlateauInput` (`Driver.ReadPlateau`), not by the plateau.
- After a refused move, the rest of that command line is dropped. The driver
  then reads a new line for the same rover. It does not resume the remaining
  commands.
- The indexer returns null when no id matches. The model returns `None`.

## Model

| member | source | states |
|---|---|---|
| Directions.RightIsClockwiseStep | MarsRovers2/Rovers/Rover.cs:95-114 | the right-spin table is one step forward in the clockwise order N, E, S, W |
| Directions.LeftIsCounterClockwiseStep | MarsRovers2/Rovers/Rover.cs:115-134 | the left-spin table is one step backward in that order |
| Directions.LeftUndoesRight | MarsRovers2/Rovers/Rover.cs:95-134 | a right spin then a left spin, or a left then a right, restores the direction |
| Directions.RightTurnsAdvance | MarsRovers2/Rovers/Rover.cs:95-114 | k right spins advance k steps (mod 4) through the clockwise order |
| Directions.LeftTurnsRetreat | MarsRovers2/Rovers/Rover.cs:115-134 | k left spins go back k steps (mod 4) |
| Directions.TurnsHaveOrderFour | MarsRovers2/Rovers/Rover.cs:95-134 | any multiple of four spins the same way restores the direction |
| Rovers.Step | MarsRovers2/Rovers/Rover.cs:65-88 | a step never changes the facing; a failed step names the edge the rover faces |
| Rovers.StepMovesOneCell | MarsRovers2/Rovers/Rover.cs:65-88 | a successful step changes exactly one coordinate by one: N y+1, S y-1, E x+1, W x-1 |
| Rovers.StepFailsExactly | MarsRovers2/Rovers/Rover.cs:68-83 | a step fails exactly on the four guards: N with y+1 > BoundaryN, S with y-1 < 0, W with x-1 < 0, E with x+1 > BoundaryE |
| Rovers.StepFailsIffAheadOff | MarsRovers2/Rovers/Rover.cs:65-88 | from a cell on the plateau, a step fails exactly when the cell ahead is off it |
| Rovers.StepKeepsBounds | MarsRovers2/Rovers/Rover.cs:65-88 | a rover inside the boundaries is still inside after a step, whether it succeeds or fails |
| Rovers.InteriorStepSucceeds | MarsRovers2/Rovers/Rover.cs:65-88 | from a strictly interior cell a step always succeeds and reaches the cell ahead |
| Rovers.Turned | MarsRovers2/Rovers/Rover.cs:94-137 | a spin succeeds exactly for 'R' and 'L'; any other character is refused |
| Rovers.Rover.constructor | MarsRovers2/Rovers/Rover.cs:50-56 | the new rover has the given cell, facing, name and id; id and name are constants, never reassigned |
| Rovers.Rover.Move | MarsRovers2/Rovers/Rover.cs:65-88 | the result is `Step` of the old pose; the rover takes the new pose on success and keeps the old one on failure |
| Rovers.Rover.Spin | MarsRovers2/Rovers/Rover.cs:94-137 | succeeds exactly for 'R'/'L' and turns by the table; the cell never changes; on failure the facing is unchanged |
| RoverCollections.RemoveFirst | MarsRovers2/Rovers/RoverCollection.cs:63 | removing a name takes one occurrence out of the pool, or leaves a pool without it unchanged |
| RoverCollections.RemoveFirstAt | MarsRovers2/Rovers/RoverCollection.cs:61-63 | removing the drawn name, which does not occur earlier, leaves the other names in order |
| RoverCollections.PickedNameLeavesPool | MarsRovers2/Rovers/RoverCollection.cs:61-63 | in a pool without repeats, the drawn name is gone from the pool after the removal |
| RoverCollections.NamesUniqueUnder | MarsRovers2/Rovers/RoverCollection.cs:18 | under the invariant, rover names are distinct, none is still in the pool, and rovers plus names left number three |
| RoverCollections.AppendKeepsInvariant | MarsRovers2/Rovers/RoverCollection.cs:58-65 | appending a rover named from the pool with an unused id, and dropping that name, keeps the invariant |
| RoverCollections.FirstMatch | MarsRovers2/Rovers/RoverCollection.cs:43 | the position found holds the id, and no earlier rover holds it; none is found exactly when no rover holds it |
| RoverCollections.FirstMatchAppended | MarsRovers2/Rovers/RoverCollection.cs:43 | the id of a rover appended behind rovers with other ids is found at the new rover's position |
| RoverCollections.RoverCollection.NamesUnique | MarsRovers2/Rovers/RoverCollection.cs:18 | a valid collection has distinct names disjoint from the pool, and at most three rovers |
| RoverCollections.RoverCollection.constructor | MarsRovers2/Rovers/RoverCollection.cs:28-30 | a new collection keeps the plateau id, has no rovers and the full three-name pool |
| RoverCollections.RoverCollection.Count | MarsRovers2/Program.cs:40 | the number of rovers held, which with the names left in a valid collection makes three |
| RoverCollections.RoverCollection.Get | MarsRovers2/Rovers/RoverCollection.cs:41-45 | the rover returned is in the collection and has the id asked for; none is returned exactly when no rover has that id |
| RoverCollections.RoverCollection.Add | MarsRovers2/Rovers/RoverCollection.cs:58-66 | with an empty pool nothing changes; otherwise one fresh rover with the given cell and facing is appended, earlier rovers stay, its name is the drawn pool entry and leaves the pool, and the returned id looks up the new rover |
| RoverCollections.PoolHoldsThree | MarsRovers2/Rovers/RoverCollection.cs:18 | three adds to a new collection succeed and give out the three names once each; the fourth finds the pool empty |
| Plateaus.Plateau.constructor | MarsRovers2/Plateau/Plateau.cs:28-33 | id and boundaries are the arguments and are constants; the new collection is empty, has the full pool and carries the plateau's id |
| Driver.CheckBoundaries | MarsRovers2/Program.cs:86-95 | boundaries pass exactly when both are non-negative |
| Driver.ReadPlateau | MarsRovers2/Program.cs:86-99 | a plateau is built exactly when both boundaries are non-negative, and it is then empty and valid |
| Driver.CheckStart | MarsRovers2/Program.cs:121-130 | a start cell passes exactly when 0 <= x <= BoundaryE and 0 <= y <= BoundaryN |
| Driver.InitializeRover | MarsRovers2/Program.cs:121-143 | a rover lands exactly when the start cell is inside and a name is left; a refusal adds no rover and uses no name; the plateau stays valid |
| Driver.LandChecked | MarsRovers2/Program.cs:139-143 | after the checks, Add and the indexer give the new rover, appended at the end, with the drawn name |
| Driver.AcceptedAfterUpper | MarsRovers2/Program.cs:162-166 | a character passes the upper-cased check exactly when it is one of L, R, M, l, r, m; no white space does |
| Driver.CommandsValid | MarsRovers2/Program.cs:158-166 | a command line is accepted exactly when it is non-empty and every character is one of L, R, M in either case |
| Driver.ApplyFrom | MarsRovers2/Program.cs:170-179 | a run is never a refusal, and it stops, if at all, at a position of the line |
| Driver.Navigate | MarsRovers2/Program.cs:158-179 | a line is refused exactly when it fails validation, and a refused line leaves the rover as it was |
| Driver.ApplyInTwoParts | MarsRovers2/Program.cs:171-178 | commands run left to right: a line is its first n commands and then the rest from where they left the rover, or just the first n if one of them failed |
| Driver.StopsAtFirstFailure | MarsRovers2/Program.cs:170-182 | when a line stops at position k, every earlier command was applied, the command at k threw without changing the rover, and no later command ran |
| Driver.ApplyKeepsBounds | MarsRovers2/Program.cs:170-179 | running commands keeps a rover inside the boundaries |
| Driver.NavigateKeepsBounds | MarsRovers2/Program.cs:158-179 | a whole command line keeps a rover inside the boundaries |
| Driver.AcceptedLineStopsOnlyAtEdges | MarsRovers2/Program.cs:170-179 | on a validated line only a move can stop the run; a spin never throws there |
| Driver.UpperTwiceIsUpper | MarsRovers2/Program.cs:162 | upper-casing twice is upper-casing once, and a line is valid exactly when its upper-cased form is |
| Driver.NavigateIgnoresCase | MarsRovers2/Program.cs:162-171 | a line and its upper-cased form have the same effect |
| Driver.SpinsCancel | MarsRovers2/Program.cs:171-178 | the lines "RL", "LR", "RRRR" and "llll" complete and leave the rover as it was |
| Driver.FirstRoverScenario | MarsRovers2/Program.cs:171-178 | on a 5 × 5 plateau, (1, 2, N) with LMLMLMLMM ends at (1, 3, N) |
| Driver.SecondRoverScenario | MarsRovers2/Program.cs:171-178 | on a 5 × 5 plateau, (3, 3, E) with MMRMMRMRRM ends at (5, 1, E) |
| Driver.WestEdgeScenario | MarsRovers2/Program.cs:171-182 | at (0, 0) facing W, the line M stops at once at the west edge and the rover stays at (0, 0) |
| Driver.MoveRover | MarsRovers2/Program.cs:152-182 | the rover's final pose and the outcome are those of `Navigate` on its starting pose |
| Driver.LandNext | MarsRovers2/Program.cs:40-46 | while fewer than two rovers have landed, a rover lands exactly when its start cell is inside the plateau, with the given pose and id, appended behind the others; a refusal carries the start check's reason, never the empty pool, and leaves rovers and names unchanged |
| Driver.DriveLanded | MarsRovers2/Program.cs:47 | driving a rover of the plateau keeps every rover inside the boundaries |
| Driver.MainStep | MarsRovers2/Program.cs:42-51 | one input to Main's loop adds at most one pose, and only by a landing, which keeps the earlier poses and starts driving the new rover |
| Driver.RunFrom | MarsRovers2/Program.cs:40-56 | Main's loop stops reading only at the end of the input or once two rovers have landed and the last one's line has completed; a loop that no longer runs reads nothing |
| Driver.StepKeepsSound | MarsRovers2/Program.cs:42-51 | one input keeps every landed rover inside the boundaries and adds no refusal for an empty pool |
| Driver.MainLoopSound | MarsRovers2/Program.cs:40-56 | the whole loop keeps every landed rover inside the boundaries and never refuses a landing for an empty pool |
| Driver.SampleLinesComplete | MarsRovers2/Program.cs:47-48 | in Main's loop, each sample command line completes on its rover, which is then left for the next landing |
| Driver.MainScenario | MarsRovers2/Program.cs:40-56 | on a 5 × 5 plateau, a landing at (6, 0) is refused at the east edge, the sample rovers then end at (1, 3, N) and (5, 1, E), and the loop stops before the sixth input |
| Driver.Feed | MarsRovers2/Program.cs:42-51 | one pass of the loop on the plateau does what `MainStep` says: the rovers' poses, the rover being driven and the refusals follow it |
| Driver.LandOne | MarsRovers2/Program.cs:44-45 | a landing while no rover is being driven updates the plateau as `MainStep` says |
| Driver.DriveOne | MarsRovers2/Program.cs:47-48 | a command line runs on the last rover landed, leaves the others as they were, and updates the plateau as `MainStep` says |
| Driver.Mission | MarsRovers2/Program.cs:40-56 | the rovers landed, their final poses, the refusals and the number of inputs read are those of `MainLoop`; the plateau stays valid, at most two rovers land, reading stops early only once two have landed and the last has left, and the pool is never exhausted |
| Int32Move.AsWrittenAgreesBelowIntMax | MarsRovers2/Rovers/Rover.cs:65-88 | away from the largest int, the 32-bit step equals the unbounded one |
| Int32Move.NorthEdgeAtIntMaxWraps | MarsRovers2/Rovers/Rover.cs:68-69 | with BoundaryN at the largest int, the 32-bit north step from that edge wraps to the smallest int and leaves the plateau |
| Int32Move.EastEdgeAtIntMaxWraps | MarsRovers2/Rovers/Rover.cs:83-84 | with BoundaryE at the largest int, the 32-bit east step from that edge wraps to the smallest int and leaves the plateau |

## Left out

- Console input and output are not modelled. This covers prompts, echoing of exception messages, the final report of names and positions, and the closing "press any key" loop. The model returns values instead.
- `Main`'s loop that re-reads the plateau until it is valid is not modelled. `Driver.ReadPlateau` models one attempt.
- The recursive re-prompt inside `MoveRover` and the retry in `Main` are both represented by the next `Commands` input of `Driver.Mission`. After a refused or interrupted line, both read a new line for the same rover.
- Token parsing is not modelled: `string.Split`, `int.TryParse`, `Enum.TryParse`, and the index errors of a short line. Inputs arrive as integers and a `Direction`. In `Driver.Mission`, an input of the kind not awaited stands for a line that fails to parse.
- Null strings and null rovers are not modelled.
- `ToUpperInvariant` is modelled on the letters a-z only. Other characters are left as they are.
- The SQL stored-procedure stub in `RoverCollection.Initialize` is not modelled. It has no observable effect. Its one real assignment, the plateau id, is done by the constructor.
- `System.Random` is a caller-supplied draw. `RoverCollections.RoverCollection.Add` takes the index itself, as `Next(0, Count)` returns it (0 when the pool is empty). `Driver.LandNext` reduces a free draw modulo the pool size.
- `RoverCollections.RoverCollection.Add`: requires the new id to be unused. This is what `Guid.NewGuid` provides; the model takes ids as parameters.
- `Driver.Mission`: gives the rover landed when k rovers are already on the plateau id k, in place of a new Guid. It requires a plateau with no rovers, which is how `Main` creates it.
- The unused Guid generated at the start of `RoverCollection.Add` is not modelled.
- The members inherited from `List<Rover>` are not modelled, except the append at RoverCollection.cs:64 (the raw `Add(Rover)`), which is part of `RoverCollections.RoverCollection.Add`, and `Count`, modelled as `RoverCollections.RoverCollection.Count`. The list is also enumerated by the indexer's `FirstOrDefault`, modelled by `RoverCollections.FirstMatch`, and by the final report's `foreach`, which is console output. Nothing in the program calls the inherited mutators. Called from outside, `Remove`, `Clear` or a raw `Add` could break the name and id invariants.
- Exception types and message texts are not modelled. Failures are values: the edge of a refused move, a refused spin character, and the reason a line was refused.
- `Rovers.Step`: uses unbounded integers. The 32-bit wrap-around of `Y + 1` and `X + 1` is modelled separately in `Int32Move`; see Findings.

## Findings

| source | as written | input that shows it | evidently intended | confidence | as-written member | corrected member |
|---|---|---|---|---|---|---|
| MarsRovers2/Rovers/Rover.cs:68 | `Y + 1 > boundaryN` and `Y++` use unchecked 32-bit ints, so at Y = 2147483647 the guard sees -2147483648 and the step goes through | plateau `2147483647 2147483647`, rover `0 2147483647 N`, commands `M`: the rover ends at (0, -2147483648) | the move is refused at the north edge | not executed; follows from C#'s default unchecked arithmetic | Int32Move.NorthEdgeAtIntMaxWraps | Rovers.StepKeepsBounds |
| MarsRovers2/Rovers/Rover.cs:83 | `X + 1 > boundaryE` and `X++` wrap the same way at X = 2147483647 | plateau `2147483647 2147483647`, rover `2147483647 0 E`, commands `M`: the rover ends at (-2147483648, 0) | the move is refused at the east edge | not executed; follows from C#'s default unchecked arithmetic | Int32Move.EastEdgeAtIntMaxWraps | Rovers.StepKeepsBounds |
