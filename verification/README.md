# A verified model of the cncpp kernel

cncpp is a small CNC kernel. It parses lines of G-code into linked blocks, plans a trapezoidal motion
profile quantized to the machine's time step for each of them, and executes the program with a tick-driven
state machine. This project models that kernel in Dafny and proves what it keeps, from the arithmetic of one
profile to whole runs of a program.

## How it is organised

The source changes its objects in place, and so does the model: `Machine`, `Block`, `Program`, `Fsm`,
`Timer` and `PyProgram` are classes with the source's fields, and each method is proved to turn the old
abstract value into the one that a function prescribes. Those functions (`BlockSpec`, `ProgramSpec`,
`FsmSpec`, `Profiles.Plan`, `Motions.Travel` and so on) follow the source branch by branch; the theorems
are about them, and hold of the classes by refinement.

| file | contents |
|---|---|
| Numerics.dfy, Points.dfy | square roots, angles and powers as facts about a `Libm` record; partial points |
| Machine.dfy | `quantize`, `sync`, `set_setpoint` |
| Profile.dfy, Motion.dfy | `compute` and `lambda`: soundness, optimality, envelope, progress |
| Arc.dfy, Helix.dfy | `calc_arc`: centres, sweeps, endpoints; motion that leaves the plane of its arc |
| BlockSpec.dfy, Block.dfy, BlockFacts.dfy, WordOrder.dfy, Lines.dfy | parsing and sampling a block, and what a line of G-code means |
| ProgramSpec.dfy, Program.dfy, ProgramFacts.dfy, ProgramWalk.dfy | the list of blocks and its cursor |
| Binding.dfy | the Python binding's second cursor, and blocks rebuilt from their lines |
| FsmSpec.dfy, Fsm.dfy, FsmFacts.dfy, FsmRuns.dfy, Journals.dfy, FailedReloads.dfy, StopRequests.dfy, Paths.dfy, Bend.dfy, Arrival.dfy, Tolerance.dfy | the state machine: ticks, runs, what they record, failed reloads, stop requests, the commanded path and how it bends, arrival, clock drift |
| Timer.dfy | the streaming statistics of the loop timer |

Numbers of type `double` are reals. Where the source would compute something that is not a number (a profile
without length or feedrate, an arc whose radius is too small, the error before the first reply) the model
has an explicit value: `Unplanned`, `None`. What the outside world does (key presses, signals, the program
file, broker connection, reported positions) is an arbitrary input to each tick.

## Where the code and what is said of it differ

The model follows the code. These statements say what the code does in each place.

- Half of the duration is not always half of the way, as tests/block_unit_tests.cpp:155-156 checks for its
  block: it is exactly for blocks that cruise (`Motions.HalfWay`). A triangle is stretched only while
  braking, so it is past the middle by then.
- A full circle (endpoints equal, centre by I and J) is walked clockwise only; counterclockwise its length
  is zero (`Arcs.FullTurn`), because the sweep is normalised to less than one turn.
- Block numbers strictly increase until one of them is the greatest `size_t`; the block after it starts
  again at 0 (`ProgramFacts.NumbersIncrease` gives the exact condition, `NumbersCanWrap` a program).
- The message about mismatched arc endpoints names the machine's maximum error, but the comparison is with
  the current error, which is not a number until a position has been reported: then every mismatch is
  accepted (`Arcs.ArcReaches` gives the gap that is left).
- The state function of RAPID_MOTION clears the stop flag before its wrapper tests it, so a signal there
  never stops the machine, and only skips the rest of the motion (`StopRequests.RapidNeverStops`).
- A machine without an agent never has an error to compare, so that homing it never ends except by a signal
  (`StopRequests.RunNoError`, `StopRequests.HomingNeedsBroker`).
- The N case of the parser falls through to G: a line `N1` alone has the type 1, and a G word must come
  after N on a line (`WordOrder.LastWholeWins`, `WordOrder.OrderIrrelevant`).
- The length of a helix counts only X and Y, so that it can be faster in space than its feedrate F. With peak
  speed f, length l and climb dz it is so exactly when f^2 (l^2 + dz^2) > (F/60)^2 l^2: then, and only then,
  some two of its points are farther apart than F allows in the time between them (`Helices.SpeedInSpace`,
  `Helices.StepsExact`). `Helices.SteepHelix` gives such a line for every machine.
- A centre-form arc may end beside its target, and the next block then starts with a jump of exactly that gap;
  it is within what the next block's feedrate allows in a tick exactly when the gap is (`Paths.BlocksJoin`).
- A reload that fails is reported and IDLE goes on, but the list keeps its refused line as a last block that
  is not parsed. The next run throws exactly when that block is to be interpolated, has no motion (the state
  prints it, which throws), or is rapid with an incomplete target while there is an agent
  (`FailedReloads.QuietRunFails`; `FailedReloads.ReloadCanFail` is such a session from the start). Otherwise,
  and after a reload that succeeds, no run throws, whatever it meets, as long as the parsed motions are planned
  (`FsmRuns.RunKeeps`).

## Model

The main results and the members that model the source; helper lemmas have no row.

| member | source | states |
|---|---|---|
| Machines.QuantizedLeast | src/machine.cpp:192-198 | no multiple of the tick that exceeds the duration is smaller than the quantized one |
| Machines.Machine.Quantize | src/machine.cpp:192-198 | the quantized duration, and an excess in (0, tq] |
| Machines.Machine.Sync | src/machine.cpp:218-247 | without an agent nothing changes; with one the reply, if any, becomes the position, and the error becomes the distance from setpoint to position, or unavailable |
| Machines.Machine.SetSetpoint | src/machine.cpp:250-257 | the setpoint is stored even when the rest throws; it throws exactly on an incomplete point with an agent, and otherwise leaves the synchronised axes |
| Points.ModalChains | src/point.cpp:65-71 | inheriting is associative and idempotent |
| Profiles.PlanSound | src/block.cpp:290-326 | for every planned block, trapezoid or triangle: the phases join and their area is the length (f(dt1/2 + dtm + dt2/2) = l), accelerations stay within A and the re-derived peak within the feedrate, the duration is a whole number of ticks, and stretching adds at most one tick |
| Profiles.PlanExact | src/block.cpp:290-326 | the planned profile is the only joined one over l in a whole number of ticks, the least above the need, in which: if l A > f0^2 for f0 = F/60, both ramps last f0/A and the excess is spent cruising; else the first ramp t satisfies t^2 A = l, there is no cruise, and the excess is spent braking |
| Profiles.PlanOptimal | src/block.cpp:290-326 | no joined motion within the same limits is shorter than the ideal duration, so none is more than a tick shorter than the planned one, and the planned one is the shortest among those of whole ticks above the ideal |
| Blocks.Block.Compute | src/block.cpp:290-326 | the fields that `compute` assigns are those of the planned profile |
| Motions.Envelope | src/block.cpp:395-425 | at any two times, in whatever phases: speed in [0, feedrate], acceleration within A, speed changes by at most A times the time between, the distance between is within the feedrate, and within A h^2 / 2 of what a constant speed would cover |
| Motions.AccelerationIs | src/block.cpp:395-425 | within each phase the acceleration field is the rate at which the speed changes |
| Motions.SamplesDrive | src/block.cpp:205-213 | the sampled speeds, over 60, are the derivative of length times the sampled progress, within the bounds of the envelope |
| Motions.Progress | src/block.cpp:395-425 | lambda is in [0,1] and never falls; it is 0 with speed 0 up to time 0, and 1 with speed 0 from dt on |
| Motions.Mirrored | src/block.cpp:305-325 | a block that cruises is symmetric: lambda(t) + lambda(dt - t) = 1 at every time |
| Motions.HalfWay | src/block.cpp:290-326 | lambda(dt/2) = 1/2 if and only if the block cruises |
| Motions.SamplesSpan | src/block.cpp:205-213 | the samples of a planned block run from (0, 0, 0) to (dt, 1, 0) |
| Blocks.Block.LambdaAt | src/block.cpp:143-147 | throws exactly on a block that is not parsed, and then leaves the acceleration field alone; else time, progress and speed are those of the closed form, and the acceleration field is set to match |
| Blocks.Block.Interpolate | src/block.cpp:150-183 | returns a point exactly when the block is parsed, its points are complete and it is a line or an arc with a centre; then that of the straight or circular path |
| Blocks.Block.Walk | src/block.cpp:205-213 | terminates with exactly dt/tq + 1 samples, one at each multiple of tq from 0 to dt; on a block that is not parsed the first sample throws |
| Arcs.SweepNormal | src/block.cpp:368-379 | the sweep is congruent to the raw angle difference, in [0, 2 pi) counterclockwise and [-2 pi, 0) clockwise |
| Arcs.DirectionsComplete | src/block.cpp:368-379 | about one centre the lengths of the two directions add up to 2 pi r |
| Arcs.FullTurn | src/block.cpp:354-379 | with equal endpoints the clockwise arc is the full circle and the counterclockwise one has length 0 |
| Arcs.RadiusForm | src/block.cpp:339-352 | the centre is at squared distance R^2 from both endpoints, and the cross product of the radius vectors has the sign of s, and is zero exactly for a half circle |
| Arcs.RadiusSolves | src/block.cpp:339-352 | the radius form is never refused, and has an arc if and only if the squared chord is positive and at most 4 R^2 |
| Arcs.CentreForm | src/block.cpp:354-367 | the centre form turns about the point at (I, J) from the start, with the length of that as radius; it is refused if and only if the current error is available and smaller than the difference between that and the target's distance from the centre |
| Arcs.MinorOrMajor | src/block.cpp:339-379 | R > 0 sweeps less than a half turn and R < 0 more, in both directions, and a diameter exactly half; the radius left is the size of R |
| Arcs.ArcReaches | src/block.cpp:328-384 | every arc starts at its start point; it ends beside its target by the difference of the two radii, which is zero in the radius form and within the machine's error, if that is available, in the centre form |
| Blocks.Block.CalcArc | src/block.cpp:328-384 | the fields left and the error thrown are those of the arc of the source's two forms, with the check against the current error |
| Blocks.Block.Assign | src/block.cpp:66-82 | refuses a block that is not parsed and then changes nothing; else inherits tool, feedrate and spindle, numbers on with wrap-around, clears the target, and links both blocks |
| Blocks.Block.ReadToken | src/block.cpp:217-288 | one word: which field it writes, whether it ends the loop, and each of its errors with what had been stored by then |
| Blocks.Block.Parse | src/block.cpp:86-141 | the fields left and the error of a whole parse, also when it throws half way; links unchanged |
| WordOrder.PutPermuted | src/block.cpp:93-104 | reading any permutation of words with distinct letters, N before G, writes the same fields |
| WordOrder.OrderIrrelevant | src/block.cpp:86-141 | a permuted line parses with the same error to the same block, but for its text |
| WordOrder.LastNumberWins | src/block.cpp:217-288 | after the token loop each of X, Y, Z, I, J, R, F, S holds the last number written to it, else what it held |
| WordOrder.LastWholeWins | src/block.cpp:225-251 | the same for number, tool and M, and the type is that of the last of the G and N words; an accepted N exceeds the previous block's number |
| Lines.CaseIgnored | src/block.cpp:217-223 | a lower-case letter reads as the upper-case one |
| Lines.WordRead | src/block.cpp:217-288 | when a word is a comment, is accepted, or is refused with which error, by its letter and argument; an accepted N exceeds the previous number |
| Lines.ReadsWhen | src/block.cpp:93-104 | the token loop throws nothing if and only if every word before the first comment is accepted |
| Lines.TypeOfLine | src/block.cpp:231-241 | the last code of G or N makes the block rapid for 0, a line for 1, a clockwise arc for 2, a counterclockwise one for 3, no motion for 4 or none, and none of these for any other |
| Lines.OwnFields | src/block.cpp:66-141 | I, J, M, and R but on an arc, are those of the line's own words, or 0 |
| Lines.TargetOfLine | src/block.cpp:106-111 | the target has the line's last X, Y and Z, and the start's where there is none |
| Lines.CentreLine | src/block.cpp:86-141 | a G2 or G3 line without R is refused exactly for a mismatch beyond the available error, and else turns about its own (I, J) from its start |
| Lines.RadiusLine | src/block.cpp:86-141 | a G2 or G3 line with R is never refused, and has an arc of radius abs(R) exactly when its target is elsewhere and within the diameter |
| Lines.StraightLine | src/block.cpp:150-183 | the point of a G1 block at progress p is its start plus p times the way to its target |
| Lines.LinePlanned | src/block.cpp:113-121 | a G1 block is planned if and only if it has a positive feedrate and a target other than its start, and then at its own feedrate over the distance between them |
| Lines.LineIsFast | src/block.cpp:113-121 | in any program a planned line whose latest F is v lasts at most one tick more than any joined motion over its distance within v/60 and A |
| Lines.ArcTurns | src/block.cpp:368-379 | a planned clockwise arc has a sweep in [-2 pi, 0), a counterclockwise one in [0, 2 pi) |
| BlockFacts.FinishReady | src/block.cpp:106-141 | a parse without error leaves target and displacement complete from the start, a profile exactly when length and planning feedrate are positive, a line planned at its own feedrate, and an arc at the greatest that neither exceeds its own nor lets v^2 exceed A r |
| BlockFacts.ArcSafe | src/block.cpp:122-134 | at every instant of a planned arc the squared speed in mm/s is at most A times the radius |
| BlockFacts.MovingEnds | src/block.cpp:150-183 | a block is at its start point at progress 0; at progress 1 it misses its target by exactly the gap between the arc's radii, and a line by nothing |
| Helices.SetpointDistance | src/block.cpp:150-193 | the squared distance of two points of a block is that along a line, or 2 r^2 (1 - cos) of the angle between them and the squared climb |
| Helices.SpeedInSpace | src/block.cpp:106-134 | the speed in space keeps within the feedrate at all times if and only if the block is a line, or f^2 (l^2 + dz^2) <= (F/60)^2 l^2 |
| Helices.StepsExact | src/block.cpp:150-193 | the points at any two times are within what the feedrate allows in the time between them if and only if the same inequality holds |
| Helices.HelixJumps | src/block.cpp:150-193 | a block that climbs more than its ticks times the reach of one tick has two successive setpoints farther apart than that reach |
| Helices.SteepHelix | src/block.cpp:86-141 | for every machine a line that parses to such a helix |
| Programs.Program.Emplace | src/program.cpp:69-78 | a block is linked behind the last one before it is parsed, or not added at all when that one is not parsed |
| Programs.Program.Append | src/program.cpp:69-78 | the list and the error of `operator<<`, with all links still mirroring list order |
| Programs.Program.Load | src/program.cpp:48-67 | the list, error and cursor of a load; a file that cannot be opened leaves everything as it was |
| Programs.Program.LoadNext | src/program.cpp:80-89 | the cursor goes to the next block, wraps from the end to the first, and `done` holds exactly at the end |
| Programs.Program.Reset | src/program.cpp:91-101 | the list is empty and the cursor rewound |
| ProgramFacts.AppendKeeps | src/program.cpp:69-78 | appending never changes the blocks that are there, keeps all but the last parsed, and throws exactly when a block is then left unparsed |
| ProgramFacts.LoadKeeps | src/program.cpp:48-67 | a load keeps the structure, and throws exactly when it leaves an unparsed block, or meets a line after one |
| ProgramFacts.LoadConcatenated | src/program.cpp:48-67 | loading two files with append is loading their concatenation, errors included |
| ProgramFacts.LoadedLines | src/program.cpp:60-65 | a load makes one block of each line that is not ignored, in order, up to the first refused one |
| ProgramFacts.LoadReplaces | src/program.cpp:48-67 | with append the list is kept and added to, without it does not matter what it was, and without a file it stays |
| ProgramFacts.HistorySane | src/program.cpp:48-101 | after every history of appends, loads and resets, with whatever machine errors, all blocks but possibly the last are parsed, each is what its line makes of it after the one before, and numbers carry on |
| ProgramFacts.NumbersIncrease | src/block.cpp:231-237 | after any history the numbers of the parsed blocks strictly increase if and only if no number but the last is the greatest `size_t` |
| ProgramFacts.NumbersCanWrap | src/block.cpp:66-82 | a two-line program whose second number is 0 after the greatest one |
| ProgramFacts.LastWriterWins | src/block.cpp:66-111 | after any history, every parsed block's target is complete, and X, Y, Z, F and S have the latest value written at or before it, else the machine zero (0 for F and S) |
| ProgramFacts.LastToolWins | src/block.cpp:66-111 | the same for the tool |
| ProgramFacts.DeltasTelescope | src/block.cpp:106-111 | the displacements of the first n blocks add up to the last target minus the machine zero |
| ProgramWalks.WalkProgram | src/program.cpp:148-162 | for every list that a history of edits leaves, its parsed motions planned: the rows for each interpolated block in order under one running clock, up to the first block that is not parsed or of no known type, on which the loop throws |
| ProgramWalks.RowsSampled | src/program.cpp:148-162 | row j of a block has the progress and 60 times the speed of tick j, and the point at that progress |
| ProgramWalks.WalkIsStream | src/program.cpp:148-162 | those points are the setpoints that the state machine commands, in order, less rapid moves and repeated endpoints, and row k is at time k tq |
| Bindings.CursorsAgree | Python/src/cncpp_python.cpp:317-331 | after a rewind the binding's cursor and the kernel's agree at call k if and only if k <= n + 1 or n + 1 divides k |
| Bindings.ReplayAgrees | Python/src/cncpp_python.cpp:288-297 | while the machine's error is as it was, rebuilding from the stored lines succeeds exactly on a fully parsed list, and gives the kernel's blocks |
| Bindings.ReplayAgreesAt | Python/src/cncpp_python.cpp:233-243 | the block at the cursor is rebuilt exactly when the kernel's is parsed, and equals it |
| Bindings.PyProgram.RebuiltBlocks | Python/src/cncpp_python.cpp:288-297 | the new blocks and the error of the rebuilding loop, leaving the kernel's list alone |
| Bindings.PyProgram.BlockAt | Python/src/cncpp_python.cpp:233-243 | the last block of the rebuilt prefix, or the error met on the way |
| Bindings.PyProgram.LoadNext | Python/src/cncpp_python.cpp:317-331 | moves the binding's cursor without wrapping, and returns no block exactly at the end |
| Bindings.PyProgram.Load | Python/src/cncpp_python.cpp:250-255 | loads as the kernel does; the binding's cursor is rewound only when that throws nothing |
| Fsms.Fsm.DoInit | src/fsm_impl.hpp:48-60 | a fresh program replaces the old one exactly when its file loads without error; else STOP |
| Fsms.Fsm.DoIdle | src/fsm_impl.hpp:66-111 | where each key leads; a reload keeps a partly loaded list and goes nowhere |
| Fsms.Fsm.DoLoadBlock | src/fsm_impl.hpp:116-152 | the cursor moves on, the total time by a tick unless the end is reached, and the next state is that of the block's type |
| Fsms.Fsm.DoRapidMotion | src/fsm_impl.hpp:158-185 | the target is commanded; when to leave, both clocks, and the flag it consumes |
| Fsms.Fsm.DoInterpMotion | src/fsm_impl.hpp:191-229 | the setpoint at the block clock is commanded, the exit test is made before the clocks advance, and every way to throw is told apart |
| Fsms.Fsm.DoNoMotion | src/fsm_impl.hpp:234-245 | one tick of total time, then the next block |
| Fsms.Fsm.DoGoToZero | src/fsm_impl.hpp:251-261 | the machine zero is commanded until the error is within tolerance |
| Fsms.Fsm.Transit | src/fsm.hpp:334-353 | only IDLE to LOAD_BLOCK rewinds and clears the clocks, and only entering a motion clears the block clock |
| Fsms.Fsm.EvalState | src/fsm.hpp:157-162 | one evaluation refines the tick function, with the wrappers' filters and the stop override evaluated after the state function |
| Fsms.Fsm.Run | src/fsm.hpp:165-182 | the do-while loop over any sequence of ticks refines the run function, up to STOP or the first exception |
| FsmFacts.SaneSafe | src/fsm_impl.hpp:158-245 | in a list left by any history, its parsed motions planned, every block is safe to run if and only if the last one is not an unparsed block that is interpolated, has no motion, or is rapid with an incomplete target and an agent |
| FsmFacts.StepKeeps | src/fsm.hpp:157-162 | dispatch invariant, given that SPACE starts a planned list whose last block is not one of those: no tick throws, whatever reloads failed before; in RAPID, INTERP and NO_MOTION the cursor is on a block of matching type, with the block clock at a whole tick j <= dt/tq + 1 in INTERP; the list is always one that a history of edits leaves |
| FsmRuns.RunKeeps | src/fsm.hpp:165-182 | no run in which every start finds such a list throws, under any keys, signals, positions and files, failed reloads included, and every such run keeps the dispatch invariant |
| FailedReloads.QuietRunFails | src/fsm_impl.hpp:80-245 | on every list that a history of edits leaves, its parsed motions planned and all types known, the undisturbed run from SPACE throws if and only if the last block is not parsed and is interpolated, has no motion, or is rapid with an incomplete target and an agent |
| FailedReloads.ReloadCanFail | src/fsm_impl.hpp:48-111 | a session from INIT: a reload of `G<code> X` fails, IDLE goes on, and the run from SPACE throws for every code 1 to 4, and for 0 exactly with an agent |
| FsmRuns.BlockRun | src/fsm_impl.hpp:116-245 | an undisturbed block of any type takes 1 + dwell ticks, is visited once and commands exactly its setpoints |
| FsmRuns.ProgramRun | src/fsm_impl.hpp:116-245 | the same for any stretch of consecutive blocks, from LOAD_BLOCK before it to LOAD_BLOCK after it |
| FsmRuns.WholeRun | src/fsm_impl.hpp:116-244 | from IDLE on SPACE, disconnected and without signals, if every block can be run (or is a rapid one that the machine accepts), the machine is back in IDLE after 2 + the sum over blocks of (1 + dwell) ticks; each block was visited once in list order, the setpoints are exactly theirs, and the total time is tq times that sum |
| Journals.RunLogged | src/fsm_impl.hpp:116-245 | over every run that does not throw, with any keys, signals, files, connection and positions: the blocks visited since the last start are the first ones of the list, each once and in order, up to the one under the cursor while the program runs; and the total time is tq times the ticks that loaded or ran a block since then |
| Journals.RunTold | src/fsm_impl.hpp:116-245 | over every run whose starts find a list that does not break it, with any keys, signals, files, connection and positions: the setpoints sent since the last start are those of the blocks loaded since then in order, all of them for each block that was left, the first ones for the block under way, and a rapid target repeated while the machine waits for it |
| StopRequests.PendingStop | src/fsm.hpp:207-316 | with m blocks not loaded yet, a signal is answered within 2m + 3 ticks: by STOP, or by a rapid motion that consumes it and goes on to LOAD_BLOCK; by the latter if and only if the machine is in RAPID, or in LOAD_BLOCK or NO_MOTION with a rapid block as the first ahead that is not NO_MOTION; from IDLE, INTERP and GO_TO_ZERO at once |
| StopRequests.InterpStops | src/fsm.hpp:265-282 | a pending signal takes INTERP_MOTION to STOP |
| StopRequests.RapidNeverStops | src/fsm_impl.hpp:179-182 | RAPID_MOTION never goes to STOP: a pending signal is cleared and leads to LOAD_BLOCK |
| StopRequests.RunNoError | src/machine.cpp:218-257 | without an agent no run makes the error available |
| StopRequests.HomingNeedsBroker | src/fsm_impl.hpp:251-261 | a machine set up without an agent, however it was run before, stays in GO_TO_ZERO over any ticks without a signal, and stops at a signal |
| Arrivals.CommandLeaves | src/machine.cpp:218-257 | a command to an agent leaves the replied position, or the last one, and an error that is its distance from the setpoint, available exactly when all coordinates are; without an agent only the setpoint changes |
| Arrivals.RapidArrives | src/fsm_impl.hpp:158-185 | with an agent, a broker and no signal, RAPID_MOTION goes on to LOAD_BLOCK if and only if the squared distance of the reported position from the target is less than the squared tolerance, and else stays |
| Arrivals.HomingArrives | src/fsm_impl.hpp:251-261 | with an agent and no signal, GO_TO_ZERO goes to IDLE if and only if the reported position is that close to the machine zero, and else stays |
| Paths.CommandsAreWalk | src/fsm_impl.hpp:202-225 | the setpoints of an interpolated block are the points of `walk`, sample for sample, followed by its endpoint once more |
| Paths.CommandsSmooth | src/fsm_impl.hpp:191-229 | successive setpoints of a block are within (F/60 tq)^2 of each other if and only if at each tick the squared chord and the squared climb together are; they are for a block whose speed in space keeps within its feedrate, and so for every line |
| Paths.BlocksJoin | src/fsm_impl.hpp:191-229 | the last setpoint of a block and the first of the next are within (F/60 tq)^2 if and only if the block misses its target by no more; after a line they are the same point |
| Paths.RapidJoins | src/fsm_impl.hpp:158-229 | an interpolated block after a rapid move starts at the point that was commanded |
| Paths.StreamExact | src/fsm_impl.hpp:191-229 | the setpoints of consecutive interpolated blocks are smooth, joins included, if and only if at each tick of each block the squared chord and the squared climb together are within the reach, and no block misses its target by more than the next one's reach |
| Paths.StreamSmooth | src/fsm_impl.hpp:191-229 | over any run of consecutive lines any two successive setpoints, joins included, are within (F/60 tq)^2 for the later block's F; over blocks whose speed in space keeps within their feedrate that holds if and only if the joins do |
| Bends.StreamGradual | src/fsm_impl.hpp:191-229 | over any run of consecutive lines any three successive setpoints p, q, r have a second difference r - 2 q + p of length at most A tq^2, at repeated endpoints and joins too |
| Tolerance.ToleranceExact | src/fsm_impl.hpp:219-225 | the machine stays in INTERP_MOTION for a block of k ticks and goes to LOAD_BLOCK at tick k + 1 on every block clock that starts at 0 and drifts by less than `drift`, if and only if `drift` is at most tq/10 |
| Tolerance.DriftArrives | src/fsm_impl.hpp:219-225 | on such a clock the machine has sent the setpoints at its times, and the last of them is the point at progress 1 |
| Timers.UpdateDescribes | src/timer.hpp:224-240 | one update turns the two-pass mean and deviation of a list into those of the list with one more sample |
| Timers.DescribesUnique | src/timer.hpp:224-240 | the two-pass definitions leave no freedom in count, mean and deviation |
| Timers.Timer.UpdateStats | src/timer.hpp:224-240 | the fields describe the counted samples and the new one |
| Timers.Timer.Wait | src/timer.hpp:145-183 | which intervals are seen and which are counted, the result, and that the statistics still describe the counted ones and the extremes all seen ones |
| Timers.Timer.MeanBetween | src/timer.hpp:168-177 | once a sample is counted, min <= mean <= max |

## Left out

- Floating point: rounding, overflow, infinities and the propagation of values that are not numbers. The drift of the accumulated clock is the one place where rounding matters to the logic, and `Tolerance` models it explicitly.
- A zero length, a zero feedrate or an unplanned profile: such a block is `Unplanned`, and interpolating it is a failure of the tick; which garbage the original would command is not modelled.
- Text: splitting lines into words and converting arguments; a word carries what the conversions return, or that they throw.
- Files: opening and reading; a load is given the lines, or that there is no file.
- The machine's loading from TOML and JSON, its description, and `clear_command`.
- The messaging agent: publishing, receiving and metrics. A setpoint is stored, and the reply, if any, is an input.
- Keyboard, colours, log lines and the CSV text that the state functions print.
- The moment of a signal inside a tick: signals arrive between ticks.
- Operating system timers and scheduling, and the timer's task execution time, which both `wait` and `update_stats` write.
- The null program of a machine whose first load failed: the run stops at once, and the model keeps the empty program.
- Points are values, held by their owners; no two owners share one in the source.
- The machine pointer that a block stores on parsing: the model passes the machine to each method that reads it.
- A second parse of the same block: the radius left by the first makes a centre-form arc take the radius form.
- The convergence of GO_TO_ZERO, and of RAPID_MOTION while connected, which the simulator decides.
- The R binding, and the rest of the Python binding (summaries, conversions), which repeat the same logic.
- A failed non-append load through the binding leaves its cursor on a block that is gone; `Bindings.PyProgram.Load` says where the cursor is, and nothing is claimed of using it then.
- Blocks.Block.Interpolate: does not return the point of an arc without a centre, whose coordinates are not numbers in the original; it returns none.
- Fsms.Fsm.DoInterpMotion: does not command a point that is not a number, which the original does on a block whose profile has none; the tick fails.
- Blocks.Block.LambdaAt: does not cover a parsed block whose profile is not planned, on which the original divides zero by zero.
- Blocks.Block.Walk: does not cover such a block either, on which the original takes one sample that is not a number.
- FsmRuns.WholeRun: is stated for programs whose blocks have the types 0 to 4, because a block of another type ends a run early, in IDLE (`FsmFacts.LoadTick`).
- Profiles.PlanOptimal: compares profiles of the same three phases, not arbitrary motions.
