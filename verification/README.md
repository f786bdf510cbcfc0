# Verification of the cube-solving robot

The robot holds a cube between four arms. Each arm has a rail, which brings a gripper to
the cube or away from it, and a gripper with three calibrated orientations. A planner
compiles Singmaster moves into rail and gripper steps; a service drives those steps by
deadlines and publishes its state; a link carries requests, responses and events between
hosts and robot; a simulator and a second executor do parts of the same work independently.
This project models those parts and proves what ties them together.

- **Planner** (`MovePlanner`, `StepPlanner`). `Mechanics` states the one physical rule:
  with orientations numbered 0, 1, 2, a gripper on a closed rail turns what it holds by the
  difference of the numbers, a layer on its own and the whole cube when an opposing pair
  turns with the crossing rails away. A combination of turns outside that rule has no
  meaning, so a plan that runs at all is shown never to need one. `PlanMeaning`,
  `PlanSafety` and `PlanCost` prove meaning, safety, cost and minimality for every move
  list.
- **Cube** (`Geometry`, `Facelets`, `Simulator`, `CubeScan`, `ScanPlan`, `Cycle`). The exact
  integer cube of the simulator, its facelets, the scan that photographs all six sides, and
  the string given to the solver.
- **Service** (`Protocol`, `RobotService`, `ServiceProgram`). `RobotService` says what each
  request, local command and tick does to the service state; the class in `ServiceProgram`
  does it in place, method by method as the source does. Servo commands fail by a script
  that is a parameter of every run; camera, solver, clock and requests are parameters of
  every input. `ServiceWorld` adds the physical machine and the cube lying in it;
  `ServiceInvariants`, `ServiceEvents`, `ServiceCube` and `ServiceSafety` prove what holds
  in every state that a run from start-up can reach. `ServiceAdmission` says which requests
  are accepted, by the published snapshot alone; `ServiceTiming` ties the published axes to
  the command log and to the calibrated times; `ServiceScans` lets the captures decide how a
  scan ends; `ServiceProgress` says when a tick fails, what it publishes of the solver's
  answer, that every operation comes to its end, and how operations, sessions and scans are
  numbered.
- **Simulator's replay** (`Replay`, `ReplayRuns`, `ReplayService`). The
  reconstruction of logical moves from published statuses alone, for move sequences, for
  executed solutions and for the automatic cycle.
- **Link** (`Bits`, `Crc`, `Cobs`, `Wire`, `Bursts`, `StreamDecoder`, `PacketQueue`,
  `Gateway`, `GatewayLink`, `GatewayRuns`, `GatewayStreams`). From bits of the checksum to
  the bytes that a host reads back, and from an answer of the robot to the queue of the host
  that asked. A host may be connected by USB or by the network.
- **Second executor and button** (`StandRuntime`, `RuntimeSafety`, `OperatorButton`).

Where the program changes an object or an array in place, the project has a class or a
method on arrays whose contract equates its new state with a function of the old one; the
theorems are about that function. So the rows of `ServiceProgram` say no more than that each
method refines its function in `RobotService`; what the service guarantees is in the rows of
the other service modules, which speak of published snapshots, events, the command log and
the inputs. Times are natural
numbers of milliseconds. Identifiers are numbers below 2^32 with the source's wrap-around,
saturating additions saturate, bytes are numbers below 256 and the checksum register is
sixteen bits.

Six things that one might expect are not so, and are stated exactly instead:

- The pose `Open` does not promise perpendicular grippers after an execution
  (`PlanSafety.ReleasedGrippers`), although docs/ROBOT_OPERATION_WORKFLOWS.md:32 says so; the
  code (src/move_planner.rs:192) decides.
- Corruption within sixteen consecutive bits is not always detected, because the checksum is
  stored low byte first. For every packet, a window of sixteen bits lets some corruption
  through exactly when it holds 1 to 6, 8, 10 or 12 to 15 bits of the message and the rest of
  its bits in the checksum behind it; payloads of at most one byte have fewer such windows
  (`Bursts.BurstDetectedExactly`).
- Draining the gateway at the last representable millisecond may never end
  (`GatewayRuns.DrainEndsExactly`).
- An event that does not fit in the queue of the USB host does not reach the network either
  (`GatewayRuns.EventIsDelivered`).
- The simulator's view takes the moves of an executed solution exactly when nothing else is
  left to be read in it (`ReplayService.TakenExactly`); but once it has shown them all it
  expects them all again (`ReplayService.MovesAreExpectedAgain`), so the next solution is read
  against the last one (`ReplayService.NextSolutionIsMisread`) unless an automatic cycle or a
  new set of moves comes between.
- The view of an automatic cycle follows the cube provided that the solver answers in a later
  tick than the one that ends the scan; otherwise it still has the cube in the frame of the
  last photograph (`ReplayService.AnsweredAtOnceIsMisread`).

## Model

| member | source | states |
|---|---|---|
| StepPlanner.Planner.FlushGrippers | src/move_planner.rs:311-339 | appends the regrip of the given grippers and cleans exactly their flags |
| StepPlanner.Planner.LazyDirectTurn | src/move_planner.rs:263-302 | regrips a dirty gripper first, appends the turn, and leaves the gripper dirty |
| StepPlanner.Planner.Reorient | src/move_planner.rs:457-501 | appends a whole-cube turn, with the flush of dirty left/right grippers fused in, and changes the frame |
| StepPlanner.OptimizedSteps | src/move_planner.rs:130-201 | the planner loop yields the plan that the theorems are about, and its held plan runs from canonical grip to canonical grip with the cube moved as requested, for every cube |
| StepPlanner.BaselineSteps | src/move_planner.rs:76-128 | the same for the baseline planner |
| PlanMeaning.OptimizedHeldMeaning | src/move_planner.rs:130-201 | for every move list and cube, the optimised held plan is safe throughout and ends in canonical grip, without net rotation, with the cube as the moves in order leave it |
| PlanMeaning.OptimizedEquivalentToBaseline | src/move_planner.rs:76-134 | the optimised and the baseline plan of every move list end in the same machine |
| PlanSafety.HeldPlanSafeAtEveryPrefix | src/move_planner.rs:771-818 | after every prefix of every held plan and during every step, an opposing pair of rails holds the cube, no two adjacent near grippers are parallel, and outputs stay on |
| PlanSafety.ExecutePlanSafe | src/robot_service.rs:1972-1976 | an execute plan never collides up to and including its last step, keeps custody until the final release, and ends with all rails open and the cube as the moves leave it, up to the frame's rotation |
| PlanSafety.OpenPlanSafe | src/move_planner.rs:203-209 | the orderly release of a canonically held cube, step by step |
| PlanSafety.ReleasedGrippers | src/move_planner.rs:190-201 | an executed plan leaves all grippers perpendicular exactly when it made no move |
| PlanSafety.MarkerMeaning | src/move_planner.rs:150-189 | when the i-th completion marker of a held or execute plan is passed, all rails are closed and the cube has exactly the first i moves done |
| PlanSafety.MarkersCountMoves | src/move_planner.rs:150-201 | every plan has exactly one completion marker for each move |
| PlanSafety.PlansFit | src/robot_service.rs:694-696 | the held and the execute plan of every move list have at most 21 steps a move and a constant more |
| PlanCost.OptimizedNeverSlower | src/move_planner.rs:211-223 | for every move list and calibration the optimised held plan takes at most the baseline's estimated time |
| PlanCost.OptimizedNeverMoreTargets | src/move_planner.rs:225-235 | and commands at most as many servo targets |
| PlanCost.ReorientationsMinimal | src/move_planner.rs:437-501 | its number of whole-cube turns is the least among all frame schedules that do front/back rotated, left/right canonical, and start and end canonical |
| Geometry.RotateQuarterIsQuarter | src/sim_server.rs:573-594 | the simulator's cross-product formula is a quarter turn of coordinates about the face normal |
| Simulator.ServerCube.constructor | src/sim_server.rs:540-561 | a new cube is the solved cube |
| Simulator.ServerCube.ApplyMove | src/sim_server.rs:603-616 | turning a face turns exactly the cubies in its layer, by any signed number of quarters |
| Simulator.ServerCube.Facelets | src/sim_server.rs:643-675 | writes all 54 cells with the stickers that face outward |
| Simulator.MovesKeepArrangement | src/sim_server.rs:603-641 | over every move list the cubies occupy the 26 positions once each, with a proper rotation that takes home to position |
| Simulator.EveryCubeIsBalanced | src/sim_server.rs:617-675 | every turned cube shows nine stickers of each face and keeps its centres |
| Simulator.InverseRestores | src/sim_server.rs:1950-1995 | undoing the moves of any list in reverse order restores any cube |
| Facelets.LayerTurnPermutesView | src/sim_server.rs:603-675 | a layer turn permutes the visible stickers by a permutation that does not depend on the cube |
| Facelets.MovesPermuteView | src/sim_server.rs:643-675 | so what a cube shows after moves depends only on what it showed before |
| CubeScan.CubeState.RecordScan | src/cube.rs:200-212 | files a face rotated into place, and refuses a face that is already there |
| CubeScan.FaceletString | src/cube.rs:214-263 | succeeds exactly for six recorded faces with distinct centres and nine stickers of each colour, names each sticker by the face whose centre has its colour, and otherwise reports the first fault: the first missing face, else the first repeated centre, else the first miscounted colour |
| CubeScan.NamesUnique | src/cube.rs:214-263 | only one string can name the stickers of a scan |
| CubeScan.ScanReadsCube | src/cube.rs:214-263 | for every injective colouring of a balanced cube the scan is accepted and its string is the cube's own facelets, so it does not depend on the colouring |
| CubeScan.SimulatorScanAccepted | src/sim_server.rs:1167-1190 | the scan of every cube reachable by moves is accepted |
| ScanPlan.ScanShowsEveryFace | src/robot_service.rs:1869-1905 | the scan plan is safe at every step, photographs each of the six faces upright, and ends in canonical grip with the cube as it was |
| ScanPlan.ScanPrefix | src/robot_service.rs:1869-1905 | every prefix of the scan runs and is safe |
| Cycle.CycleSolves | src/robot_service.rs:1907-1941 | scan, honest solution and execution of any cube leave it solved up to a rotation of the whole cube |
| ServiceProgram.RobotService.HandlePacket | src/robot_service.rs:326-346 | answers from the cache or dispatches and caches, and drains the events |
| ServiceProgram.RobotService.HandleLocal | src/robot_service.rs:351-392 | the button's commands go through the same admission |
| ServiceProgram.RobotService.Tick | src/robot_service.rs:394-408 | motion, scan, solve and execution advance in that order |
| ServiceProgram.RobotService.AdvanceMotion | src/robot_service.rs:922-940 | runs the phase that is due, and enters a fault when its servo command fails |
| ServiceProgram.RobotService.GripFinishRails | src/robot_service.rs:1594-1620 | ends a grip in canonical grip with a new session |
| ServiceProgram.RobotService.AdvanceScan | src/robot_service.rs:942-1056 | ends the step in motion, or finishes, or photographs, or starts the next step |
| ServiceProgram.RobotService.Capture | src/robot_service.rs:994-1041 | records a recognised face, or remembers the first failure |
| ServiceProgram.RobotService.FinishScan | src/robot_service.rs:1166-1244 | publishes a valid or invalid scan and completes, fails or begins to solve |
| ServiceProgram.RobotService.AdvanceSolve | src/robot_service.rs:1246-1338 | publishes the solver's answer, and in the automatic cycle begins to execute it |
| ServiceProgram.RobotService.AdvanceExecute | src/robot_service.rs:1340-1429 | ends the step in motion, or finishes, or starts the next step |
| ServiceProgram.RobotService.FinishExecute | src/robot_service.rs:1431-1474 | a move sequence ends in canonical grip; everything else ends open without a session |
| ServiceProgram.RobotService.LongestTurn | src/robot_service.rs:1105-1125 | the most quarter turns that any posed gripper has to make, and at least one |
| ServiceProgram.RobotService.Abort | src/robot_service.rs:1714-1745 | everything about cube and stand is forgotten, or a fault is entered when the outputs stay on |
| ServiceProgram.RobotService.EnterFault | src/robot_service.rs:1747-1775 | the same with the fault published |
| ServiceProgram.RobotService.StartMotion | src/robot_service.rs:844-920 | admits recovery whenever nothing runs, and gripping only from a ready open stand; the answer gives the first reason against it |
| ServiceProgram.RobotService.StartScanOperation | src/robot_service.rs:487-548 | admission of a scan, with the first reason against it |
| ServiceProgram.RobotService.StartSolve | src/robot_service.rs:550-616 | admission of a solve |
| ServiceProgram.RobotService.StartExecute | src/robot_service.rs:643-721 | admission of an execution |
| ServiceProgram.RobotService.StartExecuteMoves | src/robot_service.rs:723-783 | admission of a move sequence |
| ServiceProgram.RobotService.StartOpen | src/robot_service.rs:785-835 | admission of opening |
| ServiceProgram.RobotService.CacheResponse | src/robot_service.rs:1812-1823 | enters a response in a cache of sixteen, oldest out first |
| ServiceInvariants.ReachableStatesRest | src/robot_service.rs:272-287 | in every state of every run: busy exactly while one slot is filled and published with its identifier and kind, scan and solution data inside a session and of one revision, counters that add up to their totals, and a valid snapshot |
| ServiceInvariants.RepeatChangesNothing | src/robot_service.rs:326-346 | in every reachable state a repeated request gets the identical response and changes nothing |
| ServiceInvariants.FreshRequestEntersCache | src/robot_service.rs:1812-1823 | in every reachable state the cache holds at most sixteen distinct requests and a fresh one enters at its end |
| ServiceEvents.EveryOperationEndsOnce | src/robot_service.rs:326-408 | over every run the accepted operations are, in order and each once, those whose end was announced followed by the active one |
| ServiceCube.RunsAreMechanical | src/robot_service.rs:922-1712 | in every reachable state the published rails and grippers are those of the machine, which stands exactly where the rest of the running plan says |
| ServiceCube.FairRunsAreFaithful | src/robot_service.rs:1166-1338 | with a camera and a solver that do not lie, everything published about the cube is true of the held cube in every reachable state |
| ServiceSafety.OneKindMovesAtATime | src/robot_service.rs:1058-1158 | in every reachable state rails and grippers never move together, and nothing moves unless busy |
| ServiceSafety.ReadyMeansAtRest | src/robot_service.rs:1431-1620 | in every reachable ready state, a session means canonical grip with rails at the cube and grippers perpendicular, and open means all rails open and no session |
| ServiceSafety.CustodyIsPublished | src/robot_service.rs:844-1474 | in every reachable state with a session, some opposing pair is published closed and at rest, but for the last two steps of a release |
| ServiceSafety.StepInMotionIsSafe | src/robot_service.rs:942-1056 | in every reachable state the step in motion cannot collide, and holds the cube unless it is being given away |
| ServiceSafety.ValidScanIsHeldCube | src/robot_service.rs:1166-1180 | in every ready state of a fair run a valid scan is, face by face, the cube that is held |
| ServiceSafety.CompletionMeansSolved | src/robot_service.rs:1431-1474 | whenever an execution of a solution is reported complete in a fair run, the stand is open and the cube is solved up to a rotation of the whole cube |
| ServiceAdmission.RequestsAreAnswered | src/robot_service.rs:421-920 | in every reachable state a fresh request is accepted if and only if the published snapshot admits it: a scan, solve, execution, move sequence or opening needs a ready robot, the current session, canonical grip and whatever else its kind names, and an accepted operation gets a new identifier and is published; otherwise nothing changes and the first reason against it is given |
| ServiceAdmission.ButtonIsAnswered | src/robot_service.rs:351-392 | the button's commands are answered by the same rules |
| ServiceAdmission.UndecodableAnswered | src/robot_service.rs:421-462 | a packet that is no request, has no identifier or does not decode is refused, and changes nothing but the cache |
| ServiceAdmission.ScansAreKnown | src/robot_service.rs:570-592 | in every reachable state a published valid scan can be rebuilt and named for the solver |
| ServiceAdmission.AbortForgets | src/robot_service.rs:1714-1775 | an abort switches everything off and forgets cube, session and activity; when the driver refuses it tries once more and the robot is faulted |
| ServiceTiming.StandIsAsCommanded | src/robot_service.rs:1058-1158 | in every reachable state a moving rail is powered and on its way to where it was commanded last, a rail at rest is where it was sent and released, and a gripper is where, or on its way to where, it was sent |
| ServiceTiming.RailsGetTheirTime | src/robot_service.rs:942-1103 | in every reachable state a tick ends the motion of a rail exactly when the calibrated time to its target has passed since the tick that began it; then the rail is published there, or the robot has faulted |
| ServiceTiming.GrippersGetTheirTime | src/robot_service.rs:1105-1158 | the same for a gripper, with the pose time for each quarter turn of the moving gripper that has the farthest to go, and for one at least |
| ServiceTiming.RequestsMoveNothing | src/robot_service.rs:326-392 | requests leave every axis as it is, or give everything up |
| ServiceScans.CapturesDecideScan | src/robot_service.rs:994-1244 | over every run, the tick that ends a scan publishes it valid, and reports completion or begins to solve, exactly when its six captures, one of each face, were seen with all stickers named and make an acceptable cube; otherwise invalid, with the error of the first failed capture |
| ServiceScans.GoodCapturesAreValid | src/robot_service.rs:1166-1244 | in every fair run, six captures with all stickers named make a valid scan, and the automatic cycle gives the solver the facelets of the held cube |
| ServiceScans.FirstErrorIsFirst | src/robot_service.rs:1018-1041 | the published error is that of the first capture that failed |
| ServiceProgress.FaultsAreFailures | src/robot_service.rs:922-1056 | in every reachable state a tick publishes a fault exactly when a servo command in it fails, and then the last command switches everything off |
| ServiceProgress.AnswersArePublished | src/robot_service.rs:1246-1338 | in every reachable state in which the solver is at work, a tick publishes its answer: the moves under a new identifier for the scan's revision, prepared or carried out by the automatic cycle, or a failure that ends the operation |
| ServiceProgress.OperationsEnd | src/robot_service.rs:394-408 | from every reachable state with an operation, ticks that come the longest motion apart, twice as many as actions are left and those of the solution in an automatic cycle, bring it to its end with the robot ready, as long as the driver does not fail and the solver answers |
| ServiceProgress.EndsAreReported | src/robot_service.rs:1431-1474 | in every reachable state, a tick that ends a motion or an execution and leaves the robot ready reports it complete, and leaves stand, session, scan and solution as the kind of the operation promises |
| ServiceProgress.NumbersAreConsecutive | src/robot_service.rs:512-518 | over every run operations, sessions and scans are numbered from one, each with the next number, and zero is left out when they wrap around |
| Replay.VisualReplay.SetExpected | src/sim_server.rs:210-226 | sets the moves to look for and forgets what was seen of the axes |
| Replay.VisualReplay.ApplyStatus | src/sim_server.rs:240-402 | one status changes the view, and completes at most one move, as the theorems assume |
| ReplayRuns.HeldPlanIsRead | src/sim_server.rs:317-402 | watching every step of any held plan begin and end shows each requested move once, in order and without a violation, and ends in the canonical frame |
| ReplayRuns.ExecutePlanIsRead | src/sim_server.rs:317-402 | the same for every plan that ends in the release, whose last turn comes just before its last marker |
| ReplayService.MovesAreReplayed | src/sim_server.rs:209-402 | from every reachable state, for every accepted move sequence and every input after it, the changed statuses make the view animate exactly the requested moves in order without a violation, and at completion it displays the cube that the robot holds |
| ReplayService.SolutionIsReplayed | src/sim_server.rs:254-402 | from every reachable state without an operation, whatever input begins the execution of a solution there and whatever follows, a view with nothing left to read animates exactly the published moves in order without a violation, and at completion it has animated all of them and displays the cube that was let go |
| ReplayService.CycleIsReplayed | src/sim_server.rs:254-402 | for every automatic cycle nothing is animated until its solution is published, whatever the view expected before; from then on the published moves are animated in the same way, provided that the solver answers in a later tick than the scan's last |
| ReplayService.TakenExactly | src/sim_server.rs:279-288 | the view takes the moves of an accepted solution exactly when nothing else is left to be read in it |
| ReplayService.MovesAreExpectedAgain | src/sim_server.rs:279-288 | once all moves of a solution are shown, the next status of the execution makes the view expect them all again |
| ReplayService.NextSolutionIsMisread | src/sim_server.rs:338-350 | a left turn is a violation for a view that has a right turn left to read |
| ReplayService.AnsweredAtOnceIsMisread | src/sim_server.rs:241-252 | a left turn is a violation for a view that has not seen the cube canonical after the last photograph |
| Crc.Crc16 | crates/rubik-link-protocol/src/crc.rs:5-20 | the byte and bit loops compute the checksum |
| Crc.WordIsRegister | crates/rubik-link-protocol/src/crc.rs:5-20 | the word register and the sixteen-bit shift register agree, bit by bit of the message |
| Crc.ChecksumBalances | crates/rubik-link-protocol/src/crc.rs:5-20 | a message and its checksum together have an even number of ones |
| Crc.ChecksumDifference | crates/rubik-link-protocol/src/crc.rs:5-20 | the checksums of two messages differ by a function of the messages' difference alone |
| Crc.BurstChangesChecksum | crates/rubik-link-protocol/src/crc.rs:5-20 | messages that differ only within sixteen consecutive bits have different checksums |
| Crc.RegisterIsFeedback | crates/rubik-link-protocol/src/crc.rs:5-20 | every bit of the register that takes a message from zero is the sum of three bits that say when the polynomial was added |
| Cobs.Encode | crates/rubik-link-protocol/src/cobs.rs:7-40 | fills the output with the encoding, or fails, touching nothing, exactly when the output is shorter than the published bound |
| Cobs.Decode | crates/rubik-link-protocol/src/cobs.rs:42-80 | stays in bounds on any input and yields the decoding or the error that the first fault asks for |
| Cobs.EncodedLength | crates/rubik-link-protocol/src/cobs.rs:3-5 | an encoding is longer than its input and within the published bound |
| Cobs.EncodedHasNoZeros | crates/rubik-link-protocol/src/cobs.rs:7-40 | encodings contain no zero byte |
| Cobs.RoundTrip | crates/rubik-link-protocol/src/cobs.rs:7-80 | decoding inverts encoding for every byte string |
| Cobs.CanonicalTexts | crates/rubik-link-protocol/src/cobs.rs:42-80 | an accepted text encodes back to itself exactly when it has no zero byte and does not end in a full block |
| Cobs.NonCanonicalTexts | crates/rubik-link-protocol/src/cobs.rs:42-80 | texts that are accepted and encode back to something else |
| Wire.EncodePacket | crates/rubik-link-protocol/src/wire.rs:61-82 | writes the packet's encoding, or fails exactly when the payload is too large or the output too small |
| Wire.ParseUartFrame | crates/rubik-link-protocol/src/wire.rs:137-144 | parses a frame within the caller's buffer |
| Wire.FramePublicSizes | crates/rubik-link-protocol/src/wire.rs:5-13 | every packet can be framed within the public buffer sizes |
| Wire.PacketRoundTrip | crates/rubik-link-protocol/src/wire.rs:61-118 | decoding inverts encoding for every packet of at most 1024 payload bytes |
| Wire.PacketLayout | docs/ROBOT_CONTROL_PROTOCOL.md:186-199 | every byte of an encoded packet by its offset: version, kind, and little-endian opcode, request identifier, length and checksum |
| Wire.AcceptedIsEncoding | crates/rubik-link-protocol/src/wire.rs:84-118 | every accepted input is the encoding of the packet it decodes to |
| Wire.EncodedIsEven | crates/rubik-link-protocol/src/wire.rs:61-82 | every encoded packet has an even number of ones |
| Wire.OddCorruptionRejected | crates/rubik-link-protocol/src/wire.rs:84-118 | corruption that flips an odd number of bits anywhere in any encoded packet is rejected |
| Bursts.BurstRejected | crates/rubik-link-protocol/src/wire.rs:84-118 | corruption of an encoded packet within sixteen consecutive bits is rejected unless it touches both checksum and message |
| Bursts.BurstDetectedExactly | crates/rubik-link-protocol/src/wire.rs:61-118 | for every packet and every window of sixteen bits, all corruption within the window is rejected if and only if the window lies on one side of the boundary before the checksum, or holds 7, 9 or 11 bits of the message, or the payload is empty, or it is one byte and the window holds more than 8 bits of the message |
| Bursts.StraddleEvades | crates/rubik-link-protocol/src/wire.rs:61-82 | for every packet and every other window there is another packet whose encoding differs from the first only within the window |
| Wire.FrameRoundTrip | crates/rubik-link-protocol/src/wire.rs:120-144 | every packet's frame fits the public size, has its only zero at the end, and parses back |
| StreamDecoder.UartStreamDecoder.Push | src/robot_link.rs:130-175 | one byte is what cutting the stream at zeros says, whatever came before |
| StreamDecoder.UartStreamDecoder.PushAll | src/robot_daemon.rs:210-227 | any number of bytes taken one by one yield the results of cutting the stream at zeros |
| StreamDecoder.ResumesAfterGarbage | src/robot_link.rs:129-175 | after any bytes that end in a zero, the frames of every packet list bring exactly that list |
| StreamDecoder.OneReportPerPiece | src/robot_link.rs:130-175 | a stream brings exactly one result for each non-empty piece that a delimiter closes |
| StreamDecoder.GatewayStoresWireBytes | crates/rubik-link-gateway/src/lib.rs:165-199 | the bytes that the gateway keeps of a packet are the bytes that were on the wire |
| PacketQueue.PacketQueue.Push | crates/rubik-link-gateway/src/lib.rs:105-113 | a ring buffer appends at its end unless it is full |
| PacketQueue.PacketQueue.Pop | crates/rubik-link-gateway/src/lib.rs:115-123 | and removes at its front |
| PacketQueue.PacketQueue.RemoveRequestId | crates/rubik-link-gateway/src/lib.rs:133-145 | rotating through the ring removes the first match only and keeps the order |
| PacketQueue.RemoveFirstMeaning | crates/rubik-link-gateway/src/lib.rs:133-145 | what removing the first match means by position |
| PacketQueue.RequestRoutes.Insert | crates/rubik-link-gateway/src/lib.rs:225-241 | adds a route unless the identifier is taken or the table is full |
| PacketQueue.RequestRoutes.RemoveFor | crates/rubik-link-gateway/src/lib.rs:251-262 | removes a route only for its own upstream |
| Gateway.Gateway.RouteUpstreamRequest | crates/rubik-link-gateway/src/lib.rs:410-449 | admits a request with its route, and takes the route back when the queue is full |
| Gateway.Gateway.RouteDuoPacket | crates/rubik-link-gateway/src/lib.rs:451-491 | responses go to the upstream of their route, events to the network and to the owner |
| Gateway.Gateway.DequeueDuoUartFrame | crates/rubik-link-gateway/src/lib.rs:330-355 | takes the next packet for the robot and frames it; with too little room for the encoder's bound it fails and the packet is gone, and with a public frame buffer it never fails |
| Gateway.Gateway.DequeueUsbFrame | crates/rubik-link-gateway/src/lib.rs:357-363 | the same for the next packet of the USB host |
| Gateway.Gateway.DequeueNetworkPacket | crates/rubik-link-gateway/src/lib.rs:367-380 | hands out the encoding of the next packet of the network, which stays queued when it does not fit |
| Gateway.Gateway.CancelNetworkRequest | crates/rubik-link-gateway/src/lib.rs:388-404 | forgets a network request wherever it is |
| GatewayLink.Link.PushUsbByte | crates/rubik-link-gateway/src/lib.rs:300-307 | a byte of the USB stream routes the packet it completes and leaves the other stream alone |
| GatewayLink.Link.PushDuoByte | crates/rubik-link-gateway/src/lib.rs:320-328 | the same for the robot's stream |
| GatewayLink.Link.PushNetworkPacket | crates/rubik-link-gateway/src/lib.rs:309-312 | a network packet is routed exactly when it decodes |
| GatewayRuns.ResponsesAnswerRequests | crates/rubik-link-gateway/src/lib.rs:214-260 | in every run every response that is routed answers a request accepted from that upstream and not since answered or cancelled, each request is answered at most once, and routes and queues stay within capacity |
| GatewayRuns.DeliveryIsOwned | crates/rubik-link-gateway/src/lib.rs:451-505 | what one packet of the robot adds to an upstream's queue is its own answer or an event |
| GatewayRuns.DeliveriesAreAnswers | crates/rubik-link-gateway/src/lib.rs:451-505 | in every run the responses delivered to an upstream are, in order, among the answers to its own requests |
| GatewayRuns.ResponseIsDelivered | crates/rubik-link-gateway/src/lib.rs:451-505 | in every run a response is added to the queue of the upstream whose outstanding request it answers when fewer than four packets wait there, and to no other queue; the robot's link is told of one that is not wanted or does not fit |
| GatewayRuns.AllAnswersDelivered | crates/rubik-link-gateway/src/lib.rs:451-505 | in every run in which no such queue was full, the responses delivered to an upstream are exactly the answers to its requests |
| GatewayRuns.EventIsDelivered | crates/rubik-link-gateway/src/lib.rs:472-491 | in every run an event reaches the USB host when the operation accepted last is its own and has not ended, and the network in any case, as far as fewer than four packets wait |
| GatewayRuns.RequestsAreAccepted | crates/rubik-link-gateway/src/lib.rs:410-449 | in every run a request is accepted, and queued behind the others of its urgency, or refused for exactly the stated reasons |
| GatewayRuns.CancellationIsHeeded | crates/rubik-link-gateway/src/lib.rs:388-404 | in every run a cancellation is heeded exactly for an outstanding request of the network, which then leaves the queues to the robot and the pending abort and is no longer outstanding |
| GatewayRuns.DeliveredInOrder | crates/rubik-link-gateway/src/lib.rs:357-380 | in every run an upstream collects what is delivered to it, in order and once |
| GatewayRuns.NormalsLeaveInOrder | crates/rubik-link-gateway/src/lib.rs:330-355 | in every run normal requests leave at most once and in acceptance order, and all of them do if none is cancelled |
| GatewayRuns.PendingAbortIsLatest | crates/rubik-link-gateway/src/lib.rs:343-353 | in every run the pending abort is the latest that left and was neither answered nor cancelled, due 100 ms after it left last |
| GatewayRuns.AbortsLeaveFirst | crates/rubik-link-gateway/src/lib.rs:330-355 | in every run a queued abort leaves next, else a due retry, else a normal request |
| GatewayRuns.DrainEnds | crates/rubik-link-gateway/src/lib.rs:330-355 | a drain at one moment that can end does so within one frame per queued packet and one retry |
| GatewayRuns.DrainEndsExactly | crates/rubik-link-gateway/src/lib.rs:330-355 | in every reachable state it ends exactly when the moment is not the last representable one or no abort is queued or pending |
| GatewayRuns.DrainAtLastMoment | crates/rubik-link-gateway/src/lib.rs:347-352 | a run that reaches the moment at which it does not end |
| GatewayRuns.SentFramesDecode | crates/rubik-link-gateway/src/lib.rs:507-515 | in every run, every packet that leaves for the robot was accepted before it left, and its frame fits the public size and parses to that packet |
| GatewayStreams.StreamsAreRouted | crates/rubik-link-gateway/src/lib.rs:300-328 | for every interleaving of bytes, the requests routed for the USB host are exactly the packets of its stream, and the robot's packets those of the other |
| GatewayStreams.FramedRequestsAreRouted | crates/rubik-link-gateway/src/lib.rs:300-307 | a host that frames its requests after any garbage has exactly them routed |
| GatewayStreams.CollectedFramesDecode | crates/rubik-link-gateway/src/lib.rs:357-364 | the host reads back exactly the packets it has collected |
| GatewayStreams.HearUsb | crates/rubik-link-gateway/src/lib.rs:300-307 | the running gateway stays where the signals so far have brought its core |
| GatewayStreams.HearDuo | crates/rubik-link-gateway/src/lib.rs:320-328 | the same for the robot's bytes |
| GatewayStreams.HearNetwork | crates/rubik-link-gateway/src/lib.rs:309-312 | the same for a packet of the network |
| GatewayStreams.SendDuo | crates/rubik-link-gateway/src/lib.rs:330-355 | the same when a frame is taken for the robot; it is the frame of the packet that the core has next |
| GatewayStreams.SendUsb | crates/rubik-link-gateway/src/lib.rs:357-363 | the same for the USB host |
| GatewayStreams.SendNetwork | crates/rubik-link-gateway/src/lib.rs:367-380 | the same for the network host |
| GatewayStreams.CancelNetwork | crates/rubik-link-gateway/src/lib.rs:388-404 | the same when a request of the network is given up |
| StandRuntime.StandRuntime.ResetRuntime | src/stand_runtime.rs:129-139 | switches everything off and forgets the pose, or faults; succeeds exactly when the command does |
| StandRuntime.StandRuntime.OpenSafely | src/stand_runtime.rs:147-164 | opens all rails and straightens all grippers, or faults at the first failed command; like every operation it succeeds exactly when its state admits it and no command fails |
| StandRuntime.StandRuntime.GripCube | src/stand_runtime.rs:166-186 | opens safely if need be and closes all rails, and refuses in a scan pose; says whether it succeeded |
| StandRuntime.StandRuntime.EnterScanPose | src/stand_runtime.rs:188-221 | goes from the grip into any scan pose, and says whether it did |
| StandRuntime.StandRuntime.NextScanPose | src/stand_runtime.rs:223-385 | goes between scan poses by the verified transitions only, and says whether it did |
| StandRuntime.StandRuntime.FinishScanOpen | src/stand_runtime.rs:387-399 | returns from the last scan pose only and opens all rails, and says whether it did |
| StandRuntime.StandRuntime.FinishScanHeld | src/stand_runtime.rs:401-449 | returns to the grip from the last scan pose only, and says whether it did |
| StandRuntime.StandRuntime.ExecuteProbeMove | src/stand_runtime.rs:451-480 | performs one move from the grip and returns to it, and says whether it did |
| RuntimeSafety.MemoryTellsPosture | src/stand_runtime.rs:92-145 | over every sequence of calls with any failures, the remembered state determines where every rail and gripper was commanded |
| RuntimeSafety.CallsKeepCustody | src/stand_runtime.rs:188-480 | over every sequence of calls, scan poses, transitions, the hand-over and probe moves start where the servos stand and never drop the cube or collide, wherever they fail |
| RuntimeSafety.HoldingCallsAreSafe | src/stand_runtime.rs:188-480 | and when they succeed everything stands where the new state says, with the cube turned by a probe's move only |
| RuntimeSafety.CallsGoThrough | src/stand_runtime.rs:129-480 | as long as the driver does not fail, a call that is meant for the remembered state ends in the state that it names, and any other call commands nothing and changes nothing |
| RuntimeSafety.WholeScanGoesThrough | src/stand_runtime.rs:36-57 | from power-up the scan of all six faces goes through, pose by pose, and ends with the cube in the grip |
| RuntimeSafety.ScanHoldShowsFace | src/stand_runtime.rs:36-57 | over every sequence of calls the camera sees the named face upright in every scan pose, past a pair that does not cover it |
| RuntimeSafety.FaultStopsMotion | src/stand_runtime.rs:491-518 | over every sequence of calls nothing is commanded between a fault and a reset |
| RuntimeSafety.ResetsOnlySwitchOff | src/stand_runtime.rs:129-139 | until a reset succeeds only attempts to switch everything off are commanded, and only a successful reset ends a fault |
| RuntimeSafety.FailureEndsPerformance | src/stand_runtime.rs:506-518 | a motion succeeds throughout or ends with its first failure and one attempt to switch off |
| RuntimeSafety.ProbesFollowBaseline | src/stand_runtime.rs:451-480 | probing moves one by one commands the servos exactly as the baseline plan of the whole list, and succeeds exactly when that does |
| OperatorButton.OperatorButton.Poll | src/operator_button.rs:208-264 | one sample changes the button and may yield a command, as the theorems assume |
| OperatorButton.OperatorButton.UpdateDebounce | src/operator_button.rs:281-304 | a level counts once it has lasted the debounce time |
| OperatorButton.OperatorButton.CommandFinished | src/operator_button.rs:266-279 | what is to follow a command depends on its outcome |
| OperatorButton.PressesAreApart | src/operator_button.rs:281-304 | over every ascending sample sequence two presses are at least twice the debounce time apart |
| OperatorButton.PressIsHeldAndFresh | src/operator_button.rs:281-304 | a press has been held for the debounce time and follows a release, so a button held from the start never fires |
| OperatorButton.PressYieldsAtMostTwo | src/operator_button.rs:208-279 | each press yields at most two commands |
| OperatorButton.PressesAreReported | src/operator_button.rs:281-304 | over ascending samples a press is reported exactly when the button has been held for the debounce time and the level settled before was a release |
| OperatorButton.PressAsksFor | src/operator_button.rs:306-318 | in every reachable state a press aborts exactly when an operation is active, grips exactly when the stand is ready and open, and recovers otherwise |
| OperatorButton.GripIsFollowed | src/operator_button.rs:208-279 | a grip that the button has started is followed by the automatic cycle of its session when it completes |
| OperatorButton.AbortIsFollowed | src/operator_button.rs:208-279 | an abort that the button has started is followed by a recovery at the next sample that shows it done |
| OperatorButton.CommandsAreAdmissible | src/operator_button.rs:306-318 | in every reachable state of the service the button's command is one that the service accepts |

## Left out

- Camera, image processing and recognition: the camera is an oracle that may fail; it is trusted to name true colours only where a theorem says so.
- The two-phase solver: an oracle that may never answer, fail, or return moves that solve its string; the worker thread is a tick at which its answer arrives.
- Interpolated rail and gripper positions, `CubePresentation`, `SimState` and the distance thresholds of the simulator's collision test: the discrete adjacency rule is used.
- Pulse widths and channel numbers: a servo command names rails or grippers and a position, and may fail; calibration files and their validation are not modelled.
- The eight physical axes appear as four sides, each with a rail and a gripper; tables between axes, channels and names are not modelled.
- `shutdown`, `into_inner`, logging and the daemon's loop.
- Colour counts, the camera's copy of a face and the plan preview in the published status; sticker confidences.
- Payload encoding: a decoded command is part of the packet, which may also fail to decode; packing of move sequences is not modelled.
- Queues of the gateway hold packets rather than their bytes; `StreamDecoder.GatewayStoresWireBytes` is why nothing is lost by that. The names for Bluetooth are the network's.
- HTTP, event streams, sessions of the web server, Wi-Fi, serial ports, GPIO and memory-mapped registers.
- The client's view of the session: recovery and faults end a session without an event, so no claim is made that a client can follow it from events.
- Notation parsing, post-processing and the robot client.
