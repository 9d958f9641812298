# Verified models of openpilot components

This project models the parts of openpilot whose correctness is more than a table lookup, and proves what
each of them is for. Every `.dfy` file holds one module.

| module | what it models |
|---|---|
| `PandaCan` (with `Bytes`) | the CAN wire codec between pandad and the panda: message packing with XOR checksums into a bounded send buffer, and reassembly of frames from arbitrarily cut reads in a fixed receive buffer |
| `Rotations`, `RotationMeaning` | quaternions, rotation matrices and Euler angles over the real numbers, and local NED frames; and what these stand for: the sense of the turns, what the conversions to Euler angles read, where the frames point |
| `FftSize` | the search for the next good FFT size |
| `EsimTlv`, `BppSplitter`, `EsimCommands` | the BER-TLV codec of the eSIM profile assistant, the BoundProfilePackage splitter, APDU segmentation and telephony BCD |
| `DriverMonitoring`, `MonitoringSteps`, `MonitoringRuns` | the driver-monitoring policy as a class against a step function, what each step does and when, and its properties over whole runs |
| `Engagement` | the engagement state machine and its soft-disable timer, over whole runs |
| `ObdHandshake` | the OBD-multiplexing handshake of card and pandad, as interleaved parameter accesses and panda commands |
| `ParamsWriter` | parameters as files: puts as sequences of system calls, the queue, the on-demand writer task, and concurrent readers |
| `BlockAverage`, `RunningStat` | two constant-memory statistics, proved equal to the ones over all the data |
| `Soundd` | alert sounds cut into audio callbacks |
| `Glossary` | linking glossary terms in a page |
| `ScanDir` | the pruned directory walk |
| `Wrappers`, `Sequences`, `Reals` | what several modules share: optional values, flattening of sequences, sums and products of reals |

Code that updates state is modelled by classes and methods with loops; each is tied by its `ensures` to a
function of the old state, and the properties are proved about that function. Protocols are state machines
whose steps are single shared accesses. `dafny verify dfyconfig.toml` checks everything.

## Findings

Where something one might expect of the code holds only under a condition, the condition is proved.

- **Lockout end** (`openpilot/selfdrive/monitoring/policy.py:322-328, 367-371`). The step that ends a lockout
  leaves the no-response count at zero, but not always the alert count: the reset comes before a crossing into
  the terminal alert is counted. `CountersAtLockoutEnd` says for which states and inputs: those of `WillCross`,
  engaged with at most one step of awareness left, counting down and neither recovering nor with a hand on a
  watched wheel. `LockoutEndsWithAnOffence` is a whole run in which it happens.
- **Hiding from the camera** (`openpilot/selfdrive/monitoring/policy.py:178-188`). A driver who never attends does
  not always reach the terminal alert: once orange under vision, frames with no face count nothing, so awareness
  stands still above zero (`HidingFreezesOrange`). `MixedTimetable` says for every mixture of frames with and
  without a face exactly when the terminal alert has come.
- **`~Params`** (`openpilot/common/params.cc:99-104`). The assertion that the queue is empty fails exactly
  when the destructor starts with a non-empty queue that the writer task has looked at for the last time
  (`DestructorSafe`); `DestructorCanFail` gives the interleaving.
- **Parameters left over** (`openpilot/selfdrive/car/card.py:33-41`). The handshake relies on parameters being
  cleared between sessions. `GoodStarts` says which: every call in every interleaving returns with the panda last
  told its mode if and only if no request was left over, and not all three of FirmwareQueryDone, ControlsReady and
  CarParams were; with all three, pandad sets the car's model before the call returns.
- **Silencing a looping alert** (`openpilot/selfdrive/ui/soundd.py:128-136`). The comment says a looping sound
  finishes its loop; the code cuts it off at once exactly when it has not been played through once
  (`SilencingLoops`). `SilencedRun` says what is heard after an alert is started, heard for any number of frames and
  silenced, and `EndsMidLoop` for which numbers it ends in the middle of its sound.
- **BoundProfilePackage** (`openpilot/common/esim/lpa.py:515-543`). Bytes are conserved for every
  package of the right form (`WellFormedIsConserved`), and for no other unless the package may repeat itself:
  `Conservation` is the if-and-only-if with its exceptions, and `RepetitionIsConserved` and `LaterRootIsConserved` are
  two of these that are conserved without being of the form. `MadePackageIsConserved` builds packages of the form with
  the encoder, and `OtherFieldIsLost` ones that lose a field.

## Model

| member | source | states |
|---|---|---|
| PandaCan.LenToDlcRoundTrip | openpilot/selfdrive/pandad/panda.cc:157-166 | the length code inverts the CAN FD length table on exactly the valid lengths, and is in range on every length up to 64 |
| PandaCan.DlcGrows | openpilot/selfdrive/pandad/panda.cc:157-166 | a longer length has a greater code, so the sixteen lengths are numbered from the shortest up |
| PandaCan.HeaderRoundTrip | openpilot/selfdrive/pandad/panda.h:28-37 | any bytes that start with an encoded header decode to the same fields: 29-bit address, bus, length code and all flags |
| PandaCan.DecodedBits | openpilot/selfdrive/pandad/panda.h:28-37 | which bits of any first five bytes are which field: the upper half of the first byte the length code, its bits 1 to 3 the bus; bits 0, 1 and 2 of the second rejected, returned and extended; and the upper 29 bits of bytes 1 to 4, least byte first, the address |
| PandaCan.EncodedBits | openpilot/selfdrive/pandad/panda.h:28-37 | an encoded header has the same fields at the same bits, with reserved bit and checksum zero |
| PandaCan.FrameBits | openpilot/selfdrive/pandad/panda.cc:264-273 | in numbers, for every raw frame: the source is the bus, plus 0xC0 exactly if bit 0 of the second byte is set and 0x80 exactly if bit 1 is; the address is the upper 29 bits of bytes 1 to 4; the data is what follows six bytes |
| PandaCan.SourceTells | openpilot/selfdrive/pandad/panda.cc:264-271 | the reported source determines the bus and both flags |
| PandaCan.MessageBits | openpilot/selfdrive/pandad/panda.cc:184-196 | the bits of every packed message: length code, bus, no return flags, extended exactly from 0x800 on, address, and the data after six bytes |
| PandaCan.OwnBuses | openpilot/selfdrive/pandad/panda.cc:172-178 | a panda is sent every message for its buses 0 to 3 and no other |
| PandaCan.ChecksumCancels | openpilot/selfdrive/pandad/panda.cc:189-196 | storing a byte string's XOR in a byte that was zero makes the XOR of the whole zero, so a packed message passes the check on receipt |
| PandaCan.EncodedFields | openpilot/selfdrive/pandad/panda.cc:184-196 | a packed message keeps its header fields and its data, and sums to zero |
| PandaCan.MessageRoundTrip | openpilot/selfdrive/pandad/panda.cc:184-196 | one packed message decodes to exactly that message and nothing more |
| PandaCan.DecodeResumes | openpilot/selfdrive/pandad/panda.cc:242-282 | decoding can be suspended after any byte: the leftover plus later bytes gives what decoding the whole would, including where it fails |
| PandaCan.DecodedParts | openpilot/selfdrive/pandad/panda.cc:242-282 | any bytes are sound frames end to end and a rest, which is an incomplete frame when decoding succeeds and starts with a damaged one when it fails |
| PandaCan.WireRoundTrip | openpilot/selfdrive/pandad/panda.cc:168-208 | the wire image of any list of valid messages decodes to exactly those with bus below 4, in order |
| PandaCan.ChunkingIsInvisible | openpilot/selfdrive/pandad/panda.cc:216-236 | for any cutting of a decodable stream, the receive calls together yield what one decode of all of it would |
| PandaCan.TransportRoundTrip | openpilot/selfdrive/pandad/panda.cc:168-282 | for every list of valid messages with 29-bit addresses and every re-cutting of its bytes, every call succeeds, no bytes remain, and the frames are the accepted messages with address and data unchanged |
| PandaCan.CalculateChecksum | openpilot/selfdrive/pandad/panda.cc:284-290 | the loop computes the XOR of its slice |
| PandaCan.PackCanBuffer | openpilot/selfdrive/pandad/panda.cc:168-208 | the writes together are the wire image; none is empty or reaches past the send buffer, and all but the last reach the soft limit |
| PandaCan.SizeMinusHeader | openpilot/selfdrive/pandad/panda.cc:245 | the unsigned subtraction in the loop condition: with fewer bytes than a header it wraps to a number above the size |
| PandaCan.UnpackFrames | openpilot/selfdrive/pandad/panda.cc:242-275 | the in-place loop yields the decoded frames and stops where the undecoded rest starts, on any bytes, also when the subtraction wraps |
| PandaCan.Panda.UnpackCanBuffer | openpilot/selfdrive/pandad/panda.cc:242-282 | the buffer then starts with the undecoded rest; after a checksum failure, and only then, the communication is reset and the buffer counts as empty |
| PandaCan.Panda.CanReceive | openpilot/selfdrive/pandad/panda.cc:216-236 | one call keeps the leftover below a header and 64 bytes, so the space assertion holds on the next; frames and leftover are those of decoding the old leftover with the new bytes, with a reset exactly if that fails; an unhealthy link changes nothing, and in MAXOUT mode the rest of a full read is asked for and thrown away |
| PandaCan.Panda.ReceiveStream | openpilot/selfdrive/pandad/panda.cc:216-236 | any number of calls compute the chunk-by-chunk decoding that the transport theorem is about |
| PandaCan.Panda.PackAndReceive | openpilot/selfdrive/pandad/panda.cc:168-282 | end to end: messages packed, their bytes cut anew in any way and received by the panda's object come out as the messages meant for it, in order, with nothing left over and no reset |
| Rotations.RootPositive | openpilot/common/transformations/transformations.py:109-130 | in each of the four branches, on any matrix at all, the argument of the square root is at least one, so no branch divides by zero |
| Rotations.BranchReadsRow | openpilot/common/transformations/transformations.py:109-134 | whichever branch is taken, its result times twice the root is one row of the outer product of the quaternion |
| Rotations.QuatRoundTrip | openpilot/common/transformations/transformations.py:88-138 | for every unit quaternion, to matrix and back is the same quaternion up to sign, with nonnegative w |
| Rotations.RotationHasRankOne | openpilot/common/transformations/transformations.py:109-134 | what the branches read off a rotation matrix satisfies the rank-one identities of an outer product |
| Rotations.RotRoundTrip | openpilot/common/transformations/transformations.py:88-138 | for every orthogonal matrix of determinant one, to quaternion and back is the same matrix, through a unit quaternion with nonnegative w |
| Rotations.UnitHasRoot | openpilot/common/transformations/transformations.py:109-130 | the square root the conversion takes exists for the matrix of every unit quaternion |
| Rotations.DoubleCover | openpilot/common/transformations/transformations.py:88-102 | two unit quaternions have the same matrix exactly when they are equal up to sign |
| Rotations.UnitGivesRotation | openpilot/common/transformations/transformations.py:88-102 | the matrix of any unit quaternion is orthogonal with determinant one |
| Rotations.EulerPathsAgree | openpilot/common/transformations/transformations.py:54-156 | for all Euler angles the matrix of their quaternion, sign flip included, is the product of the three axis rotations, and that quaternion is a unit with nonnegative w |
| RotationMeaning.PositiveAboutX | openpilot/common/transformations/transformations.py:152 | a positive roll turns y towards z and leaves x |
| RotationMeaning.PositiveAboutY | openpilot/common/transformations/transformations.py:153 | a positive pitch turns z towards x and leaves y |
| RotationMeaning.PositiveAboutZ | openpilot/common/transformations/transformations.py:154 | a positive yaw turns x towards y and leaves z |
| RotationMeaning.AxisQuats | openpilot/common/transformations/transformations.py:54-156 | the quaternion with half the angle along an axis has the matrix of the turn about that axis |
| RotationMeaning.MatrixReadBack | openpilot/common/transformations/transformations.py:76-156 | where the conversion to Euler angles looks, the matrix of any Euler angles holds the sine of the pitch, and sine and cosine of roll and yaw scaled by the cosine of the pitch |
| RotationMeaning.QuatReadBack | openpilot/common/transformations/transformations.py:54-86 | the arguments of the inverse functions taken from the quaternion of Euler angles, sign flip included, are those of their matrix |
| RotationMeaning.RotReadBack | openpilot/common/transformations/transformations.py:104-163 | and those taken from the quaternion of any rotation matrix stand in that matrix |
| Rotations.FrameIsRotation | openpilot/common/transformations/transformations.py:200-208 | the NED frame is a rotation at every latitude and longitude |
| RotationMeaning.FramePoints | openpilot/common/transformations/transformations.py:204-208 | which way the frame points: down is against the outward normal at the latitude and longitude; moved to a greater latitude the normal turns towards north, and to a greater longitude towards east |
| RotationMeaning.LocalAxes | openpilot/common/transformations/transformations.py:230-234 | a local point is its first coordinate north, its second east and its third down of the origin |
| Rotations.LocalRoundTrip | openpilot/common/transformations/transformations.py:224-234 | to local coordinates and back, either way round, changes no point |
| FftSize.FftNextGoodSize | openpilot/selfdrive/locationd/helpers.py:11-34 | the five loops end, and the result is the least product of powers of 2, 3, 5, 7 and 11 that is at least n, for every n from 1 on |
| FftSize.Finish11 | openpilot/selfdrive/locationd/helpers.py:27-29 | when the innermost loop is pruned, every product it skips is covered by the best so far |
| FftSize.Finish2 | openpilot/selfdrive/locationd/helpers.py:18-34 | when the outermost loop is pruned, no good size below the best is missed |
| EsimTlv.BigEndianRoundTrip | openpilot/common/esim/lpa.py:315-321 | reading the minimal big-endian bytes of any length gives the length back |
| EsimTlv.FirstByteWeighs | openpilot/common/esim/lpa.py:286 | in a length the first byte weighs most |
| EsimTlv.BigEndianIsMinimal | openpilot/common/esim/lpa.py:315-321 | a length is written with as few bytes as can hold it |
| EsimTlv.TagForm | openpilot/common/esim/lpa.py:315-321 | a tag is written in one byte up to 0xFF and else in two, the high one first |
| EsimTlv.LengthForm | openpilot/common/esim/lpa.py:315-321 | a length is one byte up to 127, and else 0x80 plus the number of its digits and the digits |
| EsimTlv.CountedLengthAt | openpilot/common/esim/lpa.py:280-287 | the parser takes a counted length of any number of digits, leading zeros included |
| EsimTlv.ReadElement | openpilot/common/esim/lpa.py:262-292 | one turn of the parser reads exactly the element function, on any bytes, and reports nothing when the data runs out |
| EsimTlv.IterTlv | openpilot/common/esim/lpa.py:262-292 | the parser ends on any bytes and yields exactly the elements from the front |
| EsimTlv.ElementMoves | openpilot/common/esim/lpa.py:262-292 | an element parses the same wherever it stands and whatever follows it |
| EsimTlv.EncodeRoundTrip | openpilot/common/esim/lpa.py:262-321 | an encoded pair parses back to that pair and the whole length if and only if its tag is a one-byte tag or a two-byte multi-byte tag |
| EsimTlv.ElementsTile | openpilot/common/esim/lpa.py:262-292 | on any bytes the reported spans lie end to end from the start, each holding its own value at its end |
| EsimTlv.ListRoundTrip | openpilot/common/esim/lpa.py:262-321 | parsing the concatenated encodings of any list of valid pairs, at any position, yields exactly the list and reaches the end |
| BppSplitter.HeaderLenAgrees | openpilot/common/esim/lpa.py:509-512 | the header-length helper agrees with the parser's positions on every element with a tag of at most two bytes |
| BppSplitter.SplitBpp | openpilot/common/esim/lpa.py:515-543 | the loops compute the specified chunks, or the error when there is no root, on any bytes |
| BppSplitter.CutPlaces | openpilot/common/esim/lpa.py:527-543 | for every package the chunks are, one for one, these stretches of it: for BF23 from the start of the package to its end, for A0 and A2 the child, for A1 and A3 its header up to where its value starts and then each element of its value, for any other child none |
| BppSplitter.CutCount | openpilot/common/esim/lpa.py:527-543 | so the number of chunks is the sum over the children of the root: one, one, one more than the elements of the value, and none |
| BppSplitter.MadePackageChunks | openpilot/common/esim/lpa.py:315-543 | the exact list of chunks of every package the encoder makes of such children, in terms of what was encoded |
| BppSplitter.ChildOutput | openpilot/common/esim/lpa.py:527-542 | a child other than BF23 gives out its own bytes when it is A0, A2, or an A1 or A3 whose children reach its end, and fewer otherwise |
| BppSplitter.Conservation | openpilot/common/esim/lpa.py:515-543 | the chunks add up to the package if and only if it has one BF23, nothing before it is sent on its own, everything after it is kept in full, and root and package end with the last child: with the root anywhere if the first child sent is a BF23 and no other follows, or there is none, and with the root first also for any children but a BF23 after an A1 or A3 that stops short after another |
| BppSplitter.WellFormedIsConserved | openpilot/common/esim/lpa.py:515-543 | every package of that form is conserved, wherever its root is |
| BppSplitter.RepetitionIsConserved | openpilot/common/esim/lpa.py:515-543 | a package that starts with its root and has an A1 that stops short between two BF23, and yet is conserved: the form does not decide there |
| BppSplitter.LaterRootIsConserved | openpilot/common/esim/lpa.py:515-543 | a package with a BF23 in front of its root and two in it, and yet conserved: nor there |
| BppSplitter.MadePackageIsConserved | openpilot/common/esim/lpa.py:315-543 | BF23 followed by any A0 to A3 fields, encoded into a package, is conserved by the splitter |
| BppSplitter.OtherFieldIsLost | openpilot/common/esim/lpa.py:527-543 | BF23 followed by a field of any other tag, encoded into a package, is not |
| BppSplitter.NothingWithoutCommand | openpilot/common/esim/lpa.py:527-543 | without a BF23 child the chunks are shorter than the package, wherever its root is |
| BppSplitter.FirstIsRoot | openpilot/common/esim/lpa.py:517-524 | a package that starts with its root is split at that root |
| EsimCommands.Segments | openpilot/common/esim/lpa.py:353-372 | the loop cuts the data into the specified STORE DATA commands |
| EsimCommands.SegmentsReassemble | openpilot/common/esim/lpa.py:353-372 | a card that checks class, instruction, last-block marker, sequence number and length of every command gets back exactly the data |
| EsimCommands.SegmentsAreFull | openpilot/common/esim/lpa.py:353-372 | there are as many commands as needed and all but the last carry 120 bytes |
| EsimCommands.PackUnpack | openpilot/common/esim/lpa.py:306-312 | packing any digits and unpacking them gives them back, with an odd number filled up |
| EsimCommands.PackedHalves | openpilot/common/esim/lpa.py:306-312 | which half of which byte holds which digit, and the filler of an odd number |
| EsimCommands.UnpackPack | openpilot/common/esim/lpa.py:306-312 | unpacking any bytes and packing them again gives them back if and only if every half is a digit but for one filler at the end |
| DriverMonitoring.Monitor.constructor | openpilot/selfdrive/monitoring/policy.py:131-171 | a new monitor is under the vision policy with full awareness, whatever lockout the parameters remember |
| DriverMonitoring.Monitor.ChoosePolicy | openpilot/selfdrive/monitoring/policy.py:178-206 | switching policies swaps the two awareness values, except once orange under vision or used up under either |
| DriverMonitoring.Monitor.StepLockout | openpilot/selfdrive/monitoring/policy.py:314-328 | entering, timing and leaving a lockout |
| DriverMonitoring.Monitor.StepEvents | openpilot/selfdrive/monitoring/policy.py:310-381 | the whole event update for any driver, car and camera input |
| DriverMonitoring.Monitor.RunStep | openpilot/selfdrive/monitoring/policy.py:244-381 | one step as policy choice then event update; an incomplete camera message leaves the policy alone |
| MonitoringSteps.ResetRestores | openpilot/selfdrive/monitoring/policy.py:173-349 | a hand on the wheel with awareness left, where the wheel is what is watched or the driver attends or is excused at low speed, and disengaging, with always-on monitoring only from used-up awareness, restore full awareness under both policies, and no alert is shown |
| MonitoringSteps.ResetIff | openpilot/selfdrive/monitoring/policy.py:330-349 | and with anything to restore no other step does |
| MonitoringSteps.PolicyInForce | openpilot/selfdrive/monitoring/policy.py:178-305 | which policy is in force after any camera frame, both ways, and which awareness it goes on from and which is saved |
| MonitoringSteps.PolicyPace | openpilot/selfdrive/monitoring/policy.py:178-206 | what a step then costs, which is nothing exactly for a frame without a certain face once orange under vision |
| MonitoringSteps.FallsIff | openpilot/selfdrive/monitoring/policy.py:339-365 | awareness falls exactly for a driver seen to be distracted or not seen, neither excused nor held by low speed or by always-on monitoring, and by one step or to the floor |
| MonitoringSteps.RisesIff | openpilot/selfdrive/monitoring/policy.py:330-353 | awareness rises exactly by a reset, or for an excused driver before it is used up |
| MonitoringSteps.AlertIff | openpilot/selfdrive/monitoring/policy.py:354-381 | which alert is shown, both ways, by the awareness after the step and the policy in force |
| MonitoringSteps.SavedWheel | openpilot/selfdrive/monitoring/policy.py:350-353 | the saved wheel-touch awareness gains a step exactly when the awareness of an excused driver is full after it |
| MonitoringSteps.AttentionRestoresWheel | openpilot/selfdrive/monitoring/policy.py:344-356 | attention under vision gives it back step by step |
| MonitoringSteps.TouchingKeepsQuiet | openpilot/selfdrive/monitoring/policy.py:330-381 | in every run with the wheel watched, a driver who touches it before every hundredth step never sees an alert |
| MonitoringSteps.LocksOut | openpilot/selfdrive/monitoring/policy.py:314-320 | the second terminal alert, or one unanswered, locks the driver out with the next step, and nothing else does |
| MonitoringSteps.LockoutMinutes | openpilot/selfdrive/monitoring/policy.py:314-319 | the first three lockouts last one, five and fifteen minutes, and all others thirty |
| MonitoringRuns.InitialInv | openpilot/selfdrive/monitoring/policy.py:131-171 | every new monitor, whatever lockout it remembers, is in a state that runs start from |
| MonitoringRuns.RunInv | openpilot/selfdrive/monitoring/policy.py:178-381 | in every run awareness stays in [-0.1, 1], each policy's saved awareness in (0, 1], and the lockout clock within the duration its count prescribes |
| MonitoringRuns.RedStep | openpilot/selfdrive/monitoring/policy.py:330-381 | the terminal alert is raised exactly when awareness is used up, and used-up awareness comes back exactly by disengaging |
| MonitoringRuns.RedStaysRed | openpilot/selfdrive/monitoring/policy.py:330-381 | once awareness is used up, every step reports the terminal alert for as long as openpilot stays engaged, for all camera, driver and policy inputs |
| MonitoringRuns.OffencesAreCrossings | openpilot/selfdrive/monitoring/policy.py:366-371 | until a lockout is served, the offence count rises exactly on the steps that cross from positive to used-up awareness |
| MonitoringRuns.LockoutLasts | openpilot/selfdrive/monitoring/policy.py:314-328 | a lockout entered in a run is active in exactly its duration of consecutive states and is counted once |
| MonitoringRuns.RestoredLockoutLasts | openpilot/selfdrive/monitoring/policy.py:153-328 | a lockout restored from the parameters, with any count, is active from the first state through as many steps as the count prescribes, inactive in the next, and not counted again |
| MonitoringRuns.LockoutsEscalate | openpilot/selfdrive/monitoring/policy.py:314-319 | neither the number of lockouts nor their duration ever decreases |
| MonitoringRuns.LockoutsAreCounted | openpilot/selfdrive/monitoring/policy.py:314-320 | the lockout count is the initial one plus the lockouts entered in the run |
| MonitoringRuns.CountersAtLockoutEnd | openpilot/selfdrive/monitoring/policy.py:322-371 | a served lockout ends with the next step whatever the input; the no-response count is then zero, and the alert count is zero if and only if the input is not one that uses awareness up |
| MonitoringRuns.CrossingInput | openpilot/selfdrive/monitoring/policy.py:330-371 | a step crosses from positive to used-up awareness exactly on that input, stated by the state and frame before the step |
| MonitoringRuns.OnlyServedEnd | openpilot/selfdrive/monitoring/policy.py:314-328 | a lockout ends in no other way than by being served |
| MonitoringRuns.LockoutEndsWithAnOffence | openpilot/selfdrive/monitoring/policy.py:322-371 | a run from a new monitor in which the lockout ends with an alert count of one |
| MonitoringRuns.SustainedRed | openpilot/selfdrive/monitoring/policy.py:314-375 | used-up awareness followed by 101 engaged steps is a lockout, whatever driver and camera do |
| MonitoringRuns.Timetable | openpilot/selfdrive/monitoring/policy.py:31-36 | from full awareness, a distracted driver gets the three alerts after 100, 160 and 260 steps under vision, and 100, 300 and 500 under wheel touch |
| MonitoringRuns.MixedTimetable | openpilot/selfdrive/monitoring/policy.py:178-381 | from full awareness, a driver who never attends, in any mixture of frames with and without a face, has used awareness up if and only if 260 frames with a face have come, or 500 without one before the 160th with one |
| MonitoringRuns.HidingFreezesOrange | openpilot/selfdrive/monitoring/policy.py:178-188 | orange under vision and with no face from then on, awareness stands still and the second alert is all there is, for as long as that lasts |
| MonitoringRuns.DistractedLockout | openpilot/selfdrive/monitoring/policy.py:310-381 | distracted up to the terminal alert and engaged for 101 steps more is a lockout |
| MonitoringRuns.AttentiveIsLeftAlone | openpilot/selfdrive/monitoring/policy.py:344-356 | an attentive driver keeps full awareness and never sees an alert |
| MonitoringRuns.RecoveryRate | openpilot/selfdrive/monitoring/policy.py:350-351 | an attentive step restores between 1.25 and 5 times what a distracted step takes, up to full awareness |
| MonitoringRuns.AttentiveRecovers | openpilot/selfdrive/monitoring/policy.py:344-356 | attention under vision brings awareness back to full from anywhere above zero within 208 steps |
| MonitoringRuns.RedNeedsEngagement | openpilot/selfdrive/monitoring/policy.py:330-367 | while not engaged, always-on monitoring included, no step uses awareness up or raises the terminal alert |
| MonitoringRuns.LowspeedNeverAlarms | openpilot/selfdrive/monitoring/policy.py:339-365 | at low speed no step lowers awareness to an alert |
| Engagement.StateMachine.Step | openpilot/selfdrive/selfdrived/state.py:17-97 | the method is the update function on state, timer and alert types, and returns the two flags |
| Engagement.UpdateModes | openpilot/selfdrive/selfdrived/state.py:24-91 | where every update leads, both ways and by the events: pre-enabled exactly if let in with PRE_ENABLE, or pre-enabled before and PRE_ENABLE holds; overriding exactly if let in with an override and no PRE_ENABLE, or enabled or overriding before with an override and no SOFT_DISABLE; enabled exactly if let in without either, or released; each without a stop |
| Engagement.EngagedHasCause | openpilot/selfdrive/selfdrived/state.py:17-97 | every engaged state of every run goes back to an update with ENABLE and without NO_ENTRY, with no user or immediate disable and no disabled state since |
| Engagement.ActiveHasCause | openpilot/selfdrive/selfdrived/state.py:24-95 | every state with active controls goes back to an update without PRE_ENABLE since the machine was let in |
| Engagement.PreEnableHolds | openpilot/selfdrive/selfdrived/state.py:75-91 | a machine let in with PRE_ENABLE is enabled but not active for as long as it holds and nothing stops it |
| Engagement.ReleaseEnables | openpilot/selfdrive/selfdrived/state.py:40-72 | a pre-enabled, overriding or soft-disabling machine whose condition has ended, and that nothing else stops or holds, is enabled with that update |
| Engagement.TimerTellsHistory | openpilot/selfdrive/selfdrived/state.py:18-72 | soft disabling means a timer from 1 to 300, and the timer value tells for how many updates SOFT_DISABLE has held without a stop since an enabled or overriding state |
| Engagement.DisengagingHasCause | openpilot/selfdrive/selfdrived/state.py:24-57 | a machine that falls out was stopped, or had SOFT_DISABLE in each of its last 301 updates |
| Engagement.SoftDisableRunsOut | openpilot/selfdrive/selfdrived/state.py:18-72 | continuous SOFT_DISABLE from its entry is soft disabling for exactly 300 states and disabled in the next |
| Engagement.AlertsTellOutcome | openpilot/selfdrive/selfdrived/state.py:20-97 | which alert types are listed says what happened, both ways, for every type: entry and its refusal, the two kinds of disabling apart, soft disabling, the two overrides, and the warnings |
| ObdHandshake.PandaSafety.ConfigureSafetyMode | openpilot/selfdrive/pandad/panda_safety.cc:5-22 | a call nothing interrupts is one turn of pandad in any system it is part of, with the alternative experience told before the car's model; going offroad resets it |
| ObdHandshake.PandaSafety.UpdateMultiplexingMode | openpilot/selfdrive/pandad/panda_safety.cc:24-38 | exactly which ELM327 commands are sent, and when the change is answered |
| ObdHandshake.TurnIsSteps | openpilot/selfdrive/pandad/panda_safety.cc:5-54 | that turn is what pandad's single steps do one after the other, from the top back to the top |
| ObdHandshake.SessionInv | openpilot/selfdrive/car/card.py:33-41 | every interleaving keeps the handshake invariant |
| ObdHandshake.WakeMeansCommanded | openpilot/selfdrive/car/card.py:33-41 | from every such start, whenever a waiting call returns the last thing the panda was told is the mode it asked for |
| ObdHandshake.CarModelOnceAndLast | openpilot/selfdrive/pandad/panda_safety.cc:5-54 | the car's safety model is set at most once in a session, as the last command and right after the alternative experience, with firmware query done, controls ready and parameters present |
| ObdHandshake.NothingAfterCarModel | openpilot/selfdrive/pandad/panda_safety.cc:5-17 | once it is set, no further command is sent in the session |
| ObdHandshake.CarModelIsSet | openpilot/selfdrive/pandad/panda_safety.cc:5-54 | in every session and interleaving, whatever is requested: once firmware query, controls and parameters are there, within seven steps of pandad the last two commands are the alternative experience and the safety model of those parameters |
| ObdHandshake.NoLostWakeup | openpilot/selfdrive/car/card.py:33-41 | from every such start and in any interleaving, a waiting call is answered within five steps of pandad, or seven with FirmwareQueryDone left over, so no request is lost |
| ObdHandshake.GoodStarts | openpilot/selfdrive/car/card.py:33-41 | over everything a session can find left over: every call of every interleaving returns with the panda last told its mode if and only if no request was left over, and FirmwareQueryDone, ControlsReady and CarParams not all |
| ParamsWriter.SafeQueue.TryPop | openpilot/common/queue.h:28-36 | the front is removed and returned, unless the queue is empty |
| ParamsWriter.Params.Put | openpilot/common/params.cc:130-167 | the method is the sequence of system calls of a put, with the same outcome and the same result code for each combination of failures |
| ParamsWriter.Params.AsyncWriteThread | openpilot/common/params.cc:235-242 | the loop drains the queue by putting every entry in order, whatever becomes of each |
| ParamsWriter.PutShows | openpilot/common/params.cc:130-167 | a put whose calls up to the rename succeed replaces the key's value, and any other changes nothing that can be seen |
| ParamsWriter.ResultOfPut | openpilot/common/params.cc:130-167 | what a put returns: zero exactly if all its calls went through, the code of the write exactly if that failed or fell short, and else -1 |
| ParamsWriter.PutEachReplays | openpilot/common/params.cc:235-242 | a drained queue shows as its successful puts applied in order |
| ParamsWriter.RunInv | openpilot/common/params.cc:130-242 | in every interleaving, files in place are whole and under their own key, files being written are in no one else's hands, and calls are accounted for |
| ParamsWriter.OneWriterInOrder | openpilot/common/params.cc:227-233 | at most one writer task is alive |
| ParamsWriter.NothingLost | openpilot/common/params.cc:227-242 | attempted writes, the entry in the writer's hand and the queue are together the non-blocking puts, in order |
| ParamsWriter.ReadersSeeWholeValues | openpilot/common/params.cc:130-181 | what a reader returns, however its reading is interleaved with puts, removals and renames, is the whole value that was in place when it opened the file |
| ParamsWriter.ReadSoFar | openpilot/common/params.cc:177-181 | whatever the sizes of its pieces, a reader has read the first so many characters |
| ParamsWriter.ReaderEnds | openpilot/common/params.cc:177-181 | and it returns the whole file once it has looked past its end |
| ParamsWriter.StoreReplaysChanges | openpilot/common/params.cc:130-242 | in every interleaving, with failures, other writers and removals, what can be seen of the files is the initial view with the successful renames and removals replayed in their order |
| ParamsWriter.WriterKeepsOrder | openpilot/common/params.cc:227-242 | among them the writer's own are part of the calls, in order and each at most once |
| ParamsWriter.StoreReplaysCalls | openpilot/common/params.cc:227-242 | without other writers and failures the files are at every moment the initial ones with a prefix of the calls put in order |
| ParamsWriter.DrainedIsSequential | openpilot/common/params.cc:227-242 | once drained, they are what putting every call one after the other would have made |
| ParamsWriter.DestructorSafe | openpilot/common/params.cc:99-104 | with no more calls, the queue is empty when the future becomes ready if and only if it was empty before or the writer was still to look at it |
| ParamsWriter.WriterEnds | openpilot/common/params.cc:99-104 | and the wait ends: with no more calls the writer takes at most seven steps for each entry and eight more, whatever fails and whatever else happens, and then the future is ready |
| ParamsWriter.DestructorCanFail | openpilot/common/params.cc:99-104 | an interleaving after which the destructor's assertion fails |
| BlockAverage.BlockAverage.constructor | openpilot/selfdrive/locationd/lagd.py:138-145 | restored blocks stand for so many blocks of the initial value |
| BlockAverage.BlockAverage.Update | openpilot/selfdrive/locationd/lagd.py:147-152 | the sample joins the history, and the ring goes on summarizing it across wrap-around |
| BlockAverage.BlockAverage.Get | openpilot/selfdrive/locationd/lagd.py:154-170 | the valid mean is the mean of all samples of the latest completed blocks (all, or one fewer than the ring holds), or none; the current one is that of their means and the open block's; each comes with the variance of its block means, the square of the standard deviation |
| BlockAverage.SameFigures | openpilot/selfdrive/locationd/lagd.py:154-170 | mean and variance do not depend on where around the ring the slots are read from |
| BlockAverage.VarianceByMoments | openpilot/selfdrive/locationd/lagd.py:154-170 | the variance is the mean of the squares less the square of the mean |
| BlockAverage.RingTurns | openpilot/selfdrive/locationd/lagd.py:147-152 | with its open slot overwritten the ring still holds the latest means around it, and again when it turns to the next slot |
| BlockAverage.BlockAverage.OpenSlotIsMean | openpilot/selfdrive/locationd/lagd.py:147-149 | the open slot holds the mean of the samples so far in the open block |
| BlockAverage.MeanOfMeans | openpilot/selfdrive/locationd/lagd.py:159-160 | the mean of the block means is the mean of the samples |
| BlockAverage.LatestSamples | openpilot/selfdrive/locationd/lagd.py:154-170 | the samples of the latest blocks are the last ones of the completed history |
| BlockAverage.RunningMean | openpilot/selfdrive/locationd/lagd.py:148 | the weighted update keeps a slot the mean of its samples, the first of a block included |
| RunningStat.RunningStat.PushData | openpilot/common/stat_live.py:25-37 | the method is the push function, also when a cap of zero keeps the count at zero |
| RunningStat.ClosedForm | openpilot/common/stat_live.py:5-37 | without a cap: the count adds up, the mean is the weighted mean of prior and data, and the sum is the prior's plus all squared deviations about that mean, of the prior's mean too |
| RunningStat.CappedStaysInHull | openpilot/common/stat_live.py:25-37 | with any cap the sum never decreases and the mean stays within any interval holding the prior and the data, or the data alone when there is no prior |
| RunningStat.PushBetween | openpilot/common/stat_live.py:25-37 | one push moves the mean towards the datum and never past it |
| RunningStat.PushWeighs | openpilot/common/stat_live.py:25-37 | by how much a push moves mean and sum: the datum weighs one part in the count |
| RunningStat.CountIsCapped | openpilot/common/stat_live.py:25-37 | the count grows with the data up to the cap, and a count at or above the cap stays |
| Soundd.PlaySplits | openpilot/selfdrive/ui/soundd.py:96-121 | playing in two parts is playing at once, in sound and in state |
| Soundd.PartitionIsInaudible | openpilot/selfdrive/ui/soundd.py:96-126 | for any cutting into callbacks what is heard depends on the number of frames only |
| Soundd.LoopingOutput | openpilot/selfdrive/ui/soundd.py:96-121 | a looping sound is heard round and round from its position, which counts the frames |
| Soundd.CountedOutput | openpilot/selfdrive/ui/soundd.py:96-121 | a sound with a play count is heard so often, then silence, and its position stops at the end |
| Soundd.StoppingOutput | openpilot/selfdrive/ui/soundd.py:116-119 | with a pending stop a looping sound is heard to the end of its loop, and the alert ends there |
| Soundd.StopsAtLoopEnd | openpilot/selfdrive/ui/soundd.py:96-144 | in every run of callbacks and alert changes, a callback ends an alert only at a loop boundary, when a stop was pending on a looping alert |
| Soundd.WhichLoop | openpilot/selfdrive/ui/soundd.py:38-53 | which sounds loop, and that every other is played once |
| Soundd.AlertsTakeOver | openpilot/selfdrive/ui/soundd.py:128-144 | another alert starts at once from its beginning whatever is being heard, and the same one goes on |
| Soundd.WithdrawnStopIsInaudible | openpilot/selfdrive/ui/soundd.py:128-144 | a looping alert that returns before its loop ends goes on as if it had never been silenced |
| Soundd.OnceIsHeardOut | openpilot/selfdrive/ui/soundd.py:128-144 | a sound that is played once is heard to its end through any silencings and callbacks |
| Soundd.SilencingLoops | openpilot/selfdrive/ui/soundd.py:128-137 | silencing a looping alert cuts it off at once if and only if it has not been played through |
| Soundd.SilencedRun | openpilot/selfdrive/ui/soundd.py:96-137 | in the run that starts a looping alert, plays any number of frames and silences it, nothing more is heard if it has not been played through, else the rest of the loop, and then silence |
| Soundd.EndsMidLoop | openpilot/selfdrive/ui/soundd.py:116-137 | so it ends in the middle of its sound exactly when silenced during its first play |
| Soundd.Soundd.GetSoundData | openpilot/selfdrive/ui/soundd.py:96-121 | the slice-copying loop outputs what frame-by-frame playing does, times the current volume, and ends in the same state |
| Soundd.Soundd.ChangeAlert | openpilot/selfdrive/ui/soundd.py:128-144 | the alert change, with cut-off, pending stop and restart, and the volume ramp that an immediate warning starts |
| Glossary.Linker.FindBest | docs/ext/glossary.py:139-162 | the match taken is the earliest, then the longest, then the first listed, among the terms not linked yet; none means there is none |
| Glossary.Linker.Pieces | docs/ext/glossary.py:132-195 | the loop ends, and the pieces are the greedy choice: the best match, then the best of what is not linked yet from its end on, while there is one |
| Glossary.Linker.GreedyPieces | docs/ext/glossary.py:132-195 | the greedy pieces make up exactly the text from the cursor, and link each newly seen slug once |
| Glossary.Linker.Replace | docs/ext/glossary.py:102-130 | the greedy pieces of the text or tail go in after it, text into the last link's tail, and the position of the last insertion is returned |
| Glossary.Linker.Walk | docs/ext/glossary.py:90-100 | the walk ends although it inserts children while going over them, and is the greedy choice in document order: an element's text, then each child and the text after it |
| Glossary.Linker.ElementProgress | docs/ext/glossary.py:90-130 | linking an element in document order: with its links taken out it is unchanged, each newly seen slug is linked exactly once, and skipped elements stay as they are |
| Glossary.Linker.ElementExhausted | docs/ext/glossary.py:90-195 | a term is linked at its first occurrence: in document order up to its link, or to the end when it has none, no text that got no link has a match of it from its start on, blank texts and skipped elements aside |
| Glossary.Linker.ElementOnlyTerms | docs/ext/glossary.py:132-195 | every link is a match of a listed term in a text that is not blank, with that term's slug and tooltip and the words matched |
| Glossary.Linker.Run | docs/ext/glossary.py:78-88 | the linked page has the same visible text, tooltips aside, gives the original back when its links are taken out, links no slug twice, and has no link inside anything skipped; it is the greedy choice in document order, every link is a match of a listed term, and no text that got no link before a term's link, or anywhere if there is none, has a match of the term, blank texts and skipped elements aside |
| Glossary.StripKeepsText | docs/ext/glossary.py:90-195 | taking the links out keeps the text that is seen |
| ScanDir.NothingBelow | openpilot/system/athena/athenad.py:384-387 | below a pruned directory no path has the prefix |
| ScanDir.ScanDir | openpilot/system/athena/athenad.py:374-391 | the pruned walk lists, in order, exactly the files of the whole tree whose path starts with the prefix, for every tree and prefix |
| ScanDir.ListedIsFile | openpilot/system/athena/athenad.py:374-391 | every path the whole walk lists is that of a file, its names from directory to directory joined by slashes |
| ScanDir.FileIsListed | openpilot/system/athena/athenad.py:374-391 | and every file is listed by that path |
| ScanDir.WalkInOrder | openpilot/system/athena/athenad.py:374-391 | in the order of the entries |

## Left out

- Rounding: `Rotations`, `DriverMonitoring`, `BlockAverage`, `RunningStat` and `Soundd` are over the real numbers; step counts such as 260 are those of exact arithmetic.
- Rotations.RotRoundTrip: assumes the square root it takes, as a number whose square is the radicand; that this root exists is proved for matrices of unit quaternions, and for other reals it is a fact of the real numbers.
- Trigonometry enters `Rotations` only as half-angle pairs with squares summing to one and the double-angle formulas; of the conversions to Euler angles only the arguments of their inverse functions are modelled, and conversions between geodetic and ECEF coordinates are not.
- BppSplitter.Conservation: states no exact condition where a second BF23 follows an A1 or A3 that stops short, or where the root is not first and its first child sent is not its only BF23: the form gives conservation there too, but bytes may happen to repeat what is sent again, as two concrete packages show.
- Glossary.Linker.Walk: the page is a tree of values that is returned anew, so update in place and aliasing of elements are not captured; the pattern search is any function that finds nothing or a stretch at or after the cursor; attributes other than the skip marker are not modelled.
- BlockAverage.BlockAverage.Get: gives the squares of the two standard deviations, as the real numbers here have no roots.
- RunningStat: the filter built from two of them is not modelled.
- DriverMonitoring: what the camera model says (face, distraction, its filter, uncertainty) is an arbitrary input of every step, so the classification of distraction and pose calibration are not modelled.
- The data length table is not part of the repository's own files; it is the CAN FD data length coding of ISO 11898-1.
- ObdHandshake: covers what pandad last commanded in one session, whatever it finds left over where calls are concerned and with its parameters cleared where the car's model is; the NO_OUTPUT commands sent when ignition goes off, sessions of replay, and several sessions in one run are not modelled.
- ParamsWriter: the file lock around rename and removal is not modelled, which only adds interleavings; persistence after a power loss (fsync) is not modelled; that a queued entry is eventually written is claimed only where the writer is still to look at the queue, as it is false otherwise.
- Soundd: where the current volume comes from and the sound files are not modelled; a callback and an alert change are each one step.
- EsimCommands: the card's replies, retries and status words are not modelled; digits are ASCII digits.
- Sockets, message serialization, logging, modem commands, user interface, alert texts, and numeric estimators: plumbing or libraries without a crisp contract here.
