# metadrill in Dafny

metadrill is a small SDL program that drives a CNC machine to drill the holes
of a printed circuit board. It reads an Excellon-style drill file, orders the
holes along a Z-order (Morton) curve, and maps file coordinates to machine
coordinates through an affine calibration matrix. The operator computes that
matrix from samples taken by jogging the head onto known holes. The program
talks G-code to the machine over a serial line and waits for an
acknowledgement after every command.

This project models the sequential core of `metadrill.c` and proves properties
of it:

- `morton.dfy` (module `Morton`): `get_morton_num`. The sixteen-round loop is
  proved equal to a bit interleaving, and the interleaving's bit placement,
  range, monotonicity and sign are proved.
- `geometry.dfy` (module `Geometry`): holes, the bounding box,
  `get_screen_x`/`get_screen_y` (range-normalised, inverted, truncated toward
  zero) and `compare_pos_by_morton_num`.
- `drillfile.dfy` (module `DrillFile`): `read_drlfile` as a class
  `DrillBoard` over the drill list and box globals. It covers the tool-select
  and coordinate-line scans, the implicit-decimal token decoder, the box
  updates, and `sort_drill_list_by_morton_num`. The sort fills a pointer
  array, sorts it in place by the Morton key and relinks the list by
  prepending, so the list ends in non-increasing key order.
- `calibration.dfy` (module `Calibration`):
  - `set_default_matrixop`, `transform` and `adjust`, the closed-form
    solution of the three-sample system;
  - `adjust_run`, the mean over all ordered triples of distinct samples,
    written as three nested loops;
  - the class `Calibrator` holding `active_matrixop` and the sample list,
    with the `p` key's sample recording.
- `protocol.dfy` (module `Protocol`): the acknowledgement rule of
  `execute_gcode`. A reply line is accepted iff it is exactly `"ok\r\n"` or
  begins with `"ok:"`. Reply lines are consumed from a finite sequence.
- `motion.dfy` (module `Motion`): the class `Controller` over the head globals
  (`cnc_x/y/z`, `current_x/y/z`, `target_x/y`, `current_autopos`,
  `drilling_ok`, `drilling`) and the static `initialized` flag of
  `move_cnc_head_gcode`. The commands sent are recorded in a log of
  `Command` values instead of formatted text. The module covers:
  - `move_cnc_head_gcode`, with its G90/G92 prelude, HOME, SETHOME and the
    UP/MID/DOWN heights, the DOWN height being gated by
    `drilling_ok && current_autopos`;
  - `move_cnc_head_setpos`, `move_cnc_head_rel` (fast and slow profiles) and
    `move_cnc_head`;
  - the drill-all loop of the `s` key, with waiting key presses given as a
    boolean sequence.

Coordinates are Dafny `real`s. The C `int` key of `get_morton_num` is
reinterpreted from 32 bits explicitly, and float-to-int conversion truncates
toward zero explicitly.

Three behaviours of the code that a reader might not expect are kept as
written:

- Acknowledgements: `metadrill.c:658` accepts only `"ok\r\n"` and lines
  beginning with `"ok:"`. A bare `"ok\n"`, the usual Unix line end, is not an
  acknowledgement, so a device that answers that way is never acknowledged
  (`Protocol.UnixLineEndNeverAcks`).
- Negative tokens: the implicit-decimal rule at `metadrill.c:228-229` scales a
  token by ten to the power of ten minus `strlen` of the whole token, minus
  sign included, and multiplies a token that starts with '-' by ten more. The
  extra factor looks like a defect, but it makes up for the minus sign being
  counted in the length. So for up to nine digits d, `"-" + d` decodes to the
  negation of `d` (`DrillFile.DecodeNegation`).
- Long tokens: the exponent `10 - strlen(s)` is computed in the unsigned
  `size_t`. A token of more than ten characters wraps it to about 2^64, and
  the coordinate becomes infinite (NaN for a zero token). The model gives such
  a token no value (`DrillFile.Decode`), so a file holding one is outside
  `WellFormedDrillFile`. A ten-digit `d` decodes, but `"-" + d` does not.

## Model

| member | source | states |
|---|---|---|
| Morton.Interleave | metadrill.c:150-157 | the reference definition of the loop: n rounds placing bit i of the first coordinate at 2i and of the second at 2i+1; `GetMortonNum` is proved equal to it and `InterleaveBits` gives its bit placement |
| Morton.ToInt32 | metadrill.c:146-160 | the 32-bit result read back as a C `int` (two's complement); `MortonKeyNonNegative` gives when it stays non-negative |
| Morton.MortonKey | metadrill.c:146-160 | the key `get_morton_num` returns: the 16-round interleaving read as a C `int`; `GetMortonNum` ties the loop to it |
| Morton.Bit | metadrill.c:150-152 | bit i of an int in two's complement is 0 or 1 |
| Morton.GetMortonNum | metadrill.c:146-160 | the sixteen OR rounds return the 32-bit interleaving of the two coordinates, read as a C `int` |
| Morton.AccumulatedIsInterleave | metadrill.c:154-157 | OR-ing the bits in round by round builds the same number as interleaving from the low bit up |
| Morton.InterleaveBits | metadrill.c:150-157 | bit i of the first coordinate lands on key bit 2i and bit i of the second on bit 2i+1 |
| Morton.InterleaveBounds | metadrill.c:154-157 | an n-round key is a non-negative number below 2^(2n) |
| Morton.MortonKeyOrigin | metadrill.c:146-160 | the point (0, 0) has key 0 |
| Morton.InterleaveIgnoresHighBits | metadrill.c:154-157 | bits of either coordinate above bit 15 never change the key |
| Morton.MortonKeyNonNegative | metadrill.c:146-160 | with the second coordinate below 2^15 the C `int` key does not wrap negative |
| Morton.TopBitClear | metadrill.c:154-157 | the top key bit is bit n of the second coordinate, so it is clear when that coordinate is below 2^n |
| Morton.InterleaveStrictInFirst | metadrill.c:154-157 | the key is strictly increasing in the first coordinate |
| Morton.InterleaveStrictInSecond | metadrill.c:154-157 | the key is strictly increasing in the second coordinate |
| Morton.InterleaveMonotone | metadrill.c:154-157 | a point no greater in both coordinates never gets a greater key |
| Geometry.ComparePosByMortonNum | metadrill.c:162-173 | the result is negative iff the first hole's key is smaller, and positive iff it is larger |
| Geometry.ScreenX | metadrill.c:394-397 | the left edge of the box lands in column 630 and the right edge in column 10 |
| Geometry.ScreenY | metadrill.c:399-402 | the bottom edge of the box lands in row 450 and the top edge in row 10 |
| Geometry.Key | metadrill.c:162-167 | a hole's key is the Morton key of its screen column and row; `KeyInBox` and `KeyDominance` give its range and order |
| Geometry.ScreenXInRange | metadrill.c:394-397 | every x of the box lands in columns 10..630 |
| Geometry.ScreenYInRange | metadrill.c:399-402 | every y of the box lands in rows 10..450 |
| Geometry.ScreenXAntitone | metadrill.c:394-397 | a larger x never lands in a larger column |
| Geometry.ScreenYAntitone | metadrill.c:399-402 | a larger y never lands in a larger row |
| Geometry.KeyInBox | metadrill.c:162-167 | for a hole in the box the key is the plain interleaving of its screen cell and is a non-negative `int` |
| Geometry.KeyDominance | metadrill.c:162-167 | a hole below and left of another never gets a smaller key |
| Geometry.CornerKeys | metadrill.c:162-167 | in the box (0..1000)², the hole at the origin has a larger key than the hole at (1000, 1000) |
| Geometry.CornerOrder | metadrill.c:175-193 | in a list in non-increasing key order, the origin hole of that box comes before the (1000, 1000) hole |
| DrillFile.DigitsEnd | metadrill.c:225-226 | the end of the longest digit run: all digits before it, a non-digit or the end at it |
| DrillFile.CoordSetEnd | metadrill.c:224 | the end of the longest run of `%[-0-9]` characters |
| DrillFile.SpacesEnd | metadrill.c:207 | the end of the white space a `scanf` conversion skips: all white space before it, none at it |
| DrillFile.IsToolLine | metadrill.c:207 | a line matches `T%*dC%f`: 'T', an optionally signed integer after optional white space, 'C', then optional white space and something `strtod` converts (a signed number, or "inf"/"nan" in any case); any such line selects the drill list |
| DrillFile.ToolLineSelects | metadrill.c:207 | "T", a tool number, "C" and a value selects the drill list iff `%f` converts something at the start of the value |
| DrillFile.FloatStartsExamples | metadrill.c:207 | `%f` converts "INF", "-Infinity", "nan", "0.8", ".5" and "+3", and does not convert "x", "." or "IN" |
| DrillFile.ScanCoordLine | metadrill.c:224 | a match gives two non-empty tokens of '-' and digits, the line begins with X, the first token, Y, the second token, and the second token is the longest such run (the next character, if any, is outside the set) |
| DrillFile.ScanCoordLineComplete | metadrill.c:224 | every line made of X, a non-empty run of '-' and digits, Y and another such run is matched, with the whole first run as first token and a second token extending the second run |
| DrillFile.ScanNumber | metadrill.c:225-226 | `%f` on a token: an optional minus and the longest digit run after it, nothing when no digit follows; `ScanDigits`/`ScanMinusDigits` give its value |
| DrillFile.ScanDigits | metadrill.c:225-226 | `%f` on a digit string reads its decimal value |
| DrillFile.ScanMinusDigits | metadrill.c:225-226 | `%f` on "-" followed by digits reads the negated value |
| DrillFile.Decode | metadrill.c:228-229 | a token has a finite coordinate iff `%f` converts it and it is at most ten characters long (a longer one wraps the unsigned exponent) |
| DrillFile.DecodeDigits | metadrill.c:228-229 | a digit token d of at most ten digits decodes to its value times 10^(10 - \|d\|); a longer one has no finite value |
| DrillFile.DecodeNegation | metadrill.c:228-229 | d decodes iff it has at most ten digits; "-" + d decodes to exactly the negation of d for up to nine digits, and to no finite value for ten or more |
| DrillFile.LinePoints | metadrill.c:224-249 | a line adds at most one hole, and that hole is not done |
| DrillFile.Points | metadrill.c:202-254 | a file adds at most one hole per line |
| DrillFile.PointsCount | metadrill.c:224-249 | a file whose tokens decode adds exactly one hole per coordinate line and none for other lines |
| DrillFile.CoordLineHole | metadrill.c:224-246 | a coordinate line adds the hole at its two decoded tokens |
| DrillFile.Extend | metadrill.c:235-242 | one hole's min/max updates; `BoxOfSnoc` and `BoxOfIsTight` state what they build |
| DrillFile.BoxOf | metadrill.c:230-242 | the box of the holes read, first hole setting it: its minimum is never above its maximum on either axis, and it holds the first and the last hole |
| DrillFile.BoxOfIsTight | metadrill.c:230-242 | after the first hole, the box holds every hole read and each of its four edges touches one |
| DrillFile.BoxOfSnoc | metadrill.c:235-242 | one more hole widens the box of the holes before it by the min/max updates |
| DrillFile.ReversedSnoc | metadrill.c:247-248 | prepending each new hole leaves the holes in reverse file order |
| DrillFile.ReversedMultiset | metadrill.c:247-248 | that reversal keeps exactly the same holes |
| DrillFile.CompareByKey | metadrill.c:162-173 | the comparator says "not after" iff the first key is no larger |
| DrillFile.SwapDown | metadrill.c:184 | one exchange of neighbours in the pointer array, every other entry unchanged, a permutation |
| DrillFile.InsertDown | metadrill.c:184 | one insertion round extends the ascending prefix by one, as a permutation |
| DrillFile.SortByKey | metadrill.c:184 | the `qsort` contract: the array ends ascending by key and is a permutation of what it held |
| DrillFile.PointerArray | metadrill.c:177-182 | the new array holds the list in list order |
| DrillFile.Relink | metadrill.c:186-190 | the relinked list is the array back to front, with the same holes |
| DrillFile.RelinkSorted | metadrill.c:184-190 | the ascending array relinks into a list in non-increasing key order with the same holes |
| DrillFile.RelinkedNonIncreasing | metadrill.c:186-190 | an ascending array read back to front is in non-increasing key order |
| DrillFile.DrillBoard.MarkDone | metadrill.c:1113 | the hole at position i is marked done and nothing else in the list changes |
| DrillFile.DrillBoard.SortDrillListByMortonNum | metadrill.c:175-193 | the list keeps its count and exactly its holes, and ends in non-increasing Morton-key order |
| DrillFile.DrillBoard.AddHole | metadrill.c:230-249 | the hole is prepended, and the first hole sets the box while later ones widen it |
| DrillFile.DrillBoard.ReadCoordLine | metadrill.c:224-250 | a coordinate line prepends its hole and keeps the box equal to the box of all holes read; other lines change nothing |
| DrillFile.DrillBoard.ReadLines | metadrill.c:202-254 | the list becomes the file's holes in reverse order ahead of the old list, and the box is the box of the file's holes |
| DrillFile.DrillBoard.ReadDrlFile | metadrill.c:195-255 | for a file with at least one line, the count grows by the file's holes, the list holds exactly the old and the new holes, the box is the file's, and the list is in non-increasing key order |
| Calibration.Transform | metadrill.c:287-296 | the file position through the 2×2 matrix plus the offset (e, f); `DefaultMatrixOp`, `AdjustFits` and `AdjustUnique` state what it maps where |
| Calibration.Adjust | metadrill.c:298-320 | the closed-form solution of the three-sample system, for a non-zero denominator; `AdjustFits`, `AdjustUnique` and `AdjustSymmetric` state that it is the one matrix reproducing the samples |
| Calibration.Average | metadrill.c:373-391 | the sum of the solutions of all ordered triples of distinct samples divided by their count; `AverageExact` states that it recovers a matrix all samples agree on |
| Calibration.DefaultMatrixOp | metadrill.c:270-278 | the default matrix maps every file position onto itself |
| Calibration.AdjustFits | metadrill.c:298-320 | with a non-zero denominator, the computed matrix maps each of the three file positions exactly onto its machine position |
| Calibration.AdjustUnique | metadrill.c:298-320 | any matrix reproducing the three samples is the computed one |
| Calibration.AdjustSymmetric | metadrill.c:298-320 | swapping two samples negates the denominator and leaves the solution unchanged |
| Calibration.AdjustIdentity | metadrill.c:298-320 | samples (0,0)→(0,0), (10,0)→(10,0), (0,10)→(0,10) solve to the default matrix |
| Calibration.SolutionsExact | metadrill.c:337-361 | when one matrix reproduces every sample, every triple of distinct samples solves to it |
| Calibration.CountTotal | metadrill.c:337-371 | `resultop_div` ends as n·(n−1)·(n−2), the number of ordered triples of distinct samples |
| Calibration.AverageExact | metadrill.c:322-392 | when one matrix reproduces every sample, the average is exactly that matrix |
| Calibration.ShiftedBoard | metadrill.c:322-392 | three samples of a board shifted by (dx, dy) average to the pure translation |
| Calibration.SumSolutions | metadrill.c:337-371 | the triple loop returns the sum of the solutions of all ordered triples of distinct samples and their count |
| Calibration.AddSecondSamples | metadrill.c:338-371 | the middle loop adds every triple with the given first sample |
| Calibration.AddThirdSamples | metadrill.c:339-371 | the inner loop adds the solution for every third sample different from the first two, skipping the rest |
| Calibration.Calibrator.RecordSample | metadrill.c:907-914 | the sample (target, head position) is prepended to the list and the count grows by one |
| Calibration.Calibrator.AdjustRun | metadrill.c:322-392 | with fewer than three samples nothing changes; otherwise the average becomes the active matrix and the list is emptied |
| Calibration.CalibrateShiftedBoard | metadrill.c:322-392 | after three samples of a shifted board, a file position is sent to its shifted machine position |
| Protocol.AwaitOk | metadrill.c:625-661 | an acknowledgement consumes at least one line |
| Protocol.AwaitOkMeaning | metadrill.c:625-661 | the read loop runs out iff no line is accepted, and otherwise stops just after the first accepted line |
| Protocol.SkipFirst | metadrill.c:658-661 | a line that is not accepted is skipped and reading goes on |
| Protocol.AwaitAcksStep | metadrill.c:602-661 | the replies after n+1 commands are one more read loop after those of n commands |
| Protocol.ExhaustedStays | metadrill.c:655 | once the replies have run out, later commands never find an acknowledgement |
| Protocol.AwaitAcksConsumes | metadrill.c:625-661 | each acknowledged command consumes at least one reply line |
| Protocol.AcceptedExamples | metadrill.c:658-661 | "ok\r\n", "ok:" and "ok: 3 left\r\n" are accepted; "ok\n", "OK\r\n", an error line and a bare "ok" are not |
| Protocol.UnixLineEndNeverAcks | metadrill.c:658-661 | a device answering "ok\n" is never acknowledged |
| Protocol.SkipsNoise | metadrill.c:658-661 | an echoed command and a status line before "ok\r\n" are skipped, and the next reply is left |
| Motion.Height | metadrill.c:735-748 | the height lies between cnc_z−7 and cnc_z; it is the drilling depth cnc_z−7 iff DOWN is asked with drilling allowed; it is cnc_z−3 for MID and for DOWN with drilling not allowed; it is cnc_z iff the state is neither MID nor DOWN |
| Motion.Issued | metadrill.c:708-757 | HOME sends Z to 0 then X/Y to 0; SETHOME sends one G92 naming the file position and state; for UP, MID and DOWN one line: a Z move to the state's height iff `z_notxy`, else an XY move to the machine position, with the low feed iff `low_speed`; none is G90 or G92 |
| Motion.JogMoves | metadrill.c:772-791 | a Z move at the high feed to the stepped height (3 lower when slow), then an XY move to the new position at the high feed when fast and the low feed when slow |
| Motion.NeedsRaise | metadrill.c:795 | the raise condition of `move_cnc_head`: the head is not up and the target is elsewhere or UP; `RaiseIfNeeded` and `TravelRaisesFirst` state its effect |
| Motion.Raise | metadrill.c:795-801 | one Z move to UP at the high feed when the raise condition holds, nothing otherwise |
| Motion.Descent | metadrill.c:813-826 | DOWN adds MID and the drilling height; MID and DOWN end with MID; UP adds nothing; `TravelPlunges` states how often it plunges |
| Motion.Travel | metadrill.c:793-827 | all `move_cnc_head` sends after the prelude: the raise, the XY move and UP, then the descent; `TravelShape`, `TravelRaisesFirst` and `TravelPlunges` state its shape |
| Motion.HoleMoves | metadrill.c:1111-1112 | drilling one hole: the travel down to it, then the travel up; `HolePlunges` and `HoleTargets` state what it does |
| Motion.DrillMoves | metadrill.c:1097-1113 | the hole moves of the drilled holes in list order, each from the head state the one before leaves; `DrillPlunges` and `DrillTargets` state what they do |
| Motion.RunMoves | metadrill.c:1091-1118 | the prelude (when a hole is drilled) and the drill moves: everything a run sends; `RunPlunges` states how often it plunges |
| Motion.Drilled | metadrill.c:1097-1113 | the holes a run drills; `UndoneMeaning` states that they are exactly the not-done holes before the stop |
| Motion.StopFrom | metadrill.c:1097-1105 | the run stops at the first hole not done with a key press waiting, or at the end of the list |
| Motion.MarkedDone | metadrill.c:1113 | after a run that stopped at k, every hole before k is done and the rest are unchanged |
| Motion.MarkStep | metadrill.c:1113 | marking the next hole done advances the marked prefix by one |
| Motion.MarkSkip | metadrill.c:1098-1099 | passing a hole already done leaves the list as it was |
| Motion.UndoneStep | metadrill.c:1097-1099 | one more list position adds its hole to the drilled holes unless it is done |
| Motion.UndoneMeaning | metadrill.c:1097-1113 | the drilled holes are exactly the holes before the stop that were not done |
| Motion.NoKeyDrillsAll | metadrill.c:1097-1105 | without a key press the run reaches the end and drills every hole not done |
| Motion.DrillStep | metadrill.c:1097-1113 | drilling one more hole appends its moves to those of the holes before |
| Motion.RunStep | metadrill.c:1097-1113 | one more hole extends the run's commands by the prelude (first hole only) and its moves |
| Motion.PreludeOnceAppend | metadrill.c:664-706 | sending a command other than G90/G92 keeps G90 first and G92 second, each once |
| Motion.PlungesAppend | metadrill.c:1097-1113 | the plunges of two command sequences add up |
| Motion.TravelPlunges | metadrill.c:813-819 | `move_cnc_head` plunges to the drilling depth once for DOWN with drilling allowed, and never otherwise |
| Motion.HolePlunges | metadrill.c:1111-1112 | drilling one hole plunges once if drilling is allowed and never otherwise |
| Motion.DrillPlunges | metadrill.c:1097-1113 | the holes' moves plunge once per hole when drilling is allowed, and never otherwise |
| Motion.RunPlunges | metadrill.c:1091-1118 | a whole drill-all run plunges once per drilled hole when drilling is allowed, and never otherwise |
| Motion.TravelRaisesFirst | metadrill.c:795-806 | when the head is lowered and the target is another position, the first command raises it to UP and the second is the sideways move |
| Motion.TravelShape | metadrill.c:793-827 | `move_cnc_head` makes exactly one sideways move, to the target, and ends at MID for MID and DOWN and at UP otherwise |
| Motion.HoleTargets | metadrill.c:1106-1112 | drilling a hole moves sideways only to that hole's machine position |
| Motion.DrillTargets | metadrill.c:1097-1113 | a run moves sideways only to machine positions of the holes it drills |
| Motion.Controller.ResetCursor | metadrill.c:262-267 | after reading a file the head is taken to be up at the box's lower corner and the target is the upper corner |
| Motion.Controller.ExecuteGcode | metadrill.c:602-661 | the command is logged, and the unread replies become those left after one acknowledgement per command sent; running out of replies stops the program |
| Motion.Controller.Initialize | metadrill.c:664-706 | on the first call G90 then G92 are sent, and never again |
| Motion.Controller.Send | metadrill.c:602-661 | a command other than G90/G92 is appended to the log, keeping the prelude invariant |
| Motion.Controller.HeightMove | metadrill.c:735-758 | one Z or XY line at the state's height and feed; the requested state is recorded even when DOWN was sent as MID |
| Motion.Controller.MoveHeadGcode | metadrill.c:592-759 | the prelude once, then the commands of `Issued`; HOME and SETHOME zero the machine position and set UP, other states keep it and record the state |
| Motion.Controller.GoHome | metadrill.c:708-725 | Z to 0 then X/Y to 0 at the chosen feed; the machine position becomes the origin at UP |
| Motion.Controller.SetHome | metadrill.c:727-733 | one G92 naming the file position and the old state number; the machine position becomes the origin at UP |
| Motion.Controller.SetPos | metadrill.c:761-770 | the machine position becomes the transform of the file position |
| Motion.Controller.Jog | metadrill.c:774-788 | the steps are added to the machine position and the Z line precedes the XY line, both in the given state |
| Motion.Controller.MoveRel | metadrill.c:772-791 | the steps are added; the fast profile (long step or head up) stays UP at the high feed, and the slow one goes through MID with the XY line at the low feed |
| Motion.Controller.RaiseIfNeeded | metadrill.c:795-801 | the head is raised iff it is not up and the target is elsewhere or UP is asked |
| Motion.Controller.TravelTo | metadrill.c:803-811 | one XY move to the transformed target and the UP height; the file position becomes the target |
| Motion.Controller.DescendTo | metadrill.c:813-826 | DOWN sends MID, the drilling height and MID; MID sends MID; the head is left at MID for both |
| Motion.Controller.MoveHead | metadrill.c:793-827 | the commands are those of `Travel`; the file and machine positions become the target and its transform, and the head ends at MID for MID/DOWN and at UP otherwise |
| Motion.Controller.DrillHole | metadrill.c:1106-1112 | the hole becomes the target, the head drills it and ends up over it at UP, and the commands are the hole's moves |
| Motion.Controller.DrillNext | metadrill.c:1106-1112 | after one more hole the log and the head are those of the run over the holes drilled so far plus that hole, and the cursor is on that hole with automatic positioning on |
| Motion.Controller.Visit | metadrill.c:1097-1113 | one list position: a done hole is passed, a waiting key ends the run, any other hole is drilled and marked done |
| Motion.Controller.DrillLoop | metadrill.c:1097-1114 | the list ends marked up to the stop, the log holds the moves of exactly the drilled holes, and the cursor is on the last drilled hole or untouched when none was drilled |
| Motion.Controller.DrillAll | metadrill.c:1091-1118 | every hole before the stop is done and the rest unchanged; the head is over the last drilled hole; the log grows by the run's commands; `drilling` is cleared; the cursor (target and automatic positioning) is on the last drilled hole, or unchanged when none was drilled; the first-call flag is set iff it was set or a hole was drilled |

## Left out

- SDL drawing, the console scrollback, the mouse pick, command-line parsing
  and the key dispatch of `main` are left out: they are presentation and input
  plumbing. Only the `s` (drill-all) and `p` (record sample) key bodies are
  modelled, and `adjust_run` is modelled as the `a` key calls it.
- Serial-port setup and byte I/O (termios, the Win32 handle and byte-wise
  reads, `fprintf`/`fgets`) are left out. A command is a `Command` value
  appended to a log, and replies are a finite sequence of lines. The model
  follows the POSIX build, in which blind mode reads nothing; the Win32 build
  reads replies even in blind mode.
- Motion.Controller.ExecuteGcode: where the C program blocks or aborts on a
  failed read (`CHECK` on `fgets`), the model sets `halted` and sends nothing
  more. Every log statement of the head methods therefore holds only while
  `halted` is false.
- Float arithmetic, `pow`, `%f` formatting of G-code numbers and `strtod`
  rounding are left out; coordinates are exact reals.
- The 512-byte `fgets` buffer (a longer line is read as several lines) is not
  modelled; the file is a sequence of whole lines.
- The mark and mount lists are not modelled: their tool selection is
  commented out in the source, so every hole goes to the drill list.
- DrillFile.DrillBoard.ReadDrlFile requires a file of at least one line: the
  first `fgets` at `metadrill.c:202` is not checked, so an empty file runs the
  loop body once on an uninitialised buffer. It requires that every coordinate
  line follows a tool-select line (before one, the source dereferences a NULL
  list pointer). It also requires that both tokens hold a digit (otherwise
  `%f` leaves an uninitialised float) and are at most ten characters long
  (otherwise the coordinate is infinite or NaN, which reals cannot express).
- DrillFile.DrillBoard.SortDrillListByMortonNum requires a box with non-zero
  width and height when there are two holes to compare. The source divides by
  both in `get_screen_x`/`get_screen_y`.
- Calibration.Calibrator.AdjustRun requires that no three distinct samples
  have collinear file positions. The source divides by the zero denominator
  there.
- DrillFile.SortByKey sorts by insertion where the source calls `qsort`. Only
  the `qsort` contract (ascending by the comparator, a permutation) is relied
  on, so the order among holes with equal keys is not modelled.
- The `SDL_QUIT` event during a drill-all run (`goto app_quit`) is not
  modelled; any waiting key press ends the run.
- Reading and writing `metadrill.mat` is file I/O and is left out.
  `print_matrixop` is console output and is also left out.
- Motion.Controller.SetHome sends the height state number (0, 1 or 2) as the Z
  value of its G92 line, as `metadrill.c:728` does. The model does not say what
  the machine makes of it.
- Motion.Controller.RaiseIfNeeded: for a target at the current file position
  that is not UP, the source does not raise the head before the XY line.
  The model keeps this, and `Motion.TravelRaisesFirst` covers only targets at
  another position.
