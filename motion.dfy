/** The drilling head: the height states, the G-code commands the program sends
    for them (`move_cnc_head_gcode`), relative jogging (`move_cnc_head_rel`),
    absolute moves through the calibration matrix (`move_cnc_head`), and the
    drill-all run over the hole list. Commands are recorded in a log instead of
    being formatted; the device's reply lines are a finite sequence that the
    read loop of Protocol consumes. */
module Motion {
  import opened Calibration
  import opened Geometry
  import opened DrillFile
  import opened Protocol

  // Height states of the head (`Z_STATE_*`)
  const ZStateHome: int := -1
  const ZStateSetHome: int := -2
  const ZStateUp: int := 0
  const ZStateMid: int := 1
  const ZStateDown: int := 2

  // The two feed rates (`FEEDRATE_HIGH`, `FEEDRATE_LOW`)
  const FeedHigh: int := 400
  const FeedLow: int := 90

  /** One line sent to the machine. */
  datatype Command =
    | G90                                  // absolute coordinates
    | G92                                  // the current position is the origin
    | G92At(x: real, y: real, zState: int) // `G92 X.. Y.. Z..`: rename the current position
    | MoveZ(z: real, feed: int)            // `G1 Z.. F..`
    | MoveXY(x: real, y: real, feed: int)  // `G1 X.. Y.. F..`

  /** The globals the head commands read and write: the machine position
      `cnc_x, cnc_y, cnc_z`, the file position `current_x, current_y` and the
      height state `current_z`. */
  datatype Head = Head(cncX: real, cncY: real, cncZ: real, currentX: real, currentY: real, currentZ: int)

  function Feed(lowSpeed: bool): int
  {
    if lowSpeed then FeedLow else FeedHigh
  }

  /** The height sent for a height state (`Z_VALUE_UP`, `Z_VALUE_MID`,
      `Z_VALUE_DOWN` below `cnc_z`). The drilling depth needs mayDrill
      (`drilling_ok && current_autopos`); without it DOWN is sent as MID. */
  function Height(cncZ: real, zState: int, mayDrill: bool): (z: real)
    ensures cncZ - 7.0 <= z <= cncZ
    ensures z == cncZ - 7.0 <==> zState == ZStateDown && mayDrill
    ensures z == cncZ <==> zState != ZStateMid && zState != ZStateDown
    ensures zState == ZStateMid || (zState == ZStateDown && !mayDrill) ==> z == cncZ - 3.0
  {
    if zState == ZStateMid then cncZ - 3.0
    else if zState == ZStateDown then (if mayDrill then cncZ - 7.0 else cncZ - 3.0)
    else cncZ
  }

  /** The two commands of the first call, before any other. */
  function Prelude(initialized: bool): seq<Command>
  {
    if initialized then [] else [G90, G92]
  }

  /** The commands of one call of `move_cnc_head_gcode` after its prelude. */
  function Issued(h: Head, zState: int, zNotXY: bool, lowSpeed: bool, mayDrill: bool): (cmds: seq<Command>)
    ensures |cmds| == if zState == ZStateHome then 2 else 1
    ensures forall i | 0 <= i < |cmds| :: cmds[i] != G90 && cmds[i] != G92
    ensures zState != ZStateHome && zState != ZStateSetHome ==>
              (if zNotXY then cmds[0].MoveZ? else cmds[0].MoveXY?) && cmds[0].feed == Feed(lowSpeed)
    ensures zState == ZStateHome ==>
              cmds == [MoveZ(0.0, Feed(lowSpeed)), MoveXY(0.0, 0.0, Feed(lowSpeed))]
    ensures zState == ZStateSetHome ==> cmds == [G92At(h.currentX, h.currentY, h.currentZ)]
    ensures zState != ZStateHome && zState != ZStateSetHome && zNotXY ==>
              cmds[0].z == Height(h.cncZ, zState, mayDrill)
    ensures zState != ZStateHome && zState != ZStateSetHome && !zNotXY ==>
              cmds[0].x == h.cncX && cmds[0].y == h.cncY
  {
    if zState == ZStateHome then [MoveZ(0.0, Feed(lowSpeed)), MoveXY(0.0, 0.0, Feed(lowSpeed))]
    else if zState == ZStateSetHome then [G92At(h.currentX, h.currentY, h.currentZ)]
    else if zNotXY then [MoveZ(Height(h.cncZ, zState, mayDrill), Feed(lowSpeed))]
    else [MoveXY(h.cncX, h.cncY, Feed(lowSpeed))]
  }

  /** `fabs` */
  function Abs(r: real): real
  {
    if r < 0.0 then -r else r
  }

  /** The fast profile of `move_cnc_head_rel`: a long step, or the head is up. */
  predicate FastJog(xd: real, yd: real, currentZ: int)
  {
    Abs(xd) > 10.0 || Abs(yd) > 10.0 || currentZ == ZStateUp
  }

  /** The two commands of a relative move to machine position (x, y, z). */
  function JogMoves(x: real, y: real, z: real, fast: bool): (cmds: seq<Command>)
    ensures |cmds| == 2 && cmds[0].MoveZ? && cmds[0].feed == FeedHigh
    ensures cmds[1].MoveXY? && cmds[1].x == x && cmds[1].y == y
    ensures cmds[0].z == if fast then z else z - 3.0
    ensures cmds[1].feed == if fast then FeedHigh else FeedLow
  {
    if fast then [MoveZ(z, FeedHigh), MoveXY(x, y, FeedHigh)]
    else [MoveZ(z - 3.0, FeedHigh), MoveXY(x, y, FeedLow)]
  }

  /** `move_cnc_head` raises the head first when it is not up and the target is
      another position or the target height is UP. */
  predicate NeedsRaise(h: Head, x: real, y: real, z: int)
  {
    (x != h.currentX || y != h.currentY || z == ZStateUp) && h.currentZ != ZStateUp
  }

  /** The first part of `move_cnc_head`: raising the head when needed. */
  function Raise(h: Head, x: real, y: real, z: int): seq<Command>
  {
    if NeedsRaise(h, x, y, z) then [MoveZ(h.cncZ, FeedHigh)] else []
  }

  /** The last part of `move_cnc_head`: for DOWN, MID and then the drilling
      height at low feed; for DOWN and MID, back to MID. */
  function Descent(cncZ: real, z: int, mayDrill: bool): seq<Command>
  {
    (if z == ZStateDown
     then [MoveZ(cncZ - 3.0, FeedHigh), MoveZ(Height(cncZ, ZStateDown, mayDrill), FeedLow)]
     else [])
    + (if z == ZStateMid || z == ZStateDown then [MoveZ(cncZ - 3.0, FeedHigh)] else [])
  }

  /** The commands of `move_cnc_head` to file position (x, y), machine
      position to, and height state z, after the prelude. */
  function Travel(h: Head, x: real, y: real, z: int, to: Point, mayDrill: bool): seq<Command>
  {
    Raise(h, x, y, z) + [MoveXY(to.x, to.y, FeedHigh), MoveZ(h.cncZ, FeedHigh)] + Descent(h.cncZ, z, mayDrill)
  }

  // ---------------------------------------------------------------------------
  // The drill-all run

  /** A key press is waiting when the run reaches list position i. */
  predicate Pressed(keys: seq<bool>, i: int)
  {
    0 <= i < |keys| && keys[i]
  }

  /** Where the run over list positions i.. stops: at the first hole not yet
      done with a key press waiting, or at the end of the list. */
  function StopFrom(list: seq<Pos>, keys: seq<bool>, i: nat): (k: nat)
    requires i <= |list|
    decreases |list| - i
    ensures i <= k <= |list|
    ensures k < |list| ==> !list[k].done && Pressed(keys, k)
    ensures forall j | i <= j < k :: list[j].done || !Pressed(keys, j)
  {
    if i == |list| then i
    else if !list[i].done && Pressed(keys, i) then i
    else StopFrom(list, keys, i + 1)
  }

  /** The holes among the first k list positions that are not done, in list
      order: the ones a run that stops at k drills. */
  function Undone(list: seq<Pos>, k: nat): (holes: seq<Pos>)
    requires k <= |list|
    ensures |holes| <= k
  {
    if k == 0 then []
    else if list[k - 1].done then Undone(list, k - 1)
    else Undone(list, k - 1) + [list[k - 1]]
  }

  /** The list after a run that stopped at k: every hole before k is done,
      the others are as they were. */
  function MarkedDone(list: seq<Pos>, k: nat): (marked: seq<Pos>)
    requires k <= |list|
    ensures |marked| == |list|
    ensures forall j | 0 <= j < |list| ::
              marked[j] == if j < k then list[j].(done := true) else list[j]
  {
    seq(|list|, j requires 0 <= j < |list| => if j < k then list[j].(done := true) else list[j])
  }

  /** Marking one more hole done. */
  lemma MarkStep(list: seq<Pos>, k: nat)
    requires k < |list|
    ensures MarkedDone(list, k)[k := list[k].(done := true)] == MarkedDone(list, k + 1)
  {
  }

  /** Passing a hole that is already done changes nothing. */
  lemma MarkSkip(list: seq<Pos>, k: nat)
    requires k < |list| && list[k].done
    ensures MarkedDone(list, k) == MarkedDone(list, k + 1)
  {
  }

  /** One more list position: the hole is added unless it is done. */
  lemma UndoneStep(list: seq<Pos>, k: nat)
    requires k < |list|
    ensures Undone(list, k + 1) == if list[k].done then Undone(list, k) else Undone(list, k) + [list[k]]
  {
  }

  /** The globals after `move_cnc_head(x, y, UP)` for the last drilled hole. */
  function After(h: Head, op: MatrixOp, holes: seq<Pos>): Head
  {
    if holes == [] then h
    else
      var p := holes[|holes| - 1];
      Head(Transform(op, p.x, p.y).x, Transform(op, p.x, p.y).y, h.cncZ, p.x, p.y, ZStateUp)
  }

  /** The commands for drilling one hole from state h: down to the drilling
      depth, then back up. */
  function HoleMoves(h: Head, op: MatrixOp, p: Pos, mayDrill: bool): seq<Command>
  {
    Travel(h, p.x, p.y, ZStateDown, Transform(op, p.x, p.y), mayDrill)
    + Travel(Head(Transform(op, p.x, p.y).x, Transform(op, p.x, p.y).y, h.cncZ, p.x, p.y, ZStateMid),
             p.x, p.y, ZStateUp, Transform(op, p.x, p.y), mayDrill)
  }

  /** The commands for drilling the given holes in turn, after the prelude. */
  function DrillMoves(h: Head, op: MatrixOp, holes: seq<Pos>, mayDrill: bool): seq<Command>
    decreases |holes|
  {
    if holes == [] then []
    else
      var n := |holes| - 1;
      DrillMoves(h, op, holes[..n], mayDrill) + HoleMoves(After(h, op, holes[..n]), op, holes[n], mayDrill)
  }

  /** The holes a run over list drills, given the key presses. */
  function Drilled(list: seq<Pos>, keys: seq<bool>): seq<Pos>
  {
    Undone(list, StopFrom(list, keys, 0))
  }

  /** Without a key press the run goes to the end of the list and drills
      every hole not done. */
  lemma NoKeyDrillsAll(list: seq<Pos>, keys: seq<bool>)
    requires forall i | 0 <= i < |keys| :: !keys[i]
    ensures StopFrom(list, keys, 0) == |list|
    ensures Drilled(list, keys) == Undone(list, |list|)
  {
  }

  /** The run sends the prelude only if it drills a hole. */
  function RunPrelude(initialized: bool, holes: seq<Pos>): seq<Command>
  {
    if holes == [] then [] else Prelude(initialized)
  }

  /** Everything a drill-all run over the given holes sends. */
  function RunMoves(initialized: bool, h: Head, op: MatrixOp, holes: seq<Pos>, mayDrill: bool): seq<Command>
  {
    RunPrelude(initialized, holes) + DrillMoves(h, op, holes, mayDrill)
  }

  lemma LogAssoc4(a: seq<Command>, b: seq<Command>, c: seq<Command>, d: seq<Command>)
    ensures (((a + b) + c) + []) + d == a + (b + (c + d))
  {
  }

  lemma PairJoin(log: seq<Command>, first: Command, second: Command)
    ensures (log + [first]) + [second] == log + [first, second]
  {
  }

  lemma JogJoin(log: seq<Command>, pre: seq<Command>, zMove: Command, xyMove: Command)
    ensures ((log + pre) + [zMove]) + [xyMove] == log + (pre + [zMove, xyMove])
  {
  }

  lemma RaisedJoin(log: seq<Command>, pre: seq<Command>, raise: seq<Command>, travel: seq<Command>, descent: seq<Command>)
    ensures ((((log + pre) + raise) + []) + travel) + descent == (log + pre) + ((raise + travel) + descent)
  {
  }

  lemma UnraisedJoin(log: seq<Command>, pre: seq<Command>, travel: seq<Command>, descent: seq<Command>)
    ensures ((((log + []) + []) + pre) + travel) + descent == (log + pre) + (([] + travel) + descent)
  {
  }

  lemma LogAssoc(a: seq<Command>, b: seq<Command>, c: seq<Command>)
    ensures (a + b) + c == a + (b + c)
  {
  }

  /** The run keeps the machine height. */
  lemma AfterCncZ(h: Head, op: MatrixOp, holes: seq<Pos>)
    ensures After(h, op, holes).cncZ == h.cncZ
  {
  }

  /** Drilling one more hole appends its moves to those of the holes before. */
  lemma DrillStep(h: Head, op: MatrixOp, holes: seq<Pos>, p: Pos, mayDrill: bool)
    ensures DrillMoves(h, op, holes + [p], mayDrill) == DrillMoves(h, op, holes, mayDrill) + HoleMoves(After(h, op, holes), op, p, mayDrill)
  {
    assert (holes + [p])[..|holes|] == holes;
  }

  /** One drilled hole extends the run's commands by the prelude (before the
      first hole only) and that hole's moves. */
  lemma RunStep(h: Head, op: MatrixOp, holes: seq<Pos>, p: Pos, initialized: bool, mayDrill: bool)
    ensures RunMoves(initialized, h, op, holes + [p], mayDrill)
         == RunMoves(initialized, h, op, holes, mayDrill)
            + (Prelude(initialized || holes != []) + HoleMoves(After(h, op, holes), op, p, mayDrill))
  {
    DrillStep(h, op, holes, p, mayDrill);
    var drilled := DrillMoves(h, op, holes, mayDrill);
    var next := HoleMoves(After(h, op, holes), op, p, mayDrill);
    var pre := Prelude(initialized);
    if holes == [] {
      assert drilled == [];
      FirstHoleJoin(pre, next);
    } else {
      assert Prelude(initialized || holes != []) == [];
      LaterHoleJoin(pre, drilled, next);
    }
  }

  lemma FirstHoleJoin(pre: seq<Command>, next: seq<Command>)
    ensures pre + ([] + next) == ([] + []) + (pre + next)
  {
  }

  lemma LaterHoleJoin(pre: seq<Command>, drilled: seq<Command>, next: seq<Command>)
    ensures pre + (drilled + next) == (pre + drilled) + ([] + next)
  {
  }

  /** G90 is the first command and G92 the second, and neither is sent again. */
  ghost predicate PreludeOnce(log: seq<Command>)
  {
    forall i | 0 <= i < |log| :: (log[i] == G90 <==> i == 0) && (log[i] == G92 <==> i == 1)
  }

  lemma PreludeOnceAppend(log: seq<Command>, c: Command)
    requires PreludeOnce(log) && |log| >= 2 && c != G90 && c != G92
    ensures PreludeOnce(log + [c])
  {
  }

  // ---------------------------------------------------------------------------
  // What the commands do

  /** The number of plunges to the drilling depth below cncZ (the drilling
      height at the low feed) among the commands. */
  function Plunges(cmds: seq<Command>, cncZ: real): (n: nat)
    ensures n <= |cmds|
  {
    if cmds == [] then 0
    else (if cmds[0] == MoveZ(cncZ - 7.0, FeedLow) then 1 else 0) + Plunges(cmds[1..], cncZ)
  }

  lemma {:induction false} PlungesAppend(a: seq<Command>, b: seq<Command>, cncZ: real)
    decreases |a|
    ensures Plunges(a + b, cncZ) == Plunges(a, cncZ) + Plunges(b, cncZ)
  {
    if a == [] {
      assert a + b == b;
    } else {
      assert (a + b)[0] == a[0] && (a + b)[1..] == a[1..] + b;
      PlungesAppend(a[1..], b, cncZ);
    }
  }

  /** A single command plunges exactly when it is the drilling-depth move. */
  lemma PlungesOne(c: Command, cncZ: real)
    ensures Plunges([c], cncZ) == if c == MoveZ(cncZ - 7.0, FeedLow) then 1 else 0
  {
    assert [c][1..] == [];
  }

  lemma PlungesPair(c: Command, d: Command, cncZ: real)
    ensures Plunges([c, d], cncZ) == Plunges([c], cncZ) + Plunges([d], cncZ)
  {
    assert [c, d] == [c] + [d];
    PlungesAppend([c], [d], cncZ);
  }

  /** `move_cnc_head` plunges to the drilling depth once when asked for DOWN
      with drilling allowed, and never otherwise. */
  lemma TravelPlunges(h: Head, x: real, y: real, z: int, to: Point, mayDrill: bool)
    ensures Plunges(Travel(h, x, y, z, to, mayDrill), h.cncZ) == if z == ZStateDown && mayDrill then 1 else 0
  {
    var c := h.cncZ;
    var raise := Raise(h, x, y, z);
    var mid := [MoveXY(to.x, to.y, FeedHigh), MoveZ(c, FeedHigh)];
    var drill := if z == ZStateDown then [MoveZ(c - 3.0, FeedHigh), MoveZ(Height(c, ZStateDown, mayDrill), FeedLow)] else [];
    var back := if z == ZStateMid || z == ZStateDown then [MoveZ(c - 3.0, FeedHigh)] else [];
    PlungesAppend(raise + mid, drill + back, c);
    PlungesAppend(raise, mid, c);
    PlungesAppend(drill, back, c);
    PlungesPair(MoveXY(to.x, to.y, FeedHigh), MoveZ(c, FeedHigh), c);
    PlungesOne(MoveXY(to.x, to.y, FeedHigh), c);
    PlungesOne(MoveZ(c, FeedHigh), c);
    PlungesOne(MoveZ(c - 3.0, FeedHigh), c);
    if z == ZStateDown {
      PlungesPair(MoveZ(c - 3.0, FeedHigh), MoveZ(Height(c, ZStateDown, mayDrill), FeedLow), c);
      PlungesOne(MoveZ(Height(c, ZStateDown, mayDrill), FeedLow), c);
    }
  }

  /** Drilling one hole plunges once if drilling is allowed, else never. */
  lemma HolePlunges(h: Head, op: MatrixOp, p: Pos, mayDrill: bool)
    ensures Plunges(HoleMoves(h, op, p, mayDrill), h.cncZ) == if mayDrill then 1 else 0
  {
    var t := Transform(op, p.x, p.y);
    var h' := Head(t.x, t.y, h.cncZ, p.x, p.y, ZStateMid);
    PlungesAppend(Travel(h, p.x, p.y, ZStateDown, t, mayDrill), Travel(h', p.x, p.y, ZStateUp, t, mayDrill), h.cncZ);
    TravelPlunges(h, p.x, p.y, ZStateDown, t, mayDrill);
    TravelPlunges(h', p.x, p.y, ZStateUp, t, mayDrill);
  }

  /** A run plunges once per hole it drills when drilling is allowed
      (`drilling_ok`), and never touches the drilling depth otherwise. */
  lemma {:induction false} DrillPlunges(h: Head, op: MatrixOp, holes: seq<Pos>, mayDrill: bool)
    decreases |holes|
    ensures Plunges(DrillMoves(h, op, holes, mayDrill), h.cncZ) == if mayDrill then |holes| else 0
  {
    if holes != [] {
      var n := |holes| - 1;
      DrillPlunges(h, op, holes[..n], mayDrill);
      PlungesAppend(DrillMoves(h, op, holes[..n], mayDrill), HoleMoves(After(h, op, holes[..n]), op, holes[n], mayDrill), h.cncZ);
      AfterCncZ(h, op, holes[..n]);
      HolePlunges(After(h, op, holes[..n]), op, holes[n], mayDrill);
    }
  }

  /** The same for everything a drill-all run sends, prelude included. */
  lemma RunPlunges(initialized: bool, h: Head, op: MatrixOp, holes: seq<Pos>, mayDrill: bool)
    ensures Plunges(RunMoves(initialized, h, op, holes, mayDrill), h.cncZ) == if mayDrill then |holes| else 0
  {
    var pre := RunPrelude(initialized, holes);
    PlungesAppend(pre, DrillMoves(h, op, holes, mayDrill), h.cncZ);
    DrillPlunges(h, op, holes, mayDrill);
    if pre != [] {
      PlungesPair(G90, G92, h.cncZ);
      PlungesOne(G90, h.cncZ);
      PlungesOne(G92, h.cncZ);
    }
  }

  /** The head never moves sideways while lowered: when it is not up and the
      target is another file position, the first command raises it to the UP
      height and the second is the horizontal move. */
  lemma TravelRaisesFirst(h: Head, x: real, y: real, z: int, to: Point, mayDrill: bool)
    requires h.currentZ != ZStateUp && (x != h.currentX || y != h.currentY)
    ensures |Travel(h, x, y, z, to, mayDrill)| >= 3
    ensures Travel(h, x, y, z, to, mayDrill)[0] == MoveZ(h.cncZ, FeedHigh)
    ensures Travel(h, x, y, z, to, mayDrill)[1] == MoveXY(to.x, to.y, FeedHigh)
  {
  }

  /** `move_cnc_head` makes exactly one horizontal move, to the target, and
      ends at MID for MID and DOWN and at UP otherwise. */
  lemma TravelShape(h: Head, x: real, y: real, z: int, to: Point, mayDrill: bool)
    ensures var cmds := Travel(h, x, y, z, to, mayDrill);
            var k := if NeedsRaise(h, x, y, z) then 1 else 0;
            && k < |cmds|
            && cmds[k] == MoveXY(to.x, to.y, FeedHigh)
            && (forall i | 0 <= i < |cmds| && i != k :: cmds[i].MoveZ?)
            && cmds[|cmds| - 1] == MoveZ(if z == ZStateMid || z == ZStateDown then h.cncZ - 3.0 else h.cncZ, FeedHigh)
  {
  }

  /** The horizontal move to the machine position of hole p. */
  function Target(op: MatrixOp, p: Pos): Command
  {
    MoveXY(Transform(op, p.x, p.y).x, Transform(op, p.x, p.y).y, FeedHigh)
  }

  /** Every horizontal move among the commands goes to one of the holes. */
  ghost predicate MovesOnlyTo(cmds: seq<Command>, op: MatrixOp, holes: seq<Pos>)
  {
    forall i | 0 <= i < |cmds| && cmds[i].MoveXY? :: exists j | 0 <= j < |holes| :: cmds[i] == Target(op, holes[j])
  }

  /** Drilling a hole moves sideways only to that hole. */
  lemma HoleTargets(h: Head, op: MatrixOp, p: Pos, mayDrill: bool)
    ensures MovesOnlyTo(HoleMoves(h, op, p, mayDrill), op, [p])
  {
    var t := Transform(op, p.x, p.y);
    var h' := Head(t.x, t.y, h.cncZ, p.x, p.y, ZStateMid);
    var down: seq<Command> := Travel(h, p.x, p.y, ZStateDown, t, mayDrill);
    var up: seq<Command> := Travel(h', p.x, p.y, ZStateUp, t, mayDrill);
    TravelShape(h, p.x, p.y, ZStateDown, t, mayDrill);
    TravelShape(h', p.x, p.y, ZStateUp, t, mayDrill);
    forall i | 0 <= i < |down + up| && (down + up)[i].MoveXY?
      ensures (down + up)[i] == Target(op, [p][0])
    {
      if i < |down| {
        assert (down + up)[i] == down[i];
      } else {
        assert (down + up)[i] == up[i - |down|];
      }
    }
  }

  /** A drill-all run moves sideways only to the holes it drills. */
  lemma {:induction false} DrillTargets(h: Head, op: MatrixOp, holes: seq<Pos>, mayDrill: bool)
    decreases |holes|
    ensures MovesOnlyTo(DrillMoves(h, op, holes, mayDrill), op, holes)
  {
    if holes != [] {
      var n := |holes| - 1;
      var before: seq<Command> := DrillMoves(h, op, holes[..n], mayDrill);
      var last: seq<Command> := HoleMoves(After(h, op, holes[..n]), op, holes[n], mayDrill);
      DrillTargets(h, op, holes[..n], mayDrill);
      HoleTargets(After(h, op, holes[..n]), op, holes[n], mayDrill);
      forall i | 0 <= i < |before + last| && (before + last)[i].MoveXY?
        ensures exists j | 0 <= j < |holes| :: (before + last)[i] == Target(op, holes[j])
      {
        if i < |before| {
          assert (before + last)[i] == before[i];
          var j :| 0 <= j < n && before[i] == Target(op, holes[..n][j]);
          assert holes[..n][j] == holes[j];
        } else {
          assert (before + last)[i] == last[i - |before|];
          assert [holes[n]][0] == holes[n];
        }
      }
    }
  }

  /** The holes a run that stops at k drills are exactly the list positions
      before k that were not done, in list order. */
  lemma {:induction false} UndoneMeaning(list: seq<Pos>, k: nat)
    requires k <= |list|
    ensures forall q | q in Undone(list, k) :: !q.done && q in list[..k]
    ensures forall j | 0 <= j < k && !list[j].done :: list[j] in Undone(list, k)
  {
    if k > 0 {
      UndoneMeaning(list, k - 1);
      assert list[..k] == list[..k - 1] + [list[k - 1]];
    }
  }

  // ---------------------------------------------------------------------------
  // The machine link and the head globals

  class Controller {
    var cncX: real
    var cncY: real
    var cncZ: real
    var currentX: real
    var currentY: real
    var currentZ: int
    var targetX: real
    var targetY: real
    var autopos: bool      // `current_autopos`: the head was placed on a file position
    var drillingOk: bool   // `drilling_ok`: the operator enabled drilling
    var drilling: bool
    var initialized: bool  // the `static` flag of `move_cnc_head_gcode`
    const blind: bool      // `blind_gcode_mode`: no replies are read
    var log: seq<Command>  // every command sent, oldest first
    var replies: seq<string>  // the reply lines not read yet
    var halted: bool       // a read found no more lines: the program has stopped
    ghost const input: seq<string>  // all reply lines the device sends

    function State(): Head
      reads this`cncX, this`cncY, this`cncZ, this`currentX, this`currentY, this`currentZ
    {
      Head(cncX, cncY, cncZ, currentX, currentY, currentZ)
    }

    /** The replies read so far are exactly those of one acknowledgement per
        command sent; running out of replies is the stop. */
    ghost predicate InSync()
      reads this`log, this`replies, this`halted
    {
      var w := Await(blind, input, |log|);
      if w.Exhausted? then halted && replies == [] else !halted && replies == w.rest
    }

    /** G90 and G92 are sent once each, as the first two commands, and only
        once the first call has run. */
    ghost predicate Valid()
      reads this`log, this`replies, this`halted, this`initialized
    {
      && PreludeOnce(log)
      && (!initialized ==> log == [])
      && (initialized && !halted ==> |log| >= 2)
      && InSync()
    }

    /** Program start: zeroed globals, the command-line flags, nothing sent. */
    constructor (blind: bool, drillingOk: bool, input: seq<string>)
      ensures Valid() && !initialized && !halted && log == [] && replies == input
      ensures this.blind == blind && this.drillingOk == drillingOk && this.input == input
      ensures State() == Head(0.0, 0.0, 0.0, 0.0, 0.0, ZStateUp)
      ensures !autopos && !drilling
    {
      this.blind := blind;
      this.drillingOk := drillingOk;
      this.input := input;
      cncX, cncY, cncZ := 0.0, 0.0, 0.0;
      currentX, currentY, currentZ := 0.0, 0.0, ZStateUp;
      targetX, targetY := 0.0, 0.0;
      autopos, drilling, initialized := false, false, false;
      log, replies, halted := [], input, false;
    }

    /** The end of `read_drlfile` (metadrill.c:262-267): the head is taken to
        be up at the lower corner of the box, and the target cursor is put on
        the upper corner. */
    method ResetCursor(b: Box)
      modifies this`currentX, this`currentY, this`currentZ, this`targetX, this`targetY, this`drilling
      ensures currentX == b.minX && currentY == b.minY && currentZ == ZStateUp
      ensures targetX == b.maxX && targetY == b.maxY && !drilling
    {
      currentX, currentY, currentZ := b.minX, b.minY, ZStateUp;
      targetX, targetY := b.maxX, b.maxY;
      drilling := false;
    }

    /** `execute_gcode`: send one command, then, unless blind, read lines until
        one is accepted. Running out of lines stops the program. */
    method ExecuteGcode(c: Command)
      requires InSync()
      modifies this`log, this`replies, this`halted
      ensures InSync()
      ensures old(halted) ==> halted && log == old(log)
      ensures !old(halted) ==> log == old(log) + [c]
    {
      if halted {
        return;
      }
      log := log + [c];
      if blind {
        return;
      }
      AwaitAcksStep(input, |log| - 1);
      ghost var pending := replies;
      while true
        invariant !halted && log == old(log) + [c]
        invariant AwaitOk(replies) == AwaitOk(pending)
        decreases |replies|
      {
        if replies == [] {
          halted := true;
          return;
        }
        var line := replies[0];
        replies := replies[1..];
        if Accepted(line) {
          return;
        }
      }
    }

    /** The prelude of `move_cnc_head_gcode` (metadrill.c:664-706): G90, then
        G92, on the first call only. */
    method Initialize()
      requires Valid()
      modifies this`log, this`replies, this`halted, this`initialized
      ensures Valid() && initialized
      ensures old(halted) ==> halted && log == old(log)
      ensures !halted ==> log == old(log) + Prelude(old(initialized))
    {
      if !initialized {
        ExecuteGcode(G90);
        ExecuteGcode(G92);
        initialized := true;
      }
    }

    /** `execute_gcode` for a command after the prelude. */
    method Send(c: Command)
      requires Valid() && initialized && c != G90 && c != G92
      modifies this`log, this`replies, this`halted
      ensures Valid()
      ensures old(halted) ==> halted && log == old(log)
      ensures !old(halted) ==> log == old(log) + [c]
    {
      if !halted {
        PreludeOnceAppend(log, c);
      }
      ExecuteGcode(c);
    }

    /** `move_cnc_head_gcode` for the height states UP, MID and DOWN: one
        Z-only or XY-only move, after which the requested state is recorded
        (also for a DOWN that was sent as MID). */
    method HeightMove(zState: int, zNotXY: bool, lowSpeed: bool)
      requires Valid() && zState != ZStateHome && zState != ZStateSetHome
      modifies this`log, this`replies, this`halted, this`initialized, this`currentZ
      ensures Valid() && initialized
      ensures old(halted) ==> halted
      ensures currentZ == zState
      ensures !halted ==>
                log == old(log) + Prelude(old(initialized))
                       + [if zNotXY then MoveZ(Height(cncZ, zState, drillingOk && autopos), Feed(lowSpeed))
                          else MoveXY(cncX, cncY, Feed(lowSpeed))]
    {
      Initialize();
      var feed := Feed(lowSpeed);
      var z := Height(cncZ, zState, drillingOk && autopos);
      currentZ := zState;
      if zNotXY {
        Send(MoveZ(z, feed));
      } else {
        Send(MoveXY(cncX, cncY, feed));
      }
    }

    /** `move_cnc_head_gcode`: on the first call the prelude; then HOME and
        SETHOME zero the machine position, and every other state is a
        HeightMove. */
    method MoveHeadGcode(zState: int, zNotXY: bool, lowSpeed: bool)
      requires Valid()
      modifies this`log, this`replies, this`halted, this`initialized
      modifies this`cncX, this`cncY, this`cncZ, this`currentZ
      ensures Valid() && initialized
      ensures old(halted) ==> halted
      ensures !halted ==>
                log == old(log) + Prelude(old(initialized))
                       + Issued(old(State()), zState, zNotXY, lowSpeed, drillingOk && autopos)
      ensures zState == ZStateHome || zState == ZStateSetHome ==>
                cncX == 0.0 && cncY == 0.0 && cncZ == 0.0 && currentZ == ZStateUp
      ensures zState != ZStateHome && zState != ZStateSetHome ==>
                cncX == old(cncX) && cncY == old(cncY) && cncZ == old(cncZ) && currentZ == zState
    {
      if zState == ZStateHome {
        GoHome(lowSpeed);
      } else if zState == ZStateSetHome {
        SetHome();
      } else {
        HeightMove(zState, zNotXY, lowSpeed);
      }
    }

    /** HOME in `move_cnc_head_gcode` (metadrill.c:708-725): Z to 0, then X
        and Y to 0, and the machine position becomes the origin at UP. */
    method GoHome(lowSpeed: bool)
      requires Valid()
      modifies this`log, this`replies, this`halted, this`initialized
      modifies this`cncX, this`cncY, this`cncZ, this`currentZ
      ensures Valid() && initialized
      ensures old(halted) ==> halted
      ensures cncX == 0.0 && cncY == 0.0 && cncZ == 0.0 && currentZ == ZStateUp
      ensures !halted ==>
                log == old(log) + Prelude(old(initialized))
                       + [MoveZ(0.0, Feed(lowSpeed)), MoveXY(0.0, 0.0, Feed(lowSpeed))]
    {
      cncX, cncY, cncZ := 0.0, 0.0, 0.0;
      currentZ := ZStateUp;
      var feed := Feed(lowSpeed);
      Initialize();
      ghost var sent := log;
      Send(MoveZ(0.0, feed));
      Send(MoveXY(0.0, 0.0, feed));
      PairJoin(sent, MoveZ(0.0, feed), MoveXY(0.0, 0.0, feed));
    }

    /** SETHOME in `move_cnc_head_gcode` (metadrill.c:727-733): declare the
        current file position (and the height state number) as the machine
        position, which becomes the origin at UP. */
    method SetHome()
      requires Valid()
      modifies this`log, this`replies, this`halted, this`initialized
      modifies this`cncX, this`cncY, this`cncZ, this`currentZ
      ensures Valid() && initialized
      ensures old(halted) ==> halted
      ensures cncX == 0.0 && cncY == 0.0 && cncZ == 0.0 && currentZ == ZStateUp
      ensures !halted ==>
                log == old(log) + Prelude(old(initialized)) + [G92At(currentX, currentY, old(currentZ))]
    {
      var c := G92At(currentX, currentY, currentZ);
      cncX, cncY, cncZ := 0.0, 0.0, 0.0;
      currentZ := ZStateUp;
      Initialize();
      Send(c);
    }

    /** `move_cnc_head_setpos`: the machine position of a file position under
        the calibration matrix. */
    method SetPos(op: MatrixOp, x: real, y: real)
      modifies this`cncX, this`cncY
      ensures Point(cncX, cncY) == Transform(op, x, y)
    {
      var p := Transform(op, x, y);
      cncX, cncY := p.x, p.y;
    }

    /** One branch of `move_cnc_head_rel`: the height step and then the XY
        step, both in height state zState. */
    method Jog(xd: real, yd: real, zd: real, zState: int, lowSpeedXY: bool)
      requires Valid() && (zState == ZStateUp || zState == ZStateMid)
      modifies this`log, this`replies, this`halted, this`initialized
      modifies this`cncX, this`cncY, this`cncZ, this`currentZ
      ensures Valid() && initialized && currentZ == zState
      ensures cncX == old(cncX) + xd && cncY == old(cncY) + yd && cncZ == old(cncZ) + zd
      ensures !halted ==>
                log == old(log) + (Prelude(old(initialized))
                       + [MoveZ(Height(cncZ, zState, false), FeedHigh), MoveXY(cncX, cncY, Feed(lowSpeedXY))])
    {
      ghost var log0, pre := log, Prelude(initialized);
      cncZ := cncZ + zd;
      HeightMove(zState, true, false);
      ghost var log1 := log;
      ghost var zMove := MoveZ(Height(cncZ, zState, false), FeedHigh);
      assert !halted ==> log1 == (log0 + pre) + [zMove];
      cncX := cncX + xd;
      cncY := cncY + yd;
      HeightMove(zState, false, lowSpeedXY);
      assert !halted ==> log == log1 + [MoveXY(cncX, cncY, Feed(lowSpeedXY))];
      JogJoin(log0, pre, zMove, MoveXY(cncX, cncY, Feed(lowSpeedXY)));
    }

    /** `move_cnc_head_rel`: add the step to the machine position, then send
        the height line and the XY line of the fast or the slow profile. */
    method MoveRel(xd: real, yd: real, zd: real)
      requires Valid()
      modifies this`log, this`replies, this`halted, this`initialized
      modifies this`cncX, this`cncY, this`cncZ, this`currentZ
      ensures Valid() && initialized
      ensures cncX == old(cncX) + xd && cncY == old(cncY) + yd && cncZ == old(cncZ) + zd
      ensures currentZ == if FastJog(xd, yd, old(currentZ)) then ZStateUp else ZStateMid
      ensures !halted ==>
                log == old(log) + (Prelude(old(initialized))
                       + JogMoves(cncX, cncY, cncZ, FastJog(xd, yd, old(currentZ))))
    {
      if Abs(xd) > 10.0 || Abs(yd) > 10.0 || currentZ == ZStateUp {
        Jog(xd, yd, zd, ZStateUp, false);
      } else {
        Jog(xd, yd, zd, ZStateMid, true);
      }
    }

    /** The raise at the start of `move_cnc_head` (metadrill.c:795-801). */
    method RaiseIfNeeded(x: real, y: real, z: int)
      requires Valid()
      modifies this`log, this`replies, this`halted, this`initialized, this`currentZ
      ensures Valid()
      ensures initialized == (old(initialized) || NeedsRaise(old(State()), x, y, z))
      ensures old(halted) ==> halted
      ensures currentZ == if NeedsRaise(old(State()), x, y, z) then ZStateUp else old(currentZ)
      ensures !halted ==>
                log == old(log)
                       + (if NeedsRaise(old(State()), x, y, z) then Prelude(old(initialized)) else [])
                       + Raise(old(State()), x, y, z)
    {
      if (x != currentX || y != currentY || z == ZStateUp) && currentZ != ZStateUp {
        HeightMove(ZStateUp, true, false);
      }
    }

    /** The travel of `move_cnc_head` (metadrill.c:803-810): to the machine
        position of (x, y) at UP height, then the UP height again. */
    method TravelTo(op: MatrixOp, x: real, y: real)
      requires Valid()
      modifies this`log, this`replies, this`halted, this`initialized
      modifies this`cncX, this`cncY, this`currentX, this`currentY, this`currentZ
      ensures Valid() && initialized
      ensures old(halted) ==> halted
      ensures currentX == x && currentY == y && currentZ == ZStateUp
      ensures Point(cncX, cncY) == Transform(op, x, y)
      ensures !halted ==>
                log == old(log) + Prelude(old(initialized))
                       + [MoveXY(Transform(op, x, y).x, Transform(op, x, y).y, FeedHigh), MoveZ(cncZ, FeedHigh)]
    {
      SetPos(op, x, y);
      HeightMove(ZStateUp, false, false);
      HeightMove(ZStateUp, true, false);
      currentX, currentY := x, y;
    }

    /** The descent at the end of `move_cnc_head` (metadrill.c:812-826). */
    method DescendTo(z: int)
      requires Valid() && initialized
      modifies this`log, this`replies, this`halted, this`initialized, this`currentZ
      ensures Valid() && initialized
      ensures old(halted) ==> halted
      ensures currentZ == if z == ZStateMid || z == ZStateDown then ZStateMid else old(currentZ)
      ensures !halted ==> log == old(log) + Descent(cncZ, z, drillingOk && autopos)
    {
      if z == ZStateDown {
        HeightMove(ZStateMid, true, false);
        HeightMove(z, true, true);
      }
      if z == ZStateMid || z == ZStateDown {
        HeightMove(ZStateMid, true, false);
      }
    }

    /** `move_cnc_head`: raise the head if needed, travel to the machine
        position of (x, y) and raise, then for DOWN drill and come back to MID,
        and for MID go to MID. */
    method MoveHead(op: MatrixOp, x: real, y: real, z: int)
      requires Valid()
      modifies this`log, this`replies, this`halted, this`initialized
      modifies this`cncX, this`cncY, this`currentX, this`currentY, this`currentZ
      ensures Valid() && initialized
      ensures old(halted) ==> halted
      ensures currentX == x && currentY == y
      ensures Point(cncX, cncY) == Transform(op, x, y)
      ensures currentZ == if z == ZStateMid || z == ZStateDown then ZStateMid else ZStateUp
      ensures !halted ==>
                log == old(log) + Prelude(old(initialized))
                       + Travel(old(State()), x, y, z, Transform(op, x, y), drillingOk && autopos)
    {
      ghost var h := State();
      ghost var log0 := log;
      ghost var pre := Prelude(initialized);
      ghost var raise := Raise(h, x, y, z);
      ghost var t := Transform(op, x, y);
      ghost var travel := [MoveXY(t.x, t.y, FeedHigh), MoveZ(h.cncZ, FeedHigh)];
      ghost var descent := Descent(h.cncZ, z, drillingOk && autopos);
      assert Travel(h, x, y, z, t, drillingOk && autopos) == (raise + travel) + descent;
      ghost var raised := NeedsRaise(h, x, y, z);
      RaiseIfNeeded(x, y, z);
      TravelTo(op, x, y);
      DescendTo(z);
      if raised {
        RaisedJoin(log0, pre, raise, travel, descent);
      } else {
        assert raise == [];
        UnraisedJoin(log0, pre, travel, descent);
      }
    }

    /** One pass of the drill-all loop body (metadrill.c:1106-1112): the hole
        becomes the target, and the head drills it and comes back up. */
    method DrillHole(op: MatrixOp, p: Pos)
      requires Valid()
      modifies this`log, this`replies, this`halted, this`initialized, this`autopos, this`targetX, this`targetY
      modifies this`cncX, this`cncY, this`currentX, this`currentY, this`currentZ
      ensures Valid() && initialized && autopos
      ensures old(halted) ==> halted
      ensures targetX == p.x && targetY == p.y
      ensures State() == After(old(State()), op, [p])
      ensures !halted ==> log == old(log) + (Prelude(old(initialized)) + HoleMoves(old(State()), op, p, drillingOk))
    {
      autopos := true;
      targetX, targetY := p.x, p.y;
      ghost var h := State();
      ghost var log0 := log;
      ghost var pre := Prelude(initialized);
      ghost var t := Transform(op, p.x, p.y);
      ghost var down := Travel(h, p.x, p.y, ZStateDown, t, drillingOk && autopos);
      ghost var up := Travel(Head(t.x, t.y, h.cncZ, p.x, p.y, ZStateMid), p.x, p.y, ZStateUp, t, drillingOk && autopos);
      assert HoleMoves(h, op, p, drillingOk) == down + up;
      MoveHead(op, targetX, targetY, ZStateDown);
      assert State() == Head(t.x, t.y, h.cncZ, p.x, p.y, ZStateMid);
      ghost var log1 := log;
      assert !halted ==> log1 == (log0 + pre) + down;
      MoveHead(op, targetX, targetY, ZStateUp);
      assert !halted ==> log == (log1 + []) + up;
      LogAssoc4(log0, pre, down, up);
    }

    /** Part way through a drill-all run that started in head state h with
        log0 sent: the holes drilled so far account for the head and the log. */
    ghost predicate Progress(h: Head, op: MatrixOp, init0: bool, log0: seq<Command>, holes: seq<Pos>)
      reads this`log, this`replies, this`halted, this`initialized, this`drillingOk
      reads this`cncX, this`cncY, this`cncZ, this`currentX, this`currentY, this`currentZ
    {
      && Valid()
      && initialized == (init0 || holes != [])
      && State() == After(h, op, holes)
      && (!halted ==> log == log0 + RunMoves(init0, h, op, holes, drillingOk))
    }

    /** Where the drill-all run leaves the cursor: on the last hole drilled, with
        automatic positioning on; untouched (a0, tx0, ty0) while none is drilled. */
    ghost predicate Aimed(holes: seq<Pos>, a0: bool, tx0: real, ty0: real)
      reads this`autopos, this`targetX, this`targetY
    {
      if holes == [] then autopos == a0 && targetX == tx0 && targetY == ty0
      else autopos && targetX == holes[|holes| - 1].x && targetY == holes[|holes| - 1].y
    }

    /** The drill-all loop after one more hole: the log and the head are those
        of the run over the holes drilled so far, extended by the new hole. */
    method DrillNext(op: MatrixOp, p: Pos, ghost h: Head, ghost init0: bool, ghost log0: seq<Command>, ghost holes: seq<Pos>)
      requires Progress(h, op, init0, log0, holes)
      modifies this`log, this`replies, this`halted, this`initialized, this`autopos, this`targetX, this`targetY
      modifies this`cncX, this`cncY, this`currentX, this`currentY, this`currentZ
      ensures Progress(h, op, init0, log0, holes + [p])
      ensures autopos && targetX == p.x && targetY == p.y
    {
      ghost var step := Prelude(initialized) + HoleMoves(State(), op, p, drillingOk);
      ghost var sent := RunMoves(init0, h, op, holes, drillingOk);
      RunStep(h, op, holes, p, init0, drillingOk);
      AfterCncZ(h, op, holes);
      DrillHole(op, p);
      LogAssoc(log0, sent, step);
    }

    /** The drill-all run (key `s`): walk the list, skip holes already done,
        stop at the first other hole with a key press waiting, and drill each
        hole before it (down, then up) and mark it done. */
    method DrillAll(op: MatrixOp, board: DrillBoard, keys: seq<bool>)
      requires Valid() && board.Valid()
      modifies this`log, this`replies, this`halted, this`initialized, this`autopos, this`targetX, this`targetY
      modifies this`cncX, this`cncY, this`currentX, this`currentY, this`currentZ, this`drilling
      modifies board`drillList
      ensures Valid() && board.Valid() && !drilling
      ensures |board.drillList| == |old(board.drillList)|
      ensures board.drillList == MarkedDone(old(board.drillList), StopFrom(old(board.drillList), keys, 0))
      ensures State() == After(old(State()), op, Drilled(old(board.drillList), keys))
      ensures !halted ==>
                log == old(log) + RunMoves(old(initialized), old(State()), op, Drilled(old(board.drillList), keys), drillingOk)
      ensures initialized == (old(initialized) || Drilled(old(board.drillList), keys) != [])
      ensures var d := Drilled(old(board.drillList), keys);
              d == [] ==> autopos == old(autopos) && targetX == old(targetX) && targetY == old(targetY)
      ensures var d := Drilled(old(board.drillList), keys);
              d != [] ==> autopos && targetX == d[|d| - 1].x && targetY == d[|d| - 1].y
    {
      drilling := true;
      DrillLoop(op, board, keys, State(), initialized, log);
      drilling := false;
    }

    /** The loop of the drill-all run. */
    method DrillLoop(op: MatrixOp, board: DrillBoard, keys: seq<bool>, ghost h: Head, ghost init0: bool, ghost log0: seq<Command>)
      requires Progress(h, op, init0, log0, []) && board.Valid()
      modifies this`log, this`replies, this`halted, this`initialized, this`autopos, this`targetX, this`targetY
      modifies this`cncX, this`cncY, this`currentX, this`currentY, this`currentZ
      modifies board`drillList
      ensures board.Valid()
      ensures board.drillList == MarkedDone(old(board.drillList), StopFrom(old(board.drillList), keys, 0))
      ensures Progress(h, op, init0, log0, Drilled(old(board.drillList), keys))
      ensures Aimed(Drilled(old(board.drillList), keys), old(autopos), old(targetX), old(targetY))
    {
      ghost var list := board.drillList;
      var i := 0;
      while i < |board.drillList|
        invariant i <= StopFrom(list, keys, 0)
        invariant |board.drillList| == |list| && board.Valid()
        invariant board.drillList == MarkedDone(list, i)
        invariant Progress(h, op, init0, log0, Undone(list, i))
        invariant Aimed(Undone(list, i), old(autopos), old(targetX), old(targetY))
        decreases |list| - i
      {
        var stop := Visit(op, board, keys, i, list, h, init0, log0, old(autopos), old(targetX), old(targetY));
        if stop {
          break;
        }
        i := i + 1;
      }
    }

    /** One pass of the drill-all loop over list position i: a hole already
        done is passed over, a waiting key press ends the run, and any other
        hole is drilled and marked done. */
    method Visit(op: MatrixOp, board: DrillBoard, keys: seq<bool>, i: nat, ghost list: seq<Pos>,
                 ghost h: Head, ghost init0: bool, ghost log0: seq<Command>,
                 ghost a0: bool, ghost tx0: real, ghost ty0: real) returns (stop: bool)
      requires i < |list| && i <= StopFrom(list, keys, 0)
      requires board.Valid() && board.drillList == MarkedDone(list, i)
      requires Progress(h, op, init0, log0, Undone(list, i))
      requires Aimed(Undone(list, i), a0, tx0, ty0)
      modifies this`log, this`replies, this`halted, this`initialized, this`autopos, this`targetX, this`targetY
      modifies this`cncX, this`cncY, this`currentX, this`currentY, this`currentZ
      modifies board`drillList
      ensures board.Valid()
      ensures stop ==> i == StopFrom(list, keys, 0) && board.drillList == MarkedDone(list, i)
                       && Progress(h, op, init0, log0, Undone(list, i)) && Aimed(Undone(list, i), a0, tx0, ty0)
      ensures !stop ==> i < StopFrom(list, keys, 0) && board.drillList == MarkedDone(list, i + 1)
                        && Progress(h, op, init0, log0, Undone(list, i + 1)) && Aimed(Undone(list, i + 1), a0, tx0, ty0)
    {
      var p := board.drillList[i];
      assert p == list[i];
      UndoneStep(list, i);
      if p.done {
        MarkSkip(list, i);
        return false;
      }
      if Pressed(keys, i) {
        return true;
      }
      DrillNext(op, p, h, init0, log0, Undone(list, i));
      MarkStep(list, i);
      board.MarkDone(i);
      return false;
    }
  }
}
