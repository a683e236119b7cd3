/** The input and timing side of the visualiser (`Visualiser`): six movement flags driven by key
    presses and releases, mouse-drag deltas that each update consumes, the camera calls an update
    makes, and one pass of the fixed-timestep loop with its once-a-second statistics. */
module Visualising {
  import opened JavaInt
  import opened Wrappers
  import opened Entities

  /** Java key codes (`KeyEvent.VK_*`) of the six movement keys. */
  const VK_W: int := 0x57
  const VK_S: int := 0x53
  const VK_A: int := 0x41
  const VK_D: int := 0x44
  const VK_Q: int := 0x51
  const VK_E: int := 0x45

  /** The six directions of free-fly movement. */
  datatype Direction = Up | Down | Left | Right | Forward | Backward

  /** Which movement keys are held. */
  datatype MoveFlags = MoveFlags(up: bool, down: bool, left: bool, right: bool, forward: bool, backward: bool)

  const NoFlags: MoveFlags := MoveFlags(false, false, false, false, false, false)

  /** The direction a key moves in: W forward, S backward, A left, D right, Q down, E up.
      Each direction has exactly one key, and no other key moves. */
  function KeyDirection(keyCode: int): (d: Option<Direction>)
    ensures forall e :: d == Some(e) <==> keyCode == KeyFor(e)
  {
    if keyCode == VK_W then Some(Forward)
    else if keyCode == VK_S then Some(Backward)
    else if keyCode == VK_A then Some(Left)
    else if keyCode == VK_D then Some(Right)
    else if keyCode == VK_Q then Some(Down)
    else if keyCode == VK_E then Some(Up)
    else None
  }

  /** The key that moves in direction `d`. */
  function KeyFor(d: Direction): int
  {
    match d
    case Forward => VK_W
    case Backward => VK_S
    case Left => VK_A
    case Right => VK_D
    case Down => VK_Q
    case Up => VK_E
  }

  /** Whether the flag for `d` is set. */
  function Held(f: MoveFlags, d: Direction): bool
  {
    match d
    case Up => f.up
    case Down => f.down
    case Left => f.left
    case Right => f.right
    case Forward => f.forward
    case Backward => f.backward
  }

  /** The flag for `d` set to `v`, the others kept. */
  function SetHeld(f: MoveFlags, d: Direction, v: bool): (r: MoveFlags)
    ensures Held(r, d) == v
    ensures forall e :: e != d ==> Held(r, e) == Held(f, e)
  {
    match d
    case Up => f.(up := v)
    case Down => f.(down := v)
    case Left => f.(left := v)
    case Right => f.(right := v)
    case Forward => f.(forward := v)
    case Backward => f.(backward := v)
  }

  /** The flags after `keyPressed`: a movement key sets its flag and only its flag; any other
      key changes nothing. */
  function Pressed(f: MoveFlags, keyCode: int): (g: MoveFlags)
    ensures forall e :: Held(g, e) == (KeyDirection(keyCode) == Some(e) || Held(f, e))
    ensures KeyDirection(keyCode).None? ==> g == f
  {
    match KeyDirection(keyCode)
    case None => f
    case Some(d) => SetHeld(f, d, true)
  }

  /** The flags after `keyReleased`: a movement key clears its flag and only its flag; any
      other key changes nothing. */
  function Released(f: MoveFlags, keyCode: int): (g: MoveFlags)
    ensures forall e :: Held(g, e) == (KeyDirection(keyCode) != Some(e) && Held(f, e))
    ensures KeyDirection(keyCode).None? ==> g == f
  {
    match KeyDirection(keyCode)
    case None => f
    case Some(d) => SetHeld(f, d, false)
  }

  /** Two sets of flags that agree on every direction are the same. */
  lemma FlagsEqual(f: MoveFlags, g: MoveFlags)
    requires forall d :: Held(f, d) == Held(g, d)
    ensures f == g
  {
    assert Held(f, Up) == Held(g, Up) && Held(f, Down) == Held(g, Down);
    assert Held(f, Left) == Held(g, Left) && Held(f, Right) == Held(g, Right);
    assert Held(f, Forward) == Held(g, Forward) && Held(f, Backward) == Held(g, Backward);
  }

  /** Pressing a key twice is pressing it once; releasing after pressing leaves the flag clear,
      exactly as releasing alone would. */
  lemma PressReleaseLaws(f: MoveFlags, keyCode: int)
    ensures Pressed(Pressed(f, keyCode), keyCode) == Pressed(f, keyCode)
    ensures Released(Pressed(f, keyCode), keyCode) == Released(f, keyCode)
  {
    match KeyDirection(keyCode)
    case None =>
    case Some(d) =>
      var p := SetHeld(f, d, true);
      FlagsEqual(SetHeld(p, d, true), p);
      FlagsEqual(SetHeld(p, d, false), SetHeld(f, d, false));
  }

  /** The angle an update turns by for a drag of `drag` pixels over a timestep of `delta` seconds. */
  function Turn(drag: Int32, delta: real): real
  {
    drag as real * delta * 20.0
  }

  /** The call `op` when `held`, nothing otherwise. */
  function Step(held: bool, op: CameraOp): seq<CameraOp>
  {
    if held then [op] else []
  }

  /** Appending one guarded move to a list of moves keeps it a list of moves, one longer when
      the move is made. */
  lemma StepAppend(moves: seq<CameraOp>, held: bool, op: CameraOp)
    requires op.MoveBy? && forall i :: 0 <= i < |moves| ==> moves[i].MoveBy?
    ensures |moves + Step(held, op)| == |moves| + if held then 1 else 0
    ensures forall i :: 0 <= i < |moves + Step(held, op)| ==> (moves + Step(held, op))[i].MoveBy?
  {
  }

  /** The six guarded moves of an update are one move per held flag. */
  lemma MovesShape(f: MoveFlags, delta: real)
    ensures var moves := Step(f.up, MoveBy(0.0, delta, 0.0)) + Step(f.down, MoveBy(0.0, -delta, 0.0))
      + Step(f.left, MoveBy(-delta, 0.0, 0.0)) + Step(f.right, MoveBy(delta, 0.0, 0.0))
      + Step(f.forward, MoveBy(0.0, 0.0, -delta)) + Step(f.backward, MoveBy(0.0, 0.0, delta));
      |moves| == HeldCount(f) && forall i :: 0 <= i < |moves| ==> moves[i].MoveBy?
  {
    var m0 := Step(f.up, MoveBy(0.0, delta, 0.0));
    StepAppend([], f.up, MoveBy(0.0, delta, 0.0));
    assert [] + m0 == m0;
    var m1 := m0 + Step(f.down, MoveBy(0.0, -delta, 0.0));
    StepAppend(m0, f.down, MoveBy(0.0, -delta, 0.0));
    var m2 := m1 + Step(f.left, MoveBy(-delta, 0.0, 0.0));
    StepAppend(m1, f.left, MoveBy(-delta, 0.0, 0.0));
    var m3 := m2 + Step(f.right, MoveBy(delta, 0.0, 0.0));
    StepAppend(m2, f.right, MoveBy(delta, 0.0, 0.0));
    var m4 := m3 + Step(f.forward, MoveBy(0.0, 0.0, -delta));
    StepAppend(m3, f.forward, MoveBy(0.0, 0.0, -delta));
    StepAppend(m4, f.backward, MoveBy(0.0, 0.0, delta));
  }

  /** How many of the six flags are held. */
  function HeldCount(f: MoveFlags): nat
  {
    (if f.up then 1 else 0) + (if f.down then 1 else 0) + (if f.left then 1 else 0) +
    (if f.right then 1 else 0) + (if f.forward then 1 else 0) + (if f.backward then 1 else 0)
  }

  /** The camera calls of one `update(delta)`: a move for each of the flags up, down, left,
      right, forward and backward, made when the flag is held, then a pitch by the vertical
      drag and a yaw by the horizontal drag, always made. So there is one move per held flag,
      and the update always ends with the pitch and then the yaw. */
  function UpdateOps(f: MoveFlags, deltaX: Int32, deltaY: Int32, delta: real): (ops: seq<CameraOp>)
    ensures |ops| == 2 + HeldCount(f)
  {
    MovesShape(f, delta);
    Step(f.up, MoveBy(0.0, delta, 0.0)) + Step(f.down, MoveBy(0.0, -delta, 0.0))
      + Step(f.left, MoveBy(-delta, 0.0, 0.0)) + Step(f.right, MoveBy(delta, 0.0, 0.0))
      + Step(f.forward, MoveBy(0.0, 0.0, -delta)) + Step(f.backward, MoveBy(0.0, 0.0, delta))
      + [RotateBy(Turn(deltaY, delta), 0.0, 0.0)] + [RotateBy(0.0, Turn(deltaX, delta), 0.0)]
  }

  /** An update makes its moves first and always ends with the pitch and then the yaw. */
  lemma UpdateShape(f: MoveFlags, deltaX: Int32, deltaY: Int32, delta: real)
    ensures var ops := UpdateOps(f, deltaX, deltaY, delta);
      (forall i :: 0 <= i < |ops| - 2 ==> ops[i].MoveBy?) &&
      ops[|ops| - 2] == RotateBy(Turn(deltaY, delta), 0.0, 0.0) &&
      ops[|ops| - 1] == RotateBy(0.0, Turn(deltaX, delta), 0.0)
  {
    MovesShape(f, delta);
    var moves := Step(f.up, MoveBy(0.0, delta, 0.0)) + Step(f.down, MoveBy(0.0, -delta, 0.0))
      + Step(f.left, MoveBy(-delta, 0.0, 0.0)) + Step(f.right, MoveBy(delta, 0.0, 0.0))
      + Step(f.forward, MoveBy(0.0, 0.0, -delta)) + Step(f.backward, MoveBy(0.0, 0.0, delta));
    var ops := UpdateOps(f, deltaX, deltaY, delta);
    assert ops == moves + [RotateBy(Turn(deltaY, delta), 0.0, 0.0)] + [RotateBy(0.0, Turn(deltaX, delta), 0.0)];
    forall i | 0 <= i < |ops| - 2 ensures ops[i].MoveBy? {
      assert ops[i] == moves[i];
    }
  }

  /** Appending eight call lists at once is appending them one after the other. */
  lemma AppendEight(log: seq<CameraOp>, s0: seq<CameraOp>, s1: seq<CameraOp>, s2: seq<CameraOp>, s3: seq<CameraOp>,
                    s4: seq<CameraOp>, s5: seq<CameraOp>, s6: seq<CameraOp>, s7: seq<CameraOp>)
    ensures log + (s0 + s1 + s2 + s3 + s4 + s5 + s6 + s7) == log + s0 + s1 + s2 + s3 + s4 + s5 + s6 + s7
  {
    AppendAssoc(log, s0, s1);
    AppendAssoc(log, s0 + s1, s2);
    AppendAssoc(log, s0 + s1 + s2, s3);
    AppendAssoc(log, s0 + s1 + s2 + s3, s4);
    AppendAssoc(log, s0 + s1 + s2 + s3 + s4, s5);
    AppendAssoc(log, s0 + s1 + s2 + s3 + s4 + s5, s6);
    AppendAssoc(log, s0 + s1 + s2 + s3 + s4 + s5 + s6, s7);
  }

  /** A log followed by the calls of one update, call by call. */
  lemma UpdateLogged(log: seq<CameraOp>, f: MoveFlags, deltaX: Int32, deltaY: Int32, delta: real)
    ensures log + UpdateOps(f, deltaX, deltaY, delta) ==
      log + Step(f.up, MoveBy(0.0, delta, 0.0)) + Step(f.down, MoveBy(0.0, -delta, 0.0))
        + Step(f.left, MoveBy(-delta, 0.0, 0.0)) + Step(f.right, MoveBy(delta, 0.0, 0.0))
        + Step(f.forward, MoveBy(0.0, 0.0, -delta)) + Step(f.backward, MoveBy(0.0, 0.0, delta))
        + [RotateBy(Turn(deltaY, delta), 0.0, 0.0)] + [RotateBy(0.0, Turn(deltaX, delta), 0.0)]
  {
    AppendEight(log, Step(f.up, MoveBy(0.0, delta, 0.0)), Step(f.down, MoveBy(0.0, -delta, 0.0)),
      Step(f.left, MoveBy(-delta, 0.0, 0.0)), Step(f.right, MoveBy(delta, 0.0, 0.0)),
      Step(f.forward, MoveBy(0.0, 0.0, -delta)), Step(f.backward, MoveBy(0.0, 0.0, delta)),
      [RotateBy(Turn(deltaY, delta), 0.0, 0.0)], [RotateBy(0.0, Turn(deltaX, delta), 0.0)]);
  }

  /** A translation or rotation summed over several camera calls. */
  datatype Triple = Triple(a: real, b: real, c: real)

  function Add(u: Triple, v: Triple): Triple
  {
    Triple(u.a + v.a, u.b + v.b, u.c + v.c)
  }

  const Zero: Triple := Triple(0.0, 0.0, 0.0)

  /** What one camera call contributes to the translation. */
  function MoveOf(op: CameraOp): Triple
  {
    match op
    case MoveBy(dx, dy, dz) => Triple(dx, dy, dz)
    case RotateBy(_, _, _) => Zero
  }

  /** What one camera call contributes to the rotation. */
  function TurnOf(op: CameraOp): Triple
  {
    match op
    case MoveBy(_, _, _) => Zero
    case RotateBy(dx, dy, dz) => Triple(dx, dy, dz)
  }

  /** The sum of the moves in `ops`. */
  function Translation(ops: seq<CameraOp>): Triple
  {
    if ops == [] then Zero else Add(MoveOf(ops[0]), Translation(ops[1..]))
  }

  /** The sum of the rotations in `ops`. */
  function Rotation(ops: seq<CameraOp>): Triple
  {
    if ops == [] then Zero else Add(TurnOf(ops[0]), Rotation(ops[1..]))
  }

  lemma {:induction false} TranslationAppend(a: seq<CameraOp>, b: seq<CameraOp>)
    ensures Translation(a + b) == Add(Translation(a), Translation(b))
  {
    if a != [] {
      assert (a + b)[0] == a[0];
      assert (a + b)[1..] == a[1..] + b;
      TranslationAppend(a[1..], b);
    } else {
      assert a + b == b;
    }
  }

  lemma {:induction false} RotationAppend(a: seq<CameraOp>, b: seq<CameraOp>)
    ensures Rotation(a + b) == Add(Rotation(a), Rotation(b))
  {
    if a != [] {
      assert (a + b)[0] == a[0];
      assert (a + b)[1..] == a[1..] + b;
      RotationAppend(a[1..], b);
    } else {
      assert a + b == b;
    }
  }

  /** Net movement along one axis: `amount` forward for the positive key, back for the negative. */
  function Along(positive: bool, negative: bool, amount: real): real
  {
    (if positive then amount else 0.0) - (if negative then amount else 0.0)
  }

  /** A guarded call adds its move and its turn when it is made, nothing otherwise. */
  lemma StepSums(held: bool, op: CameraOp)
    ensures Translation(Step(held, op)) == if held then MoveOf(op) else Zero
    ensures Rotation(Step(held, op)) == if held then TurnOf(op) else Zero
  {
    if held {
      var s := Step(held, op);
      assert s == [op] && s[0] == op && s[1..] == [];
      assert Translation(s) == Add(MoveOf(op), Zero);
      assert Rotation(s) == Add(TurnOf(op), Zero);
    } else {
      assert Step(held, op) == [];
    }
  }

  /** The sums over eight call lists laid end to end are the sums of their sums. */
  lemma SumsOfEight(s0: seq<CameraOp>, s1: seq<CameraOp>, s2: seq<CameraOp>, s3: seq<CameraOp>,
                    s4: seq<CameraOp>, s5: seq<CameraOp>, s6: seq<CameraOp>, s7: seq<CameraOp>)
    ensures Translation(s0 + s1 + s2 + s3 + s4 + s5 + s6 + s7) ==
      Add(Add(Add(Add(Add(Add(Add(Translation(s0), Translation(s1)), Translation(s2)), Translation(s3)),
        Translation(s4)), Translation(s5)), Translation(s6)), Translation(s7))
    ensures Rotation(s0 + s1 + s2 + s3 + s4 + s5 + s6 + s7) ==
      Add(Add(Add(Add(Add(Add(Add(Rotation(s0), Rotation(s1)), Rotation(s2)), Rotation(s3)),
        Rotation(s4)), Rotation(s5)), Rotation(s6)), Rotation(s7))
  {
    TranslationAppend(s0, s1);
    TranslationAppend(s0 + s1, s2);
    TranslationAppend(s0 + s1 + s2, s3);
    TranslationAppend(s0 + s1 + s2 + s3, s4);
    TranslationAppend(s0 + s1 + s2 + s3 + s4, s5);
    TranslationAppend(s0 + s1 + s2 + s3 + s4 + s5, s6);
    TranslationAppend(s0 + s1 + s2 + s3 + s4 + s5 + s6, s7);
    RotationAppend(s0, s1);
    RotationAppend(s0 + s1, s2);
    RotationAppend(s0 + s1 + s2, s3);
    RotationAppend(s0 + s1 + s2 + s3, s4);
    RotationAppend(s0 + s1 + s2 + s3 + s4, s5);
    RotationAppend(s0 + s1 + s2 + s3 + s4 + s5, s6);
    RotationAppend(s0 + s1 + s2 + s3 + s4 + s5 + s6, s7);
  }

  /** What a guarded move adds: its displacement when it is made, and never a turn. */
  lemma MoveStepSums(held: bool, dx: real, dy: real, dz: real)
    ensures Translation(Step(held, MoveBy(dx, dy, dz))) ==
      Triple(if held then dx else 0.0, if held then dy else 0.0, if held then dz else 0.0)
    ensures Rotation(Step(held, MoveBy(dx, dy, dz))) == Zero
  {
    StepSums(held, MoveBy(dx, dy, dz));
  }

  /** What a turn that is always made adds: its angles, and never a move. */
  lemma TurnStepSums(dx: real, dy: real, dz: real)
    ensures Translation(Step(true, RotateBy(dx, dy, dz))) == Zero
    ensures Rotation(Step(true, RotateBy(dx, dy, dz))) == Triple(dx, dy, dz)
  {
    StepSums(true, RotateBy(dx, dy, dz));
  }

  /** Eight moves of the shapes an update makes add up to the net movement along each axis. */
  lemma MovesAddUp(m0: Triple, m1: Triple, m2: Triple, m3: Triple, m4: Triple, m5: Triple, m6: Triple, m7: Triple,
                   f: MoveFlags, delta: real)
    requires m0 == Triple(0.0, if f.up then delta else 0.0, 0.0)
    requires m1 == Triple(0.0, if f.down then -delta else 0.0, 0.0)
    requires m2 == Triple(if f.left then -delta else 0.0, 0.0, 0.0)
    requires m3 == Triple(if f.right then delta else 0.0, 0.0, 0.0)
    requires m4 == Triple(0.0, 0.0, if f.forward then -delta else 0.0)
    requires m5 == Triple(0.0, 0.0, if f.backward then delta else 0.0)
    requires m6 == Zero && m7 == Zero
    ensures Add(Add(Add(Add(Add(Add(Add(m0, m1), m2), m3), m4), m5), m6), m7) ==
      Triple(Along(f.right, f.left, delta), Along(f.up, f.down, delta), Along(f.backward, f.forward, delta))
  {
  }

  /** Eight turns of the shapes an update makes add up to its pitch and its yaw. */
  lemma TurnsAddUp(r0: Triple, r1: Triple, r2: Triple, r3: Triple, r4: Triple, r5: Triple, r6: Triple, r7: Triple,
                   pitch: real, yaw: real)
    requires r0 == Zero && r1 == Zero && r2 == Zero && r3 == Zero && r4 == Zero && r5 == Zero
    requires r6 == Triple(pitch, 0.0, 0.0) && r7 == Triple(0.0, yaw, 0.0)
    ensures Add(Add(Add(Add(Add(Add(Add(r0, r1), r2), r3), r4), r5), r6), r7) == Triple(pitch, yaw, 0.0)
  {
  }

  /** The calls of one update, as the eight pieces the source makes them in. */
  lemma UpdatePieces(f: MoveFlags, deltaX: Int32, deltaY: Int32, delta: real)
    ensures UpdateOps(f, deltaX, deltaY, delta) ==
      Step(f.up, MoveBy(0.0, delta, 0.0)) + Step(f.down, MoveBy(0.0, -delta, 0.0))
        + Step(f.left, MoveBy(-delta, 0.0, 0.0)) + Step(f.right, MoveBy(delta, 0.0, 0.0))
        + Step(f.forward, MoveBy(0.0, 0.0, -delta)) + Step(f.backward, MoveBy(0.0, 0.0, delta))
        + Step(true, RotateBy(Turn(deltaY, delta), 0.0, 0.0)) + Step(true, RotateBy(0.0, Turn(deltaX, delta), 0.0))
  {
  }

  /** The sums over the calls of one update are the sums over its eight pieces. */
  lemma UpdateSumsByPiece(f: MoveFlags, deltaX: Int32, deltaY: Int32, delta: real)
    ensures Translation(UpdateOps(f, deltaX, deltaY, delta)) ==
      Add(Add(Add(Add(Add(Add(Add(Translation(Step(f.up, MoveBy(0.0, delta, 0.0))), Translation(Step(f.down, MoveBy(0.0, -delta, 0.0)))),
        Translation(Step(f.left, MoveBy(-delta, 0.0, 0.0)))), Translation(Step(f.right, MoveBy(delta, 0.0, 0.0)))),
        Translation(Step(f.forward, MoveBy(0.0, 0.0, -delta)))), Translation(Step(f.backward, MoveBy(0.0, 0.0, delta)))),
        Translation(Step(true, RotateBy(Turn(deltaY, delta), 0.0, 0.0)))), Translation(Step(true, RotateBy(0.0, Turn(deltaX, delta), 0.0))))
    ensures Rotation(UpdateOps(f, deltaX, deltaY, delta)) ==
      Add(Add(Add(Add(Add(Add(Add(Rotation(Step(f.up, MoveBy(0.0, delta, 0.0))), Rotation(Step(f.down, MoveBy(0.0, -delta, 0.0)))),
        Rotation(Step(f.left, MoveBy(-delta, 0.0, 0.0)))), Rotation(Step(f.right, MoveBy(delta, 0.0, 0.0)))),
        Rotation(Step(f.forward, MoveBy(0.0, 0.0, -delta)))), Rotation(Step(f.backward, MoveBy(0.0, 0.0, delta)))),
        Rotation(Step(true, RotateBy(Turn(deltaY, delta), 0.0, 0.0)))), Rotation(Step(true, RotateBy(0.0, Turn(deltaX, delta), 0.0))))
  {
    var s0, s1 := Step(f.up, MoveBy(0.0, delta, 0.0)), Step(f.down, MoveBy(0.0, -delta, 0.0));
    var s2, s3 := Step(f.left, MoveBy(-delta, 0.0, 0.0)), Step(f.right, MoveBy(delta, 0.0, 0.0));
    var s4, s5 := Step(f.forward, MoveBy(0.0, 0.0, -delta)), Step(f.backward, MoveBy(0.0, 0.0, delta));
    var s6, s7 := Step(true, RotateBy(Turn(deltaY, delta), 0.0, 0.0)), Step(true, RotateBy(0.0, Turn(deltaX, delta), 0.0));
    UpdatePieces(f, deltaX, deltaY, delta);
    SumsOfEight(s0, s1, s2, s3, s4, s5, s6, s7);
  }

  /** The moves of the eight pieces of an update add up to the net movement along each axis. */
  lemma PiecesMove(f: MoveFlags, deltaX: Int32, deltaY: Int32, delta: real)
    ensures Add(Add(Add(Add(Add(Add(Add(Translation(Step(f.up, MoveBy(0.0, delta, 0.0))), Translation(Step(f.down, MoveBy(0.0, -delta, 0.0)))),
        Translation(Step(f.left, MoveBy(-delta, 0.0, 0.0)))), Translation(Step(f.right, MoveBy(delta, 0.0, 0.0)))),
        Translation(Step(f.forward, MoveBy(0.0, 0.0, -delta)))), Translation(Step(f.backward, MoveBy(0.0, 0.0, delta)))),
        Translation(Step(true, RotateBy(Turn(deltaY, delta), 0.0, 0.0)))), Translation(Step(true, RotateBy(0.0, Turn(deltaX, delta), 0.0)))) ==
      Triple(Along(f.right, f.left, delta), Along(f.up, f.down, delta), Along(f.backward, f.forward, delta))
  {
    var s0, s1 := Step(f.up, MoveBy(0.0, delta, 0.0)), Step(f.down, MoveBy(0.0, -delta, 0.0));
    var s2, s3 := Step(f.left, MoveBy(-delta, 0.0, 0.0)), Step(f.right, MoveBy(delta, 0.0, 0.0));
    var s4, s5 := Step(f.forward, MoveBy(0.0, 0.0, -delta)), Step(f.backward, MoveBy(0.0, 0.0, delta));
    var s6, s7 := Step(true, RotateBy(Turn(deltaY, delta), 0.0, 0.0)), Step(true, RotateBy(0.0, Turn(deltaX, delta), 0.0));
    MoveStepSums(f.up, 0.0, delta, 0.0);
    MoveStepSums(f.down, 0.0, -delta, 0.0);
    MoveStepSums(f.left, -delta, 0.0, 0.0);
    MoveStepSums(f.right, delta, 0.0, 0.0);
    MoveStepSums(f.forward, 0.0, 0.0, -delta);
    MoveStepSums(f.backward, 0.0, 0.0, delta);
    TurnStepSums(Turn(deltaY, delta), 0.0, 0.0);
    TurnStepSums(0.0, Turn(deltaX, delta), 0.0);
    MovesAddUp(Translation(s0), Translation(s1), Translation(s2), Translation(s3),
      Translation(s4), Translation(s5), Translation(s6), Translation(s7), f, delta);
  }

  /** The turns of the eight pieces of an update add up to its pitch and its yaw. */
  lemma PiecesTurn(f: MoveFlags, deltaX: Int32, deltaY: Int32, delta: real)
    ensures Add(Add(Add(Add(Add(Add(Add(Rotation(Step(f.up, MoveBy(0.0, delta, 0.0))), Rotation(Step(f.down, MoveBy(0.0, -delta, 0.0)))),
        Rotation(Step(f.left, MoveBy(-delta, 0.0, 0.0)))), Rotation(Step(f.right, MoveBy(delta, 0.0, 0.0)))),
        Rotation(Step(f.forward, MoveBy(0.0, 0.0, -delta)))), Rotation(Step(f.backward, MoveBy(0.0, 0.0, delta)))),
        Rotation(Step(true, RotateBy(Turn(deltaY, delta), 0.0, 0.0)))), Rotation(Step(true, RotateBy(0.0, Turn(deltaX, delta), 0.0)))) == Triple(Turn(deltaY, delta), Turn(deltaX, delta), 0.0)
  {
    var s0, s1 := Step(f.up, MoveBy(0.0, delta, 0.0)), Step(f.down, MoveBy(0.0, -delta, 0.0));
    var s2, s3 := Step(f.left, MoveBy(-delta, 0.0, 0.0)), Step(f.right, MoveBy(delta, 0.0, 0.0));
    var s4, s5 := Step(f.forward, MoveBy(0.0, 0.0, -delta)), Step(f.backward, MoveBy(0.0, 0.0, delta));
    var s6, s7 := Step(true, RotateBy(Turn(deltaY, delta), 0.0, 0.0)), Step(true, RotateBy(0.0, Turn(deltaX, delta), 0.0));
    MoveStepSums(f.up, 0.0, delta, 0.0);
    MoveStepSums(f.down, 0.0, -delta, 0.0);
    MoveStepSums(f.left, -delta, 0.0, 0.0);
    MoveStepSums(f.right, delta, 0.0, 0.0);
    MoveStepSums(f.forward, 0.0, 0.0, -delta);
    MoveStepSums(f.backward, 0.0, 0.0, delta);
    TurnStepSums(Turn(deltaY, delta), 0.0, 0.0);
    TurnStepSums(0.0, Turn(deltaX, delta), 0.0);
    TurnsAddUp(Rotation(s0), Rotation(s1), Rotation(s2), Rotation(s3),
      Rotation(s4), Rotation(s5), Rotation(s6), Rotation(s7), Turn(deltaY, delta), Turn(deltaX, delta));
  }

  /** One update moves the camera by delta along each held axis; opposite keys cancel. */
  lemma UpdateTranslation(f: MoveFlags, deltaX: Int32, deltaY: Int32, delta: real)
    ensures Translation(UpdateOps(f, deltaX, deltaY, delta)) ==
      Triple(Along(f.right, f.left, delta), Along(f.up, f.down, delta), Along(f.backward, f.forward, delta))
  {
    UpdateSumsByPiece(f, deltaX, deltaY, delta);
    PiecesMove(f, deltaX, deltaY, delta);
  }

  /** One update turns the camera by 20 * delta times the drag: pitch by the vertical drag,
      yaw by the horizontal one. */
  lemma UpdateRotation(f: MoveFlags, deltaX: Int32, deltaY: Int32, delta: real)
    ensures Rotation(UpdateOps(f, deltaX, deltaY, delta)) == Triple(Turn(deltaY, delta), Turn(deltaX, delta), 0.0)
  {
    UpdateSumsByPiece(f, deltaX, deltaY, delta);
    PiecesTurn(f, deltaX, deltaY, delta);
  }

  /** The fixed timestep, in nanoseconds: a sixtieth of a second, rounded down. */
  const DT: int := 16_666_666

  /** The once-a-second threshold of the statistics, in nanoseconds. */
  const SECOND: int := 1_000_000_000

  function Min(a: int, b: int): int
  {
    if a <= b then a else b
  }

  /** The timesteps the accumulator loop takes from `frameTime`: chunks of `DT` and a last,
      shorter chunk, until nothing positive is left; every timestep lies in (0, DT]. */
  function Chunks(frameTime: int): (ds: seq<int>)
    ensures forall d :: d in ds ==> 0 < d <= DT
    decreases frameTime
  {
    if frameTime <= 0 then []
    else [Min(frameTime, DT)] + Chunks(frameTime - Min(frameTime, DT))
  }

  function Sum(ds: seq<int>): int
  {
    if ds == [] then 0 else ds[0] + Sum(ds[1..])
  }

  /** The timesteps add up to the frame time when it is not negative. */
  lemma {:induction false} ChunksSum(frameTime: int)
    requires frameTime >= 0
    ensures Sum(Chunks(frameTime)) == frameTime
    decreases frameTime
  {
    if frameTime > 0 {
      ChunksSum(frameTime - Min(frameTime, DT));
    }
  }

  /** There are ceil(frameTime / DT) timesteps for a non-negative frame time, and none for a
      negative one. */
  lemma {:induction false} ChunksCount(frameTime: int)
    ensures frameTime >= 0 ==> |Chunks(frameTime)| == (frameTime + DT - 1) / DT
    ensures frameTime < 0 ==> Chunks(frameTime) == []
    decreases frameTime
  {
    if frameTime > DT {
      ChunksCount(frameTime - DT);
    }
  }

  /** (n - 1) * c + c == n * c, kept apart from the sequence reasoning. */
  lemma MulSucc(n: int, c: int)
    ensures (n - 1) * c + c == n * c
  {
  }

  /** The camera calls of the updates made for timesteps `ds`: only the first update sees the
      drag deltas, since each update resets them. Every update makes the same number of calls. */
  function StepsOps(f: MoveFlags, deltaX: Int32, deltaY: Int32, ds: seq<int>): (ops: seq<CameraOp>)
    ensures |ops| == |ds| * (2 + HeldCount(f))
  {
    if ds == [] then []
    else
      var last := |ds| - 1;
      MulSucc(|ds|, 2 + HeldCount(f));
      StepsOps(f, deltaX, deltaY, ds[..last]) +
      UpdateOps(f, if last == 0 then deltaX else 0, if last == 0 then deltaY else 0, ds[last] as real / 1_000_000_000.0)
  }

  lemma StepsOpsSnoc(f: MoveFlags, deltaX: Int32, deltaY: Int32, ds: seq<int>, d: int)
    ensures StepsOps(f, deltaX, deltaY, ds + [d]) ==
      StepsOps(f, deltaX, deltaY, ds) +
      UpdateOps(f, if ds == [] then deltaX else 0, if ds == [] then deltaY else 0, d as real / 1_000_000_000.0)
  {
    var e := ds + [d];
    assert |e| - 1 == |ds| && e[|ds|] == d;
    assert e[..|ds|] == ds;
    assert (|ds| == 0) == (ds == []);
  }

  /** A log holding the calls of the timesteps `done`, followed by the update of timestep `d`,
      holds the calls of the timesteps `done + [d]`. */
  lemma StepsLogged(log0: seq<CameraOp>, before: seq<CameraOp>, after: seq<CameraOp>, f: MoveFlags,
                    deltaX0: Int32, deltaY0: Int32, deltaX: Int32, deltaY: Int32, done: seq<int>, d: int)
    requires before == log0 + StepsOps(f, deltaX0, deltaY0, done)
    requires after == before + UpdateOps(f, deltaX, deltaY, d as real / 1_000_000_000.0)
    requires done != [] ==> deltaX == 0 && deltaY == 0
    requires done == [] ==> deltaX == deltaX0 && deltaY == deltaY0
    ensures after == log0 + StepsOps(f, deltaX0, deltaY0, done + [d])
  {
    StepsOpsSnoc(f, deltaX0, deltaY0, done, d);
    AppendAssoc(log0, StepsOps(f, deltaX0, deltaY0, done), UpdateOps(f, deltaX, deltaY, d as real / 1_000_000_000.0));
  }

  /** Taking one more timestep moves it from what is left to what is done. */
  lemma ChunksAdvance(frameTime: int, remaining: int, done: seq<int>)
    requires remaining > 0 && done + Chunks(remaining) == Chunks(frameTime)
    ensures var d := Min(remaining, DT);
      (done + [d]) + Chunks(remaining - d) == Chunks(frameTime) && Sum(done + [d]) == Sum(done) + d
  {
    var d := Min(remaining, DT);
    assert Chunks(remaining) == [d] + Chunks(remaining - d);
    AppendAssoc(done, [d], Chunks(remaining - d));
    SumSnoc(done, d);
  }

  /** The frame counters reported once a second. */
  datatype FpsReport = FpsReport(frames: int, updates: int)

  /** The input state of the visualiser. */
  class Visualiser {
    var scene: Scene
    var up: bool
    var down: bool
    var left: bool
    var right: bool
    var forward: bool
    var backward: bool
    var mouseX: Int32
    var mouseY: Int32
    var deltaX: Int32
    var deltaY: Int32

    constructor (scene: Scene)
      ensures this.scene == scene && Flags() == NoFlags
      ensures mouseX == 0 && mouseY == 0 && deltaX == 0 && deltaY == 0
    {
      this.scene := scene;
      up, down, left, right, forward, backward := false, false, false, false, false, false;
      mouseX, mouseY, deltaX, deltaY := 0, 0, 0, 0;
    }

    function Flags(): MoveFlags
      reads this`up, this`down, this`left, this`right, this`forward, this`backward
    {
      MoveFlags(up, down, left, right, forward, backward)
    }

    method KeyPressed(keyCode: int)
      modifies this`up, this`down, this`left, this`right, this`forward, this`backward
      ensures Flags() == Pressed(old(Flags()), keyCode)
    {
      if keyCode == VK_W {
        forward := true;
      } else if keyCode == VK_S {
        backward := true;
      } else if keyCode == VK_A {
        left := true;
      } else if keyCode == VK_D {
        right := true;
      } else if keyCode == VK_Q {
        down := true;
      } else if keyCode == VK_E {
        up := true;
      }
    }

    method KeyReleased(keyCode: int)
      modifies this`up, this`down, this`left, this`right, this`forward, this`backward
      ensures Flags() == Released(old(Flags()), keyCode)
    {
      if keyCode == VK_W {
        forward := false;
      } else if keyCode == VK_S {
        backward := false;
      } else if keyCode == VK_A {
        left := false;
      } else if keyCode == VK_D {
        right := false;
      } else if keyCode == VK_Q {
        down := false;
      } else if keyCode == VK_E {
        up := false;
      }
    }

    /** A drag: the deltas become the movement since the last recorded mouse position
        (in `int` arithmetic), and the new position is recorded. */
    method MouseDragged(x: Int32, y: Int32)
      modifies this`mouseX, this`mouseY, this`deltaX, this`deltaY
      ensures deltaX == Wrap(x as int - old(mouseX) as int) && deltaY == Wrap(y as int - old(mouseY) as int)
      ensures mouseX == x && mouseY == y
    {
      deltaX := Wrap(x as int - mouseX as int);
      deltaY := Wrap(y as int - mouseY as int);
      mouseX := x;
      mouseY := y;
    }

    /** A click records the mouse position and leaves the deltas alone. */
    method MouseClicked(x: Int32, y: Int32)
      modifies this`mouseX, this`mouseY
      ensures mouseX == x && mouseY == y
    {
      mouseX := x;
      mouseY := y;
    }

    /** A press records the mouse position and leaves the deltas alone. */
    method MousePressed(x: Int32, y: Int32)
      modifies this`mouseX, this`mouseY
      ensures mouseX == x && mouseY == y
    {
      mouseX := x;
      mouseY := y;
    }

    /** One guarded move of an update: the camera moves by (dx, dy, dz) only when `held`. */
    method MoveWhen(held: bool, dx: real, dy: real, dz: real)
      modifies scene.camera
      ensures scene.camera.log == old(scene.camera.log) + Step(held, MoveBy(dx, dy, dz))
    {
      if held {
        scene.camera.Move(dx, dy, dz);
      }
    }

    /** One fixed-timestep update: move the camera for every held flag, turn it by the drag,
        and consume the drag. */
    method Update(delta: real)
      modifies this`deltaX, this`deltaY, scene.camera
      ensures scene.camera.log == old(scene.camera.log) + UpdateOps(old(Flags()), old(deltaX), old(deltaY), delta)
      ensures deltaX == 0 && deltaY == 0
    {
      UpdateLogged(scene.camera.log, MoveFlags(up, down, left, right, forward, backward), deltaX, deltaY, delta);
      MoveWhen(up, 0.0, delta, 0.0);
      MoveWhen(down, 0.0, -delta, 0.0);
      MoveWhen(left, -delta, 0.0, 0.0);
      MoveWhen(right, delta, 0.0, 0.0);
      MoveWhen(forward, 0.0, 0.0, -delta);
      MoveWhen(backward, 0.0, 0.0, delta);
      scene.camera.Rotate(Turn(deltaY, delta), 0.0, 0.0);
      scene.camera.Rotate(0.0, Turn(deltaX, delta), 0.0);
      deltaX := 0;
      deltaY := 0;
    }

    /** One timestep of the accumulator loop: the update it makes extends the calls of the
        timesteps already taken. */
    method Timestep(deltaTime: int, ghost log0: seq<CameraOp>, ghost deltaX0: Int32, ghost deltaY0: Int32,
                    ghost done: seq<int>)
      requires scene.camera.log == log0 + StepsOps(Flags(), deltaX0, deltaY0, done)
      requires done != [] ==> deltaX == 0 && deltaY == 0
      requires done == [] ==> deltaX == deltaX0 && deltaY == deltaY0
      modifies this`deltaX, this`deltaY, scene.camera
      ensures scene.camera.log == log0 + StepsOps(Flags(), deltaX0, deltaY0, done + [deltaTime])
      ensures deltaX == 0 && deltaY == 0
    {
      ghost var dx, dy, before := deltaX, deltaY, scene.camera.log;
      Update(deltaTime as real / 1_000_000_000.0);
      StepsLogged(log0, before, scene.camera.log, Flags(), deltaX0, deltaY0, dx, dy, done, deltaTime);
    }

    /** The accumulator loop of `start`: drain `frameTime` through fixed-timestep updates,
        adding each timestep to `time` and counting each update. */
    method Drain(frameTime: int, time: int, updates: int) returns (time': int, updates': int)
      modifies this`deltaX, this`deltaY, scene.camera
      ensures scene.camera.log ==
        old(scene.camera.log) + StepsOps(Flags(), old(deltaX), old(deltaY), Chunks(frameTime))
      ensures Chunks(frameTime) != [] ==> deltaX == 0 && deltaY == 0
      ensures Chunks(frameTime) == [] ==> deltaX == old(deltaX) && deltaY == old(deltaY)
      ensures time' == time + Sum(Chunks(frameTime)) && updates' == updates + |Chunks(frameTime)|
    {
      var remaining := frameTime;
      time', updates' := time, updates;
      ghost var done: seq<int> := [];
      ghost var log0 := scene.camera.log;
      while remaining > 0
        invariant done + Chunks(remaining) == Chunks(frameTime)
        invariant time' == time + Sum(done) && updates' == updates + |done|
        invariant scene.camera.log == log0 + StepsOps(Flags(), old(deltaX), old(deltaY), done)
        invariant done != [] ==> deltaX == 0 && deltaY == 0
        invariant done == [] ==> deltaX == old(deltaX) && deltaY == old(deltaY)
        decreases remaining
      {
        var deltaTime := Min(remaining, DT);
        Timestep(deltaTime, log0, old(deltaX), old(deltaY), done);
        ChunksAdvance(frameTime, remaining, done);
        remaining := remaining - deltaTime;
        time' := time' + deltaTime;
        updates' := updates' + 1;
        done := done + [deltaTime];
      }
      assert done == Chunks(frameTime) by {
        assert done + [] == done;
      }
    }

    /** One pass of the main loop of `start`, without the render hand-off: drain `frameTime`
        through fixed-timestep updates, count the frame, and once more than a second has been
        simulated report the counters and reset them. */
    method Tick(frameTime: int, time: int, updates: int, frames: int)
      returns (time': int, updates': int, frames': int, report: Option<FpsReport>)
      modifies this`deltaX, this`deltaY, scene.camera
      ensures scene.camera.log ==
        old(scene.camera.log) + StepsOps(Flags(), old(deltaX), old(deltaY), Chunks(frameTime))
      ensures Chunks(frameTime) != [] ==> deltaX == 0 && deltaY == 0
      ensures Chunks(frameTime) == [] ==> deltaX == old(deltaX) && deltaY == old(deltaY)
      ensures time + Sum(Chunks(frameTime)) > SECOND ==>
        time' == 0 && updates' == 0 && frames' == 0 &&
        report.Some? && report.value == FpsReport(frames + 1, updates + |Chunks(frameTime)|)
      ensures time + Sum(Chunks(frameTime)) <= SECOND ==>
        time' == time + Sum(Chunks(frameTime)) && updates' == updates + |Chunks(frameTime)| &&
        frames' == frames + 1 && report == None
    {
      var t, u := Drain(frameTime, time, updates);
      frames' := frames + 1;
      if t > SECOND {
        report := Some(FpsReport(frames', u));
        time', updates', frames' := 0, 0, 0;
      } else {
        report := None;
        time', updates' := t, u;
      }
    }
  }

  lemma {:induction false} SumSnoc(ds: seq<int>, d: int)
    ensures Sum(ds + [d]) == Sum(ds) + d
  {
    if ds != [] {
      assert (ds + [d])[1..] == ds[1..] + [d];
      SumSnoc(ds[1..], d);
    }
  }
}
