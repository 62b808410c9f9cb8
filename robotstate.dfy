// The humanoid's shared low-level state and command buffers. The policy
// reads the motor states through a joint-to-motor table into one row of
// joint positions and velocities, and writes its commands back through the
// same tables into the motor command slots. The robot's tables (joint
// count, motor count, the two index maps, gains and default angles) belong
// to a robot description that is not part of this model: they are a
// `Robot` value, with in-range requirements where the buffers are indexed.

module RobotState {
  import opened Core

  /** The robot description: joint and motor counts, `JOINT2MOTOR`,
      `MOTOR2JOINT`, the motor gains and the default joint angles. */
  datatype Robot = Robot(numJoints: nat, numMotors: nat,
                         joint2motor: seq<int>, motor2joint: seq<int>,
                         motorKp: seq<real>, motorKd: seq<real>,
                         defaultDofAngles: seq<real>)

  /** The number of motor slots in the state and command buffers. */
  const MotorSlots: nat := 29

  /** The first `n` entries of `table` exist and index `0 .. bound - 1`
      (negative Python indices are not used). */
  predicate MapsInto(table: seq<int>, n: nat, bound: int)
  {
    n <= |table| && forall i :: 0 <= i < n ==> 0 <= table[i] < bound
  }

  // ---------------------------------------------------------------------
  // The state buffer

  datatype MotorState = MotorState(q: real, dq: real, ddq: real, tauEst: real)

  /** The IMU reading: orientation (w, x, y, z) and angular rate. */
  datatype ImuState = ImuState(quaternion: seq<real>, gyroscope: seq<real>)

  const IdleMotor := MotorState(0.0, 0.0, 0.0, 0.0)

  /** The state shared with the simulator; the simulator updates the motor
      entries and the IMU reading. */
  class LowState {
    const ndim: nat
    const motorState: array<MotorState>
    var imuState: ImuState
    var tick: int

    constructor ()
      ensures ndim == MotorSlots && motorState.Length == ndim && fresh(motorState)
      ensures forall i :: 0 <= i < motorState.Length ==> motorState[i] == IdleMotor
      ensures imuState == ImuState([1.0, 0.0, 0.0, 0.0], [0.0, 0.0, 0.0]) && tick == 0
    {
      ndim := MotorSlots;
      motorState := new MotorState[MotorSlots](_ => IdleMotor);
      imuState := ImuState([1.0, 0.0, 0.0, 0.0], [0.0, 0.0, 0.0]);
      tick := 0;
    }
  }

  /** Joint `i`'s position (or velocity), read from motor
      `joint2motor[i]`, for the first `n` joints. */
  function JointValues(motors: seq<MotorState>, joint2motor: seq<int>, n: nat, velocity: bool): (r: seq<real>)
    requires MapsInto(joint2motor, n, |motors|)
    ensures |r| == n
    ensures forall i :: 0 <= i < n ==>
              r[i] == if velocity then motors[joint2motor[i]].dq else motors[joint2motor[i]].q
  {
    if n == 0 then []
    else
      var m := motors[joint2motor[n - 1]];
      JointValues(motors, joint2motor, n - 1, velocity) + [if velocity then m.dq else m.q]
  }

  /** The position vector after a read: base position zero, the IMU
      orientation, then the joint positions. */
  function PreparedQ(imu: ImuState, motors: seq<MotorState>, joint2motor: seq<int>, n: nat): seq<real>
    requires MapsInto(joint2motor, n, |motors|)
  {
    [0.0, 0.0, 0.0] + imu.quaternion + JointValues(motors, joint2motor, n, false)
  }

  /** The velocity vector after a read: the base's linear velocity `head`
      as it was (never written), the gyroscope, then the joint
      velocities. */
  function PreparedDq(head: seq<real>, imu: ImuState, motors: seq<MotorState>, joint2motor: seq<int>, n: nat): seq<real>
    requires MapsInto(joint2motor, n, |motors|)
  {
    head + imu.gyroscope + JointValues(motors, joint2motor, n, true)
  }

  lemma JoinParts(a: seq<real>, p: seq<real>, b: seq<real>)
    requires |a| == |p| + |b|
    requires forall k :: 0 <= k < |p| ==> a[k] == p[k]
    requires forall k :: 0 <= k < |b| ==> a[|p| + k] == b[k]
    ensures a == p + b
  {
    forall k | 0 <= k < |a|
      ensures a[k] == (p + b)[k]
    {
      if k >= |p| {
        assert a[|p| + (k - |p|)] == b[k - |p|];
      }
    }
  }

  /** `_prepare_low_state`'s body: fill `q` and `dq` in place from the
      shared state and return them as one row. */
  method ReadLowState(q: array<real>, dq: array<real>, low: LowState, joint2motor: seq<int>, n: nat)
    returns (row: seq<real>)
    requires q != dq && q.Length == 7 + n && dq.Length == 6 + n
    requires |low.imuState.quaternion| == 4 && |low.imuState.gyroscope| == 3
    requires MapsInto(joint2motor, n, low.motorState.Length)
    modifies q, dq
    ensures q[..] == PreparedQ(low.imuState, low.motorState[..], joint2motor, n)
    ensures dq[..] == PreparedDq(old(dq[..3]), low.imuState, low.motorState[..], joint2motor, n)
    ensures row == q[..] + dq[..]
  {
    var quat, gyro := low.imuState.quaternion, low.imuState.gyroscope;
    ghost var dqHead := dq[..3];
    q[0], q[1], q[2] := 0.0, 0.0, 0.0;
    q[3], q[4], q[5], q[6] := quat[0], quat[1], quat[2], quat[3];
    dq[3], dq[4], dq[5] := gyro[0], gyro[1], gyro[2];
    ghost var qHead, dqHeads := [0.0, 0.0, 0.0] + quat, dqHead + gyro;
    assert forall k :: 0 <= k < 7 ==> q[k] == qHead[k];
    assert forall k :: 0 <= k < 6 ==> dq[k] == dqHeads[k];
    ReadJoints(q, dq, low.motorState, joint2motor, n);
    JoinParts(q[..], qHead, JointValues(low.motorState[..], joint2motor, n, false));
    JoinParts(dq[..], dqHeads, JointValues(low.motorState[..], joint2motor, n, true));
    row := q[..] + dq[..];
  }

  /** The joint loop: position `7 + i` and velocity `6 + i` from motor
      `joint2motor[i]`; the heads are left alone. */
  method ReadJoints(q: array<real>, dq: array<real>, motors: array<MotorState>, joint2motor: seq<int>, n: nat)
    requires q != dq && q.Length == 7 + n && dq.Length == 6 + n
    requires MapsInto(joint2motor, n, motors.Length)
    modifies q, dq
    ensures forall k :: 0 <= k < 7 ==> q[k] == old(q[k])
    ensures forall k :: 0 <= k < 6 ==> dq[k] == old(dq[k])
    ensures forall k :: 0 <= k < n ==> q[7 + k] == motors[joint2motor[k]].q && dq[6 + k] == motors[joint2motor[k]].dq
  {
    for i := 0 to n
      invariant forall k :: 0 <= k < 7 ==> q[k] == old(q[k])
      invariant forall k :: 0 <= k < 6 ==> dq[k] == old(dq[k])
      invariant forall k :: 0 <= k < i ==> q[7 + k] == motors[joint2motor[k]].q && dq[6 + k] == motors[joint2motor[k]].dq
    {
      var m := motors[joint2motor[i]];
      q[7 + i] := m.q;
      dq[6 + i] := m.dq;
    }
  }

  /** The row's layout: `7 + n` positions then `6 + n` velocities; base
      position zero, orientation at 3..6, the base velocity head and the
      gyroscope at the start of the velocities, and joint `i`'s position
      and velocity from motor `joint2motor[i]`. */
  lemma RowLayout(head: seq<real>, imu: ImuState, motors: seq<MotorState>, joint2motor: seq<int>, n: nat, i: nat)
    requires |head| == 3 && |imu.quaternion| == 4 && |imu.gyroscope| == 3
    requires MapsInto(joint2motor, n, |motors|) && i < n
    ensures var row := PreparedQ(imu, motors, joint2motor, n) + PreparedDq(head, imu, motors, joint2motor, n);
            |row| == (7 + n) + (6 + n) &&
            row[..3] == [0.0, 0.0, 0.0] && row[3..7] == imu.quaternion &&
            row[7 + n..10 + n] == head && row[10 + n..13 + n] == imu.gyroscope &&
            row[7 + i] == motors[joint2motor[i]].q && row[13 + n + i] == motors[joint2motor[i]].dq
  {
    var q := PreparedQ(imu, motors, joint2motor, n);
    var dq := PreparedDq(head, imu, motors, joint2motor, n);
    assert q[7 + i] == JointValues(motors, joint2motor, n, false)[i];
    assert dq[6 + i] == JointValues(motors, joint2motor, n, true)[i];
    assert (q + dq)[7 + n..10 + n] == dq[..3];
    assert (q + dq)[10 + n..13 + n] == dq[3..6];
  }

  /** Reading again from an unchanged shared state gives the same row:
      every entry but the base velocity head is overwritten, and that head
      is carried over as it was. */
  lemma ReadIsRepeatable(head: seq<real>, imu: ImuState, motors: seq<MotorState>, joint2motor: seq<int>, n: nat)
    requires |head| == 3 && |imu.gyroscope| == 3
    requires MapsInto(joint2motor, n, |motors|)
    ensures PreparedDq(PreparedDq(head, imu, motors, joint2motor, n)[..3], imu, motors, joint2motor, n) ==
            PreparedDq(head, imu, motors, joint2motor, n)
  {
    assert PreparedDq(head, imu, motors, joint2motor, n)[..3] == head;
  }

  const ZeroHead: seq<real> := [0.0, 0.0, 0.0]

  /** `StateProcessor` of the shared-state module: it reads the state it
      was given. `q` is the same array as `initQ`, so a read overwrites
      the initial vector too. */
  class StateProcessor {
    const robot: Robot
    const numDof: nat
    const initQ: array<real>
    const q: array<real>
    const dq: array<real>
    const tauEst: array<real>
    const lowState: LowState

    ghost predicate Valid()
      reads this, dq
    {
      q == initQ && q != dq && q.Length == 7 + numDof && dq.Length == 6 + numDof &&
      dq[..3] == ZeroHead
    }

    constructor (robot: Robot, lowState: LowState)
      ensures Valid() && fresh(q) && fresh(dq) && fresh(tauEst)
      ensures this.robot == robot && numDof == robot.numJoints && this.lowState == lowState
      ensures forall k :: 0 <= k < q.Length ==> q[k] == 0.0
      ensures forall k :: 0 <= k < dq.Length ==> dq[k] == 0.0
    {
      this.robot := robot;
      numDof := robot.numJoints;
      var zeros := new real[7 + robot.numJoints](_ => 0.0);
      initQ := zeros;
      q := zeros;
      dq := new real[6 + robot.numJoints](_ => 0.0);
      tauEst := new real[robot.numJoints](_ => 0.0);
      this.lowState := lowState;
    }

    /** `_prepare_low_state`: the row of positions and velocities, with a
        zero base velocity because that part of `dq` is never written. */
    method PrepareLowState() returns (row: seq<real>)
      requires Valid()
      requires |lowState.imuState.quaternion| == 4 && |lowState.imuState.gyroscope| == 3
      requires MapsInto(robot.joint2motor, numDof, lowState.motorState.Length)
      modifies q, dq
      ensures Valid()
      ensures q[..] == PreparedQ(lowState.imuState, lowState.motorState[..], robot.joint2motor, numDof)
      ensures dq[..] == PreparedDq(ZeroHead, lowState.imuState, lowState.motorState[..], robot.joint2motor, numDof)
      ensures row == q[..] + dq[..]
    {
      row := ReadLowState(q, dq, lowState, robot.joint2motor, numDof);
      assert dq[..3] == ZeroHead;
    }
  }

  /** `StateProcessor` of the policy utilities: the state to read is an
      optional field that starts out empty. */
  class PolicyStateProcessor {
    const robot: Robot
    const numDof: nat
    const initQ: array<real>
    const q: array<real>
    const dq: array<real>
    var robotLowState: Option<LowState>

    ghost predicate Valid()
      reads this, dq
    {
      q == initQ && q != dq && q.Length == 7 + numDof && dq.Length == 6 + numDof &&
      dq[..3] == ZeroHead
    }

    constructor (robot: Robot)
      ensures Valid() && fresh(q) && fresh(dq)
      ensures this.robot == robot && numDof == robot.numJoints && robotLowState == None
    {
      this.robot := robot;
      numDof := robot.numJoints;
      var zeros := new real[7 + robot.numJoints](_ => 0.0);
      initQ := zeros;
      q := zeros;
      dq := new real[6 + robot.numJoints](_ => 0.0);
      robotLowState := None;
    }

    /** `_prepare_low_state`: nothing while no state has been received;
        otherwise the same read as above. */
    method PrepareLowState() returns (row: Option<seq<real>>)
      requires Valid()
      requires robotLowState.Some? ==>
                 |robotLowState.value.imuState.quaternion| == 4 && |robotLowState.value.imuState.gyroscope| == 3 &&
                 MapsInto(robot.joint2motor, numDof, robotLowState.value.motorState.Length)
      modifies q, dq
      ensures Valid()
      ensures robotLowState.None? ==> row == None && q[..] == old(q[..]) && dq[..] == old(dq[..])
      ensures robotLowState.Some? ==>
                var low := robotLowState.value;
                q[..] == PreparedQ(low.imuState, low.motorState[..], robot.joint2motor, numDof) &&
                dq[..] == PreparedDq(ZeroHead, low.imuState, low.motorState[..], robot.joint2motor, numDof) &&
                row == Some(q[..] + dq[..])
    {
      if robotLowState.None? {
        return None;
      }
      var r := ReadLowState(q, dq, robotLowState.value, robot.joint2motor, numDof);
      assert dq[..3] == ZeroHead;
      return Some(r);
    }
  }

  // ---------------------------------------------------------------------
  // The command buffer

  datatype MotorCommand = MotorCommand(q: real, dq: real, kp: real, kd: real, tau: real)

  const IdleCommand := MotorCommand(0.0, 0.0, 0.0, 0.0, 0.0)

  /** The commands shared with the simulator, one slot per motor. */
  class LowCommand {
    const ndim: nat
    const motorCommand: array<MotorCommand>

    constructor ()
      ensures ndim == MotorSlots && motorCommand.Length == ndim && fresh(motorCommand)
      ensures forall i :: 0 <= i < motorCommand.Length ==> motorCommand[i] == IdleCommand
    {
      ndim := MotorSlots;
      motorCommand := new MotorCommand[MotorSlots](_ => IdleCommand);
    }
  }

  /** A gain table of `n` entries: the configured gains scaled by `level`,
      zero past the configured ones. */
  function Gains(gains: seq<real>, level: real, n: nat): (r: seq<real>)
    requires |gains| <= n
    ensures |r| == n
    ensures forall i :: 0 <= i < n ==> r[i] == if i < |gains| then gains[i] * level else 0.0
  {
    seq(n, i requires 0 <= i < n => if i < |gains| then gains[i] * level else 0.0)
  }

  /** The slots after writing `values[i]` into slot `targets[i]` for each
      `i` in order (a later write to the same slot wins). */
  function Routed(base: seq<MotorCommand>, targets: seq<int>, values: seq<MotorCommand>): (r: seq<MotorCommand>)
    requires |targets| == |values| && MapsInto(targets, |targets|, |base|)
    ensures |r| == |base|
  {
    if targets == [] then base
    else
      var k := |targets| - 1;
      Routed(base, targets[..k], values[..k])[targets[k] := values[k]]
  }

  lemma RoutedSnoc(base: seq<MotorCommand>, targets: seq<int>, values: seq<MotorCommand>, i: nat)
    requires |targets| == |values| && MapsInto(targets, |targets|, |base|) && i < |targets|
    ensures Routed(base, targets[..i + 1], values[..i + 1]) ==
            Routed(base, targets[..i], values[..i])[targets[i] := values[i]]
  {
    assert targets[..i + 1][..i] == targets[..i];
    assert values[..i + 1][..i] == values[..i];
  }

  /** A slot no entry of `targets` names keeps its command. */
  lemma {:induction false} RoutedUntouched(base: seq<MotorCommand>, targets: seq<int>, values: seq<MotorCommand>, m: int)
    requires |targets| == |values| && MapsInto(targets, |targets|, |base|)
    requires 0 <= m < |base| && m !in targets
    ensures Routed(base, targets, values)[m] == base[m]
    decreases |targets|
  {
    if targets != [] {
      var k := |targets| - 1;
      assert forall x :: x in targets[..k] ==> x in targets;
      RoutedUntouched(base, targets[..k], values[..k], m);
    }
  }

  /** With distinct targets, slot `targets[i]` holds `values[i]`. */
  lemma {:induction false} RoutedHit(base: seq<MotorCommand>, targets: seq<int>, values: seq<MotorCommand>, i: nat)
    requires |targets| == |values| && MapsInto(targets, |targets|, |base|)
    requires i < |targets| && forall a, b :: 0 <= a < b < |targets| ==> targets[a] != targets[b]
    ensures Routed(base, targets, values)[targets[i]] == values[i]
    decreases |targets|
  {
    var k := |targets| - 1;
    if i < k {
      RoutedHit(base, targets[..k], values[..k], i);
    }
  }

  /** What the routing loops require of the robot tables for the first
      `numMotors` entries: `JOINT2MOTOR` names both a command slot and a
      gain entry, `MOTOR2JOINT` names an entry of every per-joint
      vector. */
  predicate Routes(robot: Robot, slots: nat, jointBound: nat)
  {
    MapsInto(robot.joint2motor, robot.numMotors, if slots < robot.numMotors then slots else robot.numMotors) &&
    MapsInto(robot.motor2joint, robot.numMotors, jointBound)
  }

  /** The commands `init_low_command` writes, entry `i` going to slot
      `joint2motor[i]`: the default angle of joint `motor2joint[i]`, zero
      velocity and torque, and the slot's gains. */
  function StandingCommands(robot: Robot, kp: seq<real>, kd: seq<real>): (r: seq<MotorCommand>)
    requires |kp| == |kd| == robot.numMotors
    requires Routes(robot, robot.numMotors, |robot.defaultDofAngles|)
    ensures |r| == robot.numMotors
    ensures forall i :: 0 <= i < robot.numMotors ==>
              var m := robot.joint2motor[i];
              r[i] == MotorCommand(robot.defaultDofAngles[robot.motor2joint[i]], 0.0, kp[m], kd[m], 0.0)
  {
    seq(robot.numMotors, i requires 0 <= i < robot.numMotors =>
      var m := robot.joint2motor[i];
      MotorCommand(robot.defaultDofAngles[robot.motor2joint[i]], 0.0, kp[m], kd[m], 0.0))
  }

  /** The commands `update_command` writes, entry `i` going to slot
      `joint2motor[i]`: the policy's target for joint `motor2joint[i]` and
      the slot's gains. */
  function PolicyCommands(robot: Robot, kp: seq<real>, kd: seq<real>,
                          cmdQ: seq<real>, cmdDq: seq<real>, cmdTau: seq<real>): (r: seq<MotorCommand>)
    requires |kp| == |kd| == robot.numMotors
    requires |cmdDq| == |cmdQ| && |cmdTau| == |cmdQ|
    requires Routes(robot, robot.numMotors, |cmdQ|)
    ensures |r| == robot.numMotors
    ensures forall i :: 0 <= i < robot.numMotors ==>
              var m, j := robot.joint2motor[i], robot.motor2joint[i];
              r[i] == MotorCommand(cmdQ[j], cmdDq[j], kp[m], kd[m], cmdTau[j])
  {
    seq(robot.numMotors, i requires 0 <= i < robot.numMotors =>
      var m, j := robot.joint2motor[i], robot.motor2joint[i];
      MotorCommand(cmdQ[j], cmdDq[j], kp[m], kd[m], cmdTau[j]))
  }

  /** Writes `values[i]` into slot `targets[i]` for each `i` in order. */
  method Route(slots: array<MotorCommand>, targets: seq<int>, values: seq<MotorCommand>)
    requires |targets| == |values| && MapsInto(targets, |targets|, slots.Length)
    modifies slots
    ensures slots[..] == Routed(old(slots[..]), targets, values)
  {
    ghost var base := slots[..];
    for i := 0 to |targets|
      invariant slots[..] == Routed(base, targets[..i], values[..i])
    {
      RoutedSnoc(base, targets, values, i);
      slots[targets[i]] := values[i];
    }
    assert targets[..|targets|] == targets && values[..|values|] == values;
  }

  /** `CommandSender`: the gain tables, and the command buffer it writes
      into. The constructor puts the robot in its standing pose. */
  class CommandSender {
    const robot: Robot
    const kpLevel: real
    const robotKp: array<real>
    const robotKd: array<real>
    const ndim: nat
    const lowCommand: LowCommand

    ghost predicate Valid()
      reads this
    {
      robotKp.Length == robot.numMotors && robotKd.Length == robot.numMotors &&
      ndim == robot.numMotors && robot.numMotors <= lowCommand.motorCommand.Length
    }

    constructor (robot: Robot, lowCommand: LowCommand)
      requires |robot.motorKp| <= robot.numMotors && |robot.motorKd| <= robot.numMotors
      requires robot.numMotors <= lowCommand.motorCommand.Length
      requires Routes(robot, robot.numMotors, |robot.defaultDofAngles|)
      modifies lowCommand.motorCommand
      ensures Valid() && fresh(robotKp) && fresh(robotKd)
      ensures this.robot == robot && this.lowCommand == lowCommand && kpLevel == 1.0
      ensures robotKp[..] == Gains(robot.motorKp, 1.0, robot.numMotors)
      ensures robotKd[..] == Gains(robot.motorKd, 1.0, robot.numMotors)
      ensures lowCommand.motorCommand[..] ==
                Routed(old(lowCommand.motorCommand[..]), robot.joint2motor[..robot.numMotors],
                       StandingCommands(robot, robotKp[..], robotKd[..]))
    {
      this.robot := robot;
      kpLevel := 1.0;
      var kp := new real[robot.numMotors](_ => 0.0);
      var kd := new real[robot.numMotors](_ => 0.0);
      FillGains(kp, robot.motorKp, 1.0);
      FillGains(kd, robot.motorKd, 1.0);
      robotKp := kp;
      robotKd := kd;
      ndim := robot.numMotors;
      this.lowCommand := lowCommand;
      new;
      InitLowCommand();
    }

    /** `init_low_command`: the standing pose with the slot's gains, routed
        through the robot tables. */
    method InitLowCommand()
      requires Valid() && Routes(robot, robot.numMotors, |robot.defaultDofAngles|)
      modifies lowCommand.motorCommand
      ensures lowCommand.motorCommand[..] ==
                Routed(old(lowCommand.motorCommand[..]), robot.joint2motor[..robot.numMotors],
                       StandingCommands(robot, robotKp[..], robotKd[..]))
    {
      Route(lowCommand.motorCommand, robot.joint2motor[..robot.numMotors],
            StandingCommands(robot, robotKp[..], robotKd[..]));
    }

    /** `update_command`: the policy's targets and the slot's gains, routed
        through the robot tables. */
    method UpdateCommand(cmdQ: seq<real>, cmdDq: seq<real>, cmdTau: seq<real>)
      requires Valid() && |cmdDq| == |cmdQ| && |cmdTau| == |cmdQ|
      requires Routes(robot, robot.numMotors, |cmdQ|)
      modifies lowCommand.motorCommand
      ensures lowCommand.motorCommand[..] ==
                Routed(old(lowCommand.motorCommand[..]), robot.joint2motor[..robot.numMotors],
                       PolicyCommands(robot, robotKp[..], robotKd[..], cmdQ, cmdDq, cmdTau))
    {
      Route(lowCommand.motorCommand, robot.joint2motor[..robot.numMotors],
            PolicyCommands(robot, robotKp[..], robotKd[..], cmdQ, cmdDq, cmdTau));
    }
  }

  /** With identity tables the two directions agree: slot `m` receives
      joint `m`'s target, and joint `m`'s state is read from motor `m`. */
  lemma IdentityTablesAgree(robot: Robot, base: seq<MotorCommand>, kp: seq<real>, kd: seq<real>,
                            cmdQ: seq<real>, cmdDq: seq<real>, cmdTau: seq<real>, motors: seq<MotorState>, m: nat)
    requires |kp| == |kd| == robot.numMotors && |cmdDq| == |cmdQ| && |cmdTau| == |cmdQ|
    requires robot.numMotors <= |base| && robot.numMotors <= |cmdQ| && robot.numMotors <= |motors|
    requires |robot.joint2motor| >= robot.numMotors && |robot.motor2joint| >= robot.numMotors
    requires forall i :: 0 <= i < robot.numMotors ==> robot.joint2motor[i] == i && robot.motor2joint[i] == i
    requires m < robot.numMotors
    ensures Routes(robot, robot.numMotors, |cmdQ|)
    ensures Routed(base, robot.joint2motor[..robot.numMotors],
                   PolicyCommands(robot, kp, kd, cmdQ, cmdDq, cmdTau))[m] ==
            MotorCommand(cmdQ[m], cmdDq[m], kp[m], kd[m], cmdTau[m])
    ensures MapsInto(robot.joint2motor, robot.numMotors, |motors|)
    ensures JointValues(motors, robot.joint2motor, robot.numMotors, false)[m] == motors[m].q
  {
    var targets := robot.joint2motor[..robot.numMotors];
    assert targets[m] == m;
    RoutedHit(base, targets, PolicyCommands(robot, kp, kd, cmdQ, cmdDq, cmdTau), m);
  }

  /** With two joints whose motors are swapped (each table the other's
      inverse), the two directions disagree: joint 0's state is read from
      motor 1, but motor 1 receives joint 1's target. */
  lemma SwappedTablesCross(base: seq<MotorCommand>, kp: seq<real>, kd: seq<real>,
                           cmdQ: seq<real>, cmdDq: seq<real>, cmdTau: seq<real>, motors: seq<MotorState>)
    requires |base| >= 2 && |kp| == |kd| == 2 && |cmdQ| == |cmdDq| == |cmdTau| == 2 && |motors| >= 2
    ensures var robot := Robot(2, 2, [1, 0], [1, 0], [], [], []);
            Routes(robot, 2, 2) &&
            JointValues(motors, [1, 0], 2, false)[0] == motors[1].q &&
            Routed(base, [1, 0], PolicyCommands(robot, kp, kd, cmdQ, cmdDq, cmdTau))[1].q == cmdQ[1]
  {
    var robot := Robot(2, 2, [1, 0], [1, 0], [], [], []);
    var values := PolicyCommands(robot, kp, kd, cmdQ, cmdDq, cmdTau);
    assert [1, 0][..2] == [1, 0];
    RoutedHit(base, [1, 0], values, 0);
  }

  /** Fills `table` from the configured gains scaled by `level`; the rest
      of the table keeps its zeros. */
  method FillGains(table: array<real>, gains: seq<real>, level: real)
    requires |gains| <= table.Length
    requires forall i :: 0 <= i < table.Length ==> table[i] == 0.0
    modifies table
    ensures table[..] == Gains(gains, level, table.Length)
  {
    for i := 0 to |gains|
      invariant forall k :: 0 <= k < table.Length ==> table[k] == if k < i then gains[k] * level else 0.0
    {
      table[i] := gains[i] * level;
    }
  }
}
