/** The robot arm of the ESP32 firmware: a table of four servos, the joint
    command that clamps an angle to its servo's limits and couples the elbow
    to the shoulder, and the output stage of the ultrasonic reach solver. */
module Servos {

  /** One joint: its pin, last commanded angle, name and angle limits
      (the hardware servo handle is not modelled). */
  datatype ServoCtrl = ServoCtrl(pin: int, currentAngle: int, name: string, minLimit: int, maxLimit: int)

  const BaseIndex := 0
  const ShoulderIndex := 1
  const ElbowIndex := 2
  const GripperIndex := 3

  /** The elbow moves the shoulder only when it turns by more than this many degrees. */
  const CouplingThreshold := 5

  /** The arm at power-on: pins 13, 12, 14 and 27, all at 90 degrees, limits [0, 180]. */
  function InitialArm(): (arm: seq<ServoCtrl>)
    ensures |arm| == 4 && ArmInvariant(arm)
    ensures forall i :: 0 <= i < |arm| ==> arm[i].currentAngle == 90
  {
    [ ServoCtrl(13, 90, "Base", 0, 180),
      ServoCtrl(12, 90, "Shoulder", 0, 180),
      ServoCtrl(14, 90, "Elbow", 0, 180),
      ServoCtrl(27, 90, "Gripper", 0, 180) ]
  }

  /** Four servos, each with the limits [0, 180] and its angle inside them. (The
      elbow coupling keeps the shoulder in [0, 180], not in the shoulder's own
      limits, so narrower limits would not be kept.) */
  ghost predicate ArmInvariant(arm: seq<ServoCtrl>)
  {
    |arm| == 4 &&
    forall i :: 0 <= i < |arm| ==>
      arm[i].minLimit == 0 && arm[i].maxLimit == 180 && 0 <= arm[i].currentAngle <= 180
  }

  /** Raise `angle` to `lo`, then lower it to `hi`, in that order. */
  function Clamp(angle: int, lo: int, hi: int): (r: int)
    ensures lo <= hi ==> lo <= r <= hi
    ensures lo <= angle <= hi ==> r == angle
    ensures r == angle || r == lo || r == hi
  {
    var raised := if angle < lo then lo else angle;
    if raised > hi then hi else raised
  }

  /** C++'s conversion of a floating value to `int`: truncation toward zero. */
  function Trunc(x: real): (n: int)
    ensures 0.0 <= x ==> n as real <= x < n as real + 1.0
    ensures x < 0.0 ==> n as real - 1.0 < x <= n as real
    ensures 0.0 <= x ==> n == x.Floor
  {
    if x >= 0.0 then x.Floor else -((-x).Floor)
  }

  /** The shoulder after an elbow turn of `delta`: old shoulder + 0.3 * delta, truncated,
      then lowered to 180 and raised to 0 (in that order). */
  function ShoulderAfterElbowTurn(shoulder: int, delta: int): (s: int)
    ensures 0 <= s <= 180
  {
    var adjust := Trunc(shoulder as real + delta as real * 0.3);
    var lowered := if adjust > 180 then 180 else adjust;
    if lowered < 0 then 0 else lowered
  }

  /** `setServoAngle` as a function of the arm before the call. */
  function AfterSetServoAngle(arm: seq<ServoCtrl>, index: int, angle: int): (r: seq<ServoCtrl>)
    ensures |r| == |arm|
    ensures !(0 <= index < |arm|) ==> r == arm
    ensures 0 <= index < |arm| ==>
      r[index] == arm[index].(currentAngle := Clamp(angle, arm[index].minLimit, arm[index].maxLimit))
    ensures forall j :: 0 <= j < |arm| && j != index && (index != ElbowIndex || j != ShoulderIndex) ==> r[j] == arm[j]
  {
    if !(0 <= index < |arm|) then arm
    else
      var target := Clamp(angle, arm[index].minLimit, arm[index].maxLimit);
      var coupled :=
        if index == ElbowIndex && Abs(target - arm[ElbowIndex].currentAngle) > CouplingThreshold then
          arm[ShoulderIndex := arm[ShoulderIndex].(currentAngle :=
            ShoulderAfterElbowTurn(arm[ShoulderIndex].currentAngle, target - arm[ElbowIndex].currentAngle))]
        else arm;
      coupled[index := coupled[index].(currentAngle := target)]
  }

  function Abs(x: int): (r: nat)
    ensures r == x || r == -x
  {
    if x < 0 then -x else x
  }

  /** The elbow-shoulder coupling: a turn of the elbow by more than five degrees
      moves the shoulder by 0.3 of the turn (truncated, kept in [0, 180]); a
      smaller turn leaves the shoulder as it was. */
  lemma ElbowCoupling(arm: seq<ServoCtrl>, angle: int)
    requires |arm| > ElbowIndex
    ensures var target := Clamp(angle, arm[ElbowIndex].minLimit, arm[ElbowIndex].maxLimit);
      var delta := target - arm[ElbowIndex].currentAngle;
      var r := AfterSetServoAngle(arm, ElbowIndex, angle);
      && (Abs(delta) > CouplingThreshold ==>
            r[ShoulderIndex] == arm[ShoulderIndex].(currentAngle := ShoulderAfterElbowTurn(arm[ShoulderIndex].currentAngle, delta)))
      && (Abs(delta) <= CouplingThreshold ==> r[ShoulderIndex] == arm[ShoulderIndex])
  {
  }

  /** Truncating or flooring the adjusted shoulder angle makes no difference once
      it is kept in [0, 180]. */
  lemma ShoulderFloorAgrees(shoulder: int, delta: int)
    ensures var x := shoulder as real + delta as real * 0.3;
      var floored := x.Floor;
      ShoulderAfterElbowTurn(shoulder, delta) == (if floored > 180 then 180 else if floored < 0 then 0 else floored)
  {
    var x := shoulder as real + delta as real * 0.3;
    if x < 0.0 {
      assert x.Floor < 0;
      assert Trunc(x) <= 0;
    }
  }

  /** Every command keeps a well-formed arm well formed. */
  lemma SetServoAngleKeepsArm(arm: seq<ServoCtrl>, index: int, angle: int)
    requires ArmInvariant(arm)
    ensures ArmInvariant(AfterSetServoAngle(arm, index, angle))
  {
    var r := AfterSetServoAngle(arm, index, angle);
    forall i | 0 <= i < |r|
      ensures r[i].minLimit == 0 && r[i].maxLimit == 180 && 0 <= r[i].currentAngle <= 180
    {
      if i == ShoulderIndex && index == ElbowIndex {
        ElbowCoupling(arm, angle);
      }
    }
  }

  /** `setServoAngle`: writes the clamped angle into the servo table in place and,
      for the elbow, first moves the shoulder. */
  method SetServoAngle(robotArm: array<ServoCtrl>, index: int, angle: int)
    modifies robotArm
    ensures robotArm[..] == AfterSetServoAngle(old(robotArm[..]), index, angle)
  {
    if index < 0 || index >= robotArm.Length {
      return;
    }
    var a := angle;
    if a < robotArm[index].minLimit {
      a := robotArm[index].minLimit;
    }
    if a > robotArm[index].maxLimit {
      a := robotArm[index].maxLimit;
    }
    if index == ElbowIndex {
      var oldElbow := robotArm[ElbowIndex].currentAngle;
      var delta := a - oldElbow;
      if Abs(delta) > CouplingThreshold {
        var shoulderAdjust := Trunc(robotArm[ShoulderIndex].currentAngle as real + delta as real * 0.3);
        if shoulderAdjust > 180 {
          shoulderAdjust := 180;
        }
        if shoulderAdjust < 0 {
          shoulderAdjust := 0;
        }
        robotArm[ShoulderIndex] := robotArm[ShoulderIndex].(currentAngle := shoulderAdjust);
      }
    }
    robotArm[index] := robotArm[index].(currentAngle := a);
  }

  /** The three joint angles the inverse-kinematics solver returns, in degrees. */
  datatype JointAngles = JointAngles(theta1: real, theta2: real, theta3: real)

  /** The distance the reach solver works with: the reading kept in [5, 30] cm. */
  function ClampDistance(distanceCm: real): (d: real)
    ensures 5.0 <= d <= 30.0
    ensures 5.0 <= distanceCm <= 30.0 ==> d == distanceCm
    ensures d < 10.0 <==> distanceCm < 10.0
  {
    var raised := if distanceCm < 5.0 then 5.0 else distanceCm;
    if raised > 30.0 then 30.0 else raised
  }

  /** A joint output: truncated to an integer, raised to 0, then lowered to 180. */
  function JointOutput(theta: real): (out: int)
    ensures 0 <= out <= 180
    ensures 0 <= Trunc(theta) <= 180 ==> out == Trunc(theta)
  {
    var t := Trunc(theta);
    var raised := if t < 0 then 0 else t;
    if raised > 180 then 180 else raised
  }

  /** `processUltrasonicSignal`: reach towards (0, d, 5 + d / 5) for the clamped distance d,
      close the gripper (160) for a near object and open it (90) otherwise. The solver
      is a parameter; whatever it returns, the three joint outputs stay in [0, 180]. */
  method ProcessUltrasonicSignal(solveIK: (real, real, real) -> JointAngles, distanceCm: real)
    returns (outBase: int, outShoulder: int, outElbow: int, outGripper: int)
    ensures 0 <= outBase <= 180 && 0 <= outShoulder <= 180 && 0 <= outElbow <= 180
    ensures var d := ClampDistance(distanceCm);
      var angles := solveIK(0.0, d, 5.0 + d / 5.0);
      outBase == JointOutput(angles.theta1) && outShoulder == JointOutput(angles.theta2) &&
      outElbow == JointOutput(angles.theta3)
    ensures outGripper == (if distanceCm < 10.0 then 160 else 90)
  {
    var d := distanceCm;
    if d < 5.0 {
      d := 5.0;
    }
    if d > 30.0 {
      d := 30.0;
    }
    var targetX, targetY, targetZ := 0.0, d, 5.0 + d / 5.0;
    var angles := solveIK(targetX, targetY, targetZ);
    outBase := Trunc(angles.theta1);
    outShoulder := Trunc(angles.theta2);
    outElbow := Trunc(angles.theta3);
    outGripper := if d < 10.0 then 160 else 90;
    if outBase < 0 {
      outBase := 0;
    }
    if outBase > 180 {
      outBase := 180;
    }
    if outShoulder < 0 {
      outShoulder := 0;
    }
    if outShoulder > 180 {
      outShoulder := 180;
    }
    if outElbow < 0 {
      outElbow := 0;
    }
    if outElbow > 180 {
      outElbow := 180;
    }
  }
}
