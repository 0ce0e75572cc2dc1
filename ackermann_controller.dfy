/** The Ackermann vehicle controller: target setters that clamp what they are
    given to the vehicle's limits, control loops that write the output
    fields, possession of a vehicle, and the PID controller it declares.
    Floats are modelled as reals, without rounding. */
module Ackermann {
  import opened Wrappers

  function Sum(terms: seq<real>): real
  {
    if terms == [] then 0.0 else Sum(terms[..|terms| - 1]) + terms[|terms| - 1]
  }

  lemma {:induction false} SumAppend(a: seq<real>, b: seq<real>)
    ensures Sum(a + b) == Sum(a) + Sum(b)
    decreases |b|
  {
    if b == [] {
      assert a + b == a;
    } else {
      assert (a + b)[..|a + b| - 1] == a + b[..|b| - 1];
      SumAppend(a, b[..|b| - 1]);
    }
  }

  /** A proportional-integral-derivative controller; the integral is the sum
      of the terms added by every run so far. */
  class PID {
    var Kp: real
    var Ki: real
    var Kd: real
    /** Left uninitialised by both constructors; it must be set before `Run`. */
    var SetPoint: real
    ghost var SetPointAssigned: bool
    var Proportional: real
    var Integral: real
    var Derivative: real
    var LastError: real
    /** Ki * Error * DeltaTime of every run, oldest first. */
    ghost var IntegralTerms: seq<real>

    ghost predicate Valid()
      reads this
    {
      Integral == Sum(IntegralTerms) && LastError == 0.0
    }

    constructor ()
      ensures Valid() && Kp == 0.0 && Ki == 0.0 && Kd == 0.0
      ensures Proportional == 0.0 && Integral == 0.0 && Derivative == 0.0 && LastError == 0.0
      ensures !SetPointAssigned && IntegralTerms == []
    {
      Kp, Ki, Kd := 0.0, 0.0, 0.0;
      Proportional, Integral, Derivative, LastError := 0.0, 0.0, 0.0, 0.0;
      SetPointAssigned := false;
      IntegralTerms := [];
    }

    constructor WithGains(kp: real, ki: real, kd: real)
      ensures Valid() && Kp == kp && Ki == ki && Kd == kd
      ensures Proportional == 0.0 && Integral == 0.0 && Derivative == 0.0 && LastError == 0.0
      ensures !SetPointAssigned && IntegralTerms == []
    {
      Kp, Ki, Kd := kp, ki, kd;
      Proportional, Integral, Derivative, LastError := 0.0, 0.0, 0.0, 0.0;
      SetPointAssigned := false;
      IntegralTerms := [];
    }

    method SetTargetPoint(point: real)
      modifies this`SetPoint, this`SetPointAssigned
      ensures SetPoint == point && SetPointAssigned
    {
      SetPoint := point;
      SetPointAssigned := true;
    }

    /** One control step; the output is not limited. */
    method Run(input: real, deltaTime: real) returns (out: real)
      requires Valid() && SetPointAssigned && deltaTime != 0.0
      modifies this`Proportional, this`Integral, this`Derivative, this`IntegralTerms
      ensures Valid()
      ensures Proportional == Kp * (SetPoint - input)
      ensures IntegralTerms == old(IntegralTerms) + [Ki * (SetPoint - input) * deltaTime]
      ensures Integral == old(Integral) + Ki * (SetPoint - input) * deltaTime
      ensures Derivative == Kd * ((SetPoint - input) - LastError) / deltaTime
      ensures out == Proportional + Integral + Derivative
    {
      var error := SetPoint - input;
      var term := Ki * error * deltaTime;
      Proportional := Kp * error;
      Integral := Integral + term;
      Derivative := Kd * (error - LastError) / deltaTime;
      IntegralTerms := IntegralTerms + [term];
      SumAppend(old(IntegralTerms), [term]);
      assert Sum([term]) == Sum([term][..0]) + term;
      assert term == Ki * (SetPoint - input) * deltaTime;
      assert IntegralTerms == old(IntegralTerms) + [term];
      out := Proportional + Integral + Derivative;
    }
  }

  /** What the controller needs of a possessed vehicle: its identity and its
      maximum steer angle in degrees. */
  datatype WheeledVehicle = WheeledVehicle(id: nat, maximumSteerAngleDegrees: real)

  /** A pawn handed to `OnPossess`: a wheeled vehicle, or anything else
      (including none), which the cast turns into null. */
  datatype Pawn = VehiclePawn(vehicle: WheeledVehicle) | OtherPawn

  datatype VehicleControlAckermann = VehicleControlAckermann(
    steer: real, steerSpeed: real, speed: real, acceleration: real, jerk: real)

  /** The control handed to the vehicle on every tick. */
  datatype VehicleControl = VehicleControl(
    steer: real, throttle: real, brake: real, handBrake: bool, reverse: bool)

  /** `std::max(lo, std::min(x, hi))`. */
  function Clamp(lo: real, hi: real, x: real): (r: real)
    ensures lo <= hi ==> lo <= r <= hi
    ensures lo <= x <= hi ==> r == x
    ensures x < lo || hi < lo ==> r == lo
    ensures lo <= hi < x ==> r == hi
  {
    var m := if x < hi then x else hi;
    if lo < m then m else lo
  }

  /** 180 km/h in m/s. */
  function GetMaximumSpeed(): real { 180.0 / 3.6 }
  function GetMaximumDeceleration(): real { -8.0 }
  function GetMaximumAcceleration(): real { 3.0 }
  function GetMaximumPedal(): real { 0.0 }

  /** The vehicle's maximum steer angle, converted to radians with pi taken as 3.14. */
  function MaximumSteerAngle(vehicle: WheeledVehicle): (r: real)
    ensures r == vehicle.maximumSteerAngleDegrees * 3.14 / 180.0
    ensures (r > 0.0 <==> vehicle.maximumSteerAngleDegrees > 0.0) && (r == 0.0 <==> vehicle.maximumSteerAngleDegrees == 0.0)
  {
    (vehicle.maximumSteerAngleDegrees * 3.14) / 180.0
  }

  lemma FractionBounds(t: real, m: real)
    requires m > 0.0 && -m <= t <= m
    ensures -1.0 <= t / m <= 1.0
  {
  }

  /** The vehicle's forward speed scaled by 10e-3 (that is, 0.01). */
  function CurrentSpeed(forwardSpeed: real): real { forwardSpeed * 0.01 }

  class AckermannController {
    var Vehicle: Option<WheeledVehicle>
    var SpeedController: PID
    var AccelerationController: PID

    var TargetSteer: real
    var TargetSteerSpeed: real
    var TargetSpeed: real
    var TargetAcceleration: real
    var TargetJerk: real

    var OutSteer: real
    var OutThrottle: real
    var OutBrake: real
    var OutHandBrake: bool
    var OutReverse: bool

    var SpeedControlActivationCount: int
    var SpeedControlAccelDelta: real
    var SpeedControlAccelTarget: real
    var AccelControlPedalDelta: real
    var AccelControlPedalTarget: real
    var BrakeUpperBorder: real
    var ThrottleLowerBorder: real

    var PreviousVelocity: real

    /** Every target and output starts at zero, except the hand brake, which starts engaged. */
    constructor ()
      ensures Vehicle == None
      ensures fresh(SpeedController) && fresh(AccelerationController)
      ensures SpeedController.Valid() && AccelerationController.Valid()
      ensures TargetSteer == 0.0 && TargetSteerSpeed == 0.0 && TargetSpeed == 0.0
      ensures TargetAcceleration == 0.0 && TargetJerk == 0.0
      ensures OutSteer == 0.0 && OutThrottle == 0.0 && OutBrake == 0.0
      ensures OutHandBrake && !OutReverse
      ensures SpeedControlActivationCount == 0 && SpeedControlAccelDelta == 0.0 && SpeedControlAccelTarget == 0.0
      ensures AccelControlPedalDelta == 0.0 && AccelControlPedalTarget == 0.0
      ensures BrakeUpperBorder == 0.0 && ThrottleLowerBorder == 0.0 && PreviousVelocity == 0.0
    {
      Vehicle := None;
      SpeedController := new PID.WithGains(0.0, 0.0, 0.0);
      AccelerationController := new PID.WithGains(0.0, 0.0, 0.0);
      TargetSteer, TargetSteerSpeed, TargetSpeed, TargetAcceleration, TargetJerk := 0.0, 0.0, 0.0, 0.0, 0.0;
      OutSteer, OutThrottle, OutBrake, OutHandBrake, OutReverse := 0.0, 0.0, 0.0, true, false;
      SpeedControlActivationCount, SpeedControlAccelDelta, SpeedControlAccelTarget := 0, 0.0, 0.0;
      AccelControlPedalDelta, AccelControlPedalTarget := 0.0, 0.0;
      BrakeUpperBorder, ThrottleLowerBorder := 0.0, 0.0;
      PreviousVelocity := 0.0;
    }

    function IsPossessingAVehicle(): (r: bool)
      reads this
      ensures r <==> Vehicle != None
    {
      Vehicle.Some?
    }

    /** Possessing while already possessing keeps the current vehicle; otherwise
        the pawn must be a wheeled vehicle (the source checks the cast). */
    method OnPossess(pawn: Pawn)
      requires Vehicle.None? ==> pawn.VehiclePawn?
      modifies this`Vehicle
      ensures old(Vehicle).Some? ==> Vehicle == old(Vehicle)
      ensures old(Vehicle).None? ==> Vehicle == Some(pawn.vehicle)
    {
      if IsPossessingAVehicle() {
        return;
      }
      Vehicle := Some(pawn.vehicle);
    }

    method OnUnPossess()
      modifies this`Vehicle
      ensures Vehicle == None
    {
      Vehicle := None;
    }

    /** Without a vehicle a tick does nothing; with one it records the current
        speed and hands the output fields to the vehicle as its control. */
    method Tick(deltaTime: real, forwardSpeed: real) returns (applied: Option<VehicleControl>)
      modifies this`PreviousVelocity
      ensures old(Vehicle).None? ==> applied == None && PreviousVelocity == old(PreviousVelocity)
      ensures old(Vehicle).Some? ==>
        applied == Some(VehicleControl(OutSteer, OutThrottle, OutBrake, OutHandBrake, OutReverse)) &&
        PreviousVelocity == CurrentSpeed(forwardSpeed)
    {
      if !IsPossessingAVehicle() {
        return None;
      }
      applied := Some(VehicleControl(OutSteer, OutThrottle, OutBrake, OutHandBrake, OutReverse));
      PreviousVelocity := CurrentSpeed(forwardSpeed);
    }

    function GetMaximumSteerAngle(): real
      reads this
      requires Vehicle.Some?
    {
      MaximumSteerAngle(Vehicle.value)
    }

    method SetTargetSteer(steer: real)
      requires Vehicle.Some?
      modifies this`TargetSteer
      ensures TargetSteer == Clamp(-GetMaximumSteerAngle(), GetMaximumSteerAngle(), steer)
      ensures GetMaximumSteerAngle() >= 0.0 ==> -GetMaximumSteerAngle() <= TargetSteer <= GetMaximumSteerAngle()
    {
      var maximumSteerAngle := GetMaximumSteerAngle();
      TargetSteer := Clamp(-maximumSteerAngle, maximumSteerAngle, steer);
    }

    method SetTargetSteerSpeed(steerSpeed: real)
      modifies this`TargetSteerSpeed
      ensures TargetSteerSpeed == steerSpeed
    {
      TargetSteerSpeed := steerSpeed;
    }

    method SetTargetSpeed(speed: real)
      modifies this`TargetSpeed
      ensures TargetSpeed == Clamp(-50.0, 50.0, speed)
      ensures -50.0 <= TargetSpeed <= 50.0
    {
      var maximumSpeed := GetMaximumSpeed();
      TargetSpeed := Clamp(-maximumSpeed, maximumSpeed, speed);
    }

    /** Both bounds of the clamp are the maximum deceleration, so the target
        is -8 whatever is asked for, and the zero-speed assignment is overwritten. */
    method SetTargetAcceleration(acceleration: real)
      modifies this`TargetAcceleration
      ensures TargetAcceleration == -8.0
    {
      var maximumDeceleration := GetMaximumDeceleration();
      var maximumAcceleration := GetMaximumAcceleration();
      if -0.00001 < TargetSpeed < 0.00001 {
        TargetAcceleration := maximumDeceleration;
      }
      TargetAcceleration := Clamp(maximumDeceleration, maximumDeceleration, acceleration);
    }

    method SetTargetJerk(jerk: real)
      modifies this`TargetJerk
      ensures TargetJerk == jerk
    {
      TargetJerk := jerk;
    }

    /** Runs the five setters; no output field changes. */
    method ApplyVehicleControl(control: VehicleControlAckermann)
      requires Vehicle.Some?
      modifies this`TargetSteer, this`TargetSteerSpeed, this`TargetSpeed, this`TargetAcceleration, this`TargetJerk
      ensures TargetSteer == Clamp(-GetMaximumSteerAngle(), GetMaximumSteerAngle(), control.steer)
      ensures TargetSteerSpeed == control.steerSpeed
      ensures TargetSpeed == Clamp(-50.0, 50.0, control.speed)
      ensures TargetAcceleration == -8.0
      ensures TargetJerk == control.jerk
    {
      SetTargetSteer(control.steer);
      SetTargetSteerSpeed(control.steerSpeed);
      SetTargetSpeed(control.speed);
      SetTargetAcceleration(control.acceleration);
      SetTargetJerk(control.jerk);
    }

    method RunControlLoop()
      modifies this`OutSteer, this`OutThrottle, this`OutBrake, this`OutHandBrake, this`OutReverse
      ensures OutSteer == TargetSteer && OutThrottle == 1.0 && OutBrake == 0.0
      ensures !OutHandBrake && !OutReverse
    {
      OutSteer := TargetSteer;
      OutThrottle := 1.0;
      OutBrake := 0.0;
      OutHandBrake := false;
      OutReverse := false;
    }

    /** The steer output is the target as a fraction of the maximum angle. */
    method RunSteerControlLoop()
      requires Vehicle.Some? && GetMaximumSteerAngle() != 0.0
      modifies this`OutSteer
      ensures OutSteer * GetMaximumSteerAngle() == TargetSteer
      ensures GetMaximumSteerAngle() > 0.0 && -GetMaximumSteerAngle() <= TargetSteer <= GetMaximumSteerAngle() ==>
        -1.0 <= OutSteer <= 1.0
    {
      var m := GetMaximumSteerAngle();
      OutSteer := TargetSteer / m;
      if m > 0.0 && -m <= TargetSteer <= m {
        FractionBounds(TargetSteer, m);
      }
    }

    method RunSpeedControlLoop()
    {
    }

    /** The pedal target accumulates its delta and is clamped to
        [-MaximumPedal, MaximumPedal] = [0, 0]. */
    method RunAccelControlLoop()
      modifies this`AccelControlPedalTarget
      ensures AccelControlPedalTarget == 0.0
    {
      var maximumPedal := GetMaximumPedal();
      AccelControlPedalTarget := AccelControlPedalTarget + AccelControlPedalDelta;
      AccelControlPedalTarget := Clamp(-maximumPedal, maximumPedal, AccelControlPedalTarget);
    }
  }
}
