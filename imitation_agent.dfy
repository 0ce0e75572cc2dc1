/** The imitation-learning driving agent: it reads (steer, throttle, brake)
    off the network for one frame and turns it into a vehicle control through
    three ordered rewrite rules. */
module ImitationAgent {
  import opened Wrappers
  import opened Decimal
  import opened ImitationNetwork

  /** The simulator's vehicle control record as the agent fills it in. */
  datatype VehicleControl = VehicleControl(steer: real, throttle: real, brake: real, handBrake: bool, reverse: bool)

  function Abs(x: real): real { if x < 0.0 then -x else x }

  /** `control_function`: run the network on a batch of one and read its single
      output row; the brake is taken as an absolute value. When the command
      selects no branch the network raises (it stacks an empty list). */
  function ControlFunction<Image>(net: Network<Image>, image: Image, speed: real, direction: real): (r: Option<Triplet>)
    ensures r.Some? <==> Routed(direction)
    ensures r.Some? ==>
      var b := SelectBranch(Truncate(direction)).value;
      var raw := net.branches.Run(b, net.jointSensoryModule(net.imageModule(image) + net.measurementModule(speed)));
      r.value.steer == raw.steer && r.value.throttle == raw.throttle &&
      r.value.brake >= 0.0 && (r.value.brake == raw.brake || r.value.brake == -raw.brake)
  {
    ForwardSpec(net, [image], [speed], [direction]);
    assert [direction][..1] == [direction];
    match Forward(net, [image], [speed], [direction])
    case None => None
    case Some(output) => Some(Triplet(output[0].steer, output[0].throttle, Abs(output[0].brake)))
  }

  /** The rewrite rules of `compute_action`, in order: a brake under 0.1 is
      noise; a throttle above the (possibly zeroed) brake cancels the brake;
      above 5 m/s with no brake the throttle is cut. */
  function PostProcess(raw: Triplet, speed: real): (c: VehicleControl)
    ensures c.steer == raw.steer && !c.handBrake && !c.reverse
    ensures c.brake == 0.0 || c.brake >= 0.1
    ensures c.brake > 0.0 ==> c.throttle <= c.brake
    ensures speed > 5.0 && c.throttle != 0.0 ==> c.brake != 0.0
    ensures c.brake == 0.0 || c.brake == raw.brake
    ensures c.throttle == 0.0 || c.throttle == raw.throttle
  {
    var brake := if raw.brake < 0.1 then 0.0 else raw.brake;
    var brake := if raw.throttle > brake then 0.0 else brake;
    var acc := if speed > 5.0 && brake == 0.0 then 0.0 else raw.throttle;
    VehicleControl(raw.steer, acc, brake, false, false)
  }

  /** The rules in one step: the brake survives exactly when it is at least
      0.1 and not exceeded by the throttle; the throttle survives unless the
      car is above 5 m/s with no brake. */
  lemma PostProcessDecisions(raw: Triplet, speed: real)
    ensures PostProcess(raw, speed).brake ==
      (if raw.brake >= 0.1 && raw.throttle <= raw.brake then raw.brake else 0.0)
    ensures PostProcess(raw, speed).throttle ==
      (if speed > 5.0 && PostProcess(raw, speed).brake == 0.0 then 0.0 else raw.throttle)
  {
  }

  /** Applying the rules to their own output, at the same speed, changes nothing. */
  lemma PostProcessIdempotent(raw: Triplet, speed: real)
    ensures var c := PostProcess(raw, speed);
      PostProcess(Triplet(c.steer, c.throttle, c.brake), speed) == c
  {
  }

  lemma PostProcessExamples()
    ensures PostProcess(Triplet(0.3, 0.5, 0.05), 2.0) == VehicleControl(0.3, 0.5, 0.0, false, false)
    ensures PostProcess(Triplet(-0.2, 0.2, 0.4), 10.0) == VehicleControl(-0.2, 0.2, 0.4, false, false)
    ensures PostProcess(Triplet(0.0, 0.6, 0.02), 8.0) == VehicleControl(0.0, 0.0, 0.0, false, false)
  {
  }

  /** `compute_action` (and `run_step`, which only calls it), on an image that
      the caller has already converted, resized and scaled. */
  function ComputeAction<Image>(net: Network<Image>, speed: real, direction: real, image: Image): (r: Option<VehicleControl>)
    ensures r.Some? <==> Routed(direction)
    ensures r.Some? ==> r.value.brake >= 0.0 && !r.value.handBrake && !r.value.reverse
  {
    match ControlFunction(net, image, speed, direction)
    case None => None
    case Some(raw) => Some(PostProcess(raw, speed))
  }
}
