/** The command-conditioned imitation network: the width bookkeeping of its
    layer stacks, and the per-sample routing of the joint representation to one
    of four branch networks. The numeric layers themselves are opaque: a tower
    or a branch is a total function on vectors. */
module ImitationNetwork {
  import opened Wrappers
  import opened Decimal

  // ---------------------------------------------------------------------------
  // Layer stacks and the shapes they accept

  datatype Layer =
    | Conv2d(inChannels: nat, outChannels: nat, kernel: nat, stride: nat)
    | BatchNorm2d(channels: nat)
    | Dropout2d
    | Dropout
    | ReLU
    | Flatten
    | Linear(inFeatures: nat, outFeatures: nat)

  /** The shape of one sample: feature maps (channels x height x width) or a
      flat feature vector. */
  datatype Shape = Maps(channels: nat, height: nat, width: nat) | Features(width: nat)

  /** Output extent of an unpadded convolution with kernel `k` and stride `s`. */
  function ConvOutputSize(n: nat, k: nat, s: nat): (r: nat)
    requires 1 <= k <= n && 1 <= s
    ensures 1 <= r
    ensures (r - 1) * s + k <= n < r * s + k
  {
    var q := (n - k) / s;
    assert q * s <= n - k < q * s + s by {
      assert n - k == q * s + (n - k) % s;
    }
    q + 1
  }

  /** The shape a layer produces, or None where the layer rejects its input. */
  function ApplyLayer(l: Layer, x: Shape): Option<Shape>
  {
    match l
    case Conv2d(i, o, k, s) =>
      if x.Maps? && x.channels == i && 1 <= k <= x.height && k <= x.width && 1 <= s
      then Some(Maps(o, ConvOutputSize(x.height, k, s), ConvOutputSize(x.width, k, s)))
      else None
    case BatchNorm2d(c) => if x.Maps? && x.channels == c then Some(x) else None
    case Dropout2d => Some(x)
    case Dropout => Some(x)
    case ReLU => Some(x)
    case Flatten =>
      if x.Maps? then Some(Features(x.channels * x.height * x.width)) else Some(x)
    case Linear(i, o) => if x.Features? && x.width == i then Some(Features(o)) else None
  }

  function RunLayers(ls: seq<Layer>, x: Shape): Option<Shape>
  {
    if ls == [] then Some(x)
    else match ApplyLayer(ls[0], x)
      case None => None
      case Some(y) => RunLayers(ls[1..], y)
  }

  /** Running two stacks one after the other is running their concatenation. */
  lemma {:induction false} RunLayersAppend(a: seq<Layer>, b: seq<Layer>, x: Shape)
    ensures RunLayers(a + b, x) ==
      match RunLayers(a, x)
      case None => None
      case Some(y) => RunLayers(b, y)
    decreases |a|
  {
    if a == [] {
      assert a + b == b;
    } else {
      assert (a + b)[0] == a[0] && (a + b)[1..] == a[1..] + b;
      match ApplyLayer(a[0], x)
      case None =>
      case Some(y) => RunLayersAppend(a[1..], b, y);
    }
  }

  function Fc(inFeatures: nat, outFeatures: nat): Layer
  {
    Linear(inFeatures, outFeatures)
  }

  function ConvBlock(inChannels: nat, outChannels: nat, kernel: nat, stride: nat, flattenOutput: bool): seq<Layer>
  {
    var block := [Conv2d(inChannels, outChannels, kernel, stride), BatchNorm2d(outChannels), Dropout2d, ReLU];
    if flattenOutput then block + [Flatten] else block
  }

  function FcBlock(inFeatures: nat, outFeatures: nat): seq<Layer>
  {
    [Fc(inFeatures, outFeatures), Dropout, ReLU]
  }

  /** A convolution block maps `c_in` channels to `c_out` channels of the unpadded size. */
  lemma ConvBlockShape(i: nat, o: nat, k: nat, s: nat, h: nat, w: nat)
    requires 1 <= k <= h && k <= w && 1 <= s
    ensures RunLayers(ConvBlock(i, o, k, s, false), Maps(i, h, w)) ==
      Some(Maps(o, ConvOutputSize(h, k, s), ConvOutputSize(w, k, s)))
  {
    var y := Maps(o, ConvOutputSize(h, k, s), ConvOutputSize(w, k, s));
    var b := ConvBlock(i, o, k, s, false);
    assert ApplyLayer(b[0], Maps(i, h, w)) == Some(y);
    assert RunLayers(b[4..], y) == Some(y);
    assert b[3..][1..] == b[4..] && RunLayers(b[3..], y) == Some(y);
    assert b[2..][1..] == b[3..] && RunLayers(b[2..], y) == Some(y);
    assert b[1..][1..] == b[2..] && RunLayers(b[1..], y) == Some(y);
  }

  lemma FcBlockShape(i: nat, o: nat)
    ensures RunLayers(FcBlock(i, o), Features(i)) == Some(Features(o))
  {
    var b := FcBlock(i, o);
    var y := Features(o);
    assert RunLayers(b[3..], y) == Some(y);
    assert b[2..][1..] == b[3..] && RunLayers(b[2..], y) == Some(y);
    assert b[1..][1..] == b[2..] && RunLayers(b[1..], y) == Some(y);
  }

  /** The eight convolution blocks of the perception tower. */
  function ConvStack(): seq<Layer>
  {
    ConvBlock(3, 32, 5, 2, false) +
    ConvBlock(32, 32, 3, 1, false) +
    ConvBlock(32, 64, 3, 2, false) +
    ConvBlock(64, 64, 3, 1, false) +
    ConvBlock(64, 128, 3, 2, false) +
    ConvBlock(128, 128, 3, 1, false) +
    ConvBlock(128, 256, 3, 1, false) +
    ConvBlock(256, 256, 3, 1, true)
  }

  function ImageModule(): seq<Layer>
  {
    ConvStack() + FcBlock(8192, 512) + FcBlock(512, 512)
  }

  function MeasurementModule(): seq<Layer>
  {
    FcBlock(1, 128) + FcBlock(128, 128)
  }

  function JointSensoryModule(): seq<Layer>
  {
    FcBlock(640, 512)
  }

  /** Two compression blocks and a final projection to (steer, throttle, brake). */
  function BranchModule(): seq<Layer>
  {
    FcBlock(512, 256) + FcBlock(256, 256) + [Fc(256, 3)]
  }

  /** The agent resizes camera frames to this (width, height). */
  const InputImageWidth: nat := 200
  const InputImageHeight: nat := 88

  /** `permute` of a tensor shape: dimension `i` of the result is dimension `p[i]` of the input. */
  function Permute(dims: seq<nat>, p: seq<nat>): (r: seq<nat>)
    requires forall i :: 0 <= i < |p| ==> p[i] < |dims|
    ensures |r| == |p| && forall i :: 0 <= i < |p| ==> r[i] == dims[p[i]]
  {
    seq(|p|, i requires 0 <= i < |p| => dims[p[i]])
  }

  /** A batch of one resized image is (1, height, width, 3); `forward` permutes
      it with (0, 3, 2, 1), so the convolutions see 3 channels of width x height. */
  lemma PermutedImageShape()
    ensures Permute([1, InputImageHeight, InputImageWidth, 3], [0, 3, 2, 1]) == [1, 3, InputImageWidth, InputImageHeight]
  {
  }

  lemma ConvStackShape()
    ensures RunLayers(ConvStack(), Maps(3, InputImageWidth, InputImageHeight)) == Some(Features(8192))
  {
    var b1 := ConvBlock(3, 32, 5, 2, false);
    var b2 := ConvBlock(32, 32, 3, 1, false);
    var b3 := ConvBlock(32, 64, 3, 2, false);
    var b4 := ConvBlock(64, 64, 3, 1, false);
    var b5 := ConvBlock(64, 128, 3, 2, false);
    var b6 := ConvBlock(128, 128, 3, 1, false);
    var b7 := ConvBlock(128, 256, 3, 1, false);
    var b8 := ConvBlock(256, 256, 3, 1, true);
    ConvBlockShape(3, 32, 5, 2, 200, 88);
    assert ConvOutputSize(200, 5, 2) == 98 && ConvOutputSize(88, 5, 2) == 42;
    ConvBlockShape(32, 32, 3, 1, 98, 42);
    assert ConvOutputSize(98, 3, 1) == 96 && ConvOutputSize(42, 3, 1) == 40;
    ConvBlockShape(32, 64, 3, 2, 96, 40);
    assert ConvOutputSize(96, 3, 2) == 47 && ConvOutputSize(40, 3, 2) == 19;
    ConvBlockShape(64, 64, 3, 1, 47, 19);
    assert ConvOutputSize(47, 3, 1) == 45 && ConvOutputSize(19, 3, 1) == 17;
    ConvBlockShape(64, 128, 3, 2, 45, 17);
    assert ConvOutputSize(45, 3, 2) == 22 && ConvOutputSize(17, 3, 2) == 8;
    ConvBlockShape(128, 128, 3, 1, 22, 8);
    assert ConvOutputSize(22, 3, 1) == 20 && ConvOutputSize(8, 3, 1) == 6;
    ConvBlockShape(128, 256, 3, 1, 20, 6);
    assert ConvOutputSize(20, 3, 1) == 18 && ConvOutputSize(6, 3, 1) == 4;
    ConvBlockShape(256, 256, 3, 1, 18, 4);
    assert ConvOutputSize(18, 3, 1) == 16 && ConvOutputSize(4, 3, 1) == 2;
    assert b8 == ConvBlock(256, 256, 3, 1, false) + [Flatten];
    RunLayersAppend(ConvBlock(256, 256, 3, 1, false), [Flatten], Maps(256, 18, 4));
    assert RunLayers(b8, Maps(256, 18, 4)) == Some(Features(256 * 16 * 2));
    RunLayersAppend(b1 + b2 + b3 + b4 + b5 + b6 + b7, b8, Maps(3, 200, 88));
    RunLayersAppend(b1 + b2 + b3 + b4 + b5 + b6, b7, Maps(3, 200, 88));
    RunLayersAppend(b1 + b2 + b3 + b4 + b5, b6, Maps(3, 200, 88));
    RunLayersAppend(b1 + b2 + b3 + b4, b5, Maps(3, 200, 88));
    RunLayersAppend(b1 + b2 + b3, b4, Maps(3, 200, 88));
    RunLayersAppend(b1 + b2, b3, Maps(3, 200, 88));
    RunLayersAppend(b1, b2, Maps(3, 200, 88));
  }

  /** The perception tower turns a 200 x 88 image into 512 features; its first
      fully connected layer expects the 256 x 16 x 2 = 8192 flattened maps. */
  lemma ImageModuleShape()
    ensures RunLayers(ImageModule(), Maps(3, InputImageWidth, InputImageHeight)) == Some(Features(512))
  {
    ConvStackShape();
    FcBlockShape(8192, 512);
    FcBlockShape(512, 512);
    RunLayersAppend(ConvStack() + FcBlock(8192, 512), FcBlock(512, 512), Maps(3, 200, 88));
    RunLayersAppend(ConvStack(), FcBlock(8192, 512), Maps(3, 200, 88));
  }

  /** The measurement tower turns the speed (one feature) into 128 features. */
  lemma MeasurementModuleShape()
    ensures RunLayers(MeasurementModule(), Features(1)) == Some(Features(128))
  {
    FcBlockShape(1, 128);
    FcBlockShape(128, 128);
    RunLayersAppend(FcBlock(1, 128), FcBlock(128, 128), Features(1));
  }

  /** Every branch maps the 512-wide joint representation to 3 outputs. */
  lemma BranchModuleShape()
    ensures RunLayers(BranchModule(), Features(512)) == Some(Features(3))
  {
    FcBlockShape(512, 256);
    FcBlockShape(256, 256);
    RunLayersAppend(FcBlock(512, 256) + FcBlock(256, 256), [Fc(256, 3)], Features(512));
    RunLayersAppend(FcBlock(512, 256), FcBlock(256, 256), Features(512));
  }

  /** The fusion stage takes the 512 image features followed by the 128 speed
      features, 640 in all, and produces the 512-wide joint representation. */
  lemma JointSensoryModuleShape()
    ensures RunLayers(JointSensoryModule(), Features(512 + 128)) == Some(Features(512))
  {
    FcBlockShape(640, 512);
  }

  // ---------------------------------------------------------------------------
  // Forward pass and branch routing

  type Vector = seq<real>

  /** What a branch produces: the three outputs of its last layer. */
  datatype Triplet = Triplet(steer: real, throttle: real, brake: real)

  datatype Branch = FollowLane | Left | Right | Straight

  /** The four independently trained branch networks, as opaque total functions. */
  datatype Branches = Branches(
    followLane: Vector -> Triplet,
    left: Vector -> Triplet,
    right: Vector -> Triplet,
    straight: Vector -> Triplet)
  {
    function Run(b: Branch, j: Vector): Triplet
    {
      match b
      case FollowLane => followLane(j)
      case Left => left(j)
      case Right => right(j)
      case Straight => straight(j)
    }
  }

  /** The branch a command code selects; codes outside {0, 2, 3, 4, 5} select none. */
  function SelectBranch(code: int): Option<Branch>
  {
    if code == 2 || code == 0 then Some(FollowLane)
    else if code == 3 then Some(Left)
    else if code == 4 then Some(Right)
    else if code == 5 then Some(Straight)
    else None
  }

  /** The command codes that lead to each branch. */
  function CodesOf(b: Branch): set<int>
  {
    match b
    case FollowLane => {0, 2}
    case Left => {3}
    case Right => {4}
    case Straight => {5}
  }

  /** Selection agrees with the code table in both directions, and a code
      outside every branch's codes selects nothing. */
  lemma SelectBranchMatchesCodes(code: int, b: Branch)
    ensures SelectBranch(code) == Some(b) <==> code in CodesOf(b)
    ensures SelectBranch(code) == None <==> code !in {0, 2, 3, 4, 5}
  {
  }

  /** The supplied command value selects a branch (after truncation). */
  predicate Routed(control: real)
  {
    SelectBranch(Truncate(control)).Some?
  }

  /** Python's `zip`: pairs up to the shorter of the two batches. */
  function Zip<A, B>(a: seq<A>, b: seq<B>): (r: seq<(A, B)>)
    ensures |r| == if |a| <= |b| then |a| else |b|
    ensures forall i :: 0 <= i < |r| ==> r[i] == (a[i], b[i])
  {
    seq(if |a| <= |b| then |a| else |b|, i requires 0 <= i < |a| && i < |b| => (a[i], b[i]))
  }

  /** The outputs the loop of `gated_branch_function` collects from the first
      samples: one branch output per routed sample, nothing for the others. */
  function Gate(nets: Branches, samples: seq<(Vector, real)>): seq<Triplet>
  {
    if samples == [] then []
    else
      var last := samples[|samples| - 1];
      Gate(nets, samples[..|samples| - 1]) +
        match SelectBranch(Truncate(last.1))
        case Some(b) => [nets.Run(b, last.0)]
        case None => []
  }

  /** `torch.stack` of the collected outputs; stacking an empty list raises. */
  function Stack(outputs: seq<Triplet>): (r: Option<seq<Triplet>>)
    ensures r == None <==> outputs == []
    ensures r.Some? ==> r.value == outputs
  {
    if outputs == [] then None else Some(outputs)
  }

  method GatedBranchFunction(nets: Branches, jBatch: seq<Vector>, controlBatch: seq<real>)
    returns (output: Option<seq<Triplet>>)
    ensures output == Stack(Gate(nets, Zip(jBatch, controlBatch)))
  {
    var samples := Zip(jBatch, controlBatch);
    var batchOutput: seq<Triplet> := [];
    var i := 0;
    while i < |samples|
      invariant 0 <= i <= |samples|
      invariant batchOutput == Gate(nets, samples[..i])
    {
      var j := samples[i].0;
      var control := Truncate(samples[i].1);
      assert samples[..i + 1][..i] == samples[..i];
      if control == 2 || control == 0 {
        batchOutput := batchOutput + [nets.followLane(j)];
      } else if control == 3 {
        batchOutput := batchOutput + [nets.left(j)];
      } else if control == 4 {
        batchOutput := batchOutput + [nets.right(j)];
      } else if control == 5 {
        batchOutput := batchOutput + [nets.straight(j)];
      }
      i := i + 1;
    }
    assert samples[..i] == samples;
    output := Stack(batchOutput);
  }

  /** The positions of the routed samples, in increasing order. */
  function RoutedIndices(controls: seq<real>): seq<nat>
  {
    if controls == [] then []
    else
      RoutedIndices(controls[..|controls| - 1]) +
        if Routed(controls[|controls| - 1]) then [|controls| - 1] else []
  }

  function Controls(samples: seq<(Vector, real)>): (r: seq<real>)
    ensures |r| == |samples| && forall i :: 0 <= i < |r| ==> r[i] == samples[i].1
  {
    seq(|samples|, i requires 0 <= i < |samples| => samples[i].1)
  }

  /** Exactly the routed positions are listed, each once, in increasing order. */
  lemma {:induction false} RoutedIndicesSpec(controls: seq<real>)
    ensures forall k :: 0 <= k < |RoutedIndices(controls)| ==> RoutedIndices(controls)[k] < |controls|
    ensures forall k, l :: 0 <= k < l < |RoutedIndices(controls)| ==> RoutedIndices(controls)[k] < RoutedIndices(controls)[l]
    ensures forall i :: 0 <= i < |controls| ==> (i in RoutedIndices(controls) <==> Routed(controls[i]))
    decreases |controls|
  {
    if controls != [] {
      var n := |controls| - 1;
      var front := controls[..n];
      RoutedIndicesSpec(front);
      assert forall i :: 0 <= i < n ==> front[i] == controls[i];
    }
  }

  /** Order preservation: output k is the selected branch applied to the joint
      vector of the k-th routed sample, and there is one output per routed sample. */
  lemma {:induction false} GateOrder(nets: Branches, samples: seq<(Vector, real)>)
    ensures |Gate(nets, samples)| == |RoutedIndices(Controls(samples))|
    ensures forall k :: 0 <= k < |Gate(nets, samples)| ==>
      var i := RoutedIndices(Controls(samples))[k];
      i < |samples| && Routed(samples[i].1) &&
      Gate(nets, samples)[k] == nets.Run(SelectBranch(Truncate(samples[i].1)).value, samples[i].0)
    decreases |samples|
  {
    RoutedIndicesSpec(Controls(samples));
    if samples != [] {
      var n := |samples| - 1;
      var front := samples[..n];
      GateOrder(nets, front);
      assert Controls(samples)[..n] == Controls(front);
    }
  }

  /** Codes 0 and 2 are aliases: both run the follow-lane branch on the same input. */
  lemma CommandAliasing(nets: Branches, j: Vector, c0: real, c2: real)
    requires Truncate(c0) == 0 && Truncate(c2) == 2
    ensures Gate(nets, [(j, c0)]) == Gate(nets, [(j, c2)]) == [nets.followLane(j)]
  {
    assert [(j, c0)][..0] == [] && [(j, c2)][..0] == [];
  }

  /** A sample whose code selects no branch contributes nothing. */
  lemma {:induction false} UnroutedSampleDropped(nets: Branches, samples: seq<(Vector, real)>, j: Vector, c: real)
    requires !Routed(c)
    ensures Gate(nets, samples + [(j, c)]) == Gate(nets, samples)
  {
    assert (samples + [(j, c)])[..|samples|] == samples;
  }

  /** Any command value strictly between -1 and 1 truncates to 0 and so follows the lane. */
  lemma SmallCommandFollowsLane(c: real)
    requires -1.0 < c < 1.0
    ensures SelectBranch(Truncate(c)) == Some(FollowLane)
  {
  }

  /** The opaque towers and fusion stage of the network, with its branches. */
  datatype Network<-Image> = Network(
    imageModule: Image -> Vector,
    measurementModule: real -> Vector,
    jointSensoryModule: Vector -> Vector,
    branches: Branches)

  /** `forward`: image and speed features are concatenated, image first, fused,
      and routed by command. `torch.cat` raises when the two batches differ in size. */
  function Forward<Image>(net: Network<Image>, images: seq<Image>, speeds: seq<real>, controls: seq<real>): Option<seq<Triplet>>
  {
    if |images| != |speeds| then None
    else
      var j := seq(|images|, b requires 0 <= b < |images| =>
        net.jointSensoryModule(net.imageModule(images[b]) + net.measurementModule(speeds[b])));
      Stack(Gate(net.branches, Zip(j, controls)))
  }

  /** What `forward` returns: for the k-th routed sample i, the selected branch
      applied to the fused image-then-speed features of sample i; it fails
      exactly when the batches differ in size or no sample is routed. */
  lemma ForwardSpec<Image>(net: Network<Image>, images: seq<Image>, speeds: seq<real>, controls: seq<real>)
    ensures |images| != |speeds| ==> Forward(net, images, speeds, controls).None?
    ensures |images| == |speeds| ==>
      var n := if |images| <= |controls| then |images| else |controls|;
      var idx := RoutedIndices(controls[..n]);
      (Forward(net, images, speeds, controls).None? <==> idx == []) &&
      (Forward(net, images, speeds, controls).Some? ==>
        var out := Forward(net, images, speeds, controls).value;
        |out| == |idx| &&
        forall k :: 0 <= k < |out| ==>
          idx[k] < n && Routed(controls[idx[k]]) &&
          out[k] == net.branches.Run(SelectBranch(Truncate(controls[idx[k]])).value,
            net.jointSensoryModule(net.imageModule(images[idx[k]]) + net.measurementModule(speeds[idx[k]]))))
  {
    if |images| == |speeds| {
      var j := seq(|images|, b requires 0 <= b < |images| =>
        net.jointSensoryModule(net.imageModule(images[b]) + net.measurementModule(speeds[b])));
      var samples := Zip(j, controls);
      var n := |samples|;
      GateOrder(net.branches, samples);
      assert Controls(samples) == controls[..n];
    }
  }
}
