# CARLA core pieces, modelled in Dafny

This project models six pieces of the CARLA driving simulator and proves properties of them.

- **Imitation agent** (`imitation_agent.dfy`). The Python agent asks the imitation network for steer, throttle and brake for one frame. It then rewrites them into a vehicle control with three ordered rules.
- **Imitation network** (`imitation_network.dfy`).
  - The layer widths of the image, measurement, fusion and branch towers are checked shape by shape.
  - The gated branch function routes every sample of a batch to one of four branch networks by its command code.
  - `forward` concatenates image features with speed features before the fusion stage.
  - The towers and branches themselves are opaque functions.
- **Ackermann controller** (`ackermann_controller.dfy`).
  - The PID controller class.
  - The controller that possesses a wheeled vehicle, clamps its targets and hands its output fields to the vehicle each tick.
- **Shared memory block** (`shared_memory_block.dfy`). The block behind a shared-memory stream:
  - its name `carla_<port>_<stream id>`;
  - the mutex and condition names derived from it;
  - create, open and resize;
  - the guards that refuse to wait when there is no mutex.
- **Multi-stream state** (`multi_stream_state.dfy`). The session list of a stream:
  - the first session creates the shared memory;
  - disconnecting the last session drops it;
  - a write copies the message payload, without its size header, into the block.
- **Object register** (`object_register.dfy`). The registry of environment objects: vehicles, walkers, traffic light boxes, instanced meshes, static meshes and skeletal meshes.
  - Registration adds each actor according to its kind.
  - Unregistration removes an actor's objects and the component entries of its newest object.
  - Enabling or disabling an object, by id, is recorded as a log of the engine calls the source makes.

Two support modules:
- `decimal.dfy` holds decimal printing and parsing: `%d` formatting, `atoi`, splitting on a separator and truncation of a real to an integer.
- `wrappers.dfy` holds `Option`.

The engine is a parameter record of opaque functions: the name/transform hash, the large-map transform and the tag names. The meshes, instances, boxes and tags an actor reports are fields of its `Actor` value.

Some functions without a row are reference definitions that the rows' lemmas and method contracts are stated against: `Gate` and `RoutedIndices` (imitation network), `Concat` and `Copied` (multi-stream state), `Sum` (PID), and `TotalInstances`, `LightEntries`, `EnableIdActions` and `EnableAllActions` (object register).

## Model

| member | source | states |
|---|---|---|
| ImitationAgent.ControlFunction | PythonAPI/carla/agents/navigation/imitation_agent.py:64-73 | a control triple exists exactly when the command selects a branch; steer and throttle are the selected branch's outputs on the fused image-then-speed features; the brake is that output's absolute value |
| ImitationAgent.PostProcess | PythonAPI/carla/agents/navigation/imitation_agent.py:47-61 | the steer is kept and no hand brake or reverse is set; a surviving brake is at least 0.1 and at least the throttle; above 5 m/s a non-zero throttle comes with a brake; each output is either zero or the raw value |
| ImitationAgent.PostProcessDecisions | PythonAPI/carla/agents/navigation/imitation_agent.py:47-54 | the three rules in closed form: the brake survives iff it is at least 0.1 and not exceeded by the throttle; the throttle survives unless the car is above 5 m/s with no brake |
| ImitationAgent.PostProcessIdempotent | PythonAPI/carla/agents/navigation/imitation_agent.py:47-54 | running the rules on their own output at the same speed changes nothing |
| ImitationAgent.PostProcessExamples | PythonAPI/carla/agents/navigation/imitation_agent.py:47-54 | a small brake is dropped; a brake above the throttle is kept at speed; at speed without a brake the throttle is cut |
| ImitationAgent.ComputeAction | PythonAPI/carla/agents/navigation/imitation_agent.py:26-62 | a control exists exactly when the command is routed; its brake is never negative; it sets neither hand brake nor reverse |
| ImitationNetwork.ConvOutputSize | PythonAPI/carla/agents/navigation/imitation_learning/imitation_network.py:51-60 | the output size of an unpadded convolution is the number of whole kernel placements at the stride |
| ImitationNetwork.RunLayersAppend | PythonAPI/carla/agents/navigation/imitation_learning/imitation_network.py:68-82 | running two layer stacks in turn is running their concatenation |
| ImitationNetwork.ConvBlockShape | PythonAPI/carla/agents/navigation/imitation_learning/imitation_network.py:51-60 | a convolution block maps i channels of h by w to o channels of the convolved size |
| ImitationNetwork.FcBlockShape | PythonAPI/carla/agents/navigation/imitation_learning/imitation_network.py:62-66 | a linear block maps i features to o features |
| ImitationNetwork.Permute | PythonAPI/carla/agents/navigation/imitation_learning/imitation_network.py:132 | a permutation places dimension p[i] at position i |
| ImitationNetwork.PermutedImageShape | PythonAPI/carla/agents/navigation/imitation_learning/imitation_network.py:132 | permuting (0, 3, 2, 1) turns a batch of 88x200 RGB images into 3 channels of 200 by 88 |
| ImitationNetwork.ConvStackShape | PythonAPI/carla/agents/navigation/imitation_learning/imitation_network.py:68-80 | the eight convolution blocks flatten a 3x200x88 image to 8192 features |
| ImitationNetwork.ImageModuleShape | PythonAPI/carla/agents/navigation/imitation_learning/imitation_network.py:68-82 | the image tower yields 512 features |
| ImitationNetwork.MeasurementModuleShape | PythonAPI/carla/agents/navigation/imitation_learning/imitation_network.py:84-89 | the speed tower maps 1 feature to 128 |
| ImitationNetwork.JointSensoryModuleShape | PythonAPI/carla/agents/navigation/imitation_learning/imitation_network.py:91-92 | the fusion stage maps 512 + 128 features to 512 |
| ImitationNetwork.BranchModuleShape | PythonAPI/carla/agents/navigation/imitation_learning/imitation_network.py:94-100 | each branch maps 512 features to steer, throttle and brake |
| ImitationNetwork.SelectBranchMatchesCodes | PythonAPI/carla/agents/navigation/imitation_learning/imitation_network.py:108-123 | a code selects a branch iff it is in that branch's code set (0 and 2 for follow lane, 3, 4, 5); codes outside {0, 2, 3, 4, 5} select none |
| ImitationNetwork.Zip | PythonAPI/carla/agents/navigation/imitation_learning/imitation_network.py:104 | pairs the two batches up to the shorter one's length |
| ImitationNetwork.Stack | PythonAPI/carla/agents/navigation/imitation_learning/imitation_network.py:125 | stacking fails exactly on an empty list and otherwise keeps the outputs |
| ImitationNetwork.GatedBranchFunction | PythonAPI/carla/agents/navigation/imitation_learning/imitation_network.py:102-125 | the loop collects, in sample order, the selected branch's output for every routed sample and stacks them |
| ImitationNetwork.Controls | PythonAPI/carla/agents/navigation/imitation_learning/imitation_network.py:104-105 | the command column of the zipped samples |
| ImitationNetwork.RoutedIndicesSpec | PythonAPI/carla/agents/navigation/imitation_learning/imitation_network.py:104-123 | the routed positions are in range, strictly increasing, and include a sample iff its command selects a branch |
| ImitationNetwork.GateOrder | PythonAPI/carla/agents/navigation/imitation_learning/imitation_network.py:102-125 | there is one output per routed sample; output k is the selected branch applied to the joint vector of the k-th routed sample |
| ImitationNetwork.CommandAliasing | PythonAPI/carla/agents/navigation/imitation_learning/imitation_network.py:108-110 | codes 0 and 2 give the same follow-lane output |
| ImitationNetwork.UnroutedSampleDropped | PythonAPI/carla/agents/navigation/imitation_learning/imitation_network.py:108-123 | a sample with an unrouted code adds nothing to the batch output |
| ImitationNetwork.SmallCommandFollowsLane | PythonAPI/carla/agents/navigation/imitation_learning/imitation_network.py:105-110 | every command strictly between -1 and 1 truncates to 0 and follows the lane |
| ImitationNetwork.ForwardSpec | PythonAPI/carla/agents/navigation/imitation_learning/imitation_network.py:130-146 | `forward` fails when the image and speed batches differ in size or no sample is routed; otherwise output k is the selected branch on the fused image-then-speed features of the k-th routed sample |
| Decimal.Truncate | PythonAPI/carla/agents/navigation/imitation_learning/imitation_network.py:105 | `int()` of a real rounds toward zero: the result is within 1 of the real, on the same side of zero |
| Decimal.NatToString | LibCarla/source/carla/streaming/detail/SharedMemoryBlock.cpp:75 | decimal printing gives a non-empty digit string with a leading zero only for 0 |
| Decimal.IntToString | Unreal/CarlaUE4/Plugins/Carla/Source/Carla/Util/ObjectRegister.cpp:303 | `%d` printing starts with a minus sign exactly for negatives and agrees with the natural-number form otherwise |
| Decimal.DigitsValueOfNatToString | LibCarla/source/carla/streaming/detail/SharedMemoryBlock.cpp:75 | reading printed digits back gives the number |
| Decimal.NatToStringInjective | LibCarla/source/carla/streaming/detail/SharedMemoryBlock.cpp:75 | different numbers print differently |
| Decimal.AtoiOfDigits | Unreal/CarlaUE4/Plugins/Carla/Source/Carla/Util/ObjectRegister.cpp:482 | `Atoi` of a digit string is its value |
| Decimal.AtoiOfNegatedDigits | Unreal/CarlaUE4/Plugins/Carla/Source/Carla/Util/ObjectRegister.cpp:482 | `Atoi` of a minus sign and digits is the negated value |
| Decimal.AtoiIntToString | Unreal/CarlaUE4/Plugins/Carla/Source/Carla/Util/ObjectRegister.cpp:482 | `Atoi` inverts `%d` printing for every integer |
| Decimal.ParseIntoArray | Unreal/CarlaUE4/Plugins/Carla/Source/Carla/Util/ObjectRegister.cpp:480 | splitting with empty fields kept, as the call with culling switched off does, yields no fields exactly for the empty string |
| Decimal.FieldsWithoutSeparator | Unreal/CarlaUE4/Plugins/Carla/Source/Carla/Util/ObjectRegister.cpp:480 | a string without the separator is one field |
| Decimal.FieldsOfJoin | Unreal/CarlaUE4/Plugins/Carla/Source/Carla/Util/ObjectRegister.cpp:480 | splitting a join splits each side |
| Decimal.LastFieldAfterSeparator | Unreal/CarlaUE4/Plugins/Carla/Source/Carla/Util/ObjectRegister.cpp:480-482 | the last field of `prefix_digits` is the digits, whatever the prefix contains |
| Ackermann.SumAppend | Unreal/CarlaUE4/Plugins/Carla/Source/Carla/Vehicle/AckermannController.h:29-41 | the integral of the concatenated error history is the sum of both histories' integrals |
| Ackermann.PID.constructor | Unreal/CarlaUE4/Plugins/Carla/Source/Carla/Vehicle/AckermannController.h:20-56 | a default PID has zero gains, terms and last error, and no set point |
| Ackermann.PID.WithGains | Unreal/CarlaUE4/Plugins/Carla/Source/Carla/Vehicle/AckermannController.h:21-56 | the gains are the arguments; the terms and last error start at zero |
| Ackermann.PID.SetTargetPoint | Unreal/CarlaUE4/Plugins/Carla/Source/Carla/Vehicle/AckermannController.h:24-27 | the set point becomes the argument |
| Ackermann.PID.Run | Unreal/CarlaUE4/Plugins/Carla/Source/Carla/Vehicle/AckermannController.h:29-41 | the proportional term is Kp·error; the integral accumulates Ki·error·dt; the derivative divides by dt against the last error, which is never updated and stays 0; the output is the sum of the three terms |
| Ackermann.Clamp | Unreal/CarlaUE4/Plugins/Carla/Source/Carla/Vehicle/AckermannController.cpp:160-185 | `FMath::Clamp`: the value inside the bounds is kept and one outside is cut to the nearer bound |
| Ackermann.MaximumSteerAngle | Unreal/CarlaUE4/Plugins/Carla/Source/Carla/Vehicle/AckermannController.cpp:134-137 | the maximum steer angle is converted from degrees to radians with pi as 3.14; it keeps its sign |
| Ackermann.FractionBounds | Unreal/CarlaUE4/Plugins/Carla/Source/Carla/Vehicle/AckermannController.cpp:102-105 | a clamped steer divided by the maximum angle lies in [-1, 1] |
| Ackermann.AckermannController.constructor | Unreal/CarlaUE4/Plugins/Carla/Source/Carla/Vehicle/AckermannController.h:145-178 | the field defaults: no vehicle, zero targets and outputs, hand brake on, reverse off |
| Ackermann.AckermannController.IsPossessingAVehicle | Unreal/CarlaUE4/Plugins/Carla/Source/Carla/Vehicle/AckermannController.h:106-109 | true exactly when a vehicle is held |
| Ackermann.AckermannController.OnPossess | Unreal/CarlaUE4/Plugins/Carla/Source/Carla/Vehicle/AckermannController.cpp:33-44 | a controller that already holds a vehicle keeps it; otherwise it takes the pawn's vehicle |
| Ackermann.AckermannController.OnUnPossess | Unreal/CarlaUE4/Plugins/Carla/Source/Carla/Vehicle/AckermannController.cpp:46-51 | the vehicle is released |
| Ackermann.AckermannController.Tick | Unreal/CarlaUE4/Plugins/Carla/Source/Carla/Vehicle/AckermannController.cpp:53-83 | without a vehicle nothing happens; with one the output fields are applied as the control and the speed in m/s is recorded |
| Ackermann.AckermannController.SetTargetSteer | Unreal/CarlaUE4/Plugins/Carla/Source/Carla/Vehicle/AckermannController.cpp:160-169 | the steer target is clamped to plus or minus the maximum steer angle |
| Ackermann.AckermannController.SetTargetSteerSpeed | Unreal/CarlaUE4/Plugins/Carla/Source/Carla/Vehicle/AckermannController.cpp:171-174 | the steer speed target is the argument |
| Ackermann.AckermannController.SetTargetSpeed | Unreal/CarlaUE4/Plugins/Carla/Source/Carla/Vehicle/AckermannController.cpp:176-185 | the speed target is clamped to [-50, 50] |
| Ackermann.AckermannController.SetTargetAcceleration | Unreal/CarlaUE4/Plugins/Carla/Source/Carla/Vehicle/AckermannController.cpp:187-203 | the acceleration target is always the maximum deceleration, -8, as the source's unconditional final assignment makes it |
| Ackermann.AckermannController.SetTargetJerk | Unreal/CarlaUE4/Plugins/Carla/Source/Carla/Vehicle/AckermannController.cpp:205-208 | the jerk target is the argument |
| Ackermann.AckermannController.ApplyVehicleControl | Unreal/CarlaUE4/Plugins/Carla/Source/Carla/Vehicle/AckermannController.cpp:210-219 | the control's five fields go through their setters |
| Ackermann.AckermannController.RunControlLoop | Unreal/CarlaUE4/Plugins/Carla/Source/Carla/Vehicle/AckermannController.cpp:85-100 | the output is the target steer, full throttle, no brake, hand brake off and reverse off |
| Ackermann.AckermannController.RunSteerControlLoop | Unreal/CarlaUE4/Plugins/Carla/Source/Carla/Vehicle/AckermannController.cpp:102-105 | the steer output times the maximum angle is the steer target, and it lies in [-1, 1] when the target is within the angle |
| Ackermann.AckermannController.RunAccelControlLoop | Unreal/CarlaUE4/Plugins/Carla/Source/Carla/Vehicle/AckermannController.cpp:112-121 | the pedal target ends at 0, the maximum pedal |
| SharedMemory.BlockNameFields | LibCarla/source/carla/streaming/detail/SharedMemoryBlock.cpp:73-77 | split on `_`, a block name reads back as `carla`, the port and the stream id |
| SharedMemory.BlockNameInjective | LibCarla/source/carla/streaming/detail/SharedMemoryBlock.cpp:73-77 | different (port, stream) pairs never share a block name |
| SharedMemory.ObjectNamesDistinct | LibCarla/source/carla/streaming/detail/SharedMemoryBlock.cpp:121-133 | the block, mutex and condition names differ, and each derived name determines the block name |
| SharedMemory.Zeros | LibCarla/source/carla/streaming/detail/SharedMemoryBlock.cpp:100-107 | n zero bytes |
| SharedMemory.Resized | LibCarla/source/carla/streaming/detail/SharedMemoryBlock.cpp:100-107 | truncation keeps the prefix and pads with zero bytes to exactly the new size |
| SharedMemory.SharedMemoryBlock.constructor | LibCarla/source/carla/streaming/detail/SharedMemoryBlock.h:53-58 | a new block holds no memory object and no mutex |
| SharedMemory.SharedMemoryBlock.RemoveNamedObjects | LibCarla/source/carla/streaming/detail/SharedMemoryBlock.cpp:29-51 | removes the object, then `<name>_mutex`, then `<name>_condition`, in that order |
| SharedMemory.SharedMemoryBlock.CreateMutex | LibCarla/source/carla/streaming/detail/SharedMemoryBlock.cpp:121-133 | the mutex and condition are named `<name>_mutex` and `<name>_condition` |
| SharedMemory.SharedMemoryBlock.Create | LibCarla/source/carla/streaming/detail/SharedMemoryBlock.cpp:53-67 | old objects of the name are removed; the block then has memory open for reading and writing and a mutex, and holds 100 zero bytes |
| SharedMemory.SharedMemoryBlock.CreateForStream | LibCarla/source/carla/streaming/detail/SharedMemoryBlock.cpp:73-77 | create under the name `carla_<port>_<stream id>` |
| SharedMemory.SharedMemoryBlock.Open | LibCarla/source/carla/streaming/detail/SharedMemoryBlock.cpp:79-88 | a missing object makes opening fail with nothing changed; otherwise the object is opened for reading only with its bytes unchanged, and its mutex is created |
| SharedMemory.SharedMemoryBlock.OpenForStream | LibCarla/source/carla/streaming/detail/SharedMemoryBlock.cpp:94-98 | open under the name `carla_<port>_<stream id>`, failing with nothing changed when no such object exists |
| SharedMemory.SharedMemoryBlock.Resize | LibCarla/source/carla/streaming/detail/SharedMemoryBlock.cpp:100-107 | the object is truncated, keeping its prefix and padding with zeros, only when its size differs; truncating an object opened for reading only fails and leaves it as it was |
| SharedMemory.SharedMemoryBlock.GetSize | LibCarla/source/carla/streaming/detail/SharedMemoryBlock.cpp:109-115 | the object's size, or 0 when the size query fails |
| SharedMemory.SharedMemoryBlock.GetName | LibCarla/source/carla/streaming/detail/SharedMemoryBlock.cpp:117-119 | the name the block was created or opened with |
| SharedMemory.SharedMemoryBlock.WaitForWriting | LibCarla/source/carla/streaming/detail/SharedMemoryBlock.cpp:135-149 | without a mutex the writer is not called back; mapping for writing fails for an object opened for reading only or an empty one; otherwise the writer gets the mapped region |
| SharedMemory.SharedMemoryBlock.WaitForReading | LibCarla/source/carla/streaming/detail/SharedMemoryBlock.cpp:151-164 | without a mutex the reader is not called back; mapping an empty object fails; otherwise the reader gets the current bytes |
| MultiStream.Session.constructor | LibCarla/source/carla/streaming/detail/MultiStreamState.h:86-110 | a session remembers its port and stream id and has been sent nothing |
| MultiStream.ConcatAppend | LibCarla/source/carla/streaming/detail/MultiStreamState.h:49-56 | flattening a concatenation of buffer lists concatenates the flattenings |
| MultiStream.SizeHeader | LibCarla/source/carla/streaming/detail/MultiStreamState.h:51 | the message header is four little-endian bytes holding the payload size modulo 2^32 |
| MultiStream.MakeMessage | LibCarla/source/carla/streaming/detail/MultiStreamState.h:38 | a message is the size header followed by the payload buffers, and its size counts the payload only |
| MultiStream.Memcpy | LibCarla/source/carla/streaming/detail/MultiStreamState.h:54 | copying a buffer at an offset replaces exactly that range of the region |
| MultiStream.CopiedStep | LibCarla/source/carla/streaming/detail/MultiStreamState.h:49-56 | copying one more buffer extends the copied bytes by that buffer, within the payload's length |
| MultiStream.CopiedAll | LibCarla/source/carla/streaming/detail/MultiStreamState.h:49-56 | once every buffer past the header is copied, the copied buffers are the payload |
| MultiStream.CopyBuffer | LibCarla/source/carla/streaming/detail/MultiStreamState.h:52-55 | one pass of the copy loop: buffer i lands right after the bytes copied so far, and the region's tail is untouched |
| MultiStream.CopyPayload | LibCarla/source/carla/streaming/detail/MultiStreamState.h:49-56 | after the loop the region starts with the payload bytes, without the header, and the rest of it is unchanged |
| MultiStream.RemoveAll | LibCarla/source/carla/streaming/detail/MultiStreamState.h:119-127 | erase-remove leaves no copy of the session and only sessions that were there |
| MultiStream.RemoveAllKeepsOthers | LibCarla/source/carla/streaming/detail/MultiStreamState.h:119-127 | every other session keeps its multiplicity |
| MultiStream.RemoveAllAppend | LibCarla/source/carla/streaming/detail/MultiStreamState.h:119-127 | removal distributes over concatenation |
| MultiStream.RemoveAllAbsent | LibCarla/source/carla/streaming/detail/MultiStreamState.h:119-127 | removing an absent session changes nothing |
| MultiStream.ConnectDisconnectRestores | LibCarla/source/carla/streaming/detail/MultiStreamState.h:86-134 | connecting a new session and then removing it restores the list |
| MultiStream.MultiStreamState.constructor | LibCarla/source/carla/streaming/detail/MultiStreamState.h:31-34 | a new stream has no sessions and no shared memory |
| MultiStream.MultiStreamState.ConnectSession | LibCarla/source/carla/streaming/detail/MultiStreamState.h:86-110 | the session is appended; the first one removes any stale objects of the block's, mutex's and condition's names and creates the block named after its port and stream; every session is told the block's name |
| MultiStream.MultiStreamState.DisconnectSession | LibCarla/source/carla/streaming/detail/MultiStreamState.h:112-134 | with one session left the list and the block are dropped, whichever session is passed; with more, every copy of the session is removed and the block stays |
| MultiStream.MultiStreamState.ClearSessions | LibCarla/source/carla/streaming/detail/MultiStreamState.h:136-143 | no sessions and no shared memory remain |
| MultiStream.MultiStreamState.Write | LibCarla/source/carla/streaming/detail/MultiStreamState.h:36-82 | with shared memory, the block is resized to the payload and then holds exactly the payload bytes, and nothing else about the block changes; the write fails exactly when there is a block and the payload has no bytes |
| ObjectRegistry.Filter | Unreal/CarlaUE4/Plugins/Carla/Source/Carla/Util/ObjectRegister.cpp:62-69 | keeps exactly the elements passing the test, in order |
| ObjectRegistry.FilterKeepsAll | Unreal/CarlaUE4/Plugins/Carla/Source/Carla/Util/ObjectRegister.cpp:60-69 | when every element passes, the filter is the identity |
| ObjectRegistry.ActorObject | Unreal/CarlaUE4/Plugins/Carla/Source/Carla/Util/ObjectRegister.cpp:183-201 | an actor's object carries its name, tick flag, type and label; its id is the hash of its name and global transform |
| ObjectRegistry.MeshObjects | Unreal/CarlaUE4/Plugins/Carla/Source/Carla/Util/ObjectRegister.cpp:335-403 | one object per mesh box |
| ObjectRegistry.MeshObjectsDescribed | Unreal/CarlaUE4/Plugins/Carla/Source/Carla/Util/ObjectRegister.cpp:351-366 | box i gives `<actor>_SM_<i>` (or `_SKM_`) with the box's tag and the mesh type; its id hashes that name |
| ObjectRegistry.MeshNamesDistinct | Unreal/CarlaUE4/Plugins/Carla/Source/Carla/Util/ObjectRegister.cpp:353 | different boxes of an actor get different names |
| ObjectRegistry.LightObjects | Unreal/CarlaUE4/Plugins/Carla/Source/Carla/Util/ObjectRegister.cpp:231-251 | one object per traffic light box |
| ObjectRegistry.LightObjectsDescribed | Unreal/CarlaUE4/Plugins/Carla/Source/Carla/Util/ObjectRegister.cpp:236-250 | box i gives `<actor>_<tag name>_<i>` with the box's tag and the traffic-light type; its id hashes that name |
| ObjectRegistry.IdEntries | Unreal/CarlaUE4/Plugins/Carla/Source/Carla/Util/ObjectRegister.cpp:255-260 | each component of a box is filed under the box's id, in order |
| ObjectRegistry.LightEntriesFromParts | Unreal/CarlaUE4/Plugins/Carla/Source/Carla/Util/ObjectRegister.cpp:231-261 | every filed entry pairs a box's id with one of that box's components |
| ObjectRegistry.InstanceObject | Unreal/CarlaUE4/Plugins/Carla/Source/Carla/Util/ObjectRegister.cpp:292-324 | instance i is named `<actor>_Inst_<count>_<i>`; its id hashes the location-based id string; it takes a box when there is one for it |
| ObjectRegistry.ComponentObjects | Unreal/CarlaUE4/Plugins/Carla/Source/Carla/Util/ObjectRegister.cpp:292-326 | one object per instance of a component |
| ObjectRegistry.ComponentEntries | Unreal/CarlaUE4/Plugins/Carla/Source/Carla/Util/ObjectRegister.cpp:324 | one id entry per instance of a component |
| ObjectRegistry.ISMObjects | Unreal/CarlaUE4/Plugins/Carla/Source/Carla/Util/ObjectRegister.cpp:264-333 | one object per instance over all instanced components |
| ObjectRegistry.ISMEntries | Unreal/CarlaUE4/Plugins/Carla/Source/Carla/Util/ObjectRegister.cpp:264-333 | one id entry per instance over all instanced components |
| ObjectRegistry.ISMObjectsKinds | Unreal/CarlaUE4/Plugins/Carla/Source/Carla/Util/ObjectRegister.cpp:312-320 | every instance object is of the instanced type and belongs to the actor |
| ObjectRegistry.ISMObjectsPrefix | Unreal/CarlaUE4/Plugins/Carla/Source/Carla/Util/ObjectRegister.cpp:264-333 | the objects of the first components are a prefix of all of them |
| ObjectRegistry.ISMInstanceNamed | Unreal/CarlaUE4/Plugins/Carla/Source/Carla/Util/ObjectRegister.cpp:303-325 | instance i of component c sits after all earlier components' instances and takes the running counter at that point |
| ObjectRegistry.InstanceNameInjective | Unreal/CarlaUE4/Plugins/Carla/Source/Carla/Util/ObjectRegister.cpp:303 | within one actor, the counter and the index determine the instance name and vice versa |
| ObjectRegistry.RegisterISMSpec | Unreal/CarlaUE4/Plugins/Carla/Source/Carla/Util/ObjectRegister.cpp:264-333 | a foliage actor advances the foliage instance counter by its instance count; other actors leave it alone |
| ObjectRegistry.RegisterActor | Unreal/CarlaUE4/Plugins/Carla/Source/Carla/Util/ObjectRegister.cpp:84-116 | registration only appends objects and entries |
| ObjectRegistry.RegisterActorDispatch | Unreal/CarlaUE4/Plugins/Carla/Source/Carla/Util/ObjectRegister.cpp:87-116 | the sky is skipped; a vehicle or walker adds one object of its type and label; a traffic light adds one object per box; any other actor adds its instances, then its static meshes, then its skeletal meshes |
| ObjectRegistry.RegisterAll | Unreal/CarlaUE4/Plugins/Carla/Source/Carla/Util/ObjectRegister.cpp:81-117 | registering a list only appends |
| ObjectRegistry.Newest | Unreal/CarlaUE4/Plugins/Carla/Source/Carla/Util/ObjectRegister.cpp:151 | the object found for an actor is one of its objects; none is found only when it has none |
| ObjectRegistry.UnRegisterActor | Unreal/CarlaUE4/Plugins/Carla/Source/Carla/Util/ObjectRegister.cpp:149-157 | all of the actor's objects go; of the entries, exactly those filed under the found object's id go; the foliage counter is kept |
| ObjectRegistry.UnRegisterAll | Unreal/CarlaUE4/Plugins/Carla/Source/Carla/Util/ObjectRegister.cpp:147-158 | exactly the objects of the listed actors are removed; entries only shrink, and an entry whose id no object of the listed actors carries is kept; the foliage counter is kept |
| ObjectRegistry.ActorActions | Unreal/CarlaUE4/Plugins/Carla/Source/Carla/Util/ObjectRegister.cpp:430-452 | the actor's collision and visibility follow the flag; its tick is touched iff the object could tick |
| ObjectRegistry.MultiFind | Unreal/CarlaUE4/Plugins/Carla/Source/Carla/Util/ObjectRegister.cpp:461 | the components found are exactly those filed under the id |
| ObjectRegistry.LightActions | Unreal/CarlaUE4/Plugins/Carla/Source/Carla/Util/ObjectRegister.cpp:463-469 | each component found is hidden or shown, then gets its collision switched |
| ObjectRegistry.EnableActions | Unreal/CarlaUE4/Plugins/Carla/Source/Carla/Util/ObjectRegister.cpp:405-428 | the object type selects the actor, traffic-light or instance routine |
| ObjectRegistry.FirstWithId | Unreal/CarlaUE4/Plugins/Carla/Source/Carla/Util/ObjectRegister.cpp:165-174 | the first object carrying the id, or none exactly when no object carries it |
| ObjectRegistry.FirstWithIdAt | Unreal/CarlaUE4/Plugins/Carla/Source/Carla/Util/ObjectRegister.cpp:165-176 | the search finds the first index that carries the id |
| ObjectRegistry.EnableUnknownId | Unreal/CarlaUE4/Plugins/Carla/Source/Carla/Util/ObjectRegister.cpp:160-181 | an id no object carries is reported and does nothing else |
| ObjectRegistry.ISMIndexRoundTrip | Unreal/CarlaUE4/Plugins/Carla/Source/Carla/Util/ObjectRegister.cpp:473-494 | the index parsed back from `<actor>_Inst_<count>_<i>` is i, whatever the actor's name; the instance is moved to the object's transform, or to the hidden one when disabling |
| ObjectRegistry.ObjectRegister.constructor | Unreal/CarlaUE4/Plugins/Carla/Source/Carla/Util/ObjectRegister.cpp:55-72 | an empty register |
| ObjectRegistry.ObjectRegister.GetEnvironmentObjects | Unreal/CarlaUE4/Plugins/Carla/Source/Carla/Util/ObjectRegister.cpp:55-72 | `Any` returns every object; any other tag returns exactly the objects with that label |
| ObjectRegistry.ObjectRegister.RegisterEnvironmentObject | Unreal/CarlaUE4/Plugins/Carla/Source/Carla/Util/ObjectRegister.cpp:183-201 | appends the actor's object |
| ObjectRegistry.ObjectRegister.RegisterVehicle | Unreal/CarlaUE4/Plugins/Carla/Source/Carla/Util/ObjectRegister.cpp:203-208 | appends a vehicle object labelled as a vehicle |
| ObjectRegistry.ObjectRegister.RegisterCharacter | Unreal/CarlaUE4/Plugins/Carla/Source/Carla/Util/ObjectRegister.cpp:210-215 | appends a walker object labelled as a pedestrian |
| ObjectRegistry.ObjectRegister.RegisterTrafficLight | Unreal/CarlaUE4/Plugins/Carla/Source/Carla/Util/ObjectRegister.cpp:217-262 | appends one object per box and files each box's components under its id |
| ObjectRegistry.ObjectRegister.RegisterComponentInstances | Unreal/CarlaUE4/Plugins/Carla/Source/Carla/Util/ObjectRegister.cpp:292-326 | appends one object and one entry per instance, and advances the counter by the instance count |
| ObjectRegistry.ObjectRegister.RegisterAllInstances | Unreal/CarlaUE4/Plugins/Carla/Source/Carla/Util/ObjectRegister.cpp:276-327 | the component loop appends every instance in component order |
| ObjectRegistry.ObjectRegister.RegisterISMComponents | Unreal/CarlaUE4/Plugins/Carla/Source/Carla/Util/ObjectRegister.cpp:264-333 | a foliage actor's counter continues from the stored count, and the count is stored back |
| ObjectRegistry.ObjectRegister.RegisterMeshComponents | Unreal/CarlaUE4/Plugins/Carla/Source/Carla/Util/ObjectRegister.cpp:351-366 | appends one object per mesh box |
| ObjectRegistry.ObjectRegister.RegisterSMComponents | Unreal/CarlaUE4/Plugins/Carla/Source/Carla/Util/ObjectRegister.cpp:335-367 | appends the static mesh objects |
| ObjectRegistry.ObjectRegister.RegisterSKMComponents | Unreal/CarlaUE4/Plugins/Carla/Source/Carla/Util/ObjectRegister.cpp:369-403 | appends the skeletal mesh objects |
| ObjectRegistry.ObjectRegister.RegisterObjects | Unreal/CarlaUE4/Plugins/Carla/Source/Carla/Util/ObjectRegister.cpp:81-117 | registers each actor in turn by its kind |
| ObjectRegistry.ObjectRegister.RegisterInitialObjects | Unreal/CarlaUE4/Plugins/Carla/Source/Carla/Util/ObjectRegister.cpp:74-79 | empties the objects, not the id entries, then registers |
| ObjectRegistry.ObjectRegister.UnRegisterObjects | Unreal/CarlaUE4/Plugins/Carla/Source/Carla/Util/ObjectRegister.cpp:147-158 | unregisters each actor in turn |
| ObjectRegistry.ObjectRegister.EnableActor | Unreal/CarlaUE4/Plugins/Carla/Source/Carla/Util/ObjectRegister.cpp:430-452 | logs the actor calls for the flag, in the source's order |
| ObjectRegistry.ObjectRegister.EnableTrafficLight | Unreal/CarlaUE4/Plugins/Carla/Source/Carla/Util/ObjectRegister.cpp:454-471 | logs the calls for every component filed under the id |
| ObjectRegistry.ObjectRegister.EnableISMComp | Unreal/CarlaUE4/Plugins/Carla/Source/Carla/Util/ObjectRegister.cpp:473-494 | logs one instance update, or an out-of-range failure when no component is filed under the id |
| ObjectRegistry.ObjectRegister.EnableEnvironmentObject | Unreal/CarlaUE4/Plugins/Carla/Source/Carla/Util/ObjectRegister.cpp:405-428 | dispatches on the object type |
| ObjectRegistry.ObjectRegister.EnableId | Unreal/CarlaUE4/Plugins/Carla/Source/Carla/Util/ObjectRegister.cpp:165-179 | the search stops at the first object with the id and enables it; with no match the id is reported |
| ObjectRegistry.ObjectRegister.EnableEnvironmentObjects | Unreal/CarlaUE4/Plugins/Carla/Source/Carla/Util/ObjectRegister.cpp:160-181 | handles every id in turn |

## Left out

- Tensor arithmetic: the convolution, linear, batch-norm, dropout and ReLU layers compute nothing here. Only their shapes are checked, and the trained towers and branches are opaque functions. Training, data loading, weight loading and CUDA streams are not modelled.
- Image preprocessing: the crop, resize and scaling in `run_step`/`compute_action` happen before the image reaches `ComputeAction`, which receives the prepared image as a parameter.
- Debug prints and `UE_LOG`/`log_debug` output are not modelled.
- Floating point: every real-valued quantity is a mathematical real, so rounding in the PID, the controller and the agent is not modelled.
- Ackermann.PID.Run: `SetPoint` is a field the source never initialises. The model refuses to run before a set point is assigned, using a ghost flag, instead of reading an indeterminate value.
- Ackermann.AckermannController.SetTargetSteer: requires a possessed vehicle. Without one, the source's `GetMaximumSteerAngle` (AckermannController.cpp:136) dereferences a null vehicle, and the model does not capture that crash.
- Ackermann.AckermannController.ApplyVehicleControl: requires a possessed vehicle. Without one, the source's `GetMaximumSteerAngle` (AckermannController.cpp:136) dereferences a null vehicle, and the model does not capture that crash.
- Ackermann.AckermannController.RunSteerControlLoop: requires a possessed vehicle. Without one, the source's `GetMaximumSteerAngle` (AckermannController.cpp:136) dereferences a null vehicle, and the model does not capture that crash.
- Ackermann.AckermannController.GetMaximumSteerAngle: requires a possessed vehicle. Without one, the source's `GetMaximumSteerAngle` (AckermannController.cpp:136) dereferences a null vehicle, and the model does not capture that crash.
- Ackermann.AckermannController.OnPossess: the source's `check(Vehicle != nullptr)` becomes a precondition that the pawn is a vehicle.
- Ackermann.AckermannController.RunSpeedControlLoop: the source body is empty, so the model's body is empty too and there is nothing to state.
- Vehicle physics is not modelled: how the vehicle reacts to the applied control and its current forward speed enter only as parameters. `GetCurrentAcceleration` is not part of this model.
- ObjectRegistry.ObjectRegister.EnableISMComp: the source indexes out of range when the object's name is empty (ObjectRegister.cpp:482) or no component is filed under its id (ObjectRegister.cpp:490), and fails there. The model instead records `IndexOutOfRange` and `EnableEnvironmentObjects` goes on with the remaining ids.
- SharedMemory.SharedMemoryBlock.Open: when no object has the name, `open_only` throws at SharedMemoryBlock.cpp:81. The model returns `ok` false with nothing changed instead of raising. The same holds for SharedMemory.SharedMemoryBlock.OpenForStream.
- SharedMemory.SharedMemoryBlock.OpenForStream: inherits the failure of `Open` above, reported as `ok` false instead of an exception.
- SharedMemory.SharedMemoryBlock.Resize: `truncate` throws on an object opened for reading only, and the source's `resize` never returns false (SharedMemoryBlock.cpp:106). The model returns `ok` false with the memory unchanged instead of raising.
- SharedMemory.SharedMemoryBlock.WaitForWriting and SharedMemory.SharedMemoryBlock.WaitForReading: the failures they report are exceptions in the source. A zero-size object cannot be mapped, which is Boost's behaviour and is not spelled out in the source.
- Locking and waiting: Boost interprocess locking, the condition variable and the waiting itself are not modelled. Only the outcome each call hands to its callback is kept.
- SharedMemoryBlock.h:34,39 declare the stream overloads of `create` and `open` with the stream id first; the definitions in SharedMemoryBlock.cpp:73,94, which callers use, take the port first, and the model follows them.
- The `SharedMemoryBlock` destructor's removal of objects, and `shared_ptr` lifetimes in general, are not modelled.
- The message layout of `tcp/Message.h` is not part of this model. The header is taken to be the payload size as four little-endian bytes, in front of the payload buffers.
- MultiStream.MultiStreamState.Write: the paths that send through a TCP session follow an unconditional `return` at MultiStreamState.h:63, so they are unreachable and left out. The copy loop starts at buffer 1, which is the same as the source's skipping of buffer 0 inside the loop.
- Engine helpers: CityHash64 of the printed name and location, the large-map transforms and `ATagger::GetTagAsString` are opaque functions of the engine record. What `UBoundingBoxCalculator` and `ATagger::GetTagOfTaggedComponent` compute for an actor enters as the boxes and tags in its `Actor` value.
- The object labels `Any`, `Vehicles` and `Pedestrians` are fixed constants (255, 10 and 4). The header that defines them is not part of this model.
- Map iteration order: a `TMultiMap` keyed by actor is a sequence in insertion order, and `Find` returns the newest entry. Slot reuse after removal is not modelled. The set of ids given to `EnableEnvironmentObjects` is a sequence.
- Decimal.Atoi: 32-bit overflow of `FCString::Atoi` is not modelled, because instance indices and counters are small naturals.
- The editor-only debug dump in `RegisterObjects` (ObjectRegister.cpp:119-143) writes a file and is not modelled.
