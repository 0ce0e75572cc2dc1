/** The register of a level's environment objects: every vehicle, walker,
    traffic-light part and static or instanced mesh the level holds, with the
    id clients use to ask for objects by semantic label and to switch them
    off and on again.

    Both multimaps of the register are kept as sequences in insertion order.
    The key of an environment object is always the actor stored in the
    object itself, so the first multimap is the sequence of objects. The
    engine's services (hashing, large-map coordinates, tag names) are the
    `Engine` value, and an actor is described by what the engine reports of
    it: its kind, its components and the bounding boxes computed for them. */
module ObjectRegistry {
  import opened Wrappers
  import opened Decimal

  type Id = x: int | 0 <= x < 0x1_0000_0000_0000_0000
  type Tag = x: int | 0 <= x < 256
  type ActorRef = nat
  type ComponentRef = nat

  /** The semantic labels the register names itself. */
  const Any: Tag := 255
  const Vehicles: Tag := 10
  const Pedestrians: Tag := 4

  const SkyClassName := "BP_Sky_C"

  datatype Vec3 = Vec3(x: real, y: real, z: real)
  const Origin := Vec3(0.0, 0.0, 0.0)

  datatype Transform = Transform(rotation: Vec3, translation: Vec3, scale: Vec3)
  datatype BoundingBox = BoundingBox(origin: Vec3, extent: Vec3, rotation: Vec3)
  const DefaultBox := BoundingBox(Origin, Origin, Origin)

  datatype EnvironmentObjectType = Vehicle | Character | TrafficLight | ISMComp | SMComp | SKMComp

  datatype EnvironmentObject = EnvironmentObject(
    transform: Transform,
    id: Id,
    name: string,
    idStr: string,
    actor: ActorRef,
    canTick: bool,
    boundingBox: BoundingBox,
    objectLabel: Tag,
    objectType: EnvironmentObjectType)

  datatype ActorKind = VehicleActor | CharacterActor | TrafficLightActor | FoliageActor | PlainActor

  /** One instance of an instanced mesh: its location relative to the
      component and its world transform. */
  datatype Instance = Instance(location: Vec3, world: Transform)

  datatype ISMComponent = ISMComponent(
    ref: ComponentRef, name: string, tag: Tag, instances: seq<Instance>, boxes: seq<BoundingBox>)

  datatype TaggedBox = TaggedBox(box: BoundingBox, tag: Tag)

  /** One box of a traffic light, its tag, and the mesh components inside it. */
  datatype LightPart = LightPart(box: BoundingBox, tag: Tag, components: seq<ComponentRef>)

  datatype Actor = Actor(
    ref: ActorRef,
    name: string,
    className: string,
    kind: ActorKind,
    tickEnabled: bool,
    transform: Transform,
    ownBox: BoundingBox,
    lightParts: seq<LightPart>,
    ismComponents: seq<ISMComponent>,
    smBoxes: seq<TaggedBox>,
    skmBoxes: seq<TaggedBox>)

  /** The engine services the register calls: the id hash of a name and a
      transform, the large-map conversions and the name of a tag. */
  datatype Engine = Engine(
    hash: (string, Transform) -> Id,
    globalTransform: Transform -> Transform,
    globalPosition: Vec3 -> Vec3,
    tagAsString: Tag -> string)

  function GlobalBox(engine: Engine, box: BoundingBox): BoundingBox
  {
    box.(origin := engine.globalPosition(box.origin))
  }

  /** The whole state of the register. */
  datatype Registry = Registry(
    objects: seq<EnvironmentObject>, idToComponent: seq<(Id, ComponentRef)>, foliageInstanceCount: int)

  // ---------------------------------------------------------------------------
  // Filtering, order kept.

  function Filter<T(!new)>(s: seq<T>, keep: T -> bool): (r: seq<T>)
    ensures |r| <= |s|
    ensures forall x :: x in r <==> x in s && keep(x)
  {
    if s == [] then []
    else Filter(s[..|s| - 1], keep) + (if keep(s[|s| - 1]) then [s[|s| - 1]] else [])
  }

  lemma {:induction false} FilterKeepsAll<T(!new)>(s: seq<T>, keep: T -> bool)
    requires forall x :: x in s ==> keep(x)
    ensures Filter(s, keep) == s
  {
    if s != [] {
      FilterKeepsAll(s[..|s| - 1], keep);
      assert s[..|s| - 1] + [s[|s| - 1]] == s;
    }
  }

  function HasLabel(tag: Tag): EnvironmentObject -> bool
  {
    (o: EnvironmentObject) => tag == Any || o.objectLabel == tag
  }

  function NotOfActor(actor: ActorRef): EnvironmentObject -> bool
  {
    (o: EnvironmentObject) => o.actor != actor
  }

  function NotForId(id: Id): ((Id, ComponentRef)) -> bool
  {
    (e: (Id, ComponentRef)) => e.0 != id
  }

  // ---------------------------------------------------------------------------
  // What registration adds.

  /** The object registered for a whole vehicle or walker. */
  function ActorObject(engine: Engine, actor: Actor, objectType: EnvironmentObjectType, tag: Tag): (o: EnvironmentObject)
    ensures o.name == actor.name && o.actor == actor.ref && o.canTick == actor.tickEnabled
    ensures o.objectType == objectType && o.objectLabel == tag
    ensures o.id == engine.hash(actor.name, o.transform) && o.transform == engine.globalTransform(actor.transform)
  {
    var t := engine.globalTransform(actor.transform);
    EnvironmentObject(t, engine.hash(actor.name, t), actor.name, "", actor.ref, actor.tickEnabled,
      GlobalBox(engine, actor.ownBox), tag, objectType)
  }

  /** "<actor>_SM_<i>" and "<actor>_SKM_<i>". */
  function MeshName(actorName: string, infix: string, i: int): string
  {
    actorName + infix + IntToString(i)
  }

  /** One object per static or skeletal mesh box, in order. */
  function MeshObjects(engine: Engine, actor: Actor, boxes: seq<TaggedBox>, infix: string, objectType: EnvironmentObjectType)
    : (r: seq<EnvironmentObject>)
    ensures |r| == |boxes|
  {
    var t := engine.globalTransform(actor.transform);
    seq(|boxes|, i requires 0 <= i < |boxes| =>
      EnvironmentObject(t, engine.hash(MeshName(actor.name, infix, i), t), MeshName(actor.name, infix, i), "",
        actor.ref, actor.tickEnabled, GlobalBox(engine, boxes[i].box), boxes[i].tag, objectType))
  }

  /** Box i gives "<actor><infix><i>", with the box's tag, the routine's
      type, the actor, and the hash of its name as id. */
  lemma MeshObjectsDescribed(engine: Engine, actor: Actor, boxes: seq<TaggedBox>, infix: string, objectType: EnvironmentObjectType)
    ensures var r := MeshObjects(engine, actor, boxes, infix, objectType);
      forall i :: 0 <= i < |r| ==>
        r[i].name == MeshName(actor.name, infix, i) && r[i].objectLabel == boxes[i].tag &&
        r[i].objectType == objectType && r[i].actor == actor.ref &&
        r[i].id == engine.hash(r[i].name, r[i].transform)
  {
  }

  /** Within one actor and one infix, different box indices give different names. */
  lemma {:induction false} MeshNamesDistinct(actorName: string, infix: string, i: nat, j: nat)
    requires MeshName(actorName, infix, i) == MeshName(actorName, infix, j)
    ensures i == j
  {
    var p := |actorName + infix|;
    assert MeshName(actorName, infix, i)[p..] == NatToString(i);
    assert MeshName(actorName, infix, j)[p..] == NatToString(j);
    NatToStringInjective(i, j);
  }

  /** "<actor>_<tag name>_<i>" for the i-th box of a traffic light. */
  function LightName(engine: Engine, actorName: string, tag: Tag, i: int): string
  {
    actorName + "_" + engine.tagAsString(tag) + "_" + IntToString(i)
  }

  function LightObjects(engine: Engine, actor: Actor): (r: seq<EnvironmentObject>)
    ensures |r| == |actor.lightParts|
  {
    var t := engine.globalTransform(actor.transform);
    var parts := actor.lightParts;
    seq(|parts|, i requires 0 <= i < |parts| =>
      var name := LightName(engine, actor.name, parts[i].tag, i);
      EnvironmentObject(t, engine.hash(name, t), name, "", actor.ref, actor.tickEnabled,
        GlobalBox(engine, parts[i].box), parts[i].tag, TrafficLight))
  }

  lemma LightObjectsDescribed(engine: Engine, actor: Actor)
    ensures var r := LightObjects(engine, actor);
      forall i :: 0 <= i < |r| ==>
        r[i].name == LightName(engine, actor.name, actor.lightParts[i].tag, i) &&
        r[i].objectLabel == actor.lightParts[i].tag && r[i].objectType == TrafficLight && r[i].actor == actor.ref &&
        r[i].id == engine.hash(r[i].name, r[i].transform)
  {
  }

  function IdEntries(id: Id, components: seq<ComponentRef>): (r: seq<(Id, ComponentRef)>)
    ensures |r| == |components|
    ensures forall k :: 0 <= k < |r| ==> r[k] == (id, components[k])
  {
    seq(|components|, k requires 0 <= k < |components| => (id, components[k]))
  }

  /** The component entries of the first `n` traffic-light boxes: each box's
      components under that box's id. */
  function LightEntries(engine: Engine, actor: Actor, n: nat): seq<(Id, ComponentRef)>
    requires n <= |actor.lightParts|
  {
    if n == 0 then []
    else
      LightEntries(engine, actor, n - 1) +
      IdEntries(LightObjects(engine, actor)[n - 1].id, actor.lightParts[n - 1].components)
  }

  /** Every component entry of a traffic light is one of its boxes' components,
      filed under that box's id. */
  lemma {:induction false} LightEntriesFromParts(engine: Engine, actor: Actor, n: nat)
    requires n <= |actor.lightParts|
    ensures forall e :: e in LightEntries(engine, actor, n) ==>
      exists i :: 0 <= i < n && e.0 == LightObjects(engine, actor)[i].id && e.1 in actor.lightParts[i].components
  {
    if n > 0 {
      LightEntriesFromParts(engine, actor, n - 1);
      var id := LightObjects(engine, actor)[n - 1].id;
      var comps := actor.lightParts[n - 1].components;
      forall e | e in IdEntries(id, comps)
        ensures e.0 == id && e.1 in comps
      {
        var k :| 0 <= k < |comps| && IdEntries(id, comps)[k] == e;
      }
    }
  }

  /** One more element of `s` appended after `before`, in the shape the loops below build. */
  lemma AppendStep<T>(before: seq<T>, s: seq<T>, i: nat)
    requires i < |s|
    ensures before + s[..i] + [s[i]] == before + s[..i + 1]
  {
    assert s[..i + 1] == s[..i] + [s[i]];
  }

  lemma IdEntriesStep(before: seq<(Id, ComponentRef)>, id: Id, components: seq<ComponentRef>, k: nat)
    requires k < |components|
    ensures before + IdEntries(id, components[..k]) + [(id, components[k])] == before + IdEntries(id, components[..k + 1])
  {
    assert IdEntries(id, components[..k + 1]) == IdEntries(id, components[..k]) + [(id, components[k])];
  }

  lemma LightEntriesStep(before: seq<(Id, ComponentRef)>, engine: Engine, actor: Actor, i: nat)
    requires i < |actor.lightParts|
    ensures before + LightEntries(engine, actor, i) + IdEntries(LightObjects(engine, actor)[i].id, actor.lightParts[i].components) ==
      before + LightEntries(engine, actor, i + 1)
  {
  }

  // Instanced meshes.

  /** "<actor>_Inst_<count>_<i>": the running instance count, then the index
      of the instance within its component. */
  function InstanceName(actorName: string, count: int, i: int): string
  {
    actorName + "_Inst_" + IntToString(count) + "_" + IntToString(i)
  }

  /** "<actor>_<component>_<X>_<Y>_<Z>_<count>", the location cut to integers. */
  function InstanceIdStr(actorName: string, componentName: string, location: Vec3, count: int): string
  {
    actorName + "_" + componentName + "_" + IntToString(Truncate(location.x)) + "_" +
    IntToString(Truncate(location.y)) + "_" + IntToString(Truncate(location.z)) + "_" + IntToString(count)
  }

  function InstanceObject(engine: Engine, actor: Actor, comp: ISMComponent, count: int, i: nat): (o: EnvironmentObject)
    requires i < |comp.instances|
    ensures o.name == InstanceName(actor.name, count, i) && o.objectType == ISMComp
    ensures o.actor == actor.ref && o.objectLabel == comp.tag
    ensures o.idStr == InstanceIdStr(actor.name, comp.name, comp.instances[i].location, count)
    ensures o.id == engine.hash(o.idStr, o.transform)
    ensures o.boundingBox == if i < |comp.boxes| then GlobalBox(engine, comp.boxes[i]) else DefaultBox
  {
    var t := engine.globalTransform(comp.instances[i].world);
    var idStr := InstanceIdStr(actor.name, comp.name, comp.instances[i].location, count);
    EnvironmentObject(t, engine.hash(idStr, t), InstanceName(actor.name, count, i), idStr, actor.ref,
      actor.tickEnabled, if i < |comp.boxes| then GlobalBox(engine, comp.boxes[i]) else DefaultBox,
      comp.tag, ISMComp)
  }

  /** The objects of one component's instances, counted from `base`. */
  function ComponentObjects(engine: Engine, actor: Actor, comp: ISMComponent, base: int): (r: seq<EnvironmentObject>)
    ensures |r| == |comp.instances|
  {
    seq(|comp.instances|, i requires 0 <= i < |comp.instances| => InstanceObject(engine, actor, comp, base + i, i))
  }

  function ComponentEntries(engine: Engine, actor: Actor, comp: ISMComponent, base: int): (r: seq<(Id, ComponentRef)>)
    ensures |r| == |comp.instances|
  {
    var objects := ComponentObjects(engine, actor, comp, base);
    seq(|objects|, i requires 0 <= i < |objects| => (objects[i].id, comp.ref))
  }

  /** One more instance appended after `objects` and `entries`, in the shape
      the registering loop builds. */
  lemma ComponentStep(objects: seq<EnvironmentObject>, entries: seq<(Id, ComponentRef)>,
                      engine: Engine, actor: Actor, comp: ISMComponent, base: int, i: nat)
    requires i < |comp.instances|
    ensures var o := InstanceObject(engine, actor, comp, base + i, i);
      objects + ComponentObjects(engine, actor, comp, base)[..i] + [o] ==
        objects + ComponentObjects(engine, actor, comp, base)[..i + 1] &&
      entries + ComponentEntries(engine, actor, comp, base)[..i] + [(o.id, comp.ref)] ==
        entries + ComponentEntries(engine, actor, comp, base)[..i + 1]
  {
    var o := InstanceObject(engine, actor, comp, base + i, i);
    var all := ComponentObjects(engine, actor, comp, base);
    assert all[i] == o;
    AppendStep(objects, all, i);
    AppendStep(entries, ComponentEntries(engine, actor, comp, base), i);
  }

  lemma ComponentWhole(engine: Engine, actor: Actor, comp: ISMComponent, base: int)
    ensures ComponentObjects(engine, actor, comp, base)[..|comp.instances|] == ComponentObjects(engine, actor, comp, base)
    ensures ComponentEntries(engine, actor, comp, base)[..|comp.instances|] == ComponentEntries(engine, actor, comp, base)
  {
  }

  function TotalInstances(comps: seq<ISMComponent>): nat
  {
    if comps == [] then 0 else TotalInstances(comps[..|comps| - 1]) + |comps[|comps| - 1].instances|
  }

  /** The objects of all instances of all components, the count running on
      from `start` across components. */
  function ISMObjects(engine: Engine, actor: Actor, comps: seq<ISMComponent>, start: int): (r: seq<EnvironmentObject>)
    ensures |r| == TotalInstances(comps)
  {
    if comps == [] then []
    else
      var n := |comps| - 1;
      ISMObjects(engine, actor, comps[..n], start) +
      ComponentObjects(engine, actor, comps[n], start + TotalInstances(comps[..n]))
  }

  function ISMEntries(engine: Engine, actor: Actor, comps: seq<ISMComponent>, start: int): (r: seq<(Id, ComponentRef)>)
    ensures |r| == TotalInstances(comps)
  {
    if comps == [] then []
    else
      var n := |comps| - 1;
      ISMEntries(engine, actor, comps[..n], start) +
      ComponentEntries(engine, actor, comps[n], start + TotalInstances(comps[..n]))
  }

  /** Every object of an actor's instanced meshes is of that actor and of the instanced type. */
  lemma {:induction false} ISMObjectsKinds(engine: Engine, actor: Actor, comps: seq<ISMComponent>, start: int)
    ensures forall k :: 0 <= k < TotalInstances(comps) ==>
      ISMObjects(engine, actor, comps, start)[k].objectType == ISMComp &&
      ISMObjects(engine, actor, comps, start)[k].actor == actor.ref
  {
    if comps != [] {
      var n := |comps| - 1;
      ISMObjectsKinds(engine, actor, comps[..n], start);
      var base := start + TotalInstances(comps[..n]);
      var here := ComponentObjects(engine, actor, comps[n], base);
      forall i | 0 <= i < |here|
        ensures here[i].objectType == ISMComp && here[i].actor == actor.ref
      {
        assert here[i] == InstanceObject(engine, actor, comps[n], base + i, i);
      }
      KindsOfPair(ISMObjects(engine, actor, comps[..n], start), here, actor.ref);
    }
  }

  lemma KindsOfPair(pre: seq<EnvironmentObject>, here: seq<EnvironmentObject>, a: ActorRef)
    requires forall k :: 0 <= k < |pre| ==> pre[k].objectType == ISMComp && pre[k].actor == a
    requires forall k :: 0 <= k < |here| ==> here[k].objectType == ISMComp && here[k].actor == a
    ensures forall k :: 0 <= k < |pre + here| ==> (pre + here)[k].objectType == ISMComp && (pre + here)[k].actor == a
  {
  }

  /** Registering one more component appends its instances' objects and entries. */
  lemma ISMStep(engine: Engine, actor: Actor, comps: seq<ISMComponent>, start: int, c: nat)
    requires c < |comps|
    ensures TotalInstances(comps[..c + 1]) == TotalInstances(comps[..c]) + |comps[c].instances|
    ensures ISMObjects(engine, actor, comps[..c + 1], start) ==
      ISMObjects(engine, actor, comps[..c], start) +
      ComponentObjects(engine, actor, comps[c], start + TotalInstances(comps[..c]))
    ensures ISMEntries(engine, actor, comps[..c + 1], start) ==
      ISMEntries(engine, actor, comps[..c], start) +
      ComponentEntries(engine, actor, comps[c], start + TotalInstances(comps[..c]))
  {
    assert comps[..c + 1][..c] == comps[..c];
  }

  lemma {:induction false} ISMObjectsPrefix(engine: Engine, actor: Actor, comps: seq<ISMComponent>, start: int, c: nat)
    requires c <= |comps|
    ensures ISMObjects(engine, actor, comps[..c], start) <= ISMObjects(engine, actor, comps, start)
    decreases |comps|
  {
    if c == |comps| {
      assert comps[..c] == comps;
    } else {
      var n := |comps| - 1;
      ISMObjectsPrefix(engine, actor, comps[..n], start, c);
      assert comps[..n][..c] == comps[..c];
    }
  }

  lemma ComponentObjectNamed(engine: Engine, actor: Actor, comp: ISMComponent, base: int, i: nat)
    requires i < |comp.instances|
    ensures ComponentObjects(engine, actor, comp, base)[i].name == InstanceName(actor.name, base + i, i)
  {
    assert ComponentObjects(engine, actor, comp, base)[i] == InstanceObject(engine, actor, comp, base + i, i);
  }

  lemma PrefixIndex<T>(pre: seq<T>, here: seq<T>, whole: seq<T>, i: nat)
    requires pre + here <= whole && i < |here|
    ensures |pre| + i < |whole| && whole[|pre| + i] == here[i]
  {
    assert (pre + here)[|pre| + i] == here[i];
  }

  /** The instance count runs on by one per instance across all components:
      instance i of component c is named with the count reached before it. */
  lemma {:induction false} ISMInstanceNamed(engine: Engine, actor: Actor, comps: seq<ISMComponent>, start: int, c: nat, i: nat)
    requires c < |comps| && i < |comps[c].instances|
    ensures var objects := ISMObjects(engine, actor, comps, start);
      TotalInstances(comps[..c]) + i < |objects| &&
      objects[TotalInstances(comps[..c]) + i].name == InstanceName(actor.name, start + TotalInstances(comps[..c]) + i, i)
  {
    var pre := ISMObjects(engine, actor, comps[..c], start);
    var base := start + TotalInstances(comps[..c]);
    var here := ComponentObjects(engine, actor, comps[c], base);
    var whole := ISMObjects(engine, actor, comps, start);
    ISMStep(engine, actor, comps, start, c);
    ISMObjectsPrefix(engine, actor, comps, start, c + 1);
    assert pre + here <= whole;
    PrefixIndex(pre, here, whole, i);
    ComponentObjectNamed(engine, actor, comps[c], base, i);
    assert |pre| == TotalInstances(comps[..c]);
    assert whole[|pre| + i].name == InstanceName(actor.name, base + i, i);
  }

  /** Different counts or indices never give the same instance name. */
  lemma {:induction false} InstanceNameInjective(actorName: string, c1: nat, i1: nat, c2: nat, i2: nat)
    requires InstanceName(actorName, c1, i1) == InstanceName(actorName, c2, i2)
    ensures c1 == c2 && i1 == i2
  {
    var p := |actorName + "_Inst_"|;
    var a1, b1 := NatToString(c1), NatToString(i1);
    var a2, b2 := NatToString(c2), NatToString(i2);
    assert InstanceName(actorName, c1, i1)[p..] == a1 + ['_'] + b1;
    assert InstanceName(actorName, c2, i2)[p..] == a2 + ['_'] + b2;
    DigitsHaveNoSeparator(a1, '_');
    DigitsHaveNoSeparator(b1, '_');
    DigitsHaveNoSeparator(a2, '_');
    DigitsHaveNoSeparator(b2, '_');
    FieldsOfJoin(a1, '_', b1);
    FieldsOfJoin(a2, '_', b2);
    FieldsWithoutSeparator(a1, '_');
    FieldsWithoutSeparator(b1, '_');
    FieldsWithoutSeparator(a2, '_');
    FieldsWithoutSeparator(b2, '_');
    assert Fields(a1 + ['_'] + b1, '_') == [a1, b1];
    assert Fields(a2 + ['_'] + b2, '_') == [a2, b2];
    NatToStringInjective(c1, c2);
    NatToStringInjective(i1, i2);
  }

  // ---------------------------------------------------------------------------
  // Registration as changes of the registry.

  function RegisterVehicleSpec(engine: Engine, st: Registry, actor: Actor): Registry
  {
    st.(objects := st.objects + [ActorObject(engine, actor, Vehicle, Vehicles)])
  }

  function RegisterCharacterSpec(engine: Engine, st: Registry, actor: Actor): Registry
  {
    st.(objects := st.objects + [ActorObject(engine, actor, Character, Pedestrians)])
  }

  function RegisterTrafficLightSpec(engine: Engine, st: Registry, actor: Actor): Registry
  {
    Registry(st.objects + LightObjects(engine, actor),
      st.idToComponent + LightEntries(engine, actor, |actor.lightParts|), st.foliageInstanceCount)
  }

  /** The count an actor's instances start from: a foliage actor carries on
      from the last foliage actor, any other actor starts at 0. */
  function StartCount(st: Registry, actor: Actor): int
  {
    if actor.kind == FoliageActor then st.foliageInstanceCount else 0
  }

  function RegisterISMSpec(engine: Engine, st: Registry, actor: Actor): (r: Registry)
    ensures r.foliageInstanceCount ==
      if actor.kind == FoliageActor then st.foliageInstanceCount + TotalInstances(actor.ismComponents)
      else st.foliageInstanceCount
  {
    var start := StartCount(st, actor);
    var comps := actor.ismComponents;
    Registry(st.objects + ISMObjects(engine, actor, comps, start),
      st.idToComponent + ISMEntries(engine, actor, comps, start),
      if actor.kind == FoliageActor then start + TotalInstances(comps) else st.foliageInstanceCount)
  }

  function RegisterSMSpec(engine: Engine, st: Registry, actor: Actor): Registry
  {
    st.(objects := st.objects + MeshObjects(engine, actor, actor.smBoxes, "_SM_", SMComp))
  }

  function RegisterSKMSpec(engine: Engine, st: Registry, actor: Actor): Registry
  {
    st.(objects := st.objects + MeshObjects(engine, actor, actor.skmBoxes, "_SKM_", SKMComp))
  }

  /** One actor of `RegisterObjects`: the sky is skipped; a vehicle, walker or
      traffic light is registered by its own routine only; any other actor
      goes through the instanced, static and skeletal mesh routines in turn. */
  function RegisterActor(engine: Engine, st: Registry, actor: Actor): (r: Registry)
    ensures st.objects <= r.objects && st.idToComponent <= r.idToComponent
  {
    if actor.className == SkyClassName then st
    else
      match actor.kind
      case VehicleActor => RegisterVehicleSpec(engine, st, actor)
      case CharacterActor => RegisterCharacterSpec(engine, st, actor)
      case TrafficLightActor => RegisterTrafficLightSpec(engine, st, actor)
      case _ => RegisterSKMSpec(engine, RegisterSMSpec(engine, RegisterISMSpec(engine, st, actor), actor), actor)
  }

  /** What registering one actor adds, by kind: nothing for the sky; one
      labelled object for a vehicle or walker; one object per box for a
      traffic light; for any other actor its instances, then its static mesh
      boxes, then its skeletal mesh boxes. */
  lemma RegisterActorDispatch(engine: Engine, st: Registry, actor: Actor)
    ensures var r := RegisterActor(engine, st, actor);
      actor.className == SkyClassName ==> r == st
    ensures var r := RegisterActor(engine, st, actor);
      actor.className != SkyClassName && actor.kind in {VehicleActor, CharacterActor} ==>
        |r.objects| == |st.objects| + 1 && r.idToComponent == st.idToComponent &&
        r.foliageInstanceCount == st.foliageInstanceCount &&
        r.objects[|st.objects|].objectType == (if actor.kind == VehicleActor then Vehicle else Character) &&
        r.objects[|st.objects|].objectLabel == (if actor.kind == VehicleActor then Vehicles else Pedestrians)
    ensures var r := RegisterActor(engine, st, actor);
      actor.className != SkyClassName && actor.kind == TrafficLightActor ==>
        |r.objects| == |st.objects| + |actor.lightParts| && r.foliageInstanceCount == st.foliageInstanceCount &&
        forall k :: |st.objects| <= k < |r.objects| ==> r.objects[k].objectType == TrafficLight
    ensures var r := RegisterActor(engine, st, actor);
      actor.className != SkyClassName && actor.kind in {FoliageActor, PlainActor} ==>
        var ism := TotalInstances(actor.ismComponents);
        var sm := |actor.smBoxes|;
        |r.objects| == |st.objects| + ism + sm + |actor.skmBoxes| &&
        (forall k :: |st.objects| <= k < |r.objects| ==>
          r.objects[k].objectType ==
            if k < |st.objects| + ism then ISMComp
            else if k < |st.objects| + ism + sm then SMComp
            else SKMComp)
  {
    var r := RegisterActor(engine, st, actor);
    if actor.className != SkyClassName {
      match actor.kind
      case VehicleActor =>
      case CharacterActor =>
      case TrafficLightActor =>
        LightObjectsDescribed(engine, actor);
      case _ =>
        var ism := ISMObjects(engine, actor, actor.ismComponents, StartCount(st, actor));
        var sm := MeshObjects(engine, actor, actor.smBoxes, "_SM_", SMComp);
        var skm := MeshObjects(engine, actor, actor.skmBoxes, "_SKM_", SKMComp);
        ISMObjectsKinds(engine, actor, actor.ismComponents, StartCount(st, actor));
        MeshObjectsDescribed(engine, actor, actor.smBoxes, "_SM_", SMComp);
        MeshObjectsDescribed(engine, actor, actor.skmBoxes, "_SKM_", SKMComp);
        assert r.objects == st.objects + ism + sm + skm;
        KindsOfParts(st.objects, ism, sm, skm);
    }
  }

  lemma KindsOfParts(a: seq<EnvironmentObject>, ism: seq<EnvironmentObject>, sm: seq<EnvironmentObject>, skm: seq<EnvironmentObject>)
    requires forall k :: 0 <= k < |ism| ==> ism[k].objectType == ISMComp
    requires forall k :: 0 <= k < |sm| ==> sm[k].objectType == SMComp
    requires forall k :: 0 <= k < |skm| ==> skm[k].objectType == SKMComp
    ensures var r := a + ism + sm + skm;
      forall k :: |a| <= k < |r| ==>
        r[k].objectType ==
          if k < |a| + |ism| then ISMComp
          else if k < |a| + |ism| + |sm| then SMComp
          else SKMComp
  {
    var r := a + ism + sm + skm;
    forall k | |a| <= k < |r|
      ensures r[k].objectType ==
        if k < |a| + |ism| then ISMComp
        else if k < |a| + |ism| + |sm| then SMComp
        else SKMComp
    {
      if k < |a| + |ism| {
        assert r[k] == ism[k - |a|];
      } else if k < |a| + |ism| + |sm| {
        assert r[k] == sm[k - |a| - |ism|];
      } else {
        assert r[k] == skm[k - |a| - |ism| - |sm|];
      }
    }
  }

  function RegisterAll(engine: Engine, st: Registry, actors: seq<Actor>): (r: Registry)
    ensures st.objects <= r.objects && st.idToComponent <= r.idToComponent
  {
    if actors == [] then st
    else RegisterActor(engine, RegisterAll(engine, st, actors[..|actors| - 1]), actors[|actors| - 1])
  }

  // ---------------------------------------------------------------------------
  // Unregistering.

  /** The entry `Find` returns for an actor: the most recently added one. */
  function Newest(objects: seq<EnvironmentObject>, actor: ActorRef): (r: Option<EnvironmentObject>)
    ensures r.Some? ==> r.value in objects && r.value.actor == actor
    ensures r.None? ==> forall o :: o in objects ==> o.actor != actor
  {
    if objects == [] then None
    else if objects[|objects| - 1].actor == actor then Some(objects[|objects| - 1])
    else Newest(objects[..|objects| - 1], actor)
  }

  function UnRegisterActor(st: Registry, actor: ActorRef): (r: Registry)
    ensures forall o :: o in r.objects <==> o in st.objects && o.actor != actor
    ensures forall e :: e in r.idToComponent ==> e in st.idToComponent
    ensures Newest(st.objects, actor).Some? ==>
      forall e :: e in r.idToComponent ==> e.0 != Newest(st.objects, actor).value.id
    ensures Newest(st.objects, actor).Some? ==>
      forall e :: e in st.idToComponent && e.0 != Newest(st.objects, actor).value.id ==> e in r.idToComponent
    ensures Newest(st.objects, actor).None? ==> r.idToComponent == st.idToComponent
    ensures r.foliageInstanceCount == st.foliageInstanceCount
  {
    var found := Newest(st.objects, actor);
    Registry(
      Filter(st.objects, NotOfActor(actor)),
      if found.Some? then Filter(st.idToComponent, NotForId(found.value.id)) else st.idToComponent,
      st.foliageInstanceCount)
  }

  /** After unregistering, no object of the listed actors is left and every
      other object is still there; component entries are only ever dropped,
      and an entry whose id no object of the listed actors carries is kept. */
  function UnRegisterAll(st: Registry, actors: seq<ActorRef>): (r: Registry)
    ensures forall o :: o in r.objects <==> o in st.objects && o.actor !in actors
    ensures forall e :: e in r.idToComponent ==> e in st.idToComponent
    ensures forall e :: e in st.idToComponent && (forall o :: o in st.objects && o.actor in actors ==> o.id != e.0) ==>
      e in r.idToComponent
    ensures r.foliageInstanceCount == st.foliageInstanceCount
  {
    if actors == [] then st
    else
      var n := |actors| - 1;
      assert actors == actors[..n] + [actors[n]];
      UnRegisterActor(UnRegisterAll(st, actors[..n]), actors[n])
  }

  // ---------------------------------------------------------------------------
  // Enabling and disabling.

  /** What enabling or disabling does to the engine, in order. */
  datatype Action =
    | ActorCollision(actor: ActorRef, enabled: bool)
    | ActorTick(actor: ActorRef, enabled: bool)
    | ActorHidden(actor: ActorRef, hidden: bool)
    | ComponentHidden(component: ComponentRef, hidden: bool)
    | ComponentCollision(component: ComponentRef, enabled: bool)
    | InstanceTransformUpdate(component: ComponentRef, index: int, transform: Transform)
    | IdNotFound(id: Id)
    | IndexOutOfRange(id: Id)

  function ActorActions(o: EnvironmentObject, enable: bool): (r: seq<Action>)
    ensures forall a :: a in r ==> a.ActorCollision? || a.ActorTick? || a.ActorHidden?
    ensures forall a :: a in r ==> a.actor == o.actor
    ensures ActorHidden(o.actor, !enable) in r && ActorCollision(o.actor, enable) in r
    ensures ActorTick(o.actor, enable) in r <==> o.canTick
  {
    if !enable then
      [ActorCollision(o.actor, false)] + (if o.canTick then [ActorTick(o.actor, false)] else []) + [ActorHidden(o.actor, true)]
    else
      [ActorHidden(o.actor, false), ActorCollision(o.actor, true)] + (if o.canTick then [ActorTick(o.actor, true)] else [])
  }

  /** The components `MultiFind` returns for an id: most recent first. */
  function MultiFind(entries: seq<(Id, ComponentRef)>, id: Id): (r: seq<ComponentRef>)
    ensures forall c :: c in r <==> (id, c) in entries
  {
    if entries == [] then []
    else
      var last := entries[|entries| - 1];
      (if last.0 == id then [last.1] else []) + MultiFind(entries[..|entries| - 1], id)
  }

  function LightActions(components: seq<ComponentRef>, enable: bool): (r: seq<Action>)
    ensures |r| == 2 * |components|
    ensures forall k :: 0 <= k < |components| ==>
      r[2 * k] == ComponentHidden(components[k], !enable) && r[2 * k + 1] == ComponentCollision(components[k], enable)
  {
    if components == [] then []
    else
      var n := |components| - 1;
      LightActions(components[..n], enable) + [ComponentHidden(components[n], !enable), ComponentCollision(components[n], enable)]
  }

  lemma LightActionsStep(before: seq<Action>, components: seq<ComponentRef>, k: nat, enable: bool)
    requires k < |components|
    ensures before + LightActions(components[..k], enable) + [ComponentHidden(components[k], !enable)] +
      [ComponentCollision(components[k], enable)] == before + LightActions(components[..k + 1], enable)
  {
    assert components[..k + 1][..k] == components[..k];
  }

  /** Where a disabled instance is sent: far away and scaled to nothing. */
  function HiddenTransform(t: Transform): Transform
  {
    t.(translation := Vec3(1000000.0, 1000000.0, 1000000.0), scale := Origin)
  }

  /** The index is read back from the last "_"-separated field of the
      object's name; the first component filed under the id is updated. */
  function ISMActions(o: EnvironmentObject, entries: seq<(Id, ComponentRef)>, enable: bool): seq<Action>
  {
    var components := MultiFind(entries, o.id);
    var fields := ParseIntoArray(o.name, '_');
    if fields == [] || components == [] then [IndexOutOfRange(o.id)]
    else
      var index := Atoi(fields[|fields| - 1]);
      [InstanceTransformUpdate(components[0], index, if enable then o.transform else HiddenTransform(o.transform))]
  }

  function EnableActions(o: EnvironmentObject, entries: seq<(Id, ComponentRef)>, enable: bool): (r: seq<Action>)
    ensures o.objectType in {Vehicle, Character, SMComp, SKMComp} ==> r == ActorActions(o, enable)
    ensures o.objectType == TrafficLight ==> r == LightActions(MultiFind(entries, o.id), enable)
    ensures o.objectType == ISMComp ==> |r| == 1
  {
    match o.objectType
    case Vehicle => ActorActions(o, enable)
    case Character => ActorActions(o, enable)
    case SMComp => ActorActions(o, enable)
    case SKMComp => ActorActions(o, enable)
    case TrafficLight => LightActions(MultiFind(entries, o.id), enable)
    case ISMComp => ISMActions(o, entries, enable)
  }

  /** The index of the first object with the id, in iteration order. */
  function FirstWithId(objects: seq<EnvironmentObject>, id: Id): (r: Option<nat>)
    ensures r.Some? ==>
      r.value < |objects| && objects[r.value].id == id && forall k :: 0 <= k < r.value ==> objects[k].id != id
    ensures r.None? <==> forall k :: 0 <= k < |objects| ==> objects[k].id != id
  {
    if objects == [] then None
    else if objects[0].id == id then Some(0)
    else match FirstWithId(objects[1..], id)
      case None => None
      case Some(k) => Some(k + 1)
  }

  lemma FirstWithIdAt(objects: seq<EnvironmentObject>, id: Id, k: nat)
    requires k < |objects| && objects[k].id == id
    requires forall m :: 0 <= m < k ==> objects[m].id != id
    ensures FirstWithId(objects, id) == Some(k)
  {
  }

  /** What one requested id leads to. */
  function EnableIdActions(objects: seq<EnvironmentObject>, entries: seq<(Id, ComponentRef)>, id: Id, enable: bool)
    : seq<Action>
  {
    match FirstWithId(objects, id)
    case None => [IdNotFound(id)]
    case Some(k) => EnableActions(objects[k], entries, enable)
  }

  function EnableAllActions(objects: seq<EnvironmentObject>, entries: seq<(Id, ComponentRef)>, ids: seq<Id>, enable: bool)
    : seq<Action>
  {
    if ids == [] then []
    else
      var n := |ids| - 1;
      EnableAllActions(objects, entries, ids[..n], enable) + EnableIdActions(objects, entries, ids[n], enable)
  }

  /** Handling one more id appends what that id leads to, after any earlier `before`. */
  lemma EnableAllStep(before: seq<Action>, objects: seq<EnvironmentObject>, entries: seq<(Id, ComponentRef)>,
                      ids: seq<Id>, j: nat, enable: bool)
    requires j < |ids|
    ensures before + EnableAllActions(objects, entries, ids[..j], enable) + EnableIdActions(objects, entries, ids[j], enable) ==
      before + EnableAllActions(objects, entries, ids[..j + 1], enable)
  {
    assert ids[..j + 1][..j] == ids[..j];
  }

  /** An id no object carries is reported and nothing else happens. */
  lemma EnableUnknownId(objects: seq<EnvironmentObject>, entries: seq<(Id, ComponentRef)>, id: Id, enable: bool)
    requires forall o :: o in objects ==> o.id != id
    ensures EnableAllActions(objects, entries, [id], enable) == [IdNotFound(id)]
  {
    assert FirstWithId(objects, id).None?;
    assert [id][..0] == [];
  }

  /** For an instance registered as "<actor>_Inst_<count>_<i>", enabling
      updates instance i of the newest component filed under its id, to the
      object's transform when enabling and to the hidden one when disabling. */
  lemma {:induction false} ISMIndexRoundTrip(o: EnvironmentObject, entries: seq<(Id, ComponentRef)>, enable: bool,
                          actorName: string, count: nat, i: nat)
    requires o.name == InstanceName(actorName, count, i)
    requires MultiFind(entries, o.id) != []
    ensures ISMActions(o, entries, enable) ==
      [InstanceTransformUpdate(MultiFind(entries, o.id)[0], i, if enable then o.transform else HiddenTransform(o.transform))]
  {
    var digits := NatToString(i);
    DigitsHaveNoSeparator(digits, '_');
    var prefix := actorName + "_Inst_" + IntToString(count);
    assert o.name == prefix + ['_'] + digits;
    LastFieldAfterSeparator(prefix, '_', digits);
    AtoiIntToString(i);
  }

  // ---------------------------------------------------------------------------

  class ObjectRegister {
    const engine: Engine
    var environmentObjects: seq<EnvironmentObject>
    var objectIdToComponent: seq<(Id, ComponentRef)>
    var foliageActorInstanceCount: int
    /** The effects of enabling and disabling, in order. */
    var actions: seq<Action>

    function State(): Registry
      reads this
    {
      Registry(environmentObjects, objectIdToComponent, foliageActorInstanceCount)
    }

    constructor (engine: Engine)
      ensures this.engine == engine
      ensures State() == Registry([], [], 0) && actions == []
    {
      this.engine := engine;
      environmentObjects := [];
      objectIdToComponent := [];
      foliageActorInstanceCount := 0;
      actions := [];
    }

    /** The objects carrying the queried label, or all of them for `Any`, in
        the register's order. */
    method GetEnvironmentObjects(tag: Tag) returns (result: seq<EnvironmentObject>)
      ensures result == Filter(environmentObjects, HasLabel(tag))
      ensures tag == Any ==> result == environmentObjects
      ensures tag != Any ==> forall o :: o in result <==> o in environmentObjects && o.objectLabel == tag
    {
      var filterByTag := tag != Any;
      result := [];
      var i := 0;
      while i < |environmentObjects|
        invariant 0 <= i <= |environmentObjects|
        invariant result == Filter(environmentObjects[..i], HasLabel(tag))
      {
        var o := environmentObjects[i];
        if !filterByTag || o.objectLabel == tag {
          result := result + [o];
        }
        assert environmentObjects[..i + 1][..i] == environmentObjects[..i];
        i := i + 1;
      }
      assert environmentObjects[..i] == environmentObjects;
      if tag == Any {
        FilterKeepsAll(environmentObjects, HasLabel(tag));
      }
    }

    method RegisterEnvironmentObject(actor: Actor, objectType: EnvironmentObjectType, tag: Tag)
      modifies this`environmentObjects
      ensures environmentObjects == old(environmentObjects) + [ActorObject(engine, actor, objectType, tag)]
    {
      var o := ActorObject(engine, actor, objectType, tag);
      environmentObjects := environmentObjects + [o];
    }

    method RegisterVehicle(actor: Actor)
      modifies this`environmentObjects
      ensures State() == RegisterVehicleSpec(engine, old(State()), actor)
    {
      RegisterEnvironmentObject(actor, Vehicle, Vehicles);
    }

    method RegisterCharacter(actor: Actor)
      modifies this`environmentObjects
      ensures State() == RegisterCharacterSpec(engine, old(State()), actor)
    {
      RegisterEnvironmentObject(actor, Character, Pedestrians);
    }

    method RegisterTrafficLight(actor: Actor)
      modifies this`environmentObjects, this`objectIdToComponent
      ensures State() == RegisterTrafficLightSpec(engine, old(State()), actor)
    {
      var parts := actor.lightParts;
      var objects := LightObjects(engine, actor);
      var i := 0;
      while i < |parts|
        invariant 0 <= i <= |parts|
        invariant environmentObjects == old(environmentObjects) + objects[..i]
        invariant objectIdToComponent == old(objectIdToComponent) + LightEntries(engine, actor, i)
      {
        var o := objects[i];
        environmentObjects := environmentObjects + [o];
        var comps := parts[i].components;
        var k := 0;
        while k < |comps|
          invariant 0 <= k <= |comps|
          invariant environmentObjects == old(environmentObjects) + objects[..i] + [o]
          invariant objectIdToComponent == old(objectIdToComponent) + LightEntries(engine, actor, i) + IdEntries(o.id, comps[..k])
        {
          objectIdToComponent := objectIdToComponent + [(o.id, comps[k])];
          IdEntriesStep(old(objectIdToComponent) + LightEntries(engine, actor, i), o.id, comps, k);
          k := k + 1;
        }
        assert comps[..k] == comps;
        LightEntriesStep(old(objectIdToComponent), engine, actor, i);
        AppendStep(old(environmentObjects), objects, i);
        i := i + 1;
      }
      assert objects[..i] == objects;
    }

    /** The inner loop of the instanced mesh routine: one object and one
        component entry per instance of `comp`, the count running on from
        `base`. */
    method RegisterComponentInstances(actor: Actor, comp: ISMComponent, base: int) returns (instanceCount: int)
      modifies this`environmentObjects, this`objectIdToComponent
      ensures instanceCount == base + |comp.instances|
      ensures environmentObjects == old(environmentObjects) + ComponentObjects(engine, actor, comp, base)
      ensures objectIdToComponent == old(objectIdToComponent) + ComponentEntries(engine, actor, comp, base)
    {
      instanceCount := base;
      var i := 0;
      while i < |comp.instances|
        invariant 0 <= i <= |comp.instances|
        invariant instanceCount == base + i
        invariant environmentObjects == old(environmentObjects) + ComponentObjects(engine, actor, comp, base)[..i]
        invariant objectIdToComponent == old(objectIdToComponent) + ComponentEntries(engine, actor, comp, base)[..i]
      {
        var o := InstanceObject(engine, actor, comp, instanceCount, i);
        ComponentStep(old(environmentObjects), old(objectIdToComponent), engine, actor, comp, base, i);
        environmentObjects := environmentObjects + [o];
        objectIdToComponent := objectIdToComponent + [(o.id, comp.ref)];
        instanceCount := instanceCount + 1;
        i := i + 1;
      }
      ComponentWhole(engine, actor, comp, base);
    }

    /** The loop over an actor's instanced mesh components, the instance
        count running on from `start`. */
    method RegisterAllInstances(actor: Actor, start: int) returns (instanceCount: int)
      modifies this`environmentObjects, this`objectIdToComponent
      ensures instanceCount == start + TotalInstances(actor.ismComponents)
      ensures environmentObjects == old(environmentObjects) + ISMObjects(engine, actor, actor.ismComponents, start)
      ensures objectIdToComponent == old(objectIdToComponent) + ISMEntries(engine, actor, actor.ismComponents, start)
    {
      var comps := actor.ismComponents;
      instanceCount := start;
      var c := 0;
      while c < |comps|
        invariant 0 <= c <= |comps|
        invariant instanceCount == start + TotalInstances(comps[..c])
        invariant environmentObjects == old(environmentObjects) + ISMObjects(engine, actor, comps[..c], start)
        invariant objectIdToComponent == old(objectIdToComponent) + ISMEntries(engine, actor, comps[..c], start)
      {
        ISMStep(engine, actor, comps, start, c);
        instanceCount := RegisterComponentInstances(actor, comps[c], instanceCount);
        c := c + 1;
      }
      assert comps[..c] == comps;
    }

    /** Instanced meshes; a foliage actor's count carries over between actors,
        any other actor's starts at 0. */
    method RegisterISMComponents(actor: Actor)
      modifies this`environmentObjects, this`objectIdToComponent, this`foliageActorInstanceCount
      ensures State() == RegisterISMSpec(engine, old(State()), actor)
    {
      var instanceCount := 0;
      if actor.kind == FoliageActor {
        instanceCount := foliageActorInstanceCount;
      }
      instanceCount := RegisterAllInstances(actor, instanceCount);
      if actor.kind == FoliageActor {
        foliageActorInstanceCount := instanceCount;
      }
    }

    /** The static and skeletal mesh routines: one object per box, in order. */
    method RegisterMeshComponents(actor: Actor, boxes: seq<TaggedBox>, infix: string, objectType: EnvironmentObjectType)
      modifies this`environmentObjects
      ensures environmentObjects == old(environmentObjects) + MeshObjects(engine, actor, boxes, infix, objectType)
    {
      var objects := MeshObjects(engine, actor, boxes, infix, objectType);
      var i := 0;
      while i < |boxes|
        invariant 0 <= i <= |boxes|
        invariant environmentObjects == old(environmentObjects) + objects[..i]
      {
        environmentObjects := environmentObjects + [objects[i]];
        assert objects[..i + 1] == objects[..i] + [objects[i]];
        i := i + 1;
      }
      assert objects[..i] == objects;
    }

    method RegisterSMComponents(actor: Actor)
      modifies this`environmentObjects
      ensures State() == RegisterSMSpec(engine, old(State()), actor)
    {
      RegisterMeshComponents(actor, actor.smBoxes, "_SM_", SMComp);
    }

    method RegisterSKMComponents(actor: Actor)
      modifies this`environmentObjects
      ensures State() == RegisterSKMSpec(engine, old(State()), actor)
    {
      RegisterMeshComponents(actor, actor.skmBoxes, "_SKM_", SKMComp);
    }

    method RegisterObjects(actors: seq<Actor>)
      modifies this`environmentObjects, this`objectIdToComponent, this`foliageActorInstanceCount
      ensures State() == RegisterAll(engine, old(State()), actors)
    {
      var j := 0;
      while j < |actors|
        invariant 0 <= j <= |actors|
        invariant State() == RegisterAll(engine, old(State()), actors[..j])
      {
        var actor := actors[j];
        assert actors[..j + 1][..j] == actors[..j];
        if actor.className != SkyClassName {
          match actor.kind {
            case VehicleActor =>
              RegisterVehicle(actor);
            case CharacterActor =>
              RegisterCharacter(actor);
            case TrafficLightActor =>
              RegisterTrafficLight(actor);
            case _ =>
              RegisterISMComponents(actor);
              RegisterSMComponents(actor);
              RegisterSKMComponents(actor);
          }
        }
        j := j + 1;
      }
      assert actors[..j] == actors;
    }

    /** Empties the objects, not the component entries, then registers. */
    method RegisterInitialObjects(actors: seq<Actor>)
      modifies this`environmentObjects, this`objectIdToComponent, this`foliageActorInstanceCount
      ensures State() == RegisterAll(engine, old(State()).(objects := []), actors)
      ensures old(objectIdToComponent) <= objectIdToComponent
    {
      environmentObjects := [];
      RegisterObjects(actors);
    }

    method UnRegisterObjects(actors: seq<ActorRef>)
      modifies this`environmentObjects, this`objectIdToComponent
      ensures State() == UnRegisterAll(old(State()), actors)
    {
      var j := 0;
      while j < |actors|
        invariant 0 <= j <= |actors|
        invariant State() == UnRegisterAll(old(State()), actors[..j])
      {
        var actor := actors[j];
        var found := Newest(environmentObjects, actor);
        if found.Some? {
          objectIdToComponent := Filter(objectIdToComponent, NotForId(found.value.id));
        }
        environmentObjects := Filter(environmentObjects, NotOfActor(actor));
        assert actors[..j + 1][..j] == actors[..j];
        j := j + 1;
      }
      assert actors[..j] == actors;
    }

    method EnableActor(o: EnvironmentObject, enable: bool)
      modifies this`actions
      ensures actions == old(actions) + ActorActions(o, enable)
    {
      if !enable {
        actions := actions + [ActorCollision(o.actor, false)];
        if o.canTick {
          actions := actions + [ActorTick(o.actor, false)];
        }
        actions := actions + [ActorHidden(o.actor, true)];
      } else {
        actions := actions + [ActorHidden(o.actor, false)];
        actions := actions + [ActorCollision(o.actor, true)];
        if o.canTick {
          actions := actions + [ActorTick(o.actor, true)];
        }
      }
    }

    method EnableTrafficLight(o: EnvironmentObject, enable: bool)
      modifies this`actions
      ensures actions == old(actions) + LightActions(MultiFind(objectIdToComponent, o.id), enable)
    {
      var comps := MultiFind(objectIdToComponent, o.id);
      var k := 0;
      while k < |comps|
        invariant 0 <= k <= |comps|
        invariant actions == old(actions) + LightActions(comps[..k], enable)
      {
        actions := actions + [ComponentHidden(comps[k], !enable)];
        actions := actions + [ComponentCollision(comps[k], enable)];
        LightActionsStep(old(actions), comps, k, enable);
        k := k + 1;
      }
      assert comps[..k] == comps;
    }

    method EnableISMComp(o: EnvironmentObject, enable: bool)
      modifies this`actions
      ensures actions == old(actions) + ISMActions(o, objectIdToComponent, enable)
    {
      var comps := MultiFind(objectIdToComponent, o.id);
      var instanceName := ParseIntoArray(o.name, '_');
      if instanceName == [] || comps == [] {
        actions := actions + [IndexOutOfRange(o.id)];
        return;
      }
      var index := Atoi(instanceName[|instanceName| - 1]);
      var instanceTransform := o.transform;
      if !enable {
        instanceTransform := HiddenTransform(instanceTransform);
      }
      actions := actions + [InstanceTransformUpdate(comps[0], index, instanceTransform)];
    }

    method EnableEnvironmentObject(o: EnvironmentObject, enable: bool)
      modifies this`actions
      ensures actions == old(actions) + EnableActions(o, objectIdToComponent, enable)
    {
      match o.objectType
      case Vehicle => EnableActor(o, enable);
      case Character => EnableActor(o, enable);
      case SMComp => EnableActor(o, enable);
      case SKMComp => EnableActor(o, enable);
      case TrafficLight => EnableTrafficLight(o, enable);
      case ISMComp => EnableISMComp(o, enable);
    }

    /** One id of `EnableEnvironmentObjects`: the first object carrying it is
        enabled or disabled, and the search stops there; an id no object
        carries is reported. */
    method EnableId(id: Id, enable: bool)
      modifies this`actions
      ensures actions == old(actions) + EnableIdActions(environmentObjects, objectIdToComponent, id, enable)
    {
      var k := 0;
      while k < |environmentObjects|
        invariant 0 <= k <= |environmentObjects|
        invariant actions == old(actions)
        invariant forall m :: 0 <= m < k ==> environmentObjects[m].id != id
      {
        if environmentObjects[k].id == id {
          FirstWithIdAt(environmentObjects, id, k);
          EnableEnvironmentObject(environmentObjects[k], enable);
          return;
        }
        k := k + 1;
      }
      actions := actions + [IdNotFound(id)];
    }

    /** For each id, in the set's iteration order, the first object carrying it
        is enabled or disabled; an id no object carries is reported. */
    method EnableEnvironmentObjects(ids: seq<Id>, enable: bool)
      modifies this`actions
      ensures actions == old(actions) + EnableAllActions(environmentObjects, objectIdToComponent, ids, enable)
    {
      var j := 0;
      while j < |ids|
        invariant 0 <= j <= |ids|
        invariant actions == old(actions) + EnableAllActions(environmentObjects, objectIdToComponent, ids[..j], enable)
      {
        EnableId(ids[j], enable);
        EnableAllStep(old(actions), environmentObjects, objectIdToComponent, ids, j, enable);
        j := j + 1;
      }
      assert ids[..j] == ids;
    }
  }
}
