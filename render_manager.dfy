/** The render manager (Engine/src/Graphics/RenderManager.cpp): a lazily
    created singleton tagged `Render`, a factory registry of the four render
    component types, and the dispatch of `setUp`/`update` over its component
    list in list order, `update` rendering one frame first. The calls the
    manager makes (the frame render and the hooks of its components) are
    recorded in order. */
module Graphics {
  import opened Wrappers
  import opened Common

  /** The component classes the render manager can construct. */
  datatype RenderKind = MeshComponent | Camera | LightComponent | PlaneComponent

  /** The name of each class. */
  function KindName(k: RenderKind): string
  {
    match k
    case MeshComponent => "MeshComponent"
    case Camera => "Camera"
    case LightComponent => "LightComponent"
    case PlaneComponent => "PlaneComponent"
  }

  /** The registry the constructor builds: each type name mapped to the
      constructor of the class of that name. */
  function RenderRegistry(): (reg: map<string, RenderKind>)
    ensures reg.Keys == {"MeshComponent", "Camera", "LightComponent", "PlaneComponent"}
    ensures forall name :: name in reg ==> KindName(reg[name]) == name
  {
    map["MeshComponent" := MeshComponent, "Camera" := Camera,
        "LightComponent" := LightComponent, "PlaneComponent" := PlaneComponent]
  }

  /** Exactly four type names are registered, one per class, and every class
      can be reached through its own name. */
  lemma RegistryHasFourTypes()
    ensures |RenderRegistry().Keys| == 4
    ensures forall k: RenderKind :: KindName(k) in RenderRegistry() && RenderRegistry()[KindName(k)] == k
  {
    var s1 := {"MeshComponent"};
    var s2 := s1 + {"Camera"};
    assert "Camera" !in s1;
    var s3 := s2 + {"LightComponent"};
    assert "LightComponent" !in s2;
    var s4 := s3 + {"PlaneComponent"};
    assert "PlaneComponent" !in s3;
    assert RenderRegistry().Keys == s4;
  }

  /** The component hooks the manager calls. */
  datatype Hook = SetUpHook | UpdateHook

  /** A call the render manager makes. */
  datatype RenderCall = RenderOneFrame | Invoke(hook: Hook, target: Component)

  /** Calling `hook` on every component of `comps`: one call per component,
      in list order. */
  function Dispatch(hook: Hook, comps: seq<Component>): (r: seq<RenderCall>)
    ensures |r| == |comps|
    ensures forall i :: 0 <= i < |comps| ==> r[i] == Invoke(hook, comps[i])
  {
    if comps == [] then [] else [Invoke(hook, comps[0])] + Dispatch(hook, comps[1..])
  }

  /** When the list holds each component once, the dispatch calls the hook
      exactly once on each component in the list, and on nothing else. */
  lemma {:induction false} DispatchOncePerComponent(hook: Hook, comps: seq<Component>, c: Component)
    requires Distinct(comps)
    ensures multiset(Dispatch(hook, comps))[Invoke(hook, c)] == if c in comps then 1 else 0
  {
    if comps != [] {
      assert Distinct(comps[1..]);
      DispatchOncePerComponent(hook, comps[1..], c);
      assert Dispatch(hook, comps) == [Invoke(hook, comps[0])] + Dispatch(hook, comps[1..]);
      assert comps == [comps[0]] + comps[1..];
      if c == comps[0] {
        assert c !in comps[1..];
      }
    }
  }

  /** Dispatching over a list is dispatching over its first part and then
      its rest: the order of the calls follows the order of the list. */
  lemma DispatchAppend(hook: Hook, a: seq<Component>, b: seq<Component>)
    ensures Dispatch(hook, a + b) == Dispatch(hook, a) + Dispatch(hook, b)
  {
    assert |Dispatch(hook, a + b)| == |Dispatch(hook, a) + Dispatch(hook, b)|;
  }

  /** One more loop iteration: the dispatch over the first `i + 1`
      components is the dispatch over the first `i`, then component `i`. */
  lemma DispatchSnoc(hook: Hook, comps: seq<Component>, i: nat)
    requires i < |comps|
    ensures Dispatch(hook, comps[..i + 1]) == Dispatch(hook, comps[..i]) + [Invoke(hook, comps[i])]
  {
    assert comps[..i + 1] == comps[..i] + [comps[i]];
    DispatchAppend(hook, comps[..i], [comps[i]]);
  }

  /** `RenderManager`. Its `Manager` part is `base`. */
  class RenderManager {
    const base: Manager
    var registry: map<string, RenderKind>
    var calls: seq<RenderCall>

    ghost predicate Valid()
      reads this, base
    {
      base.id == Render && registry == RenderRegistry() && Distinct(base.comps)
    }

    /** Tags the manager `Render` and registers the four type names. */
    constructor ()
      ensures Valid() && fresh(base)
      ensures base.comps == [] && calls == []
    {
      base := new Manager(Render);
      registry := map[];
      calls := [];
      new;
      RegisterComponent("MeshComponent", MeshComponent);
      RegisterComponent("Camera", Camera);
      RegisterComponent("LightComponent", LightComponent);
      RegisterComponent("PlaneComponent", PlaneComponent);
    }

    /** `registerComponent`: records the constructor under `name`, replacing
        any earlier one. */
    method RegisterComponent(name: string, kind: RenderKind)
      modifies this`registry
      ensures registry == old(registry)[name := kind]
    {
      registry := registry[name := kind];
    }

    /** `addComponent`: constructs a component of a registered type for
        `owner` and appends it to the list; an unknown type name is reported
        and changes nothing. */
    method AddComponent(owner: EntityId, typeName: string) returns (r: Result<Component, string>)
      requires Valid()
      modifies base
      ensures Valid()
      ensures r.Success? <==> typeName in RenderRegistry()
      ensures r.Success? ==>
        fresh(r.value) && r.value.owner == owner && r.value.typeName == typeName &&
        base.comps == old(base.comps) + [r.value]
      ensures r.Failure? ==> r.error == typeName && base.comps == old(base.comps)
    {
      if typeName !in registry {
        return Failure(typeName);
      }
      var c := new Component(owner, KindName(registry[typeName]));
      base.AddComponent(c);
      r := Success(c);
    }

    /** `start`: calls `setUp` once on every component, in list order, and
        leaves the list alone. */
    method Start()
      requires Valid()
      modifies this`calls
      ensures Valid()
      ensures calls == old(calls) + Dispatch(SetUpHook, base.comps)
      ensures registry == old(registry)
    {
      var comps, before := base.comps, calls;
      for i := 0 to |comps|
        invariant calls == before + Dispatch(SetUpHook, comps[..i])
      {
        DispatchSnoc(SetUpHook, comps, i);
        calls := calls + [Invoke(SetUpHook, comps[i])];
      }
      assert comps[..|comps|] == comps;
    }

    /** `update`: renders one frame, then calls `update` once on every
        component, in list order, and leaves the list alone. */
    method Update()
      requires Valid()
      modifies this`calls
      ensures Valid()
      ensures calls == old(calls) + [RenderOneFrame] + Dispatch(UpdateHook, base.comps)
      ensures registry == old(registry)
    {
      calls := calls + [RenderOneFrame];
      var comps, before := base.comps, calls;
      for i := 0 to |comps|
        invariant calls == before + Dispatch(UpdateHook, comps[..i])
      {
        DispatchSnoc(UpdateHook, comps, i);
        calls := calls + [Invoke(UpdateHook, comps[i])];
      }
      assert comps[..|comps|] == comps;
    }
  }

  /** The static `instance_` of RenderManager.cpp. */
  class RenderRuntime {
    var instance: RenderManager?

    constructor ()
      ensures instance == null
    {
      instance := null;
    }

    /** `getInstance`: constructs the manager on the first call and hands
        back that same manager on every later call. */
    method GetInstance() returns (m: RenderManager)
      modifies this
      ensures old(instance) != null ==> m == old(instance)
      ensures old(instance) == null ==> fresh(m) && fresh(m.base) && m.Valid() && m.base.comps == [] && m.calls == []
      ensures instance == m
    {
      if instance == null {
        instance := new RenderManager();
      }
      m := instance;
    }
  }
}
