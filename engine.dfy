/** The engine's lifecycle (Engine/src/PapagayoEngine.cpp): the singleton
    guard, the fixed-order `init` that stops at the first exception (a
    `std::exception` from one of the three guarded setup calls is rethrown
    tagged with the subsystem's name; anything else leaves untagged), the
    `run`/`update` frame loop, and `clean`.

    Every call the engine makes into another subsystem is an `Event`,
    recorded in a trace in the order the calls are made. Whether a call
    returns or throws is decided by a `World`: a function of the calls made
    so far and of the call being made. */
module Engine {
  import opened Wrappers

  /** The engine's calls into other subsystems. */
  datatype Event =
    | OgreContextSetup(appName: string)      // OgreContext::setupInstance
    | ResourceManagerSetup(assetsRoot: string) // ResourceManager::setupInstance
    | SceneManagerSetup                      // SceneManager::setupInstance
    | ShaderGeneratorSetup                   // OgreContext::setupRTShaderGenerator
    | RenderOneFrame                         // Ogre::Root::renderOneFrame
    | SceneManagerClean                      // SceneManager::clean
    | ResourceManagerClean                   // ResourceManager::clean
    | EngineDeleted                          // delete instance_

  /** What a call did: it returned (the bool some of them return is carried
      but never looked at), or it threw. Only `std::exception`s are caught by
      the engine's handlers; anything else passes through them. */
  datatype Outcome = Returned(value: bool) | Threw(what: string, isStdException: bool)

  /** The behaviour of the outside world, given the calls made so far. */
  type World = (seq<Event>, Event) -> Outcome

  /** The subsystems whose setup `init` guards with its own handler. */
  datatype Subsystem = OgreContext | ResourceManager | SceneManager

  /** The error that leaves `init`, `update`, `run` or `clean`. */
  datatype EngineError =
    | InitFail(subsystem: Subsystem, cause: string) // "<subsystem> init fail"
    | RenderFail(cause: string)                     // "Fallo de renderizado"
    | Uncaught(cause: string)                       // an exception no handler wraps

  /** The calls a sequence of steps made, and the error it stopped on. */
  datatype Exec = Exec(events: seq<Event>, err: Option<EngineError>)

  const DefaultAppName: string := "PAPAGAYO ENGINE"
  const AssetsRoot: string := "assets/"

  /** `init`'s calls, in program order. The rendering context is always set
      up under the default name, whatever the engine's own name is. */
  const InitSteps: seq<Event> :=
    [OgreContextSetup(DefaultAppName), ResourceManagerSetup(AssetsRoot), SceneManagerSetup, ShaderGeneratorSetup]

  /** `clean`'s calls into other subsystems, in program order. */
  const CleanSteps: seq<Event> := [SceneManagerClean, ResourceManagerClean]

  /** The setup call that `init` guards for subsystem `s`, and its place in `InitSteps`. */
  function SetupOf(s: Subsystem): Event
  {
    match s
    case OgreContext => OgreContextSetup(DefaultAppName)
    case ResourceManager => ResourceManagerSetup(AssetsRoot)
    case SceneManager => SceneManagerSetup
  }

  function StepOf(s: Subsystem): nat
  {
    match s
    case OgreContext => 0
    case ResourceManager => 1
    case SceneManager => 2
  }

  /** The error that leaves the engine when call `ev` throws `what`. The
      three setup calls of `init` and the frame render of `update` each sit
      in a handler for `std::exception` that rethrows with its own tag; the
      shader generator setup and the two clean calls have none. */
  function Rethrown(ev: Event, what: string, isStd: bool): (e: EngineError)
    ensures e.cause == what
    ensures e.RenderFail? <==> isStd && ev.RenderOneFrame?
    ensures e.InitFail? <==> isStd && (ev.OgreContextSetup? || ev.ResourceManagerSetup? || ev.SceneManagerSetup?)
    ensures e.InitFail? ==>
      && (e.subsystem == OgreContext <==> ev.OgreContextSetup?)
      && (e.subsystem == ResourceManager <==> ev.ResourceManagerSetup?)
      && (e.subsystem == SceneManager <==> ev.SceneManagerSetup?)
  {
    if !isStd then Uncaught(what)
    else match ev
      case OgreContextSetup(_) => InitFail(OgreContext, what)
      case ResourceManagerSetup(_) => InitFail(ResourceManager, what)
      case SceneManagerSetup => InitFail(SceneManager, what)
      case RenderOneFrame => RenderFail(what)
      case _ => Uncaught(what)
  }

  /** How step `i` of `steps` ends when it is made after `history` and the
      steps before it. */
  function At(steps: seq<Event>, w: World, history: seq<Event>, i: nat): Outcome
    requires i < |steps|
  {
    w(history + steps[..i], steps[i])
  }

  /** Step `k` of `steps` threw, and `e` is what the engine made of it. */
  ghost predicate ThrewAt(steps: seq<Event>, w: World, history: seq<Event>, k: int, e: EngineError)
  {
    0 <= k < |steps| &&
    var out := At(steps, w, history, k);
    out.Threw? && e == Rethrown(steps[k], out.what, out.isStdException)
  }

  /** The number of steps that returned normally. */
  function Completed(r: Exec): int
  {
    if r.err.Some? then |r.events| - 1 else |r.events|
  }

  /** Once the first step has been made, the remaining steps see it in
      their history. */
  lemma AtShift(steps: seq<Event>, w: World, history: seq<Event>)
    requires steps != []
    ensures forall i :: 1 <= i < |steps| ==>
      At(steps, w, history, i) == At(steps[1..], w, history + [steps[0]], i - 1)
  {
    forall i | 1 <= i < |steps|
      ensures At(steps, w, history, i) == At(steps[1..], w, history + [steps[0]], i - 1)
    {
      assert history + [steps[0]] + steps[1..][..i - 1] == history + steps[..i];
    }
  }

  /** Makes the calls `steps` one after the other, stopping at the first that
      throws: the calls made are a prefix of `steps`, every one but the last
      returned, and the run stops early only with an error (which call threw
      it is `RunStepsStopsAtThrow`). */
  function RunSteps(steps: seq<Event>, w: World, history: seq<Event>): (r: Exec)
    decreases |steps|
    ensures |r.events| <= |steps| && r.events == steps[..|r.events|]
    ensures r.err.None? ==> r.events == steps
    ensures r.err.Some? ==> r.events != []
    ensures forall i :: 0 <= i < Completed(r) ==> At(steps, w, history, i).Returned?
  {
    if steps == [] then Exec([], None)
    else
      assert history + steps[..0] == history;
      match w(history, steps[0])
      case Threw(what, isStd) => Exec([steps[0]], Some(Rethrown(steps[0], what, isStd)))
      case Returned(_) =>
        var rest := RunSteps(steps[1..], w, history + [steps[0]]);
        AtShift(steps, w, history);
        assert At(steps, w, history, 0).Returned?;
        Exec([steps[0]] + rest.events, rest.err)
  }

  /** One step of `RunSteps`, unfolded. */
  lemma RunStepsCons(steps: seq<Event>, w: World, history: seq<Event>)
    requires steps != []
    ensures RunSteps(steps, w, history) ==
      var out := w(history, steps[0]);
      if out.Threw? then Exec([steps[0]], Some(Rethrown(steps[0], out.what, out.isStdException)))
      else var rest := RunSteps(steps[1..], w, history + [steps[0]]);
        Exec([steps[0]] + rest.events, rest.err)
  {
  }

  /** A run that stops with an error stops at the call that threw it: the
      last call made threw, and the error is what the engine made of it. */
  lemma {:induction false} RunStepsStopsAtThrow(steps: seq<Event>, w: World, history: seq<Event>)
    ensures var r := RunSteps(steps, w, history);
      r.err.Some? ==> ThrewAt(steps, w, history, |r.events| - 1, r.err.value)
  {
    if steps != [] {
      RunStepsCons(steps, w, history);
      if w(history, steps[0]).Returned? {
        RunStepsStopsAtThrow(steps[1..], w, history + [steps[0]]);
        AtShift(steps, w, history);
      } else {
        assert history + steps[..0] == history;
      }
    }
  }

  /** `n` iterations of the frame loop, each rendering one frame. */
  function Frames(n: nat): (s: seq<Event>)
    ensures |s| == n && forall i :: 0 <= i < n ==> s[i] == RenderOneFrame
  {
    seq(n, _ => RenderOneFrame)
  }

  /** `run` with the engine's `running_` flag at `running`, observed for at
      most `budget` iterations of its loop: `init`, then frames while the flag
      holds, ending at the first error. */
  function RunSpec(running: bool, budget: nat, w: World, history: seq<Event>): (r: Exec)
    ensures var init := RunSteps(InitSteps, w, history);
      |init.events| <= |r.events| <= |InitSteps| + budget && r.events[..|init.events|] == init.events
    ensures r.err.None? ==> r.events == InitSteps + (if running then Frames(budget) else [])
    ensures var init := RunSteps(InitSteps, w, history);
      && (init.err.Some? || !running ==> r == init)
      && r.events[|init.events|..] == Frames(|r.events| - |init.events|)
  {
    var init := RunSteps(InitSteps, w, history);
    if init.err.Some? || !running then init
    else
      var frames := RunSteps(Frames(budget), w, history + init.events);
      assert (init.events + frames.events)[..|init.events|] == init.events;
      assert (init.events + frames.events)[|init.events|..] == frames.events;
      assert frames.events == Frames(|frames.events|);
      Exec(init.events + frames.events, frames.err)
  }

  /** Running two sequences of steps back to back is running the first, and
      the second only if the first did not throw. */
  lemma {:induction false} RunStepsAppend(a: seq<Event>, b: seq<Event>, w: World, history: seq<Event>)
    ensures RunSteps(a + b, w, history) ==
      var ra := RunSteps(a, w, history);
      if ra.err.Some? then ra
      else var rb := RunSteps(b, w, history + a); Exec(a + rb.events, rb.err)
  {
    if a == [] {
      assert a + b == b && history + a == history;
    } else {
      assert (a + b)[0] == a[0] && (a + b)[1..] == a[1..] + b;
      RunStepsCons(a + b, w, history);
      RunStepsCons(a, w, history);
      if w(history, a[0]).Returned? {
        RunStepsAppend(a[1..], b, w, history + [a[0]]);
        assert history + [a[0]] + a[1..] == history + a;
        assert [a[0]] + a[1..] == a;
      }
    }
  }

  /** A single frame render, as a run of one step. */
  lemma OneFrame(w: World, history: seq<Event>)
    ensures var out := w(history, RenderOneFrame);
      RunSteps([RenderOneFrame], w, history) ==
        if out.Threw? then Exec([RenderOneFrame], Some(Rethrown(RenderOneFrame, out.what, out.isStdException)))
        else Exec([RenderOneFrame], None)
  {
    RunStepsCons([RenderOneFrame], w, history);
  }

  /** `update`'s handler: a frame render that throws a `std::exception`
      fails with a render error carrying its message; any other exception
      leaves untagged, and a render that returns is no error. */
  lemma FrameErrorTag(w: World, history: seq<Event>, cause: string)
    ensures var r := RunSteps([RenderOneFrame], w, history);
      && (r.err == Some(RenderFail(cause)) <==> w(history, RenderOneFrame) == Threw(cause, true))
      && (r.err == Some(Uncaught(cause)) <==> w(history, RenderOneFrame) == Threw(cause, false))
      && (r.err.None? <==> w(history, RenderOneFrame).Returned?)
  {
    OneFrame(w, history);
  }

  /** Once a frame fails, the iterations that were left do not run. */
  lemma FramesAbort(k: nat, budget: nat, w: World, history: seq<Event>)
    requires k <= budget
    requires RunSteps(Frames(k), w, history).err.Some?
    ensures RunSteps(Frames(budget), w, history) == RunSteps(Frames(k), w, history)
  {
    assert Frames(k) + Frames(budget - k) == Frames(budget);
    RunStepsAppend(Frames(k), Frames(budget - k), w, history);
  }

  /** One more iteration of the frame loop, after `n` frames that all
      rendered: either it renders too, or its failure is the failure of the
      whole loop, however many iterations were left. */
  lemma FramesStep(n: nat, budget: nat, w: World, history: seq<Event>)
    requires n < budget
    requires RunSteps(Frames(n), w, history) == Exec(Frames(n), None)
    ensures var out := w(history + Frames(n), RenderOneFrame);
      if out.Threw? then
        RunSteps(Frames(budget), w, history) == Exec(Frames(n + 1), Some(Rethrown(RenderOneFrame, out.what, out.isStdException)))
      else RunSteps(Frames(n + 1), w, history) == Exec(Frames(n + 1), None)
  {
    OneFrame(w, history + Frames(n));
    RunStepsAppend(Frames(n), [RenderOneFrame], w, history);
    assert Frames(n) + [RenderOneFrame] == Frames(n + 1);
    if w(history + Frames(n), RenderOneFrame).Threw? {
      FramesAbort(n + 1, budget, w, history);
    }
  }

  /** The first step that throws decides the whole run: it is the last call
      made, and nothing after it runs. */
  lemma FirstThrowDecides(steps: seq<Event>, w: World, history: seq<Event>, k: nat)
    requires k < |steps|
    requires At(steps, w, history, k).Threw?
    requires forall i :: 0 <= i < k ==> At(steps, w, history, i).Returned?
    ensures var out := At(steps, w, history, k);
      RunSteps(steps, w, history) == Exec(steps[..k + 1], Some(Rethrown(steps[k], out.what, out.isStdException)))
  {
    RunStepsStopsAtThrow(steps, w, history);
  }

  /** A setup call that returns `false` does not stop `init`: only exceptions
      do, so when no call throws all four steps run and `init` succeeds. */
  lemma ReturnedValuesIgnored(w: World, history: seq<Event>)
    requires forall i :: 0 <= i < |InitSteps| ==> At(InitSteps, w, history, i).Returned?
    ensures RunSteps(InitSteps, w, history) == Exec(InitSteps, None)
  {
    RunStepsStopsAtThrow(InitSteps, w, history);
  }

  /** An `init` error tagged with a subsystem comes from that subsystem's
      setup call, which threw a `std::exception`; that call is the last one
      `init` made, so no later subsystem was set up and the shader generator
      was not touched. */
  lemma InitFailureNamesSubsystem(w: World, history: seq<Event>)
    ensures var r := RunSteps(InitSteps, w, history);
      r.err.Some? && r.err.value.InitFail? ==>
        var s := r.err.value.subsystem;
        && r.events == InitSteps[..StepOf(s) + 1]
        && r.events[|r.events| - 1] == SetupOf(s)
        && At(InitSteps, w, history, StepOf(s)) == Threw(r.err.value.cause, true)
        && ShaderGeneratorSetup !in r.events
  {
    var r := RunSteps(InitSteps, w, history);
    RunStepsStopsAtThrow(InitSteps, w, history);
    if r.err.Some? && r.err.value.InitFail? {
      var k := |r.events| - 1;
      assert ThrewAt(InitSteps, w, history, k, r.err.value);
      assert InitSteps[..k + 1] == r.events;
    }
  }

  /** No frame is rendered unless `init` completed all four steps, in order,
      and the running flag was set; in particular a failing `init` means no
      `update`. */
  lemma NoFrameBeforeInit(running: bool, budget: nat, w: World, history: seq<Event>)
    ensures var r := RunSpec(running, budget, w, history);
      RenderOneFrame in r.events ==>
        && running
        && RunSteps(InitSteps, w, history) == Exec(InitSteps, None)
        && r.events[..|InitSteps|] == InitSteps
  {
    var init := RunSteps(InitSteps, w, history);
    assert RenderOneFrame !in InitSteps;
    assert RenderOneFrame !in init.events by {
      assert init.events == InitSteps[..|init.events|];
    }
  }

  /** An error from a frame render ends `run`: the render was the last call,
      it threw a `std::exception`, and fewer frames than the budget ran. */
  lemma RenderFailureEndsRun(running: bool, budget: nat, w: World, history: seq<Event>)
    ensures var r := RunSpec(running, budget, w, history);
      r.err.Some? && r.err.value.RenderFail? ==>
        && |InitSteps| < |r.events| <= |InitSteps| + budget
        && r.events == InitSteps + Frames(|r.events| - |InitSteps|)
        && w(history + r.events[..|r.events| - 1], RenderOneFrame) == Threw(r.err.value.cause, true)
  {
    var r := RunSpec(running, budget, w, history);
    var init := RunSteps(InitSteps, w, history);
    RunStepsStopsAtThrow(InitSteps, w, history);
    if r.err.Some? && r.err.value.RenderFail? {
      var frames := RunSteps(Frames(budget), w, history + init.events);
      RunStepsStopsAtThrow(Frames(budget), w, history + init.events);
      var k := |frames.events| - 1;
      assert ThrewAt(Frames(budget), w, history + init.events, k, frames.err.value);
      assert frames.events == Frames(k + 1);
      assert r.events[..|r.events| - 1] == init.events + Frames(budget)[..k];
      assert history + r.events[..|r.events| - 1] == history + init.events + Frames(budget)[..k];
    }
  }

  /** With the flag set and no call throwing, `run` makes the four init calls
      and then renders a frame on every iteration it is given. */
  lemma QuietRunRendersEveryFrame(budget: nat, w: World, history: seq<Event>)
    requires forall e, h :: w(h, e).Returned?
    ensures RunSpec(true, budget, w, history) == Exec(InitSteps + Frames(budget), None)
  {
    RunStepsStopsAtThrow(InitSteps, w, history);
    RunStepsStopsAtThrow(Frames(budget), w, history + InitSteps);
  }

  /** `PapagayoEngine`: the engine object. `running_` is declared in
      PapagayoEngine.h, which is not part of this model; it is taken to start
      set, and nothing in the engine's own code clears it. */
  class PapagayoEngine {
    const appName: string
    var running: bool

    constructor (appName: string)
      ensures this.appName == appName && running
    {
      this.appName := appName;
      running := true;
    }
  }

  /** The process-wide state of PapagayoEngine.cpp: the static `instance_`,
      the world it calls into, and the trace of those calls. */
  class EngineRuntime {
    const world: World
    var instance: PapagayoEngine?
    var trace: seq<Event>

    constructor (world: World)
      ensures this.world == world && instance == null && trace == []
    {
      this.world := world;
      instance := null;
      trace := [];
    }

    /** `setupInstance`: creates the engine under `appName` and answers true
        only if there was none; otherwise answers false and keeps the engine
        (and its name) that was there. */
    method SetupInstance(appName: string) returns (created: bool)
      modifies this
      ensures created <==> old(instance) == null
      ensures created ==> instance != null && fresh(instance) && instance.appName == appName && instance.running
      ensures !created ==> instance == old(instance)
      ensures trace == old(trace)
    {
      if instance == null {
        instance := new PapagayoEngine(appName);
        return true;
      }
      return false;
    }

    /** `getInstance`: creates the engine under the default name only when
        there is none, and otherwise hands back the one there is. The throw
        for a failed creation cannot happen. */
    method GetInstance() returns (e: PapagayoEngine)
      modifies this
      ensures old(instance) != null ==> e == old(instance)
      ensures old(instance) == null ==> fresh(e) && e.appName == DefaultAppName
      ensures instance == e && trace == old(trace)
    {
      if instance == null {
        var created := SetupInstance(DefaultAppName);
        if !created {
          assert false;
        }
      }
      e := instance;
    }

    /** One call into the world: it is recorded, and the world decides how it ends. */
    method Call(ev: Event) returns (out: Outcome)
      modifies this
      ensures out == world(old(trace), ev) && trace == old(trace) + [ev]
      ensures instance == old(instance)
    {
      out := world(trace, ev);
      trace := trace + [ev];
    }

    /** `init`: the four setup calls in order, stopping at the first that
        throws. */
    method Init() returns (err: Option<EngineError>)
      modifies this
      ensures var r := RunSteps(InitSteps, world, old(trace));
        trace == old(trace) + r.events && err == r.err
      ensures instance == old(instance)
    {
      ghost var h := trace;
      RunStepsCons(InitSteps, world, h);
      var out := Call(OgreContextSetup(DefaultAppName));
      if out.Threw? {
        return Some(Rethrown(OgreContextSetup(DefaultAppName), out.what, out.isStdException));
      }
      RunStepsCons(InitSteps[1..], world, trace);
      out := Call(ResourceManagerSetup(AssetsRoot));
      if out.Threw? {
        return Some(Rethrown(ResourceManagerSetup(AssetsRoot), out.what, out.isStdException));
      }
      RunStepsCons(InitSteps[2..], world, trace);
      assert InitSteps[1..][1..] == InitSteps[2..];
      out := Call(SceneManagerSetup);
      if out.Threw? {
        return Some(Rethrown(SceneManagerSetup, out.what, out.isStdException));
      }
      RunStepsCons(InitSteps[3..], world, trace);
      assert InitSteps[2..][1..] == InitSteps[3..];
      assert InitSteps[3..][1..] == [];
      out := Call(ShaderGeneratorSetup);
      if out.Threw? {
        return Some(Rethrown(ShaderGeneratorSetup, out.what, out.isStdException));
      }
      err := None;
    }

    /** `update`: renders exactly one frame; a `std::exception` from it comes
        out as a render failure. */
    method Update() returns (err: Option<EngineError>)
      modifies this
      ensures trace == old(trace) + [RenderOneFrame]
      ensures var out := world(old(trace), RenderOneFrame);
        err == if out.Threw? then Some(Rethrown(RenderOneFrame, out.what, out.isStdException)) else None
      ensures instance == old(instance)
    {
      var out := Call(RenderOneFrame);
      err := if out.Threw? then Some(Rethrown(RenderOneFrame, out.what, out.isStdException)) else None;
    }

    /** The main loop of `run`: `update` while the flag holds, observed for
        at most `budget` iterations, ending at the first error. */
    method MainLoop(e: PapagayoEngine, budget: nat) returns (err: Option<EngineError>)
      modifies this
      ensures var frames := RunSteps(Frames(budget), world, old(trace));
        if e.running then trace == old(trace) + frames.events && err == frames.err
        else trace == old(trace) && err.None?
      ensures instance == old(instance)
    {
      ghost var h := trace;
      ghost var frames := RunSteps(Frames(budget), world, h);
      err := None;
      var n := 0;
      while e.running && n < budget
        invariant 0 <= n <= budget
        invariant !e.running ==> n == 0
        invariant err.None?
        invariant trace == h + Frames(n)
        invariant RunSteps(Frames(n), world, h) == Exec(Frames(n), None)
        invariant instance == old(instance)
      {
        FramesStep(n, budget, world, h);
        err := Update();
        if err.Some? {
          return;
        }
        n := n + 1;
      }
    }

    /** `run` on engine `e`: `init` once, then `update` while `e`'s running
        flag holds (checked before every iteration), for at most `budget`
        iterations; the first error ends it. */
    method Run(e: PapagayoEngine, budget: nat) returns (err: Option<EngineError>)
      modifies this
      ensures var r := RunSpec(old(e.running), budget, world, old(trace));
        trace == old(trace) + r.events && err == r.err
      ensures instance == old(instance)
    {
      ghost var h := trace;
      err := Init();
      if err.Some? {
        return;
      }
      ghost var init := RunSteps(InitSteps, world, h);
      err := MainLoop(e, budget);
      assert h + init.events + RunSteps(Frames(budget), world, h + init.events).events
        == h + (init.events + RunSteps(Frames(budget), world, h + init.events).events);
    }

    /** `clean`: cleans the scene manager, then the resource manager, then
        deletes the engine, leaving `instance_` as it was. */
    method Clean() returns (err: Option<EngineError>)
      modifies this
      ensures var r := RunSteps(CleanSteps, world, old(trace));
        trace == old(trace) + r.events + (if r.err.None? then [EngineDeleted] else [])
        && err == r.err
      ensures instance == old(instance)
    {
      ghost var h := trace;
      RunStepsCons(CleanSteps, world, h);
      var out := Call(SceneManagerClean);
      if out.Threw? {
        return Some(Rethrown(SceneManagerClean, out.what, out.isStdException));
      }
      RunStepsCons(CleanSteps[1..], world, trace);
      assert CleanSteps[1..][1..] == [];
      out := Call(ResourceManagerClean);
      if out.Threw? {
        return Some(Rethrown(ResourceManagerClean, out.what, out.isStdException));
      }
      trace := trace + [EngineDeleted];
      err := None;
    }
  }
}
