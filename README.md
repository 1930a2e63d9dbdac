# Papagayo engine orchestration, modelled in Dafny

This project models the orchestration layer of the Papagayo game engine:

- **Engine lifecycle** (`Engine/src/PapagayoEngine.cpp`, module `Engine`).
  This covers the singleton guard `setupInstance`/`getInstance` and the
  fixed-order `init`. `init` sets up the rendering context, the resource
  manager (rooted at `"assets/"`), the scene manager and the RT shader
  generator. It stops at the first exception. A `std::exception` from one of
  the first three setup calls is rethrown tagged with that subsystem's name.
  A throw from the shader generator step, or any exception that is not a
  `std::exception`, leaves `init` untagged. It also covers the `run` loop, which calls `update` while
  `running_` holds and renders one frame per `update`, and `clean`.
  - Every call the engine makes into another subsystem is an `Event` recorded
    in a trace.
  - Whether a call returns or throws is decided by a `World`: a function of
    the calls made so far and the call being made.
  - The pure function `RunSteps` runs a sequence of calls and stops at the
    first throw. The methods `Init`, `Update`, `Run` and `Clean` are proved
    against it. The lemmas state ordering and abort properties.
- **Manager state** (`Engine/include/Common/Manager.h`, module `Common`).
  Every manager has one `ManID` fixed at construction and one ordered
  component list. `getComponents` returns a snapshot, and `destroyComponent`
  says whether it removed anything.
- **Render manager** (`Engine/src/Graphics/RenderManager.cpp`, module
  `Graphics`). The manager is created lazily and tagged `Render`. Its registry
  holds exactly four component type names. `start` calls `setUp` on every
  component, once each, in list order. `update` renders one frame and then
  calls each component's `update` the same way.
- **UI manager** (`Engine/src/UI/UIManager.cpp`, module `UI`):
  - its singleton guard, which answers true when an instance already exists;
  - `captureInput`'s classification of an SDL event into at most one GUI
    injection (`Classify`);
  - widget type names built as `<scheme>/Button`, `/Slider`, `/Label` or
    `/StaticImage`, with an inverse (`ParseWidgetType`) and a round-trip
    lemma;
  - `setWidgetDestRect`, which puts the position in CEGUI's scale slots and
    the size in its offset slots.

Static `instance_` fields become a runtime object per singleton
(`EngineRuntime`, `RenderRuntime`, `UIRuntime`) that holds a nullable
instance. The abstract `Manager` class becomes a `Manager` object, and each
concrete manager holds one as its `base`.

## Model

| member | source | states |
|---|---|---|
| Engine.RunSteps | Engine/src/PapagayoEngine.cpp:56-78 | The calls made are a prefix of the steps, in order. Every call but the last returned. A run that stops early stops with an error. |
| Engine.RunStepsStopsAtThrow | Engine/src/PapagayoEngine.cpp:56-78 | A run that ends in an error ends at the call that threw: the last call made threw, and the error is that exception as its handler rethrows it. |
| Engine.RunStepsAppend | Engine/src/PapagayoEngine.cpp:102-107 | Running two step sequences back to back runs the second only when the first did not throw. The second sees the first's calls in its history. |
| Engine.FirstThrowDecides | Engine/src/PapagayoEngine.cpp:56-76 | The first step that throws is the last call made. Nothing after it runs, and its rethrown exception is the result. |
| Engine.ReturnedValuesIgnored | Engine/src/PapagayoEngine.cpp:58-72 | A setup call that returns (true or false) never stops `init`. If none throws, all four steps run and `init` succeeds. |
| Engine.InitFailureNamesSubsystem | Engine/src/PapagayoEngine.cpp:58-76 | An `init` error tagged with a subsystem comes from that subsystem's setup call. That call threw a `std::exception` and was the last one made. The shader generator was not reached. |
| Engine.Rethrown | Engine/src/PapagayoEngine.cpp:58-96 | Only a `std::exception` from one of the three guarded setup calls becomes an `init` failure, naming that call's subsystem. Only a `std::exception` from a frame render becomes a render failure. Everything else passes through untagged, and the exception's message is always kept. |
| Engine.FrameErrorTag | Engine/src/PapagayoEngine.cpp:87-98 | A frame render fails with a render error exactly when it threw a `std::exception` with that message. Any other throw passes through untagged. A render that returns is no error. |
| Engine.FramesAbort | Engine/src/PapagayoEngine.cpp:105-107 | Once a frame fails, the loop's remaining iterations do not run. |
| Engine.FramesStep | Engine/src/PapagayoEngine.cpp:105-107 | After `n` good frames, the next iteration either renders too or its failure ends the whole loop. |
| Engine.NoFrameBeforeInit | Engine/src/PapagayoEngine.cpp:102-107 | A frame is rendered only if `running_` was set and `init` completed all four steps first, in order. A failing `init` means no `update`. |
| Engine.RenderFailureEndsRun | Engine/src/PapagayoEngine.cpp:87-107 | A render failure ends `run`. The trace is then the init steps followed by frames, the last frame threw a `std::exception`, and at most `budget` frames ran. |
| Engine.QuietRunRendersEveryFrame | Engine/src/PapagayoEngine.cpp:102-107 | When no call throws and the flag is set, `run` makes the four init calls and then one render per iteration. |
| Engine.PapagayoEngine.constructor | Engine/src/PapagayoEngine.cpp:19-20 | The engine keeps the application name it was created with. |
| Engine.EngineRuntime.SetupInstance | Engine/src/PapagayoEngine.cpp:35-43 | Answers true exactly when there was no instance, and then creates one with `appName`. Otherwise it answers false and keeps the existing instance and its name. |
| Engine.EngineRuntime.GetInstance | Engine/src/PapagayoEngine.cpp:26-32 | Returns the existing instance. Only when there is none does it create one named "PAPAGAYO ENGINE". The throw branch is proved unreachable. |
| Engine.EngineRuntime.Init | Engine/src/PapagayoEngine.cpp:56-82 | The trace grows by exactly the calls `RunSteps` makes over the four init steps, and the error is the one it reports. |
| Engine.EngineRuntime.Update | Engine/src/PapagayoEngine.cpp:87-98 | Exactly one render is made. Its `std::exception` becomes a render failure. Any other exception passes through untagged. |
| Engine.RunSpec | Engine/src/PapagayoEngine.cpp:102-107 | A failed `init`, or a clear flag, is the whole run: `init`'s calls and error. Otherwise `init`'s calls come first, and everything after them is frames, at most `budget` of them. With no error the trace is the four init calls, then one frame per iteration when the flag is set and none when it is clear. |
| Engine.EngineRuntime.Run | Engine/src/PapagayoEngine.cpp:102-107 | The trace and error are those of `RunSpec`: `init` once, then `update` while the flag holds, stopping at the first error. |
| Engine.EngineRuntime.MainLoop | Engine/src/PapagayoEngine.cpp:105-107 | With the flag set, the trace grows by exactly the frames `RunSteps` renders over `budget` iterations, ending at the first error. With the flag clear, nothing is called. |
| Engine.EngineRuntime.Clean | Engine/src/PapagayoEngine.cpp:45-54 | Cleans the scene manager, then the resource manager, then deletes the engine. The instance pointer is not reset. |
| Common.FirstMatch | Engine/include/Common/Manager.h:30 | Finds the first component of the entity with the type, or reports that there is none. |
| Common.RemovalKeepsOthers | Engine/include/Common/Manager.h:30 | Removing one component from a duplicate-free list keeps it duplicate-free. The component is gone, and the multiset of the rest is unchanged. |
| Common.Manager.constructor | Engine/include/Common/Manager.h:18-21 | A manager gets its one `ManID` at construction and starts with an empty list. |
| Common.Manager.GetComponents | Engine/include/Common/Manager.h:28 | Returns the list as a value: a snapshot of the components in order. |
| Common.Manager.GetId | Engine/include/Common/Manager.h:32 | Reports the tag given at construction. |
| Common.Manager.AddComponent | Engine/include/Common/Manager.h:24 | A new component goes to the back of the list, so list order is insertion order. |
| Common.Manager.DestroyComponent | Engine/include/Common/Manager.h:30 | Answers true exactly when some component matches, and removes the first match keeping the others' order. Otherwise the list is unchanged. |
| Common.Manager.DestroyAllComponents | Engine/include/Common/Manager.h:29 | The list is empty afterwards. |
| Graphics.RenderRegistry | Engine/src/Graphics/RenderManager.cpp:18-21 | The registered names are exactly "MeshComponent", "Camera", "LightComponent" and "PlaneComponent". Each maps to the class of the same name. |
| Graphics.RegistryHasFourTypes | Engine/src/Graphics/RenderManager.cpp:18-21 | Exactly four names are registered, and every render component class is reachable through its own name. |
| Graphics.Dispatch | Engine/src/Graphics/RenderManager.cpp:35-50 | The i-th call is the hook on the i-th component: one call per component, in list order. |
| Graphics.DispatchOncePerComponent | Engine/src/Graphics/RenderManager.cpp:35-50 | On a duplicate-free list the hook runs exactly once on each listed component and never on another. |
| Graphics.DispatchAppend | Engine/src/Graphics/RenderManager.cpp:37-40 | Dispatch over a list is dispatch over its first part followed by its rest. |
| Graphics.RenderManager.constructor | Engine/src/Graphics/RenderManager.cpp:14-22 | The manager is tagged `Render`, holds the four-name registry and starts with no components. |
| Graphics.RenderManager.RegisterComponent | Engine/src/Graphics/RenderManager.cpp:18-21 | Records the constructor under the name and leaves every other name's entry as it was. |
| Graphics.RenderManager.AddComponent | Engine/include/Common/Manager.h:24 | A registered type name yields a fresh component of that type for the entity, appended to the list. An unknown name is reported and changes nothing. |
| Graphics.RenderManager.Start | Engine/src/Graphics/RenderManager.cpp:35-41 | Calls `setUp` once on each component, in list order. Only the call record changes, so the list and registry are untouched. |
| Graphics.RenderManager.Update | Engine/src/Graphics/RenderManager.cpp:43-50 | Renders one frame before any component's `update`, then calls `update` once on each component in list order. The list is untouched. |
| Graphics.RenderRuntime.GetInstance | Engine/src/Graphics/RenderManager.cpp:28-33 | Constructs the manager on the first call and returns that same manager on every later call. |
| UI.ButtonOf | Engine/src/UI/UIManager.cpp:214-224 | Only SDL's left and right buttons have a CEGUI button. Every other button has none. |
| UI.Classify | Engine/src/UI/UIManager.cpp:211-235 | Press or release of left or right injects that button's down or up. Motion injects exactly (x, y). Any other event type notifies a resize exactly when its window sub-event is maximized, resized or size-changed. Everything else injects nothing. |
| UI.MouseEventsIgnoreWindowField | Engine/src/UI/UIManager.cpp:213-230 | For mouse events the window sub-event is never consulted. |
| UI.UpMirrorsDown | Engine/src/UI/UIManager.cpp:213-226 | A release is handled like a press of the same button, with an up injection in place of a down. |
| UI.WidgetTypeName | Engine/src/UI/UIManager.cpp:146-187 | A window type is exactly the scheme name followed by the widget kind's suffix, which starts with `/`. |
| UI.ParseWidgetType | Engine/src/UI/UIManager.cpp:142-197 | A recognised window type splits back into a scheme and a widget kind that rebuild it. |
| UI.ParseWidgetTypeRoundTrip | Engine/src/UI/UIManager.cpp:142-197 | The type name built from a scheme and kind reads back as that scheme and kind. |
| UI.WidgetTypeNameInjective | Engine/src/UI/UIManager.cpp:142-197 | Two widgets share a type name only when they share both kind and scheme. |
| UI.DestRect | Engine/src/UI/UIManager.cpp:199-205 | Position goes into the scale parts with offset 0, and size into the offset parts with scale 0. So the position scales with the parent, and the size is the same number of pixels whatever the parent. |
| UI.DestRectRoundTrip | Engine/src/UI/UIManager.cpp:199-205 | The position and size can be read back from the area. |
| UI.NewWidget | Engine/src/UI/UIManager.cpp:142-197 | A created window's type reads back as the current scheme and the requested kind. It keeps the given name, text and properties, and is placed by `setWidgetDestRect`. |
| UI.ImageProperties | Engine/src/UI/UIManager.cpp:190-192 | A static image gets exactly three properties: frame off, background off, and the given image. |
| UI.UIManager.constructor | Engine/src/UI/UIManager.cpp:13-36 | The manager is tagged `UI` and starts with an empty root window and no scheme name. |
| UI.UIManager.LoadScheme | Engine/src/UI/UIManager.cpp:88-92 | Later widgets use this scheme name, and the scheme file is loaded. |
| UI.UIManager.CreateButton | Engine/src/UI/UIManager.cpp:142-153 | Creates a "<scheme>/Button" window with the text and adds it as the root's last child. |
| UI.UIManager.CreateSlider | Engine/src/UI/UIManager.cpp:155-165 | Creates a "<scheme>/Slider" window with the name and adds it as the root's last child. |
| UI.UIManager.CreateLabel | Engine/src/UI/UIManager.cpp:167-181 | Creates a "<scheme>/Label" window with the text and adds it as the root's last child. |
| UI.UIManager.CreateImage | Engine/src/UI/UIManager.cpp:183-197 | Creates a "<scheme>/StaticImage" window with frame and background off and the image set, and adds it as the root's last child. |
| UI.UIManager.Start | Engine/src/UI/UIManager.cpp:70-72 | Changes nothing. |
| UI.UIManager.Update | Engine/src/UI/UIManager.cpp:74-76 | Changes nothing. |
| UI.UIManager.Clean | Engine/src/UI/UIManager.cpp:59-61 | Changes nothing. |
| UI.UIManager.CaptureInput | Engine/src/UI/UIManager.cpp:211-235 | Passes on the one action `Classify` picks, or nothing. |
| UI.UIRuntime.SetUpInstance | Engine/src/UI/UIManager.cpp:47-57 | With no instance it constructs one and answers true, or answers false and stays null when construction throws. With an instance present it answers true and constructs nothing, unlike the engine's guard. |
| UI.UIRuntime.GetInstance | Engine/src/UI/UIManager.cpp:42-45 | Never constructs. It returns the instance as it is, null included. |
| UI.UIRuntime.Destroy | Engine/src/UI/UIManager.cpp:63-68 | Cleans, then tears down the GUI system, then deletes the manager. The instance pointer is not reset. |

## Left out

- Engine.EngineRuntime.Run: `while (running_)` has no bound in the source. The model observes at most `budget` iterations, so a run that never ends is seen as a prefix.
- Engine.PapagayoEngine.constructor: `running_` is declared in PapagayoEngine.h, which is not part of this model. The flag is taken to start set. Nothing in the modelled code clears it.
- Graphics.RenderManager.Update: an exception from `renderOneFrame` inside the render manager is not modelled, so the frame render always returns there. The engine's own `update` does model render failures. Component `update` hooks always return too. In the source a hook that throws ends the loop and skips the later components, and a hook that appends to the list would be reached by the same loop. The model runs every hook over the list as it was when the loop began.
- Graphics.RenderManager.Start: component `setUp` hooks always return and do not change the list. In the source a hook that throws ends the loop early and skips the later components, and a hook that appends to the list would be reached by the same loop.
- Graphics.RenderRuntime.GetInstance: the constructor's call into the rendering context always succeeds. In the source a throw there leaves `getInstance` with `instance_` still null; that path is not modelled.
- Graphics.RenderManager.RegisterComponent: the body of `registerComponent` is not part of this model. The model assumes a later registration under the same name replaces the earlier one. With the four distinct names registered at RenderManager.cpp:18-21, this choice cannot be observed.
- Graphics.RenderManager.AddComponent: the concrete `addComponent` body is not part of this model. The model looks the type name up in the registry, constructs that component, and appends it. It keys components by type name instead of the header's `int compId`.
- Common.Manager.DestroyComponent: Manager.cpp is not part of this model. Removal takes out the first component whose owner and type name match. The entity's own component list is not modelled.
- Common.Manager.DestroyAllComponents: releasing the components' memory is not modelled.
- Scene and Entity (Scene.h, Entity.h): their bodies are not part of this model, so name disambiguation, `getEntity` and `clean` are left out.
- The `MeshComponent` that `init` allocates and never uses is left out. So are dangling pointers after `delete` without nulling; only whether an instance is set is modelled.
- Error messages are reduced to a tag naming the failing subsystem (`InitFail`, `RenderFail`) plus the cause. Exceptions that are not `std::exception` pass through untagged (`Uncaught`).
- `ManID`: the header declares only `Physics = 0`, but the managers construct with `Render` and `UI`. The model's `ManID` has all three tags. `getId`'s conversion to `int` is not modelled because the values of `Render` and `UI` are not declared.
- Construction of the UI manager (Ogre window, CEGUI bootstrap, resource groups, root window, frame listener) is reduced to one flag that says whether it throws.
- UI manager: `windowResized`'s metrics, `loadFont`, `setFont`, `loadLayout`, `setMouseImage`, `setMouseVisibility`, `getRenderer`, `getContext`, `createFrameListener` and the slider's rotation are foreign CEGUI and Ogre calls and are left out.
- Widgets are values. Later changes made through the returned `CEGUI::Window*` are not modelled.
- `glm::vec2` and CEGUI's `UDim` hold floats; the model uses reals, without rounding.
- The SDL constant values (event types, button numbers, window sub-events) are those of the SDL2 headers, which are not part of this model.
- Facts about the code that the model keeps as they are:
  - The engine's `update` only renders a frame; it calls no manager's `update`.
  - `init` has no guard against a second call.
  - The shader generator step sits in no handler.
  - The UI manager's guard answers true when an instance already exists.
