/** The UI manager's own decisions (Engine/src/UI/UIManager.cpp): its
    singleton guard, the classification of SDL events into GUI injections,
    the widget type names built from the current scheme, and the mapping of
    a widget's position and size into CEGUI's scale and offset slots. The
    CEGUI calls themselves are recorded as values. */
module UI {
  import opened Wrappers
  import opened Common

  // ---------------------------------------------------------------------
  // Input: SDL events to GUI injections

  /** The SDL2 constants `captureInput` compares against (SDL_events.h,
      SDL_mouse.h, SDL_video.h). */
  const SdlMouseMotion: nat := 0x400
  const SdlMouseButtonDown: nat := 0x401
  const SdlMouseButtonUp: nat := 0x402
  const SdlButtonLeft: nat := 1
  const SdlButtonRight: nat := 3
  const SdlWindowEventResized: nat := 5
  const SdlWindowEventSizeChanged: nat := 6
  const SdlWindowEventMaximized: nat := 8

  /** The fields of an `SDL_Event` that `captureInput` reads. `SDL_Event` is
      a union: for an event of another type, `button`, `motionX`, `motionY`
      and `windowEvent` are whatever that event's bytes read as there. */
  datatype SdlEvent = SdlEvent(eventType: nat, button: nat, motionX: int, motionY: int, windowEvent: nat)

  datatype MouseButton = LeftButton | RightButton

  /** What `captureInput` passes on to the GUI context. `DisplayResized` is
      the call to `windowResized`, which tells CEGUI the display size. */
  datatype GuiAction =
    | NoInjection
    | ButtonDown(button: MouseButton)
    | ButtonUp(button: MouseButton)
    | MousePosition(x: int, y: int)
    | DisplayResized

  predicate IsMouseEvent(eventType: nat)
  {
    eventType == SdlMouseButtonDown || eventType == SdlMouseButtonUp || eventType == SdlMouseMotion
  }

  predicate IsResize(windowEvent: nat)
  {
    windowEvent == SdlWindowEventMaximized || windowEvent == SdlWindowEventResized
      || windowEvent == SdlWindowEventSizeChanged
  }

  /** The CEGUI button for an SDL button: only left and right have one. */
  function ButtonOf(sdlButton: nat): (b: Option<MouseButton>)
    ensures b == Some(LeftButton) <==> sdlButton == SdlButtonLeft
    ensures b == Some(RightButton) <==> sdlButton == SdlButtonRight
    ensures b.None? <==> sdlButton != SdlButtonLeft && sdlButton != SdlButtonRight
  {
    if sdlButton == SdlButtonLeft then Some(LeftButton)
    else if sdlButton == SdlButtonRight then Some(RightButton)
    else None
  }

  /** `captureInput`'s decision: a button press or release of the left or
      right button injects that button's press or release, any other button
      nothing; motion injects the pointer position; for every other event
      type a window sub-event of maximize, resize or size change notifies
      the new display size, and anything else injects nothing. */
  function Classify(ev: SdlEvent): (a: GuiAction)
    ensures a.ButtonDown? <==> ev.eventType == SdlMouseButtonDown && ButtonOf(ev.button).Some?
    ensures a.ButtonUp? <==> ev.eventType == SdlMouseButtonUp && ButtonOf(ev.button).Some?
    ensures (a.ButtonDown? || a.ButtonUp?) ==> ButtonOf(ev.button) == Some(a.button)
    ensures a.MousePosition? <==> ev.eventType == SdlMouseMotion
    ensures a.MousePosition? ==> a.x == ev.motionX && a.y == ev.motionY
    ensures a.DisplayResized? <==> !IsMouseEvent(ev.eventType) && IsResize(ev.windowEvent)
  {
    if ev.eventType == SdlMouseButtonDown then
      match ButtonOf(ev.button)
      case Some(b) => ButtonDown(b)
      case None => NoInjection
    else if ev.eventType == SdlMouseButtonUp then
      match ButtonOf(ev.button)
      case Some(b) => ButtonUp(b)
      case None => NoInjection
    else if ev.eventType == SdlMouseMotion then
      MousePosition(ev.motionX, ev.motionY)
    else if IsResize(ev.windowEvent) then
      DisplayResized
    else
      NoInjection
  }

  /** Mouse events never reach the window branch: what their bytes would
      read as a window sub-event does not matter. */
  lemma MouseEventsIgnoreWindowField(ev: SdlEvent, windowEvent: nat)
    requires IsMouseEvent(ev.eventType)
    ensures Classify(ev.(windowEvent := windowEvent)) == Classify(ev)
  {
  }

  /** The release of a button is handled as its press is, with a release
      injected instead of a press. */
  lemma UpMirrorsDown(ev: SdlEvent)
    ensures var down := Classify(ev.(eventType := SdlMouseButtonDown));
      Classify(ev.(eventType := SdlMouseButtonUp)) ==
        if down.ButtonDown? then ButtonUp(down.button) else NoInjection
  {
  }

  // ---------------------------------------------------------------------
  // Widget type names

  datatype WidgetKind = Button | Slider | Label | StaticImage

  /** The part of a CEGUI window type after the scheme name. */
  function KindSuffix(k: WidgetKind): string
  {
    match k
    case Button => "/Button"
    case Slider => "/Slider"
    case Label => "/Label"
    case StaticImage => "/StaticImage"
  }

  /** The window type a `create*` call asks for under scheme `scheme`. */
  function WidgetTypeName(scheme: string, k: WidgetKind): (t: string)
    ensures |t| == |scheme| + |KindSuffix(k)| && t[..|scheme|] == scheme && t[|scheme|..] == KindSuffix(k)
    ensures t[|scheme|] == '/'
  {
    scheme + KindSuffix(k)
  }

  predicate HasSuffix(t: string, suffix: string)
  {
    |suffix| <= |t| && t[|t| - |suffix|..] == suffix
  }

  /** Splits a window type into its scheme and widget kind: the inverse of
      `WidgetTypeName`. */
  function ParseWidgetType(t: string): (r: Option<(string, WidgetKind)>)
    ensures r.Some? ==> WidgetTypeName(r.value.0, r.value.1) == t
  {
    var k :=
      if HasSuffix(t, "/StaticImage") then Some(StaticImage)
      else if HasSuffix(t, "/Button") then Some(Button)
      else if HasSuffix(t, "/Slider") then Some(Slider)
      else if HasSuffix(t, "/Label") then Some(Label)
      else None;
    match k
    case None => None
    case Some(kind) =>
      var scheme := t[..|t| - |KindSuffix(kind)|];
      assert t == scheme + t[|t| - |KindSuffix(kind)|..];
      Some((scheme, kind))
  }

  /** A string ending in `x` does not end in `y` when `y`'s last `|x|`
      characters are not `x`. */
  lemma NotSuffix(s: string, x: string, y: string)
    requires |x| <= |y| && y[|y| - |x|..] != x
    ensures !HasSuffix(s + x, y)
  {
  }

  /** Reading back the type name of a widget gives the scheme and the kind it
      was built from. */
  lemma ParseWidgetTypeRoundTrip(scheme: string, k: WidgetKind)
    ensures ParseWidgetType(WidgetTypeName(scheme, k)) == Some((scheme, k))
  {
    var t := WidgetTypeName(scheme, k);
    assert t[|t| - |KindSuffix(k)|..] == KindSuffix(k);
    assert t[..|scheme|] == scheme;
    match k
    case StaticImage =>
    case Button =>
      NotSuffix(scheme, "/Button", "/StaticImage");
    case Slider =>
      NotSuffix(scheme, "/Slider", "/StaticImage");
      NotSuffix(scheme, "/Slider", "/Button");
    case Label =>
      NotSuffix(scheme, "/Label", "/StaticImage");
      NotSuffix(scheme, "/Label", "/Button");
      NotSuffix(scheme, "/Label", "/Slider");
  }

  /** Two widgets get the same type name only when they have the same kind
      and were made under the same scheme. */
  lemma WidgetTypeNameInjective(s1: string, k1: WidgetKind, s2: string, k2: WidgetKind)
    requires WidgetTypeName(s1, k1) == WidgetTypeName(s2, k2)
    ensures s1 == s2 && k1 == k2
  {
    ParseWidgetTypeRoundTrip(s1, k1);
    ParseWidgetTypeRoundTrip(s2, k2);
  }

  // ---------------------------------------------------------------------
  // Widget placement

  /** A `glm::vec2`. */
  datatype Vec2 = Vec2(x: real, y: real)

  /** A CEGUI `UDim`: a fraction of the parent's length plus a pixel offset. */
  datatype UDim = UDim(scale: real, offset: real)

  /** A pair of `UDim`s (a `UVector2` or a `USize`). */
  datatype UPair = UPair(x: UDim, y: UDim)

  /** A widget's position and size. */
  datatype Area = Area(position: UPair, size: UPair)

  /** The pixels a `UDim` stands for inside a parent `parentLength` long. */
  function Resolve(u: UDim, parentLength: real): real
  {
    u.scale * parentLength + u.offset
  }

  function ResolvePair(p: UPair, parentWidth: real, parentHeight: real): Vec2
  {
    Vec2(Resolve(p.x, parentWidth), Resolve(p.y, parentHeight))
  }

  /** `setWidgetDestRect`: the position is taken as a fraction of the parent
      (it scales with the parent, no pixel offset) and the size as pixels
      (the same whatever the parent's size). */
  function DestRect(position: Vec2, size: Vec2): (r: Area)
    ensures r.position.x.offset == 0.0 && r.position.y.offset == 0.0
    ensures r.size.x.scale == 0.0 && r.size.y.scale == 0.0
    ensures forall w, h :: ResolvePair(r.position, w, h) == Vec2(position.x * w, position.y * h)
    ensures forall w, h :: ResolvePair(r.size, w, h) == size
  {
    Area(UPair(UDim(position.x, 0.0), UDim(position.y, 0.0)), UPair(UDim(0.0, size.x), UDim(0.0, size.y)))
  }

  /** The position and size a widget was placed with can be read back from
      its area. */
  lemma DestRectRoundTrip(position: Vec2, size: Vec2)
    ensures var r := DestRect(position, size);
      Vec2(r.position.x.scale, r.position.y.scale) == position && ResolvePair(r.size, 0.0, 0.0) == size
  {
  }

  // ---------------------------------------------------------------------
  // Widgets and the manager

  /** A window the manager created. */
  datatype Widget = Widget(typeName: string, name: string, area: Area, text: string, properties: map<string, string>)

  /** The window a `create*` call builds under scheme `scheme`. */
  function NewWidget(scheme: string, kind: WidgetKind, name: string, position: Vec2, size: Vec2,
                     text: string, properties: map<string, string>): (w: Widget)
    ensures ParseWidgetType(w.typeName) == Some((scheme, kind))
    ensures w.name == name && w.text == text && w.properties == properties
    ensures w.area == DestRect(position, size)
  {
    ParseWidgetTypeRoundTrip(scheme, kind);
    Widget(WidgetTypeName(scheme, kind), name, DestRect(position, size), text, properties)
  }

  /** The properties `createImage` sets on a static image. */
  function ImageProperties(image: string): (props: map<string, string>)
    ensures props.Keys == {"FrameEnabled", "BackgroundEnabled", "Image"}
    ensures props["FrameEnabled"] == "false" && props["BackgroundEnabled"] == "false"
    ensures props["Image"] == image
  {
    map["FrameEnabled" := "false", "BackgroundEnabled" := "false", "Image" := image]
  }

  /** A call the manager makes into CEGUI. */
  datatype GuiCall = Inject(action: GuiAction) | SchemeFileLoaded(file: string)

  /** The `UIManager`. Its `Manager` part is `base`; `rootChildren` are the
      windows added under `winRoot`. */
  class UIManager {
    const base: Manager
    var schemeName: string
    var rootChildren: seq<Widget>
    var guiCalls: seq<GuiCall>

    /** Tags the manager `UI`; the root window starts empty. */
    constructor ()
      ensures fresh(base) && base.id == UI && base.comps == []
      ensures schemeName == "" && rootChildren == [] && guiCalls == []
    {
      base := new Manager(UI);
      schemeName := "";
      rootChildren := [];
      guiCalls := [];
    }

    /** `loadScheme`: remembers the scheme name for later widgets and loads
        the scheme file. */
    method LoadScheme(name: string, schemeFile: string)
      modifies this`schemeName, this`guiCalls
      ensures schemeName == name
      ensures guiCalls == old(guiCalls) + [SchemeFileLoaded(schemeFile)]
    {
      schemeName := name;
      guiCalls := guiCalls + [SchemeFileLoaded(schemeFile)];
    }

    /** `createButton`: a "<scheme>/Button" window showing `text`. */
    method CreateButton(text: string, position: Vec2, size: Vec2, name: string) returns (w: Widget)
      modifies this`rootChildren
      ensures w == NewWidget(schemeName, Button, name, position, size, text, map[])
      ensures rootChildren == old(rootChildren) + [w]
    {
      w := NewWidget(schemeName, Button, name, position, size, text, map[]);
      rootChildren := rootChildren + [w];
    }

    /** `createSlider`: a "<scheme>/Slider" window, named after creation. */
    method CreateSlider(position: Vec2, size: Vec2, name: string) returns (w: Widget)
      modifies this`rootChildren
      ensures w == NewWidget(schemeName, Slider, name, position, size, "", map[])
      ensures rootChildren == old(rootChildren) + [w]
    {
      w := NewWidget(schemeName, Slider, name, position, size, "", map[]);
      rootChildren := rootChildren + [w];
    }

    /** `createLabel`: a "<scheme>/Label" window showing `text`. */
    method CreateLabel(text: string, position: Vec2, size: Vec2, name: string) returns (w: Widget)
      modifies this`rootChildren
      ensures w == NewWidget(schemeName, Label, name, position, size, text, map[])
      ensures rootChildren == old(rootChildren) + [w]
    {
      w := NewWidget(schemeName, Label, name, position, size, text, map[]);
      rootChildren := rootChildren + [w];
    }

    /** `createImage`: a "<scheme>/StaticImage" window without frame or
        background, showing `image`. */
    method CreateImage(image: string, position: Vec2, size: Vec2, name: string) returns (w: Widget)
      modifies this`rootChildren
      ensures w == NewWidget(schemeName, StaticImage, name, position, size, "", ImageProperties(image))
      ensures rootChildren == old(rootChildren) + [w]
    {
      w := NewWidget(schemeName, StaticImage, name, position, size, "", ImageProperties(image));
      rootChildren := rootChildren + [w];
    }

    /** `captureInput`: passes on at most one action, the one `Classify`
        picks, and nothing when it picks none. */
    method CaptureInput(ev: SdlEvent)
      modifies this`guiCalls
      ensures var a := Classify(ev);
        guiCalls == old(guiCalls) + (if a.NoInjection? then [] else [Inject(a)])
    {
      var a := Classify(ev);
      if a != NoInjection {
        guiCalls := guiCalls + [Inject(a)];
      }
    }

    /** `start`, `update` and `clean` do nothing for this manager: with no
        `modifies` clause they cannot change any object, and the `ensures`
        says so outright. */
    method Start()
      ensures unchanged(this) && unchanged(base)
    {
    }

    method Update()
      ensures unchanged(this) && unchanged(base)
    {
    }

    method Clean()
      ensures unchanged(this) && unchanged(base)
    {
    }
  }

  /** The steps of `destroy`. */
  datatype Teardown = Cleaned | GuiSystemDestroyed | InstanceDeleted

  /** The static `instance_` of UIManager.cpp, and the teardown steps taken. */
  class UIRuntime {
    var instance: UIManager?
    var teardown: seq<Teardown>

    constructor ()
      ensures instance == null && teardown == []
    {
      instance := null;
      teardown := [];
    }

    /** `setUpInstance`: with no manager, constructs one and answers true,
        or answers false and stays without one when construction throws
        (`constructionThrows`). With a manager already there it answers true
        and constructs nothing. */
    method SetUpInstance(constructionThrows: bool) returns (ok: bool)
      modifies this`instance
      ensures ok <==> old(instance) != null || !constructionThrows
      ensures old(instance) != null ==> instance == old(instance)
      ensures old(instance) == null && constructionThrows ==> instance == null
      ensures old(instance) == null && !constructionThrows ==>
        instance != null && fresh(instance) && fresh(instance.base) && instance.base.id == UI &&
        instance.schemeName == "" && instance.rootChildren == []
    {
      if instance == null {
        if constructionThrows {
          return false;
        }
        instance := new UIManager();
      }
      return true;
    }

    /** `getInstance`: never constructs; gives back what is there, null included. */
    method GetInstance() returns (m: UIManager?)
      ensures m == instance
    {
      m := instance;
    }

    /** `destroy`: cleans, tears down the GUI system, then deletes the
        manager, without setting `instance_` back to null. */
    method Destroy()
      modifies this`teardown
      ensures teardown == old(teardown) + [Cleaned, GuiSystemDestroyed, InstanceDeleted]
      ensures instance == old(instance)
    {
      if instance != null {
        instance.Clean();
      }
      teardown := teardown + [Cleaned, GuiSystemDestroyed, InstanceDeleted];
    }
  }
}
