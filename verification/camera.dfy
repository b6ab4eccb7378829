/** The orbit camera of main.cpp (struct `Camera`) and the global gravity
    switch `g_gravity` that two of its input handlers flip.

    The camera's state is described twice: as the `CamState` value, with one
    pure transition function per input handler, and as the `Camera` class,
    whose methods update fields in place and promise that the new state is
    the transition of the old one. Properties are proved about the
    transitions; reachable states are those produced from `Initial` by a
    sequence of input events. */
module OrbitCamera {
  import opened Clamping

  // GLFW input codes, as GLFW defines them.
  const MouseButtonLeft: int := 0
  const MouseButtonRight: int := 1
  const MouseButtonMiddle: int := 2
  const Release: int := 0
  const Press: int := 1
  const KeyG: int := 71

  // Camera constants, at the exact values the single-precision literals of
  // main.cpp round to.
  /** `0.01f` */
  const ElevMin: real := 5368709.0 / 536870912.0
  /** `PI - 0.01f`, rounded to single precision */
  const ElevMax: real := 3283713.0 / 1048576.0
  /** `1e10f` */
  const MinRadius: real := 10000000000.0
  /** `1e12f` */
  const MaxRadius: real := 999999995904.0
  /** `0.01f` */
  const OrbitSpeed: real := 5368709.0 / 536870912.0
  /** `25e9f`, widened to double */
  const ZoomSpeed: real := 24999999488.0

  /** Every field of the camera that an input handler can change. */
  datatype CamState = CamState(
    azimuth: real,
    elevation: real,
    radius: real,
    dragging: bool,
    panning: bool,
    moving: bool,
    lastX: real,
    lastY: real)

  /** The camera as the program constructs it: radius `1.38e11f`,
      azimuth `-2.35f`, elevation `1.5f`, all flags off, cursor at 0. */
  function Initial(): (s: CamState)
    ensures Inv(s)
    ensures !s.dragging && !s.panning && !s.moving
  {
    CamState(-4928307.0 / 2097152.0, 1.5, 138000007168.0, false, false, false, 0.0, 0.0)
  }

  /** What holds of every reachable camera: panning is never on, elevation
      stays away from the poles and the radius within its zoom range. */
  predicate Inv(s: CamState)
  {
    !s.panning && ElevMin <= s.elevation <= ElevMax && MinRadius <= s.radius <= MaxRadius
  }

  /** `update`: the motion flag follows the interaction flags. */
  function Updated(s: CamState): (r: CamState)
    ensures r.moving <==> s.dragging || s.panning
    ensures r.(moving := s.moving) == s
  {
    s.(moving := s.dragging || s.panning)
  }

  /** `processMouseMove(x, y)`. */
  function MouseMoved(s: CamState, x: real, y: real): (r: CamState)
    ensures r.lastX == x && r.lastY == y
    ensures r.moving <==> s.dragging || s.panning
    ensures r.dragging == s.dragging && r.panning == s.panning && r.radius == s.radius
    ensures s.dragging && !s.panning ==>
              r.azimuth == s.azimuth + (x - s.lastX) * OrbitSpeed &&
              ElevMin <= r.elevation <= ElevMax &&
              r.elevation == Clamp(s.elevation - (y - s.lastY) * OrbitSpeed, ElevMin, ElevMax)
    ensures !(s.dragging && !s.panning) ==>
              r.azimuth == s.azimuth && r.elevation == s.elevation
  {
    var dx := x - s.lastX;
    var dy := y - s.lastY;
    var t :=
      if s.dragging && s.panning then
        s  // the pan branch is empty: panning is disabled
      else if s.dragging && !s.panning then
        s.(azimuth := s.azimuth + dx * OrbitSpeed,
           elevation := Clamp(s.elevation - dy * OrbitSpeed, ElevMin, ElevMax))
      else
        s;
    Updated(t.(lastX := x, lastY := y))
  }

  /** The camera part of `processMouseButton`; `cursorX`, `cursorY` stand for
      what `glfwGetCursorPos` reports when the button goes down. */
  function ButtonPressed(s: CamState, button: int, action: int, cursorX: real, cursorY: real): (r: CamState)
    ensures (button == MouseButtonLeft || button == MouseButtonMiddle) && action == Press ==>
              r == s.(dragging := true, panning := false, lastX := cursorX, lastY := cursorY)
    ensures (button == MouseButtonLeft || button == MouseButtonMiddle) && action == Release ==>
              r == s.(dragging := false, panning := false)
    ensures !((button == MouseButtonLeft || button == MouseButtonMiddle) && (action == Press || action == Release)) ==>
              r == s
    ensures r.moving == s.moving
  {
    if button == MouseButtonLeft || button == MouseButtonMiddle then
      if action == Press then
        s.(dragging := true, panning := false, lastX := cursorX, lastY := cursorY)
      else if action == Release then
        s.(dragging := false, panning := false)
      else
        s
    else
      s
  }

  /** The gravity part of `processMouseButton`: the right button holds
      gravity on while it is down, whatever the switch was before. */
  function GravityAfterButton(gravity: bool, button: int, action: int): (g: bool)
    ensures button == MouseButtonRight && action == Press ==> g
    ensures button == MouseButtonRight && action == Release ==> !g
    ensures !(button == MouseButtonRight && (action == Press || action == Release)) ==> g == gravity
  {
    if button == MouseButtonRight then
      if action == Press then true
      else if action == Release then false
      else gravity
    else
      gravity
  }

  /** `processScroll(xoffset, yoffset)`: only the vertical offset zooms. */
  function Scrolled(s: CamState, yoffset: real): (r: CamState)
    ensures MinRadius <= r.radius <= MaxRadius
    ensures r.radius == Clamp(s.radius - yoffset * ZoomSpeed, MinRadius, MaxRadius)
    ensures r.moving <==> s.dragging || s.panning
    ensures r.(radius := s.radius, moving := s.moving) == s
  {
    Updated(s.(radius := Clamp(s.radius - yoffset * ZoomSpeed, MinRadius, MaxRadius)))
  }

  /** `processKey`: a press of G flips gravity; nothing else does anything. */
  function GravityAfterKey(gravity: bool, key: int, action: int): (g: bool)
    ensures g != gravity <==> key == KeyG && action == Press
  {
    if action == Press && key == KeyG then !gravity else gravity
  }

  /** Two G presses in a row leave gravity where it was. */
  lemma GravityTogglesTwice(gravity: bool)
    ensures GravityAfterKey(GravityAfterKey(gravity, KeyG, Press), KeyG, Press) == gravity
  {
  }

  // ---------------------------------------------------------------------
  // Input events and reachable states

  /** One input callback, with the arguments the handlers use. */
  datatype Event =
    | Move(x: real, y: real)
    | Button(button: int, action: int, cursorX: real, cursorY: real)
    | Scroll(xoffset: real, yoffset: real)
    | Key(key: int, action: int)

  /** The camera together with the gravity switch. */
  datatype World = World(cam: CamState, gravity: bool)

  /** The effect of dispatching one event to its handler. */
  function Apply(w: World, e: Event): World
  {
    match e
    case Move(x, y) => World(MouseMoved(w.cam, x, y), w.gravity)
    case Button(b, a, cx, cy) => World(ButtonPressed(w.cam, b, a, cx, cy), GravityAfterButton(w.gravity, b, a))
    case Scroll(_, yoff) => World(Scrolled(w.cam, yoff), w.gravity)
    case Key(k, a) => World(w.cam, GravityAfterKey(w.gravity, k, a))
  }

  /** The effect of a sequence of events, first event first. */
  function Run(w: World, es: seq<Event>): World
  {
    if es == [] then w else Apply(Run(w, es[..|es| - 1]), es[|es| - 1])
  }

  /** Every handler keeps the invariant. */
  lemma ApplyKeepsInv(w: World, e: Event)
    requires Inv(w.cam)
    ensures Inv(Apply(w, e).cam)
  {
  }

  /** Every camera reached from an invariant one keeps the invariant: panning
      stays off, so the pan branch of `processMouseMove` is dead code, and
      elevation and radius stay clamped. */
  lemma {:induction false} RunKeepsInv(w: World, es: seq<Event>)
    requires Inv(w.cam)
    ensures Inv(Run(w, es).cam)
    ensures !(Run(w, es).cam.dragging && Run(w, es).cam.panning)
    decreases |es|
  {
    if es != [] {
      RunKeepsInv(w, es[..|es| - 1]);
      ApplyKeepsInv(Run(w, es[..|es| - 1]), es[|es| - 1]);
    }
  }

  /** Right after a move or a scroll the motion flag equals the drag flag;
      a button event in between can leave it stale, since
      `processMouseButton` does not call `update`. */
  lemma MovingAfterUpdate(w: World, es: seq<Event>)
    requires Inv(w.cam)
    requires es != [] && (es[|es| - 1].Move? || es[|es| - 1].Scroll?)
    ensures Run(w, es).cam.moving == Run(w, es).cam.dragging
  {
    RunKeepsInv(w, es[..|es| - 1]);
  }

  /** Pressing the left button from the initial camera starts a drag while
      the motion flag is still off. */
  lemma StaleMovingAfterPress(cx: real, cy: real)
    ensures var c := Run(World(Initial(), false), [Button(MouseButtonLeft, Press, cx, cy)]).cam;
            c.dragging && !c.moving
  {
  }

  /** The number of G presses in a sequence of events. */
  function TogglePresses(es: seq<Event>): nat
  {
    if es == [] then 0
    else TogglePresses(es[..|es| - 1]) + (if es[|es| - 1] == Key(KeyG, Press) then 1 else 0)
  }

  /** Key events leave the camera alone, and gravity ends up flipped exactly
      when G was pressed an odd number of times. */
  lemma {:induction false} KeysToggleGravity(w: World, es: seq<Event>)
    requires forall i :: 0 <= i < |es| ==> es[i].Key?
    ensures Run(w, es).cam == w.cam
    ensures Run(w, es).gravity == (w.gravity != (TogglePresses(es) % 2 == 1))
    decreases |es|
  {
    if es != [] {
      KeysToggleGravity(w, es[..|es| - 1]);
    }
  }

  // ---------------------------------------------------------------------
  // The mutable objects

  /** The global `g_gravity`, off at start-up. */
  class Globals {
    var gravity: bool

    constructor ()
      ensures !gravity
    {
      gravity := false;
    }
  }

  class Camera {
    var azimuth: real
    var elevation: real
    var radius: real
    var dragging: bool
    var panning: bool
    var moving: bool
    var lastX: real
    var lastY: real

    /** The camera's fields as a value. */
    function State(): CamState
      reads this
    {
      CamState(azimuth, elevation, radius, dragging, panning, moving, lastX, lastY)
    }

    constructor ()
      ensures State() == Initial()
    {
      azimuth, elevation, radius := -4928307.0 / 2097152.0, 1.5, 138000007168.0;
      dragging, panning, moving := false, false, false;
      lastX, lastY := 0.0, 0.0;
    }

    method Update()
      modifies this
      ensures State() == Updated(old(State()))
    {
      moving := dragging || panning;
    }

    method ProcessMouseMove(x: real, y: real)
      modifies this
      ensures State() == MouseMoved(old(State()), x, y)
    {
      var dx := x - lastX;
      var dy := y - lastY;
      if dragging && panning {
        // panning is disabled so that the camera stays centred
      } else if dragging && !panning {
        azimuth := azimuth + dx * OrbitSpeed;
        elevation := elevation - dy * OrbitSpeed;
        elevation := Clamp(elevation, ElevMin, ElevMax);
      }
      lastX := x;
      lastY := y;
      Update();
    }

    method ProcessMouseButton(button: int, action: int, mods: int, cursorX: real, cursorY: real, globals: Globals)
      modifies this, globals
      ensures State() == ButtonPressed(old(State()), button, action, cursorX, cursorY)
      ensures globals.gravity == GravityAfterButton(old(globals.gravity), button, action)
    {
      if button == MouseButtonLeft || button == MouseButtonMiddle {
        if action == Press {
          dragging := true;
          panning := false;
          lastX, lastY := cursorX, cursorY;
        } else if action == Release {
          dragging := false;
          panning := false;
        }
      }
      if button == MouseButtonRight {
        if action == Press {
          globals.gravity := true;
        } else if action == Release {
          globals.gravity := false;
        }
      }
    }

    method ProcessScroll(xoffset: real, yoffset: real)
      modifies this
      ensures State() == Scrolled(old(State()), yoffset)
    {
      radius := radius - yoffset * ZoomSpeed;
      radius := Clamp(radius, MinRadius, MaxRadius);
      Update();
    }

    method ProcessKey(key: int, scancode: int, action: int, mods: int, globals: Globals)
      modifies globals
      ensures globals.gravity == GravityAfterKey(old(globals.gravity), key, action)
    {
      if action == Press && key == KeyG {
        globals.gravity := !globals.gravity;
      }
    }

    /** The elevation `position()` feeds to its trigonometry: clamped
        again, which changes nothing on a reachable camera. */
    function PositionElevation(): (e: real)
      reads this
      ensures ElevMin <= e <= ElevMax
      ensures Inv(State()) ==> e == elevation
    {
      Clamp(elevation, ElevMin, ElevMax)
    }
  }
}
