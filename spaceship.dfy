/**
 * The application controller: mouse, touch and wheel input, the per-frame easing
 * of the sphere's rotation, and the rule that opens a hotspot's link when a
 * press is released over it.
 *
 * The controller's numeric state is `Controls`; `Step` is the reaction to one
 * event and `Run` to a sequence of them. The class `PlanetNineSpaceship` holds
 * the same fields and each of its handlers is proved to do what `Step` says.
 * The ray cast is an input (the objects hit, nearest first) and `window.open`
 * is an entry appended to the log `openedUrls`.
 */
module Spaceship {
  import opened Wrappers
  import Monitor
  import Surface

  /** Radians of target rotation per pixel dragged. */
  const DRAG_GAIN: real := 0.01
  /** Share of the remaining gap the current rotation covers each frame. */
  const BLEND: real := 0.1
  const ZOOM_SPEED: real := 0.1
  const MIN_DISTANCE: real := 2.0
  const MAX_DISTANCE: real := 10.0
  /** Camera distance set up with the scene. */
  const START_DISTANCE: real := 5.0

  /** A pointer position in viewport pixels. */
  datatype Point = Point(clientX: real, clientY: real)

  /** The render surface's bounding box in viewport pixels. */
  datatype Rect = Rect(left: real, top: real, width: real, height: real)

  /** Normalized device coordinates: x from -1 (left) to 1 (right), y from 1 (top) to -1 (bottom). */
  datatype Vec2 = Vec2(x: real, y: real)

  datatype Controls = Controls(
    isMouseDown: bool,
    mouseX: real,
    mouseY: real,
    targetRotationX: real,
    targetRotationY: real,
    rotationX: real,
    rotationY: real,
    cameraZ: real,
    mouse: Vec2)

  /** The input events the container listens to, and one animation frame. */
  datatype Event =
    | MouseDown(p: Point)
    | MouseMove(p: Point)
    | MouseUp(p: Point, rect: Rect, hits: seq<Surface.UserData>)
    | TouchStart(touches: seq<Point>)
    | TouchMove(touches: seq<Point>)
    | TouchEnd(changedTouches: seq<Point>, rect: Rect, hits: seq<Surface.UserData>)
    | Wheel(deltaY: real)
    | Frame

  /** The new state, and the link opened, if any. */
  datatype Reaction = Reaction(controls: Controls, link: Option<string>)

  const INITIAL: Controls := Controls(false, 0.0, 0.0, 0.0, 0.0, 0.0, 0.0, START_DISTANCE, Vec2(0.0, 0.0))

  /** What the browser guarantees of an event: a laid-out render surface, and a finger for a touch. */
  predicate WellFormed(e: Event)
  {
    match e
    case MouseUp(_, rect, _) => rect.width > 0.0 && rect.height > 0.0
    case TouchStart(touches) => |touches| > 0
    case TouchMove(touches) => |touches| > 0
    case TouchEnd(ct, rect, _) => |ct| > 0 ==> rect.width > 0.0 && rect.height > 0.0
    case _ => true
  }

  /** The fraction of the way along a span of length `w` that an offset `d` lies. */
  function Fraction(d: real, w: real): (u: real)
    requires w > 0.0
    ensures d == 0.0 ==> u == 0.0
    ensures d == w ==> u == 1.0
    ensures 0.0 <= u <= 1.0 <==> 0.0 <= d <= w
  {
    var u := d / w;
    assert u * w == d;
    assert (1.0 - u) * w == w - d;
    SameSign(u, w);
    SameSign(1.0 - u, w);
    u
  }

  /** Multiplying by a positive number keeps the sign. */
  lemma SameSign(a: real, w: real)
    requires w > 0.0
    ensures 0.0 <= a <==> 0.0 <= a * w
  {
    if a < 0.0 {
      assert (-a) * w > 0.0;
    }
  }

  /** Maps a viewport position to normalized device coordinates of the render surface. */
  function Ndc(p: Point, rect: Rect): (v: Vec2)
    requires rect.width > 0.0 && rect.height > 0.0
    ensures p.clientX == rect.left ==> v.x == -1.0
    ensures p.clientX == rect.left + rect.width ==> v.x == 1.0
    ensures p.clientY == rect.top ==> v.y == 1.0
    ensures p.clientY == rect.top + rect.height ==> v.y == -1.0
    ensures -1.0 <= v.x <= 1.0 <==> rect.left <= p.clientX <= rect.left + rect.width
    ensures -1.0 <= v.y <= 1.0 <==> rect.top <= p.clientY <= rect.top + rect.height
  {
    Vec2(Fraction(p.clientX - rect.left, rect.width) * 2.0 - 1.0,
         -Fraction(p.clientY - rect.top, rect.height) * 2.0 + 1.0)
  }

  /** The link a release opens: only the nearest hit is looked at. */
  function Dispatch(hits: seq<Surface.UserData>): (url: Option<string>)
    ensures url.Some? <==> |hits| > 0 && hits[0].isContinent && hits[0].continentUrl != ""
    ensures url.Some? ==> url.value == hits[0].continentUrl
  {
    if |hits| > 0 && hits[0].isContinent && hits[0].continentUrl != "" then
      Some(hits[0].continentUrl)
    else
      None
  }

  function Min(a: real, b: real): real { if a <= b then a else b }

  function Max(a: real, b: real): real { if a >= b then a else b }

  /** The camera distance after one wheel event. */
  function Zoom(z: real, deltaY: real): (r: real)
    ensures MIN_DISTANCE <= r <= MAX_DISTANCE
    ensures MIN_DISTANCE <= z + deltaY * ZOOM_SPEED * 0.01 <= MAX_DISTANCE ==> r == z + deltaY * ZOOM_SPEED * 0.01
    ensures z + deltaY * ZOOM_SPEED * 0.01 < MIN_DISTANCE ==> r == MIN_DISTANCE
    ensures z + deltaY * ZOOM_SPEED * 0.01 > MAX_DISTANCE ==> r == MAX_DISTANCE
  {
    Max(MIN_DISTANCE, Min(MAX_DISTANCE, z + deltaY * ZOOM_SPEED * 0.01))
  }

  /** One frame of easing: the gap to the target shrinks to 90% and keeps its sign. */
  function Ease(current: real, target: real): (r: real)
    ensures target - r == (1.0 - BLEND) * (target - current)
    ensures current <= target ==> current <= r <= target
    ensures target <= current ==> target <= r <= current
  {
    current + (target - current) * BLEND
  }

  function Press(c: Controls, p: Point): Controls
  {
    c.(isMouseDown := true, mouseX := p.clientX, mouseY := p.clientY)
  }

  function Drag(c: Controls, p: Point): Controls
  {
    if !c.isMouseDown then
      c
    else
      c.(targetRotationY := c.targetRotationY + (p.clientX - c.mouseX) * DRAG_GAIN,
         targetRotationX := c.targetRotationX + (p.clientY - c.mouseY) * DRAG_GAIN,
         mouseX := p.clientX,
         mouseY := p.clientY)
  }

  function Pick(c: Controls, p: Point, rect: Rect, hits: seq<Surface.UserData>): Reaction
    requires rect.width > 0.0 && rect.height > 0.0
  {
    Reaction(c.(mouse := Ndc(p, rect)), Dispatch(hits))
  }

  /** The controller's reaction to one event. */
  function Step(c: Controls, e: Event): (r: Reaction)
    requires WellFormed(e)
    // a link is opened only on a release
    ensures r.link.Some? ==> e.MouseUp? || e.TouchEnd?
    // the input phase writes the targets and the pointer, the frame writes the current rotation
    ensures !e.Frame? ==> r.controls.rotationX == c.rotationX && r.controls.rotationY == c.rotationY
    ensures e.Frame? ==>
              && r.link.None?
              && r.controls == c.(rotationX := r.controls.rotationX, rotationY := r.controls.rotationY)
              && c.targetRotationX - r.controls.rotationX == (1.0 - BLEND) * (c.targetRotationX - c.rotationX)
              && c.targetRotationY - r.controls.rotationY == (1.0 - BLEND) * (c.targetRotationY - c.rotationY)
    // only the wheel moves the camera, and always into range
    ensures !e.Wheel? ==> r.controls.cameraZ == c.cameraZ
    ensures e.Wheel? ==>
              && r.link.None?
              && r.controls == c.(cameraZ := r.controls.cameraZ)
              && MIN_DISTANCE <= r.controls.cameraZ <= MAX_DISTANCE
    // a press records the pointer
    ensures e.MouseDown? ==> r == Reaction(c.(isMouseDown := true, mouseX := e.p.clientX, mouseY := e.p.clientY), None)
    ensures e.TouchStart? ==>
              r == Reaction(c.(isMouseDown := true, mouseX := e.touches[0].clientX, mouseY := e.touches[0].clientY), None)
    // a move with nothing pressed changes nothing
    ensures (e.MouseMove? || e.TouchMove?) && !c.isMouseDown ==> r == Reaction(c, None)
    // a move while pressed turns the pointer's displacement into target rotation
    ensures (e.MouseMove? || e.TouchMove?) && c.isMouseDown ==>
              var p := if e.MouseMove? then e.p else e.touches[0];
              && r.link.None?
              && r.controls.targetRotationY - c.targetRotationY == (p.clientX - c.mouseX) * DRAG_GAIN
              && r.controls.targetRotationX - c.targetRotationX == (p.clientY - c.mouseY) * DRAG_GAIN
              && r.controls == c.(targetRotationX := r.controls.targetRotationX,
                                  targetRotationY := r.controls.targetRotationY,
                                  mouseX := p.clientX, mouseY := p.clientY)
    // a release always picks, dragged or not
    ensures e.MouseUp? ==>
              && r.link == Dispatch(e.hits)
              && r.controls == c.(isMouseDown := false, mouse := Ndc(e.p, e.rect))
    ensures e.TouchEnd? && |e.changedTouches| > 0 ==>
              && r.link == Dispatch(e.hits)
              && r.controls == c.(isMouseDown := false, mouse := Ndc(e.changedTouches[0], e.rect))
    ensures e.TouchEnd? && |e.changedTouches| == 0 ==> r == Reaction(c.(isMouseDown := false), None)
  {
    match e
    case MouseDown(p) => Reaction(Press(c, p), None)
    case MouseMove(p) => Reaction(Drag(c, p), None)
    case MouseUp(p, rect, hits) => Pick(c.(isMouseDown := false), p, rect, hits)
    case TouchStart(touches) => Reaction(Press(c, touches[0]), None)
    case TouchMove(touches) => Reaction(Drag(c, touches[0]), None)
    case TouchEnd(changedTouches, rect, hits) =>
      if |changedTouches| > 0 then Pick(c.(isMouseDown := false), changedTouches[0], rect, hits)
      else Reaction(c.(isMouseDown := false), None)
    case Wheel(deltaY) => Reaction(c.(cameraZ := Zoom(c.cameraZ, deltaY)), None)
    case Frame =>
      Reaction(c.(rotationX := Ease(c.rotationX, c.targetRotationX),
                  rotationY := Ease(c.rotationY, c.targetRotationY)), None)
  }

  /** The state after a sequence of events, and every link opened on the way, in order. */
  datatype Trace = Trace(controls: Controls, links: seq<string>)

  function Run(c: Controls, es: seq<Event>): Trace
    requires forall e :: e in es ==> WellFormed(e)
    decreases |es|
  {
    if es == [] then
      Trace(c, [])
    else
      var s := Step(c, es[0]);
      var rest := Run(s.controls, es[1..]);
      Trace(rest.controls, ToSeq(s.link) + rest.links)
  }

  /** Whatever the events, a camera that starts in range stays in range. */
  lemma {:induction false} CameraStaysInRange(c: Controls, es: seq<Event>)
    requires forall e :: e in es ==> WellFormed(e)
    requires MIN_DISTANCE <= c.cameraZ <= MAX_DISTANCE
    ensures MIN_DISTANCE <= Run(c, es).controls.cameraZ <= MAX_DISTANCE
    decreases |es|
  {
    if es != [] {
      assert es[0] in es;
      CameraStaysInRange(Step(c, es[0]).controls, es[1..]);
    }
  }

  /** A link is opened when the nearest hit of a release carries it. */
  predicate OpensAt(e: Event, url: string)
  {
    (e.MouseUp? || e.TouchEnd?) && |e.hits| > 0 && e.hits[0].isContinent && e.hits[0].continentUrl == url
  }

  /** Every link opened during a run is the url of the nearest hit of some release in it. */
  lemma {:induction false} OpenedComeFromReleases(c: Controls, es: seq<Event>)
    requires forall e :: e in es ==> WellFormed(e)
    ensures |Run(c, es).links| <= |es|
    ensures forall url :: url in Run(c, es).links ==> exists e :: e in es && OpensAt(e, url)
    decreases |es|
  {
    if es != [] {
      var s := Step(c, es[0]);
      assert es[0] in es;
      assert forall e :: e in es[1..] ==> e in es;
      OpenedComeFromReleases(s.controls, es[1..]);
      forall url | url in Run(c, es).links
        ensures exists e :: e in es && OpensAt(e, url)
      {
        if url in ToSeq(s.link) {
          assert OpensAt(es[0], url);
        } else {
          assert url in Run(s.controls, es[1..]).links;
        }
      }
    }
  }

  function Moves(ps: seq<Point>): (es: seq<Event>)
    ensures |es| == |ps|
    ensures forall e :: e in es ==> e.MouseMove? && WellFormed(e)
  {
    seq(|ps|, i requires 0 <= i < |ps| => MouseMove(ps[i]))
  }

  /**
   * A drag adds up: however the pointer travels while pressed, the targets move
   * by the gain times the displacement from the press point to the last position.
   */
  lemma {:induction false} DragAccumulates(c: Controls, ps: seq<Point>)
    requires c.isMouseDown && |ps| > 0
    ensures Run(c, Moves(ps)).links == []
    ensures Run(c, Moves(ps)).controls.targetRotationY
            == c.targetRotationY + (ps[|ps| - 1].clientX - c.mouseX) * DRAG_GAIN
    ensures Run(c, Moves(ps)).controls.targetRotationX
            == c.targetRotationX + (ps[|ps| - 1].clientY - c.mouseY) * DRAG_GAIN
    ensures Run(c, Moves(ps)).controls.isMouseDown
    decreases |ps|
  {
    var es := Moves(ps);
    var c1 := Drag(c, ps[0]);
    assert es[0] == MouseMove(ps[0]);
    assert Step(c, es[0]) == Reaction(c1, None);
    assert es[1..] == Moves(ps[1..]);
    var rest := Run(c1, es[1..]);
    assert Run(c, es) == Trace(rest.controls, rest.links);
    if |ps| > 1 {
      DragAccumulates(c1, ps[1..]);
    }
  }

  /** `(1 - BLEND)` to the power `n`. */
  function Decay(n: nat): (r: real)
    ensures 0.0 < r <= 1.0
  {
    if n == 0 then 1.0 else (1.0 - BLEND) * Decay(n - 1)
  }

  /** A gap to the target after `n` frames of easing. */
  function Gap(g: real, n: nat): real
    decreases n
  {
    if n == 0 then g else Gap((1.0 - BLEND) * g, n - 1)
  }

  /** The gap after `n` frames is the starting gap times `(1 - BLEND)` to the power `n`. */
  lemma {:induction false} GapDecays(g: real, n: nat)
    ensures Gap(g, n) == Decay(n) * g
    decreases n
  {
    if n > 0 {
      GapDecays((1.0 - BLEND) * g, n - 1);
      Compose(Decay(n - 1), g);
    }
  }

  lemma Compose(d: real, g: real)
    ensures d * ((1.0 - BLEND) * g) == ((1.0 - BLEND) * d) * g
  {
  }

  /** The gap keeps its sign and never grows. */
  lemma {:induction false} GapShrinks(g: real, n: nat)
    ensures 0.0 <= g ==> 0.0 <= Gap(g, n) <= g
    ensures g <= 0.0 ==> g <= Gap(g, n) <= 0.0
    decreases n
  {
    if n > 0 {
      GapShrinks((1.0 - BLEND) * g, n - 1);
    }
  }

  function Frames(n: nat): (es: seq<Event>)
    ensures |es| == n
    ensures forall e :: e in es ==> e == Frame
  {
    seq(n, _ => Frame)
  }

  /**
   * With the targets held, `n` frames leave each axis's gap at `Gap(g, n)`,
   * which is `Decay(n)` times the starting gap `g`.
   */
  lemma {:induction false} EasingContracts(c: Controls, n: nat)
    ensures Run(c, Frames(n)).links == []
    ensures Run(c, Frames(n)).controls.targetRotationX == c.targetRotationX
    ensures Run(c, Frames(n)).controls.targetRotationY == c.targetRotationY
    ensures c.targetRotationX - Run(c, Frames(n)).controls.rotationX
            == Gap(c.targetRotationX - c.rotationX, n)
    ensures c.targetRotationY - Run(c, Frames(n)).controls.rotationY
            == Gap(c.targetRotationY - c.rotationY, n)
    decreases n
  {
    if n > 0 {
      var c1 := Step(c, Frame).controls;
      var es := Frames(n);
      assert es[0] == Frame && es[1..] == Frames(n - 1);
      var rest := Run(c1, es[1..]);
      assert Run(c, es) == Trace(rest.controls, rest.links);
      EasingContracts(c1, n - 1);
    }
  }

  /** No overshoot: after any number of frames the rotation lies between where it started and the target. */
  lemma NoOvershoot(c: Controls, n: nat)
    ensures c.rotationX <= c.targetRotationX ==>
              c.rotationX <= Run(c, Frames(n)).controls.rotationX <= c.targetRotationX
    ensures c.targetRotationX <= c.rotationX ==>
              c.targetRotationX <= Run(c, Frames(n)).controls.rotationX <= c.rotationX
    ensures c.rotationY <= c.targetRotationY ==>
              c.rotationY <= Run(c, Frames(n)).controls.rotationY <= c.targetRotationY
    ensures c.targetRotationY <= c.rotationY ==>
              c.targetRotationY <= Run(c, Frames(n)).controls.rotationY <= c.rotationY
  {
    EasingContracts(c, n);
    GapShrinks(c.targetRotationX - c.rotationX, n);
    GapShrinks(c.targetRotationY - c.rotationY, n);
  }

  function Abs(x: real): real { if x < 0.0 then -x else x }

  /** `(1 - BLEND)^n` falls at least as fast as `1 / (1 + BLEND * n)`. */
  lemma {:induction false} DecayBound(n: nat)
    ensures Decay(n) * (1.0 + BLEND * (n as real)) <= 1.0
    decreases n
  {
    if n > 0 {
      DecayBound(n - 1);
      var d := Decay(n - 1);
      var k := 1.0 + BLEND * ((n - 1) as real);
      assert Decay(n) == (1.0 - BLEND) * d;
      assert 1.0 + BLEND * (n as real) == k + BLEND;
      assert Decay(n) * (k + BLEND) == (1.0 - BLEND) * (d * k) + (1.0 - BLEND) * BLEND * d;
    }
  }

  /** After `n` frames the gap is at most `1 / (1 + BLEND * n)` of where it started. */
  lemma GapBound(g: real, n: nat)
    ensures Abs(Gap(g, n)) * (1.0 + BLEND * (n as real)) <= Abs(g)
  {
    GapDecays(g, n);
    DecayBound(n);
    var d := Decay(n);
    var k := 1.0 + BLEND * (n as real);
    assert Abs(d * g) == d * Abs(g);
    assert Abs(Gap(g, n)) * k == (d * k) * Abs(g);
  }

  /** The gap tends to zero: once `BLEND * n * eps` covers the starting gap, it is below `eps`. */
  lemma GapVanishes(g: real, n: nat, eps: real)
    requires eps > 0.0 && BLEND * (n as real) * eps >= Abs(g)
    ensures Abs(Gap(g, n)) < eps
  {
    GapBound(g, n);
    var k := 1.0 + BLEND * (n as real);
    assert Abs(Gap(g, n)) * k < eps * k;
  }

  /**
   * With the targets held, the rotation converges to them: after enough frames it
   * is within any `eps` of the target on each axis.
   */
  lemma RotationConverges(c: Controls, n: nat, eps: real)
    requires eps > 0.0
    requires BLEND * (n as real) * eps >= Abs(c.targetRotationX - c.rotationX)
    requires BLEND * (n as real) * eps >= Abs(c.targetRotationY - c.rotationY)
    ensures Abs(c.targetRotationX - Run(c, Frames(n)).controls.rotationX) < eps
    ensures Abs(c.targetRotationY - Run(c, Frames(n)).controls.rotationY) < eps
  {
    EasingContracts(c, n);
    GapVanishes(c.targetRotationX - c.rotationX, n, eps);
    GapVanishes(c.targetRotationY - c.rotationY, n, eps);
  }

  /** Releasing over a catalogue hotspot, as the nearest hit, opens that entry's link. */
  lemma ReleaseOverHotspotOpensIt(trig: Surface.Trig, i: nat, rest: seq<Surface.UserData>)
    requires i < |Surface.CATALOGUE|
    ensures Dispatch([Surface.PlaceAll(Surface.CATALOGUE, trig)[i].continent.userData] + rest)
            == Some(Surface.CATALOGUE[i].url)
  {
    Surface.CatalogueOnGlobe();
  }

  /** The objects a ray cast hit, nearest first, given as indices into the surface's list. */
  function HitObjects(continents: seq<Surface.Hotspot>, hitIndices: seq<nat>): (hits: seq<Surface.UserData>)
    requires forall j :: 0 <= j < |hitIndices| ==> hitIndices[j] < |continents|
    ensures |hits| == |hitIndices|
    ensures forall j :: 0 <= j < |hits| ==> hits[j] == continents[hitIndices[j]].continent.userData
  {
    seq(|hitIndices|, j requires 0 <= j < |hitIndices| => continents[hitIndices[j]].continent.userData)
  }

  class PlanetNineSpaceship {
    const monitor: Monitor.Monitor
    const surface: Surface.Surface
    var isMouseDown: bool
    var mouseX: real
    var mouseY: real
    var targetRotationX: real
    var targetRotationY: real
    var rotationX: real
    var rotationY: real
    /** The camera's distance along its viewing axis. */
    var cameraZ: real
    /** The last picked pointer, in normalized device coordinates. */
    var mouse: Vec2
    var sphereRotationX: real
    var sphereRotationY: real
    /** Every link opened in a new browsing context, oldest first. */
    var openedUrls: seq<string>

    function Snapshot(): Controls
      reads this
    {
      Controls(isMouseDown, mouseX, mouseY, targetRotationX, targetRotationY,
               rotationX, rotationY, cameraZ, mouse)
    }

    ghost predicate Valid()
      reads this
    {
      MIN_DISTANCE <= cameraZ <= MAX_DISTANCE
    }

    /** Sets up the camera, the overlay and the hotspots, and renders the first frame. */
    constructor (trig: Surface.Trig)
      ensures Valid() && Snapshot() == INITIAL && openedUrls == []
      ensures sphereRotationX == 0.0 && sphereRotationY == 0.0
      ensures fresh(monitor) && fresh(monitor.screenOverlay) && monitor.Valid() && monitor.State() == Monitor.Start(Monitor.GREETING)
      ensures monitor.phase == Monitor.Typing && monitor.drawn == []
      ensures monitor.screenOverlay != null
      ensures monitor.screenOverlay.rotationX == 0.0 && monitor.screenOverlay.rotationY == 0.0
      ensures fresh(surface) && surface.continents == Surface.PlaceAll(Surface.CATALOGUE, trig)
    {
      isMouseDown := false;
      mouseX, mouseY := 0.0, 0.0;
      targetRotationX, targetRotationY := 0.0, 0.0;
      rotationX, rotationY := 0.0, 0.0;
      cameraZ := START_DISTANCE;
      mouse := Vec2(0.0, 0.0);
      sphereRotationX, sphereRotationY := 0.0, 0.0;
      openedUrls := [];
      monitor := new Monitor.Monitor();
      surface := new Surface.Surface(trig);
      new;
      Animate();
    }

    method OnMouseDown(p: Point)
      requires Valid()
      modifies this
      ensures sphereRotationX == old(sphereRotationX) && sphereRotationY == old(sphereRotationY)
      ensures Valid() && openedUrls == old(openedUrls)
      ensures Snapshot() == Step(old(Snapshot()), MouseDown(p)).controls
    {
      isMouseDown := true;
      mouseX := p.clientX;
      mouseY := p.clientY;
    }

    method OnMouseMove(p: Point)
      requires Valid()
      modifies this
      ensures sphereRotationX == old(sphereRotationX) && sphereRotationY == old(sphereRotationY)
      ensures Valid() && openedUrls == old(openedUrls)
      ensures Snapshot() == Step(old(Snapshot()), MouseMove(p)).controls
    {
      if !isMouseDown {
        return;
      }
      var deltaX := p.clientX - mouseX;
      var deltaY := p.clientY - mouseY;
      targetRotationY := targetRotationY + deltaX * DRAG_GAIN;
      targetRotationX := targetRotationX + deltaY * DRAG_GAIN;
      mouseX := p.clientX;
      mouseY := p.clientY;
    }

    method OnMouseUp(p: Point, rect: Rect, hitIndices: seq<nat>)
      requires Valid() && rect.width > 0.0 && rect.height > 0.0
      requires forall j :: 0 <= j < |hitIndices| ==> hitIndices[j] < |surface.continents|
      modifies this
      ensures sphereRotationX == old(sphereRotationX) && sphereRotationY == old(sphereRotationY)
      ensures Valid()
      ensures var r := Step(old(Snapshot()), MouseUp(p, rect, HitObjects(surface.continents, hitIndices)));
              Snapshot() == r.controls && openedUrls == old(openedUrls) + ToSeq(r.link)
    {
      isMouseDown := false;
      HandleClick(p, rect, hitIndices);
    }

    method OnTouchStart(touches: seq<Point>)
      requires Valid() && |touches| > 0
      modifies this
      ensures sphereRotationX == old(sphereRotationX) && sphereRotationY == old(sphereRotationY)
      ensures Valid() && openedUrls == old(openedUrls)
      ensures Snapshot() == Step(old(Snapshot()), TouchStart(touches)).controls
    {
      var touch := touches[0];
      isMouseDown := true;
      mouseX := touch.clientX;
      mouseY := touch.clientY;
    }

    method OnTouchMove(touches: seq<Point>)
      requires Valid() && |touches| > 0
      modifies this
      ensures sphereRotationX == old(sphereRotationX) && sphereRotationY == old(sphereRotationY)
      ensures Valid() && openedUrls == old(openedUrls)
      ensures Snapshot() == Step(old(Snapshot()), TouchMove(touches)).controls
    {
      if !isMouseDown {
        return;
      }
      var touch := touches[0];
      var deltaX := touch.clientX - mouseX;
      var deltaY := touch.clientY - mouseY;
      targetRotationY := targetRotationY + deltaX * DRAG_GAIN;
      targetRotationX := targetRotationX + deltaY * DRAG_GAIN;
      mouseX := touch.clientX;
      mouseY := touch.clientY;
    }

    method OnTouchEnd(changedTouches: seq<Point>, rect: Rect, hitIndices: seq<nat>)
      requires Valid() && (|changedTouches| > 0 ==> rect.width > 0.0 && rect.height > 0.0)
      requires forall j :: 0 <= j < |hitIndices| ==> hitIndices[j] < |surface.continents|
      modifies this
      ensures sphereRotationX == old(sphereRotationX) && sphereRotationY == old(sphereRotationY)
      ensures Valid()
      ensures var r := Step(old(Snapshot()), TouchEnd(changedTouches, rect, HitObjects(surface.continents, hitIndices)));
              Snapshot() == r.controls && openedUrls == old(openedUrls) + ToSeq(r.link)
    {
      isMouseDown := false;
      HandleTouch(changedTouches, rect, hitIndices);
    }

    method OnWheel(deltaY: real)
      requires Valid()
      modifies this
      ensures sphereRotationX == old(sphereRotationX) && sphereRotationY == old(sphereRotationY)
      ensures Valid() && openedUrls == old(openedUrls)
      ensures Snapshot() == Step(old(Snapshot()), Wheel(deltaY)).controls
    {
      cameraZ := cameraZ + deltaY * ZOOM_SPEED * 0.01;
      cameraZ := Max(MIN_DISTANCE, Min(MAX_DISTANCE, cameraZ));
    }

    /** Records the pointer in normalized device coordinates and picks. */
    method HandleClick(p: Point, rect: Rect, hitIndices: seq<nat>)
      requires rect.width > 0.0 && rect.height > 0.0
      requires forall j :: 0 <= j < |hitIndices| ==> hitIndices[j] < |surface.continents|
      modifies this
      ensures sphereRotationX == old(sphereRotationX) && sphereRotationY == old(sphereRotationY)
      ensures Snapshot() == old(Snapshot()).(mouse := Ndc(p, rect))
      ensures openedUrls == old(openedUrls) + ToSeq(Dispatch(HitObjects(surface.continents, hitIndices)))
    {
      mouse := Ndc(p, rect);
      CheckIntersections(hitIndices);
    }

    /** As `HandleClick`, for the first lifted finger; nothing at all when no finger is reported. */
    method HandleTouch(changedTouches: seq<Point>, rect: Rect, hitIndices: seq<nat>)
      requires |changedTouches| > 0 ==> rect.width > 0.0 && rect.height > 0.0
      requires forall j :: 0 <= j < |hitIndices| ==> hitIndices[j] < |surface.continents|
      modifies this
      ensures sphereRotationX == old(sphereRotationX) && sphereRotationY == old(sphereRotationY)
      ensures |changedTouches| == 0 ==> Snapshot() == old(Snapshot()) && openedUrls == old(openedUrls)
      ensures |changedTouches| > 0 ==>
                && Snapshot() == old(Snapshot()).(mouse := Ndc(changedTouches[0], rect))
                && openedUrls == old(openedUrls) + ToSeq(Dispatch(HitObjects(surface.continents, hitIndices)))
    {
      if |changedTouches| > 0 {
        var touch := changedTouches[0];
        mouse := Ndc(touch, rect);
        CheckIntersections(hitIndices);
      }
    }

    /** Opens the nearest hit's link when it is a hotspot that has one. */
    method CheckIntersections(hitIndices: seq<nat>)
      requires forall j :: 0 <= j < |hitIndices| ==> hitIndices[j] < |surface.continents|
      modifies this`openedUrls
      ensures openedUrls == old(openedUrls) + ToSeq(Dispatch(HitObjects(surface.continents, hitIndices)))
    {
      var continents := surface.GetContinents();
      if |hitIndices| > 0 {
        var intersectedObject := continents[hitIndices[0]].continent;
        if intersectedObject.userData.isContinent {
          var continentUrl := intersectedObject.userData.continentUrl;
          if continentUrl != "" {
            openedUrls := openedUrls + [continentUrl];
          }
        }
      }
    }

    /** One animation frame: ease, apply to the sphere, mirror onto the overlay. */
    method Animate()
      requires Valid()
      modifies this, monitor.screenOverlay
      ensures Valid() && openedUrls == old(openedUrls)
      ensures Snapshot() == Step(old(Snapshot()), Frame).controls
      ensures sphereRotationX == rotationX && sphereRotationY == rotationY
      ensures monitor.screenOverlay != null ==>
                monitor.screenOverlay.rotationX == rotationX && monitor.screenOverlay.rotationY == rotationY
    {
      rotationX := rotationX + (targetRotationX - rotationX) * BLEND;
      rotationY := rotationY + (targetRotationY - rotationY) * BLEND;
      sphereRotationX, sphereRotationY := rotationX, rotationY;
      monitor.UpdateRotation(rotationX, rotationY);
    }
  }
}
