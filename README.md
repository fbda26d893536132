# Planet Nine spaceship — a verified model of its interaction logic

The page shows a textured sphere (the "spaceship hull"). Three pieces of logic sit on top of the 3D rendering:

- **Monitor** (`monitor.dfy`, from `monitor.js`): a typewriter readout that reveals "Hello World" one character per interval tick, stops the interval once the message is complete, and redraws it after a delay. It also owns a screen overlay whose rotation the controller sets every frame. The class `Monitor.Monitor` holds the fields the source mutates (`typewriterText`, `typewriterIndex`, `typewriterDisplay`), plus `phase` (which timer callback can still arrive) and `drawn` (every string passed to the canvas). Its interval callback `Tick` and delayed callback `Finish` are proved against the pure specification `TypeStep` / `Hold`; `UpdateTextCanvas` is proved against `Drawn`, and `UpdateRotation` states the overlay's new rotation directly. The lemmas about that specification give the prefix invariant, monotonic growth, and completion after exactly as many ticks as the message has characters.
- **Surface** (`surface.dfy`, from `surface.js`): builds one pickable record per catalogue entry, in catalogue order. Each record is marked interactive, carries the entry's name and URL, and uses the `size || 0.5` rule. Each is placed by the spherical-to-Cartesian transform at radius 2.02. Sine and cosine are a pair of functions passed in (`Trig`). The only fact assumed of them is sin² + cos² = 1 (`Pythagorean`). From that, every position is proved to lie at distance 2.02 from the centre, and its outward normal is proved to be a unit vector pointing away from the centre.
- **Spaceship** (`spaceship.dfy`, from `script.js`): the controller, seen as a state machine over input events (mouse and touch press / move / release, wheel, animation frame). `Step` is the reaction to one event and `Run` the reaction to a sequence. The class `PlanetNineSpaceship` holds the source's fields, and each handler is proved to do what `Step` says. The ray cast is an input: the objects hit, nearest first, given as indices into the surface's list. `window.open` appends the URL to the log `openedUrls`.

Arithmetic is over Dafny `real`, so nothing here claims bit-exact agreement with IEEE doubles.

The delayed final redraw is meant to show the finished message, and one might expect it to drop the cursor glyph. It does not. In `monitor.js:89-91` the final redraw goes through `updateTextCanvas`, which always appends `'█'` (`monitor.js:76`), so the cursor is never removed. The model follows the code, and `Monitor.Monitor.Finish` states exactly that.

## Model

| member | source | states |
|---|---|---|
| `Monitor.Drawn` | monitor.js:76 | the drawn string is the shown text followed by exactly one cursor glyph |
| `Monitor.Start` | monitor.js:11-13 | the initial state shows nothing and satisfies the prefix invariant |
| `Monitor.TypeStep` | monitor.js:83-86 | a tick keeps `display == text[..index]`, increases the index by exactly one while characters remain, changes nothing once all are shown, and only extends the shown text |
| `Monitor.Hold` | monitor.js:89-91 | the delayed step sets the display to the full text, which it already equals: the step is idempotent |
| `Monitor.Ticks` | monitor.js:82-94 | any number of ticks keeps the prefix invariant and the message |
| `Monitor.TicksReveal` | monitor.js:82-86 | after `n` ticks exactly `min(index + n, length of text)` characters are shown, and they are the message's first ones |
| `Monitor.TicksMonotone` | monitor.js:84 | the shown text of an earlier tick is a prefix of that of a later one |
| `Monitor.TicksComplete` | monitor.js:83-88 | from the start, the full message is shown if and only if at least as many ticks as it has characters have run |
| `Monitor.GreetingTypedInElevenTicks` | monitor.js:11 | "Hello World" has 11 characters, is complete after 11 ticks and not before |
| `Monitor.Overlay.constructor` | monitor.js:24-35 | a new overlay starts unrotated |
| `Monitor.Monitor.constructor` | monitor.js:2-22 | the monitor starts with the greeting, nothing shown, nothing drawn, the interval live and an unrotated overlay |
| `Monitor.Monitor.UpdateTextCanvas` | monitor.js:62-79 | each redraw appends `display + '█'` to the canvas history |
| `Monitor.Monitor.Tick` | monitor.js:82-88 | the interval callback follows `TypeStep`: while characters remain it draws the new prefix with the cursor; at the end it draws nothing and stops the interval |
| `Monitor.Monitor.Finish` | monitor.js:89-92 | the delayed callback leaves the typewriter state unchanged and draws the whole message, cursor included |
| `Monitor.Monitor.UpdateRotation` | monitor.js:97-102 | the overlay's rotation becomes exactly (x, y); with no overlay nothing changes; only the overlay is written |
| `Surface.CatalogueOnGlobe` | surface.js:18-51 | four entries, each with latitude in [-90, 90], longitude in [0, 360), polar angle in [0, 180], a URL and a size |
| `Surface.Position` | surface.js:60-66 | the horizontal part of the position points along the longitude's direction and, given sin² + cos² = 1, has length 2.02 × sin of the polar angle; its distance from the centre is carried by `Surface.PositionOnShell` |
| `Surface.OutwardNormal` | surface.js:82 | the normal scaled by 2.02 is the position, so it has the position's direction; for a position at distance 2.02 it has unit length, which is what `normalize()` gives |
| `Surface.PositionOnShell` | surface.js:60-66 | given sin² + cos² = 1, the placed position has squared length 2.02² |
| `Surface.NormalPointsOutward` | surface.js:63-66 | the position is not the centre, and its normal has unit length and a positive dot product with it |
| `Surface.SizeOrDefault` | surface.js:69 | the size is the entry's when present and non-zero, otherwise 0.5 |
| `Surface.Place` | surface.js:58-97 | a record carries its entry, `isContinent == true`, the entry's name and URL, the defaulted size and the computed position |
| `Surface.PlaceAll` | surface.js:53-55 | one record per entry, in entry order |
| `Surface.CatalogueHotspots` | surface.js:18-97 | each of the four catalogue records is interactive, carries its entry's name and URL, and lies on the 2.02 shell |
| `Surface.Surface.constructor` | surface.js:2-11 | after construction the list holds exactly the catalogue's records, in order |
| `Surface.Surface.CreateClickableContinents` | surface.js:13-56 | appends the catalogue's records, in order, to the list |
| `Surface.Surface.CreateClickableContinent` | surface.js:58-98 | appends the one record built from the entry |
| `Surface.Surface.GetContinents` | surface.js:100-102 | returns the stored list unchanged |
| `Spaceship.Ndc` | script.js:194-195 | the rect's left/right edges map to x = -1/+1 and its top/bottom edges to y = +1/-1; a point is inside the rect iff both coordinates are in [-1, 1] |
| `Spaceship.Dispatch` | script.js:221-229 | a URL is opened iff the hit list is non-empty, its first element is a hotspot and has a non-empty URL; the URL opened is that one |
| `Spaceship.Zoom` | script.js:178-186 | the camera distance after a wheel event is in [2, 10] for any delta; it is the moved distance when that is in range, otherwise the nearer bound |
| `Spaceship.Ease` | script.js:236-237 | one frame shrinks the gap to the target to 90% of itself, and the new rotation lies between the old one and the target |
| `Spaceship.Step` | script.js:123-186 | per event: a move while released changes nothing; a move while pressed adds `delta * 0.01` to the targets and records the pointer, and changes nothing else; a press sets the flag and records the pointer; a release clears the flag and always picks; a touch release with no finger reported does not pick; only the wheel moves the camera, into [2, 10]; only a frame moves the current rotation; only releases open links |
| `Spaceship.CameraStaysInRange` | script.js:184-185 | after any sequence of events a camera that started in [2, 10] is still in [2, 10] |
| `Spaceship.OpenedComeFromReleases` | script.js:221-229 | every link opened during a run is the URL of the nearest hit of some release in that run, and there are at most as many links as events |
| `Spaceship.DragAccumulates` | script.js:129-140 | over a drag, the targets move by 0.01 times the total displacement from the press point to the last pointer position, and no link is opened |
| `Spaceship.GapDecays` | script.js:236-237 | the gap after `n` frames is `0.9^n` times the starting gap |
| `Spaceship.GapShrinks` | script.js:236-237 | the gap never changes sign and never grows |
| `Spaceship.EasingContracts` | script.js:232-237 | with targets held, `n` frames leave each axis's gap at `Gap(g, n)`, keep the targets, and open nothing |
| `Spaceship.NoOvershoot` | script.js:236-237 | after any number of frames the rotation lies between its start and the target on each axis |
| `Spaceship.DecayBound` | script.js:236-237 | `0.9^n × (1 + 0.1 n) <= 1`: the per-frame factor compounds at least as fast as `1 / (1 + 0.1 n)` |
| `Spaceship.GapBound` | script.js:236-237 | after `n` frames the gap times `1 + 0.1 n` is at most the starting gap |
| `Spaceship.GapVanishes` | script.js:236-237 | the gap tends to zero: once `0.1 n eps` covers the starting gap, the gap after `n` frames is below `eps` |
| `Spaceship.RotationConverges` | script.js:232-237 | with the targets held, the rotation on each axis comes within any `eps` of its target after enough frames |
| `Spaceship.ReleaseOverHotspotOpensIt` | script.js:216-229 | a release whose nearest hit is one of the catalogue's records opens that entry's URL |
| `Spaceship.HitObjects` | script.js:216-219 | the hit objects are the surface's records at the indices the ray cast reports, in that order |
| `Spaceship.PlanetNineSpaceship.constructor` | script.js:6-38 | the controller starts released, unrotated, at camera distance 5, with the monitor typing, a fresh overlay (so frames can be animated) and the surface holding the catalogue's records |
| `Spaceship.PlanetNineSpaceship.OnMouseDown` | script.js:123-127 | follows `Step` for a mouse press; the sphere's rotation is untouched |
| `Spaceship.PlanetNineSpaceship.OnMouseMove` | script.js:129-140 | follows `Step` for a mouse move; the sphere's rotation is untouched |
| `Spaceship.PlanetNineSpaceship.OnMouseUp` | script.js:142-145 | follows `Step` for a mouse release, appending the opened link, if any, to the log; the sphere's rotation is untouched |
| `Spaceship.PlanetNineSpaceship.OnTouchStart` | script.js:148-154 | follows `Step` for a touch press, using the first touch; the sphere's rotation is untouched |
| `Spaceship.PlanetNineSpaceship.OnTouchMove` | script.js:156-169 | follows `Step` for a touch move, using the first touch; the sphere's rotation is untouched |
| `Spaceship.PlanetNineSpaceship.OnTouchEnd` | script.js:171-175 | follows `Step` for a touch release, appending the opened link, if any, to the log; the sphere's rotation is untouched |
| `Spaceship.PlanetNineSpaceship.OnWheel` | script.js:178-186 | follows `Step` for a wheel event; the camera stays in [2, 10]; the sphere's rotation is untouched |
| `Spaceship.PlanetNineSpaceship.HandleClick` | script.js:189-198 | records the pointer in device coordinates and picks; the sphere's rotation is untouched |
| `Spaceship.PlanetNineSpaceship.HandleTouch` | script.js:200-211 | as `HandleClick` for the first lifted finger; with no finger reported no field changes, the sphere's rotation included |
| `Spaceship.PlanetNineSpaceship.CheckIntersections` | script.js:213-230 | appends the nearest hit's URL to the log exactly when `Dispatch` opens it |
| `Spaceship.PlanetNineSpaceship.Animate` | script.js:232-251 | follows `Step` for a frame, applies the new rotation to the sphere, and mirrors it onto the monitor's overlay |

## Left out

- svg-texture-loader.js is not part of this model. It is fetch, Blob, object-URL, image-decode and canvas I/O, and its one rule (a 1024 default size) depends on JavaScript's `parseInt`.
- Scene, camera, renderer, lights and resize handling (script.js:40-117), and the sphere's material swap when the texture arrives (script.js:71-91): these are rendering-library calls. Rendering a frame (script.js:250) is left out for the same reason.
- Timing: `setInterval` (100 ms), `setTimeout` (1000 ms), `requestAnimationFrame` and the loading-screen hide (script.js:35-37). Ticks and frames are explicit method calls; `Monitor.phase` records which timer callback can still arrive.
- Canvas drawing other than the string passed to `fillText`: clearing, font, colour, glow, centring, and the texture's `needsUpdate` flag (monitor.js:63-78). The text plane and the overlay's geometry and material are left out too (monitor.js:24-60).
- Mesh construction, `sphere.add` and the `lookAt` orientation (surface.js:70-89).
- Surface.OutwardNormal: models `normalize()` (surface.js:82) only for the vectors it is applied to. It divides by 2.02, which is their length by `Surface.PositionOnShell`; there is no square root over `real`.
- Sine and cosine are parameters, with only the Pythagorean identity assumed. `Math.PI` is the real 3.141592653589793. IEEE rounding is not modelled.
- The ray cast itself (script.js:214-219) is not modelled: its result is an input. `preventDefault` calls are not modelled. Multi-touch is not modelled: only the first touch is read, as in the source.
- JavaScript truthiness is modelled only for the values that occur: a missing `continentUrl` is the empty string, and a missing size is `None`. A `NaN` size is not modelled.
- Spaceship.Ndc: requires a rect of positive width and height. A zero-size render surface would give Infinity or NaN in the source.
- Spaceship.PlanetNineSpaceship.OnTouchStart: requires at least one touch, as the browser guarantees. With an empty list the source would set `isMouseDown` and then throw while reading `touch.clientX`; that behaviour is not modelled. `OnTouchMove` likewise requires a touch.
- Monitor.Monitor.Tick: requires the interval to be live, and `Finish` requires the delay to be pending. These are the only times the scheduler calls those callbacks.
