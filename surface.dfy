/**
 * The clickable hotspots ("continents") on the spaceship hull: a fixed catalogue
 * of named places, each turned into a pickable record placed on a shell just
 * above the sphere, facing outward.
 *
 * Sine and cosine are not defined here: they are carried as a pair of functions
 * (`Trig`), and the only thing assumed of them is the identity sin² + cos² = 1,
 * stated as the hypothesis `Pythagorean`.
 */
module Surface {
  import opened Wrappers

  /** The value of JavaScript's Math.PI. */
  const PI: real := 3.141592653589793

  /** Distance of every hotspot from the centre; the sphere itself has radius 2. */
  const PICK_RADIUS: real := 2.02

  /** Disc radius used when an entry has no size. */
  const DEFAULT_SIZE: real := 0.5

  datatype Vec3 = Vec3(x: real, y: real, z: real)

  function Dot(a: Vec3, b: Vec3): real
  {
    a.x * b.x + a.y * b.y + a.z * b.z
  }

  /** Squared Euclidean length. */
  function Norm2(v: Vec3): real
  {
    Dot(v, v)
  }

  function Scale(v: Vec3, k: real): Vec3
  {
    Vec3(k * v.x, k * v.y, k * v.z)
  }

  /** Sine and cosine, as the host provides them. */
  datatype Trig = Trig(sin: real -> real, cos: real -> real)

  ghost predicate Pythagorean(trig: Trig)
  {
    forall a :: trig.sin(a) * trig.sin(a) + trig.cos(a) * trig.cos(a) == 1.0
  }

  /** One catalogue entry; a size of `None` stands for an entry without one. */
  datatype ContinentEntry = ContinentEntry(name: string, url: string, lat: real, lon: real, size: Option<real>)

  /** What the picking routine reads off a hit; an absent url is the empty string. */
  datatype UserData = UserData(isContinent: bool, continentName: string, continentUrl: string)

  /** The pickable disc: where it sits, how large it is and what it is marked with. */
  datatype ContinentMesh = ContinentMesh(position: Vec3, size: real, userData: UserData)

  /** One element of the surface's list: the disc and the entry it came from. */
  datatype Hotspot = Hotspot(continent: ContinentMesh, data: ContinentEntry)

  /** The four places, in the order they are created. */
  const CATALOGUE: seq<ContinentEntry> := [
    ContinentEntry("The Stack",
                   "https://github.com/planet-nine-app/planet-nine/blob/main/The%20Stack.md",
                   43.0, 185.0, Some(0.6)),
    ContinentEntry("allyabase",
                   "https://github.com/planet-nine-app/allyabase",
                   43.0, 95.0, Some(0.7)),
    ContinentEntry("The Advancement",
                   "https://github.com/planet-nine-app/the-advancement",
                   -22.0, 185.0, Some(0.6)),
    ContinentEntry("The Nullary",
                   "https://github.com/planet-nine-app/the-nullary",
                   -22.0, 95.0, Some(0.7))
  ]

  /** Latitude within [-90, 90] and longitude within [0, 360). */
  predicate OnGlobe(e: ContinentEntry)
  {
    -90.0 <= e.lat <= 90.0 && 0.0 <= e.lon < 360.0
  }

  lemma CatalogueOnGlobe()
    ensures |CATALOGUE| == 4
    ensures forall e :: e in CATALOGUE ==> OnGlobe(e) && 0.0 <= 90.0 - e.lat <= 180.0
    ensures forall e :: e in CATALOGUE ==> e.url != "" && e.size.Some?
  {
  }

  function Radians(degrees: real): real
  {
    degrees * (PI / 180.0)
  }

  /**
   * The spherical-to-Cartesian placement: polar angle from +y, azimuth from -x towards -z.
   * The horizontal part points along the azimuth and, given sin² + cos² = 1, has
   * length `2.02 * sin(phi)`; `PositionOnShell` puts the parts together.
   */
  function Position(e: ContinentEntry, trig: Trig): (p: Vec3)
    ensures p.x * trig.sin(Radians(e.lon)) == p.z * trig.cos(Radians(e.lon))
    ensures Pythagorean(trig) ==>
              p.x * p.x + p.z * p.z
              == (PICK_RADIUS * trig.sin(Radians(90.0 - e.lat))) * (PICK_RADIUS * trig.sin(Radians(90.0 - e.lat)))
  {
    var phi := Radians(90.0 - e.lat);
    var theta := Radians(e.lon);
    HorizontalRadius(PICK_RADIUS * trig.sin(phi), trig.sin(theta), trig.cos(theta));
    Vec3(-PICK_RADIUS * trig.sin(phi) * trig.cos(theta),
         PICK_RADIUS * trig.cos(phi),
         -PICK_RADIUS * trig.sin(phi) * trig.sin(theta))
  }

  /** A point at distance `r` from the axis, in polar form, has squared horizontal length `r * r`. */
  lemma HorizontalRadius(r: real, st: real, ct: real)
    ensures st * st + ct * ct == 1.0 ==> (-r * ct) * (-r * ct) + (-r * st) * (-r * st) == r * r
  {
    assert (-r * ct) * (-r * ct) + (-r * st) * (-r * st) == r * r * (ct * ct + st * st);
  }

  /** The squared length of a point written in spherical form is the squared radius. */
  lemma SphericalNorm(r: real, sp: real, cp: real, st: real, ct: real)
    requires sp * sp + cp * cp == 1.0 && st * st + ct * ct == 1.0
    ensures Norm2(Vec3(-r * sp * ct, r * cp, -r * sp * st)) == r * r
  {
    var rs := r * sp;
    calc {
      Norm2(Vec3(-r * sp * ct, r * cp, -r * sp * st));
      (rs * ct) * (rs * ct) + (r * cp) * (r * cp) + (rs * st) * (rs * st);
      rs * rs * (ct * ct + st * st) + r * r * (cp * cp);
      rs * rs + r * r * (cp * cp);
      r * r * (sp * sp + cp * cp);
      r * r;
    }
  }

  /** Every placed position lies at distance 2.02 from the centre. */
  lemma PositionOnShell(e: ContinentEntry, trig: Trig)
    requires Pythagorean(trig)
    ensures Norm2(Position(e, trig)) == PICK_RADIUS * PICK_RADIUS
  {
    var phi := Radians(90.0 - e.lat);
    var theta := Radians(e.lon);
    SphericalNorm(PICK_RADIUS, trig.sin(phi), trig.cos(phi), trig.sin(theta), trig.cos(theta));
  }

  /**
   * The unit vector along a position, as `normalize()` gives it for a vector of
   * length 2.02 (which `PositionOnShell` shows every position to be).
   */
  function OutwardNormal(p: Vec3): (n: Vec3)
    ensures Scale(n, PICK_RADIUS) == p
    ensures Norm2(p) == PICK_RADIUS * PICK_RADIUS ==> Norm2(n) == 1.0 && Dot(n, p) == PICK_RADIUS
  {
    assert Norm2(Scale(p, 1.0 / PICK_RADIUS)) == (1.0 / PICK_RADIUS) * (1.0 / PICK_RADIUS) * Norm2(p);
    assert Dot(Scale(p, 1.0 / PICK_RADIUS), p) == (1.0 / PICK_RADIUS) * Norm2(p);
    Scale(p, 1.0 / PICK_RADIUS)
  }

  /** The position is never the centre, its normal has unit length and points away from the centre. */
  lemma NormalPointsOutward(e: ContinentEntry, trig: Trig)
    requires Pythagorean(trig)
    ensures Position(e, trig) != Vec3(0.0, 0.0, 0.0)
    ensures Norm2(OutwardNormal(Position(e, trig))) == 1.0
    ensures Dot(OutwardNormal(Position(e, trig)), Position(e, trig)) > 0.0
  {
    PositionOnShell(e, trig);
  }

  /** The `size || 0.5` rule: a missing or zero size falls back to the default. */
  function SizeOrDefault(size: Option<real>): (r: real)
    ensures r != 0.0
    ensures size.Some? && size.value != 0.0 ==> r == size.value
    ensures size.None? || size.value == 0.0 ==> r == DEFAULT_SIZE
  {
    if size.Some? && size.value != 0.0 then size.value else DEFAULT_SIZE
  }

  /** The record for one entry: marked interactive, named, linked and sized. */
  function Place(e: ContinentEntry, trig: Trig): (h: Hotspot)
    ensures h.data == e
    ensures h.continent.userData.isContinent
    ensures h.continent.userData.continentName == e.name && h.continent.userData.continentUrl == e.url
    ensures h.continent.size == SizeOrDefault(e.size) && h.continent.size != 0.0
    ensures h.continent.position == Position(e, trig)
  {
    Hotspot(ContinentMesh(Position(e, trig), SizeOrDefault(e.size), UserData(true, e.name, e.url)), e)
  }

  /** The records for a list of entries, one per entry, in order. */
  function PlaceAll(entries: seq<ContinentEntry>, trig: Trig): (hs: seq<Hotspot>)
    ensures |hs| == |entries|
    ensures forall i :: 0 <= i < |hs| ==> hs[i] == Place(entries[i], trig)
  {
    seq(|entries|, i requires 0 <= i < |entries| => Place(entries[i], trig))
  }

  /** Every record of the catalogue is interactive, carries its entry's url and sits on the shell. */
  lemma CatalogueHotspots(trig: Trig)
    requires Pythagorean(trig)
    ensures |PlaceAll(CATALOGUE, trig)| == 4
    ensures forall i :: 0 <= i < 4 ==>
              && PlaceAll(CATALOGUE, trig)[i].data == CATALOGUE[i]
              && PlaceAll(CATALOGUE, trig)[i].continent.userData
                 == UserData(true, CATALOGUE[i].name, CATALOGUE[i].url)
              && Norm2(PlaceAll(CATALOGUE, trig)[i].continent.position) == PICK_RADIUS * PICK_RADIUS
  {
    forall i | 0 <= i < 4
      ensures Norm2(PlaceAll(CATALOGUE, trig)[i].continent.position) == PICK_RADIUS * PICK_RADIUS
    {
      PositionOnShell(CATALOGUE[i], trig);
    }
  }

  class Surface {
    const trig: Trig
    var continents: seq<Hotspot>

    /** Builds the records of the whole catalogue. */
    constructor (trig: Trig)
      ensures this.trig == trig
      ensures continents == PlaceAll(CATALOGUE, trig)
    {
      this.trig := trig;
      continents := [];
      new;
      CreateClickableContinents();
    }

    /** Appends one record per catalogue entry, in catalogue order. */
    method CreateClickableContinents()
      modifies this
      ensures continents == old(continents) + PlaceAll(CATALOGUE, trig)
    {
      var i := 0;
      while i < |CATALOGUE|
        invariant 0 <= i <= |CATALOGUE|
        invariant continents == old(continents) + PlaceAll(CATALOGUE[..i], trig)
      {
        CreateClickableContinent(CATALOGUE[i]);
        assert CATALOGUE[..i + 1] == CATALOGUE[..i] + [CATALOGUE[i]];
        i := i + 1;
      }
      assert CATALOGUE[..i] == CATALOGUE;
    }

    /** Appends the record of one entry. */
    method CreateClickableContinent(e: ContinentEntry)
      modifies this
      ensures continents == old(continents) + [Place(e, trig)]
    {
      continents := continents + [Place(e, trig)];
    }

    method GetContinents() returns (hs: seq<Hotspot>)
      ensures hs == continents
    {
      hs := continents;
    }
  }
}
