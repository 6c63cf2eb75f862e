/**
 The firmware's compass-rose classifier `rosa`: a dead zone around the
 joystick's centre, then eight 45-degree sectors whose boundaries sit 22.5
 degrees off the cardinal and diagonal directions. The angle, which the
 firmware computes with `atan2f(y, x)` in degrees, is an input here.
 */
module Compass {

  /** The nine results of `rosa`; `Label` gives the string the firmware
      returns for each. */
  datatype Direction =
    | NoDirection
    | Oeste | Sudoeste | Sul | Sudeste | Leste | Nordeste | Norte | Noroeste

  function Label(d: Direction): (s: string)
    ensures 3 <= |s| <= 8
  {
    match d
    case NoDirection => "none"
    case Oeste => "Oeste"
    case Sudoeste => "Sudoeste"
    case Sul => "Sul"
    case Sudeste => "Sudeste"
    case Leste => "Leste"
    case Nordeste => "Nordeste"
    case Norte => "Norte"
    case Noroeste => "Noroeste"
  }

  /** Different directions are reported with different strings. */
  lemma LabelInjective(d: Direction, e: Direction)
    requires Label(d) == Label(e)
    ensures d == e
  {
  }

  function Abs(r: real): (a: real)
    ensures a >= 0.0 && (a == r || a == -r)
  {
    if r < 0.0 then -r else r
  }

  /** Both coordinates strictly inside 0.2 of the centre. */
  predicate InDeadZone(x: real, y: real) {
    Abs(x) < 0.2 && Abs(y) < 0.2
  }

  /** `rosa(x, y)` with `ang` the value of `atan2f(y, x)` in degrees. */
  function Rosa(x: real, y: real, ang: real): (d: Direction)
    ensures d == NoDirection <==> InDeadZone(x, y)
  {
    if InDeadZone(x, y) then NoDirection
    else if ang < -157.5 then Oeste
    else if ang < -112.5 then Sudoeste
    else if ang < -67.5 then Sul
    else if ang < -22.5 then Sudeste
    else if ang < 22.5 then Leste
    else if ang < 67.5 then Nordeste
    else if ang < 112.5 then Norte
    else if ang < 157.5 then Noroeste
    else Oeste
  }

  // ---------------------------------------------------------------------
  // Reference definition: each compass direction owns the half-open arc of
  // 45 degrees centred on its own bearing (East at 0, North at 90).

  function Center(d: Direction): (c: real)
    requires d != NoDirection
    ensures -135.0 <= c <= 180.0
  {
    match d
    case Leste => 0.0
    case Nordeste => 45.0
    case Norte => 90.0
    case Noroeste => 135.0
    case Oeste => 180.0
    case Sudoeste => -135.0
    case Sul => -90.0
    case Sudeste => -45.0
  }

  /** `ang` lies in the arc `[Center(d) - 22.5, Center(d) + 22.5)`, read
      either directly or after one further turn of 360 degrees (which is how
      the West arc wraps past -180/180). */
  predicate InSector(d: Direction, ang: real)
    requires d != NoDirection
  {
    var c := Center(d);
    (c - 22.5 <= ang < c + 22.5) || (c - 22.5 <= ang + 360.0 < c + 22.5)
  }

  /** Outside the dead zone, `rosa` returns exactly the direction whose arc
      holds the angle, for every angle `atan2f` can produce. */
  lemma RosaMatchesSector(x: real, y: real, ang: real, d: Direction)
    requires !InDeadZone(x, y)
    requires -180.0 <= ang <= 180.0
    requires d != NoDirection
    ensures Rosa(x, y, ang) == d <==> InSector(d, ang)
  {
  }

  /** The eight arcs cover every angle once: each angle belongs to exactly
      one compass direction. */
  lemma SectorsPartition(ang: real)
    requires -180.0 <= ang <= 180.0
    ensures exists d :: d != NoDirection && InSector(d, ang)
    ensures forall d, e :: d != NoDirection && e != NoDirection && InSector(d, ang) && InSector(e, ang) ==> d == e
  {
    var x, y := 1.0, 0.0;
    var r := Rosa(x, y, ang);
    RosaMatchesSector(x, y, ang, r);
    forall d, e | d != NoDirection && e != NoDirection && InSector(d, ang) && InSector(e, ang)
      ensures d == e
    {
      RosaMatchesSector(x, y, ang, d);
      RosaMatchesSector(x, y, ang, e);
    }
  }

  /** The lower boundary of the i-th sector, counted counter-clockwise from
      the one that starts at -157.5 degrees. */
  function Boundary(i: nat): real {
    -157.5 + 45.0 * (i as real)
  }

  /** The direction that starts at `Boundary(i)`. */
  function SectorFrom(i: nat): (d: Direction)
    requires i < 8
    ensures d != NoDirection
  {
    [Sudoeste, Sul, Sudeste, Leste, Nordeste, Norte, Noroeste, Oeste][i]
  }

  /** Sectors are closed at their lower boundary and open at the upper one:
      an angle in `[Boundary(i), Boundary(i + 1))` gives sector i. */
  lemma RosaHalfOpen(x: real, y: real, ang: real, i: nat)
    requires !InDeadZone(x, y)
    requires i < 8
    requires Boundary(i) <= ang < Boundary(i + 1)
    ensures Rosa(x, y, ang) == SectorFrom(i)
  {
  }

  /** Both tails of the circle are West: below -157.5 and from 157.5 up. */
  lemma RosaWestWraps(x: real, y: real, ang: real)
    requires !InDeadZone(x, y)
    requires ang < -157.5 || ang >= 157.5
    ensures Rosa(x, y, ang) == Oeste
  {
  }

  /** The two boundaries next to East: -22.5 is still East, 22.5 is already
      Northeast; and the bearing 45k of each direction maps to it. */
  lemma RosaBoundaryExamples()
    ensures Rosa(1.0, 0.0, -22.5) == Leste
    ensures Rosa(1.0, 0.0, 22.5) == Nordeste
    ensures forall d :: d != NoDirection ==> Rosa(1.0, 0.0, Center(d)) == d
  {
  }
}
