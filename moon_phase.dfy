/**
 Lunar phase of a natal chart (chart_engine.py, `get_moon_phase` and the
 phase-name chain of `generate_chart`).

 Ecliptic longitudes come from the ephemeris as floating-point degrees; here
 they are exact reals. The elongation is the Moon's longitude minus the Sun's,
 wrapped into [0, 360) the way Python's `%` does with a positive divisor, and
 the phase name is chosen by an ascending chain of half-open thresholds.
 */
module MoonPhase {

  /** Python's `x % 360` on a real: the remainder whose sign follows the divisor. */
  function Mod360(x: real): (r: real)
    ensures 0.0 <= r < 360.0
    ensures 0.0 <= x < 360.0 ==> r == x
    // x and r differ by a whole number of turns
    ensures ((x - r) / 360.0).Floor as real == (x - r) / 360.0
  {
    x - 360.0 * (x / 360.0).Floor as real
  }

  /** Mod360 is the only value in [0, 360) that lies a whole number of turns from x. */
  lemma Mod360Unique(x: real, r: real, turns: int)
    requires 0.0 <= r < 360.0
    requires x == r + 360.0 * turns as real
    ensures Mod360(x) == r
  {
    var q := x / 360.0;
    assert q == r / 360.0 + turns as real;
    assert 0.0 <= r / 360.0 < 1.0;
    assert q.Floor == turns;
  }

  /** Adding whole turns to a difference does not change its wrapped value. */
  lemma Mod360Periodic(x: real, turns: int)
    ensures Mod360(x + 360.0 * turns as real) == Mod360(x)
  {
    var k := (x / 360.0).Floor;
    Mod360Unique(x + 360.0 * turns as real, Mod360(x), k + turns);
  }

  /** `diff = (moon_lon - sun_lon) % 360`: how far the Moon is ahead of the Sun. */
  function Elongation(sunLon: real, moonLon: real): (diff: real)
    ensures 0.0 <= diff < 360.0
    ensures 0.0 <= moonLon - sunLon < 360.0 ==> diff == moonLon - sunLon
  {
    Mod360(moonLon - sunLon)
  }

  /** Turning either body by whole circles leaves the elongation unchanged. */
  lemma ElongationTurnInvariant(sunLon: real, moonLon: real, sunTurns: int, moonTurns: int)
    ensures Elongation(sunLon + 360.0 * sunTurns as real, moonLon + 360.0 * moonTurns as real)
         == Elongation(sunLon, moonLon)
  {
    var d := moonLon - sunLon;
    assert (moonLon + 360.0 * moonTurns as real) - (sunLon + 360.0 * sunTurns as real)
        == d + 360.0 * (moonTurns - sunTurns) as real;
    Mod360Periodic(d, moonTurns - sunTurns);
  }

  /** The seven names the chain can produce, in ascending order of angle. */
  datatype Phase =
    | NewMoon
    | FirstQuarter
    | WaxingGibbous
    | FullMoon
    | WaningGibbous
    | LastQuarter
    | WaningCrescent

  /** Position of a phase in the chain, 0 for the first branch. */
  function Rank(p: Phase): nat
  {
    match p
    case NewMoon => 0
    case FirstQuarter => 1
    case WaxingGibbous => 2
    case FullMoon => 3
    case WaningGibbous => 4
    case LastQuarter => 5
    case WaningCrescent => 6
  }

  /** The phase at a given position of the chain. */
  function PhaseAt(n: nat): (p: Phase)
    requires n < 7
    ensures Rank(p) == n
  {
    [NewMoon, FirstQuarter, WaxingGibbous, FullMoon, WaningGibbous, LastQuarter, WaningCrescent][n]
  }

  /** The string the source stores under `moon_phase`. */
  function Name(p: Phase): string
  {
    match p
    case NewMoon => "New Moon"
    case FirstQuarter => "First Quarter"
    case WaxingGibbous => "Waxing Gibbous"
    case FullMoon => "Full Moon"
    case WaningGibbous => "Waning Gibbous"
    case LastQuarter => "Last Quarter"
    case WaningCrescent => "Waning Crescent"
  }

  /** Every phase name the classifier can report. */
  const PhaseNames: seq<string> :=
    ["New Moon", "First Quarter", "Waxing Gibbous", "Full Moon",
     "Waning Gibbous", "Last Quarter", "Waning Crescent"]

  /** Distinct phases have distinct names, and the names are exactly PhaseNames in chain order. */
  lemma NameInjective(p: Phase, q: Phase)
    ensures Name(p) == Name(q) <==> p == q
    ensures PhaseNames[Rank(p)] == Name(p)
  {
  }

  /**
   The half-open arc of angles that a phase stands for: 45 degrees per step of
   the chain, the first arc open below and the last open above.
   */
  predicate InArc(p: Phase, angle: real)
  {
    && (p == NewMoon || 45.0 * Rank(p) as real <= angle)
    && (p == WaningCrescent || angle < 45.0 * (Rank(p) + 1) as real)
  }

  /** The if/elif chain of `generate_chart` that names the phase. */
  function Classify(angle: real): (p: Phase)
    ensures InArc(p, angle)
  {
    if angle < 45.0 then NewMoon
    else if angle < 90.0 then FirstQuarter
    else if angle < 135.0 then WaxingGibbous
    else if angle < 180.0 then FullMoon
    else if angle < 225.0 then WaningGibbous
    else if angle < 270.0 then LastQuarter
    else WaningCrescent
  }

  /** No angle lies in two arcs. */
  lemma ArcsDisjoint(p: Phase, q: Phase, angle: real)
    requires InArc(p, angle) && InArc(q, angle)
    ensures p == q
  {
  }

  /** The arcs partition the real line: an angle lies in a phase's arc exactly when it is classified as that phase. */
  lemma ClassifyIffInArc(p: Phase, angle: real)
    ensures Classify(angle) == p <==> InArc(p, angle)
  {
  }

  /** Reference reading of the chain: integer division of the angle by 45, the last index absorbing everything above 270. */
  function ClassifyByDivision(angle: real): Phase
  {
    if angle < 0.0 then NewMoon
    else
      var step := (angle / 45.0).Floor;
      PhaseAt(if step < 6 then step else 6)
  }

  /** The chain and the division reading name every angle alike. */
  lemma ClassifyMatchesDivision(angle: real)
    ensures Classify(angle) == ClassifyByDivision(angle)
  {
  }

  /** A later angle never gets an earlier name in the chain. */
  lemma ClassifyMonotone(a: real, b: real)
    requires a <= b
    ensures Rank(Classify(a)) <= Rank(Classify(b))
  {
  }

  /** The classifier reports one of the seven fixed names, never "Waxing Crescent". */
  lemma ClassifyNames(angle: real)
    ensures Name(Classify(angle)) in PhaseNames
    ensures Name(Classify(angle)) != "Waxing Crescent"
  {
  }

  /**
   Within one turn the last name covers [270, 360), 90 degrees, while each of
   the other six covers a 45-degree arc starting at 45 times its position.
   */
  lemma ArcWidths(p: Phase, angle: real)
    requires 0.0 <= angle < 360.0
    ensures p == WaningCrescent ==> (Classify(angle) == p <==> 270.0 <= angle)
    ensures p != WaningCrescent ==>
      (Classify(angle) == p <==> 45.0 * Rank(p) as real <= angle < 45.0 * Rank(p) as real + 45.0)
  {
  }

  /** Boundary angles fall into the arc that starts at them. */
  lemma BoundaryScenarios()
    ensures Name(Classify(0.0)) == "New Moon"
    ensures Name(Classify(45.0)) == "First Quarter"
    ensures Name(Classify(90.0)) == "Waxing Gibbous"
    ensures Name(Classify(180.0)) == "Waning Gibbous"
    ensures Name(Classify(270.0)) == "Waning Crescent"
    ensures Name(Classify(359.9)) == "Waning Crescent"
  {
  }
}
