/**
 The record `generate_chart` returns (chart_engine.py): the zodiac sign of
 each of ten bodies, collected by a dict comprehension, and the Moon's phase.

 The sign of a body comes from the natal-chart library (`chart.get(p).sign`)
 and the longitudes from the ephemeris; both are taken here as given inputs.
 */
module Chart {
  import opened Wrappers
  import MoonPhase

  /** The natal-chart library's names for the ten bodies, in the order the source lists them. */
  const Bodies: seq<string> :=
    ["Sun", "Moon", "Mercury", "Venus", "Mars", "Jupiter", "Saturn", "Uranus", "Neptune", "Pluto"]

  /** A Python dict from strings to strings: its entries in insertion order. */
  type Dict = seq<(string, string)>

  function Keys(d: Dict): (ks: seq<string>)
    ensures |ks| == |d|
    ensures forall i :: 0 <= i < |d| ==> ks[i] == d[i].0
  {
    seq(|d|, i requires 0 <= i < |d| => d[i].0)
  }

  predicate Distinct(ks: seq<string>)
  {
    forall i, j :: 0 <= i < j < |ks| ==> ks[i] != ks[j]
  }

  /** The position of the first occurrence of k. */
  function IndexOf(ks: seq<string>, k: string): (i: nat)
    requires k in ks
    ensures i < |ks| && ks[i] == k
    ensures forall j :: 0 <= j < i ==> ks[j] != k
  {
    if ks[0] == k then 0 else 1 + IndexOf(ks[1..], k)
  }

  /** Lookup by key: the value a dict holds for k, if any. */
  function Get(d: Dict, k: string): (r: Option<string>)
    ensures r.Some? <==> k in Keys(d)
  {
    if k in Keys(d) then Some(d[IndexOf(Keys(d), k)].1) else None
  }

  /** In a dict whose keys are distinct, looking up the key of an entry finds that entry's value. */
  lemma GetAt(d: Dict, i: nat)
    requires Distinct(Keys(d))
    requires i < |d|
    ensures Get(d, d[i].0) == Some(d[i].1)
  {
  }

  /** `d[k] = v`: a present key keeps its position and takes the new value; a new key is appended. */
  function Put(d: Dict, k: string, v: string): (r: Dict)
    requires Distinct(Keys(d))
    ensures Distinct(Keys(r))
    ensures Get(r, k) == Some(v)
    ensures forall j :: j != k ==> Get(r, j) == Get(d, j)
    ensures k in Keys(d) ==> Keys(r) == Keys(d)
    ensures k !in Keys(d) ==> Keys(r) == Keys(d) + [k]
  {
    if k in Keys(d) then
      var i := IndexOf(Keys(d), k);
      var r := d[i := (k, v)];
      assert Keys(r) == Keys(d);
      r
    else
      var r := d + [(k, v)];
      assert Keys(r) == Keys(d) + [k];
      assert forall j :: j in Keys(d) ==> IndexOf(Keys(r), j) == IndexOf(Keys(d), j);
      r
  }

  /** `{p: f(p) for p in ps}`: the items evaluated in list order, each stored with `d[p] = f(p)`. */
  function Comprehend(ps: seq<string>, f: string -> string): (d: Dict)
    ensures Distinct(Keys(d))
    ensures forall k :: k in Keys(d) <==> k in ps
    ensures forall k :: k in ps ==> Get(d, k) == Some(f(k))
    ensures Distinct(ps) ==> Keys(d) == ps
  {
    if ps == [] then []
    else
      var last := ps[|ps| - 1];
      var init := ps[..|ps| - 1];
      assert ps == init + [last];
      Put(Comprehend(init, f), last, f(last))
  }

  /** With distinct items, the comprehension's i-th entry is the i-th item and its image. */
  lemma ComprehendAt(ps: seq<string>, f: string -> string, i: nat)
    requires Distinct(ps)
    requires i < |ps|
    ensures |Comprehend(ps, f)| == |ps|
    ensures Comprehend(ps, f)[i] == (ps[i], f(ps[i]))
  {
  }

  /** The ten body names differ, so the comprehension keeps one entry per body, in list order. */
  lemma BodiesDistinct()
    ensures Distinct(Bodies)
  {
  }

  /** The dict `generate_chart` returns; its five fields are the dict's five keys. */
  datatype ChartRecord = ChartRecord(
    chart: Dict,              // "chart"
    moonPhase: string,        // "moon_phase"
    moonPhaseAngle: real,     // "moon_phase_angle"
    moonPhaseFraction: real,  // "moon_phase_fraction"
    name: string              // "name"
  )

  /**
   `generate_chart` once the place, the time and the ephemeris have been
   resolved: `signOf` is the library's sign lookup for a body, `sunLon` and
   `moonLon` the ecliptic longitudes, `fraction` the illuminated fraction.
   */
  function GenerateChart(name: string, signOf: string -> string, sunLon: real, moonLon: real, fraction: real)
    : (r: ChartRecord)
    ensures Keys(r.chart) == Bodies
    ensures forall i :: 0 <= i < |Bodies| ==> r.chart[i] == (Bodies[i], signOf(Bodies[i]))
    ensures r.name == name
    ensures 0.0 <= r.moonPhaseAngle < 360.0
    ensures r.moonPhaseAngle == MoonPhase.Elongation(sunLon, moonLon)
    ensures 0.0 <= moonLon - sunLon < 360.0 ==> r.moonPhaseAngle == moonLon - sunLon
    ensures r.moonPhase in MoonPhase.PhaseNames && r.moonPhase != "Waxing Crescent"
    ensures r.moonPhase == "Waning Crescent" <==> 270.0 <= r.moonPhaseAngle
    // the reported name is the name of the one arc that holds the reported angle
    ensures forall p: MoonPhase.Phase :: r.moonPhase == MoonPhase.Name(p) <==> MoonPhase.InArc(p, r.moonPhaseAngle)
    ensures r.moonPhaseFraction == fraction
  {
    BodiesDistinct();
    var chart := Comprehend(Bodies, signOf);
    forall i | 0 <= i < |Bodies| ensures chart[i] == (Bodies[i], signOf(Bodies[i])) {
      ComprehendAt(Bodies, signOf, i);
    }
    var angle := MoonPhase.Elongation(sunLon, moonLon);
    var phase := MoonPhase.Classify(angle);
    MoonPhase.ClassifyNames(angle);
    MoonPhase.ArcWidths(MoonPhase.WaningCrescent, angle);
    MoonPhase.NameInjective(phase, MoonPhase.WaningCrescent);
    forall p: MoonPhase.Phase
      ensures MoonPhase.Name(phase) == MoonPhase.Name(p) <==> MoonPhase.InArc(p, angle)
    {
      MoonPhase.NameInjective(phase, p);
      MoonPhase.ClassifyIffInArc(p, angle);
    }
    ChartRecord(chart, MoonPhase.Name(phase), angle, fraction, name)
  }
}
