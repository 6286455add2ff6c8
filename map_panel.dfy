/**
 * The map panel's computed data: the hemisphere and rough region of the
 * scan centre, the global and local grid lines, the radar ring, and the
 * lead tiers of the right-hand HUD. Coordinates computed with trigonometry
 * are not modelled: the ring's points come from a parameter.
 */
module MapPanel {
  import opened GenerateLeads
  import StatsPanel

  // ---------------------------------------------------------------------------
  // getHemisphere
  // ---------------------------------------------------------------------------

  datatype Hemisphere = Norte | Sur

  datatype Region = Europa | Norteamerica | Sudamerica | AsiaPacifico | MedioOriente | Africa | Oceano

  /** The text the HUD shows for a region. */
  function RegionName(r: Region): string
  {
    match r
    case Europa => "Europa"
    case Norteamerica => "Norteam\U{00E9}rica"
    case Sudamerica => "Sudam\U{00E9}rica"
    case AsiaPacifico => "Asia-Pac\U{00ED}fico"
    case MedioOriente => "Medio Oriente"
    case Africa => "\U{00C1}frica"
    case Oceano => "Oc\U{00E9}ano"
  }

  datatype WorldInfo = WorldInfo(hemisphere: Hemisphere, region: Region)

  /** `getHemisphere(lat, lng)`: the hemisphere, and the region of the first box of the if-chain that holds the point. */
  function GetHemisphere(lat: real, lng: real): WorldInfo
  {
    var hemisphere := if lat >= 0.0 then Norte else Sur;
    var region :=
      if lat >= 35.0 && lat <= 70.0 && lng >= -10.0 && lng <= 40.0 then Europa
      else if lat >= 25.0 && lat <= 50.0 && lng >= -125.0 && lng <= -65.0 then Norteamerica
      else if lat >= -35.0 && lat <= 15.0 && lng >= -80.0 && lng <= -35.0 then Sudamerica
      else if lat >= -35.0 && lat <= 35.0 && lng >= 100.0 && lng <= 150.0 then AsiaPacifico
      else if lat >= -35.0 && lat <= 35.0 && lng >= 20.0 && lng <= 50.0 then MedioOriente
      else if lat >= -35.0 && lat <= 35.0 && lng >= -20.0 && lng <= 55.0 then Africa
      else Oceano;
    WorldInfo(hemisphere, region)
  }

  /** A closed latitude and longitude box. */
  datatype Box = Box(latMin: real, latMax: real, lngMin: real, lngMax: real)

  predicate InBox(b: Box, lat: real, lng: real)
  {
    b.latMin <= lat <= b.latMax && b.lngMin <= lng <= b.lngMax
  }

  /** The regions and their boxes, in the order they are tested. */
  const RegionBoxes: seq<(Region, Box)> := [
    (Europa, Box(35.0, 70.0, -10.0, 40.0)),
    (Norteamerica, Box(25.0, 50.0, -125.0, -65.0)),
    (Sudamerica, Box(-35.0, 15.0, -80.0, -35.0)),
    (AsiaPacifico, Box(-35.0, 35.0, 100.0, 150.0)),
    (MedioOriente, Box(-35.0, 35.0, 20.0, 50.0)),
    (Africa, Box(-35.0, 35.0, -20.0, 55.0))
  ]

  /** The region of the first box in `table` that holds the point; `Oceano` when none does. */
  function FirstBox(table: seq<(Region, Box)>, lat: real, lng: real): Region
  {
    if table == [] then Oceano
    else if InBox(table[0].1, lat, lng) then table[0].0
    else FirstBox(table[1..], lat, lng)
  }

  /** The hemisphere is `Norte` exactly when the latitude is not negative. */
  lemma HemisphereIffNorth(lat: real, lng: real)
    ensures GetHemisphere(lat, lng).hemisphere == Norte <==> lat >= 0.0
  {
  }

  /** The if-chain is the first-match lookup over the ordered box table. */
  lemma RegionIsFirstMatch(lat: real, lng: real)
    ensures GetHemisphere(lat, lng).region == FirstBox(RegionBoxes, lat, lng)
  {
    var t0 := RegionBoxes;
    var t1 := t0[1..];
    var t2 := t1[1..];
    var t3 := t2[1..];
    var t4 := t3[1..];
    var t5 := t4[1..];
    var t6 := t5[1..];
    assert FirstBox(t0, lat, lng) == if InBox(t0[0].1, lat, lng) then Europa else FirstBox(t1, lat, lng);
    assert FirstBox(t1, lat, lng) == if InBox(t1[0].1, lat, lng) then Norteamerica else FirstBox(t2, lat, lng);
    assert FirstBox(t2, lat, lng) == if InBox(t2[0].1, lat, lng) then Sudamerica else FirstBox(t3, lat, lng);
    assert FirstBox(t3, lat, lng) == if InBox(t3[0].1, lat, lng) then AsiaPacifico else FirstBox(t4, lat, lng);
    assert FirstBox(t4, lat, lng) == if InBox(t4[0].1, lat, lng) then MedioOriente else FirstBox(t5, lat, lng);
    assert FirstBox(t5, lat, lng) == if InBox(t5[0].1, lat, lng) then Africa else FirstBox(t6, lat, lng);
    assert t6 == [];
  }

  /** A region is reported exactly when its box holds the point and no earlier box does. */
  lemma {:induction false} FirstBoxIff(table: seq<(Region, Box)>, lat: real, lng: real, k: nat)
    requires k < |table|
    requires forall i, j :: 0 <= i < j < |table| ==> table[i].0 != table[j].0
    requires table[k].0 != Oceano
    ensures FirstBox(table, lat, lng) == table[k].0 <==>
      InBox(table[k].1, lat, lng) && forall j :: 0 <= j < k ==> !InBox(table[j].1, lat, lng)
  {
    var rest := table[1..];
    if k == 0 {
      if !InBox(table[0].1, lat, lng) {
        FirstBoxNotIn(rest, lat, lng, table[0].0);
      }
    } else {
      forall i, j | 0 <= i < j < |rest| ensures rest[i].0 != rest[j].0 {
        assert rest[i] == table[i + 1] && rest[j] == table[j + 1];
      }
      assert rest[k - 1] == table[k];
      FirstBoxIff(rest, lat, lng, k - 1);
      forall j | 0 <= j < k - 1 ensures rest[j] == table[j + 1] {
      }
    }
  }

  /** A region missing from the table is never its answer, unless it is `Oceano`. */
  lemma {:induction false} FirstBoxNotIn(table: seq<(Region, Box)>, lat: real, lng: real, r: Region)
    requires r != Oceano && forall j :: 0 <= j < |table| ==> table[j].0 != r
    ensures FirstBox(table, lat, lng) != r
  {
    if table != [] && !InBox(table[0].1, lat, lng) {
      forall j | 0 <= j < |table[1..]| ensures table[1..][j].0 != r {
        assert table[1..][j] == table[j + 1];
      }
      FirstBoxNotIn(table[1..], lat, lng, r);
    }
  }

  /**
   * `Africa` is never reported for a longitude from 20 to 50: the Middle East
   * box has the same latitudes and is tested first.
   */
  lemma AfricaShadowed(lat: real, lng: real)
    requires 20.0 <= lng <= 50.0
    ensures GetHemisphere(lat, lng).region != Africa
  {
  }

  /**
   * Below latitude 35 the Africa box loses only its Middle East band; at
   * latitude 35 itself the Europe box also takes longitudes from -10 to 40.
   */
  lemma AfricaReachable(lat: real, lng: real)
    requires InBox(RegionBoxes[5].1, lat, lng) && lat < 35.0
    ensures GetHemisphere(lat, lng).region == Africa <==> lng < 20.0 || lng > 50.0
  {
  }

  // ---------------------------------------------------------------------------
  // createGlobalGridLines
  // ---------------------------------------------------------------------------

  datatype Axis = Latitude | Longitude

  /** A world grid line: a parallel or a meridian at `degree`, drawn bold when major. */
  datatype GridLine = GridLine(axis: Axis, degree: int, major: bool)

  /** JavaScript's `%`, whose remainder takes the sign of the dividend. */
  function JsRem(a: int, b: int): (r: int)
    requires b > 0
    ensures a >= 0 ==> 0 <= r < b
    ensures a < 0 ==> -b < r <= 0
  {
    if a >= 0 then a % b else -((-a) % b)
  }

  /** `isMajor`: a multiple of 30, or the zero line. */
  function IsMajor(degree: int): bool
  {
    JsRem(degree, 30) == 0 || degree == 0
  }

  /** A line is major exactly when its degree is a multiple of 30. */
  lemma MajorIffMultipleOf30(degree: int)
    ensures IsMajor(degree) <==> degree % 30 == 0
  {
    if degree < 0 {
      var q := (-degree) / 30;
      var r := (-degree) % 30;
      assert -degree == 30 * q + r;
      assert degree == 30 * (-q - 1) + (30 - r) || r == 0;
      if r == 0 {
        assert degree == 30 * (-q);
      }
    }
  }

  /** The lines `createGlobalGridLines` pushes, in order. */
  function GlobalGrid(): seq<GridLine>
  {
    seq(13, k => GridLine(Latitude, -90 + 15 * k, IsMajor(-90 + 15 * k)))
    + seq(25, k => GridLine(Longitude, -180 + 15 * k, IsMajor(-180 + 15 * k)))
  }

  /**
   * `createGlobalGridLines()`: 13 parallels from -90 to 90, then 25
   * meridians from -180 to 180, every 15 degrees.
   */
  method CreateGlobalGridLines() returns (lines: seq<GridLine>)
    ensures lines == GlobalGrid()
    ensures |lines| == 38
  {
    lines := [];
    var lat := -90;
    while lat <= 90
      invariant -90 <= lat <= 105 && (lat + 90) % 15 == 0
      invariant lines == seq((lat + 90) / 15, k => GridLine(Latitude, -90 + 15 * k, IsMajor(-90 + 15 * k)))
      decreases 90 - lat
    {
      lines := lines + [GridLine(Latitude, lat, IsMajor(lat))];
      lat := lat + 15;
    }
    var parallels := lines;
    var lng := -180;
    while lng <= 180
      invariant -180 <= lng <= 195 && (lng + 180) % 15 == 0
      invariant lines == parallels + seq((lng + 180) / 15, k => GridLine(Longitude, -180 + 15 * k, IsMajor(-180 + 15 * k)))
      decreases 180 - lng
    {
      lines := lines + [GridLine(Longitude, lng, IsMajor(lng))];
      lng := lng + 15;
    }
  }

  /** The grid's lines sit every 15 degrees across the whole globe, and the major ones are those on multiples of 30. */
  lemma GlobalGridShape()
    ensures forall k :: 0 <= k < 13 ==> GlobalGrid()[k].axis == Latitude && -90 <= GlobalGrid()[k].degree <= 90
    ensures forall k :: 13 <= k < 38 ==> GlobalGrid()[k].axis == Longitude && -180 <= GlobalGrid()[k].degree <= 180
    ensures forall k :: 0 <= k < 38 ==> (GlobalGrid()[k].major <==> GlobalGrid()[k].degree % 30 == 0)
    ensures forall k :: 0 <= k < 38 ==> GlobalGrid()[k].degree % 15 == 0
  {
    var g := GlobalGrid();
    forall k | 0 <= k < 38 ensures g[k].major <==> g[k].degree % 30 == 0 {
      MajorIffMultipleOf30(g[k].degree);
    }
  }

  // ---------------------------------------------------------------------------
  // createGridLines and createCircleGeoJSON
  // ---------------------------------------------------------------------------

  /**
   * A tactical grid line, by its offset `step` from the centre in thirds of
   * the radius: a horizontal line at latitude `centre + step * r / 3`, or a
   * vertical one at that longitude.
   */
  datatype LocalLine = Horizontal(step: int) | Vertical(step: int)

  /** `createGridLines(center, radiusKm)`: seven horizontal lines, then seven vertical ones, at steps -3 to 3. */
  method CreateGridLines() returns (lines: seq<LocalLine>)
    ensures |lines| == 14
    ensures forall k :: 0 <= k < 7 ==> lines[k] == Horizontal(k - 3)
    ensures forall k :: 7 <= k < 14 ==> lines[k] == Vertical(k - 10)
  {
    lines := [];
    for i := -3 to 4
      invariant |lines| == i + 3
      invariant forall k :: 0 <= k < |lines| ==> lines[k] == Horizontal(k - 3)
    {
      lines := lines + [Horizontal(i)];
    }
    for i := -3 to 4
      invariant |lines| == i + 10
      invariant forall k :: 0 <= k < 7 ==> lines[k] == Horizontal(k - 3)
      invariant forall k :: 7 <= k < |lines| ==> lines[k] == Vertical(k - 10)
    {
      lines := lines + [Vertical(i)];
    }
  }

  /** The number of sampled points on the radar ring. */
  const RingPoints := 64

  /**
   * `createCircleGeoJSON(center, radiusKm)`: the ring's 64 points, given by
   * `pointAt`, followed by the first one again so that the polygon closes.
   */
  method CreateCircle<P>(pointAt: nat -> P) returns (ring: seq<P>)
    ensures |ring| == RingPoints + 1
    ensures forall i :: 0 <= i < RingPoints ==> ring[i] == pointAt(i)
    ensures ring[RingPoints] == ring[0]
  {
    ring := [];
    for i := 0 to RingPoints
      invariant |ring| == i
      invariant forall k :: 0 <= k < i ==> ring[k] == pointAt(k)
    {
      ring := ring + [pointAt(i)];
    }
    ring := ring + [ring[0]];
  }

  // ---------------------------------------------------------------------------
  // The HUD's lead tiers
  // ---------------------------------------------------------------------------

  datatype Tier = High | Medium | Low

  /** The filter of each tier, as written for it. */
  predicate InTier(score: int, t: Tier)
  {
    match t
    case High => score > 80
    case Medium => score > 60 && score <= 80
    case Low => score <= 60
  }

  function TierCount(leads: seq<Lead>, t: Tier): (n: nat)
    ensures n <= |leads|
  {
    if leads == [] then 0
    else TierCount(leads[..|leads| - 1], t) + (if InTier(leads[|leads| - 1].score, t) then 1 else 0)
  }

  /** The three tiers split the leads: their counts add up to `leads.length`. */
  lemma {:induction false} TiersPartition(leads: seq<Lead>)
    ensures TierCount(leads, High) + TierCount(leads, Medium) + TierCount(leads, Low) == |leads|
  {
    if leads != [] {
      TiersPartition(leads[..|leads| - 1]);
    }
  }

  /** The HUD's high-value count is the overview panel's high-score count. */
  lemma {:induction false} HighTierIsHighScore(leads: seq<Lead>)
    ensures TierCount(leads, High) == StatsPanel.HighScoreLeads(leads)
  {
    if leads != [] {
      HighTierIsHighScore(leads[..|leads| - 1]);
    }
  }
}
