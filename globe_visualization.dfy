/**
 * The country colouring of the globe component: a static table of country
 * bounding boxes, an inclusive containment test, the red/green/yellow/grey
 * priority per vertex, and the loop that fills the vertex colour buffer.
 */
module GlobeVisualization {
  import opened Common
  import GlobeData

  /** An axis-aligned latitude/longitude rectangle, in degrees. */
  datatype BoundingBox = BoundingBox(minLat: real, maxLat: real, minLon: real, maxLon: real)

  /** A vertex of the sphere, already converted to latitude and longitude. */
  datatype LatLon = LatLon(lat: real, lon: real)

  /** The approximate country boundaries the component knows; any other code is unknown. */
  const CountryBoundaries: map<string, BoundingBox> := map[
    "US" := BoundingBox(24.396308, 49.384358, -125.000000, -66.934570),
    "CA" := BoundingBox(41.676556, 83.110626, -141.002695, -52.617711),
    "GB" := BoundingBox(49.674, 61.061, -8.648, 1.768),
    "FR" := BoundingBox(41.315, 51.089, -5.142, 9.662),
    "DE" := BoundingBox(47.270, 55.099, 5.866, 15.042),
    "JP" := BoundingBox(24.249, 45.523, 122.934, 153.987),
    "AU" := BoundingBox(-43.645, -10.062, 113.338, 153.569),
    "BR" := BoundingBox(-33.742, 5.272, -73.985, -34.793),
    "IN" := BoundingBox(6.747, 35.674, 68.162, 97.395),
    "CN" := BoundingBox(18.197, 53.557, 73.498, 134.773)
  ]

  /** A 24-bit RGB colour written as a hex integer. */
  type Hex = x: int | 0 <= x < 0x100_0000

  const DefaultColor: Hex := 0xcccccc
  const ExistingColor: Hex := 0xff0000
  const PotentialColor: Hex := 0x00ff00
  const ChallengingColor: Hex := 0xffff00

  predicate InBox(b: BoundingBox, lat: real, lon: real) {
    b.minLat <= lat <= b.maxLat && b.minLon <= lon <= b.maxLon
  }

  /** The rectangle test; a code missing from the table never matches. */
  function IsPointInCountry(lat: real, lon: real, code: string): (r: bool)
    ensures r ==> code in CountryBoundaries
    ensures code in CountryBoundaries ==> (r <==> InBox(CountryBoundaries[code], lat, lon))
  {
    if code !in CountryBoundaries then false
    else
      InBox(CountryBoundaries[code], lat, lon)
  }

  /** Every box of the table is a proper rectangle. */
  lemma BoundariesWellFormed(code: string)
    requires code in CountryBoundaries
    ensures CountryBoundaries[code].minLat < CountryBoundaries[code].maxLat
    ensures CountryBoundaries[code].minLon < CountryBoundaries[code].maxLon
  {
  }

  /** The bounds are inclusive: both opposite corners of a known box are inside it, and a point past any edge is not. */
  lemma BoundsInclusive(code: string, lat: real, lon: real)
    requires code in CountryBoundaries
    ensures var b := CountryBoundaries[code];
      && IsPointInCountry(b.minLat, b.minLon, code)
      && IsPointInCountry(b.maxLat, b.maxLon, code)
      && (lat < b.minLat || lat > b.maxLat || lon < b.minLon || lon > b.maxLon ==> !IsPointInCountry(lat, lon, code))
  {
  }

  /** Codes outside the table, the empty string among them, never colour anything. */
  lemma UnknownCodeNeverMatches(code: string, lat: real, lon: real)
    requires code !in CountryBoundaries
    ensures !IsPointInCountry(lat, lon, code)
  {
  }

  /** `Array.prototype.find` with `isPointInCountry` as the test: the first code of the bucket whose box holds the point. */
  function Find(codes: seq<string>, lat: real, lon: real): (r: Option<string>)
    ensures r.Some? ==> exists i :: 0 <= i < |codes| && codes[i] == r.value && IsPointInCountry(lat, lon, codes[i])
                                     && forall j :: 0 <= j < i ==> !IsPointInCountry(lat, lon, codes[j])
    ensures r.None? ==> forall i :: 0 <= i < |codes| ==> !IsPointInCountry(lat, lon, codes[i])
    decreases |codes|
  {
    if |codes| == 0 then None
    else if IsPointInCountry(lat, lon, codes[0]) then Some(codes[0])
    else
      var rest := Find(codes[1..], lat, lon);
      if rest.Some? then
        ghost var i :| 0 <= i < |codes| - 1 && codes[1..][i] == rest.value && IsPointInCountry(lat, lon, codes[1..][i])
                       && forall j :: 0 <= j < i ==> !IsPointInCountry(lat, lon, codes[1..][j]);
        assert codes[i + 1] == rest.value;
        assert forall j :: 1 <= j < i + 1 ==> codes[j] == codes[1..][j - 1];
        rest
      else
        assert forall i :: 1 <= i < |codes| ==> codes[i] == codes[1..][i - 1];
        rest
  }

  /** JavaScript truthiness of what `find` returns: undefined and the empty string are falsy. */
  predicate Truthy(o: Option<string>) {
    o.Some? && o.value != ""
  }

  /** Some code of the bucket has a box that holds the point. */
  predicate Covers(codes: seq<string>, lat: real, lon: real) {
    exists i :: 0 <= i < |codes| && IsPointInCountry(lat, lon, codes[i])
  }

  /** The `if (existingCountry)` tests are pure existence checks: a found code is never falsy. */
  lemma FindTruthyIffCovers(codes: seq<string>, lat: real, lon: real)
    ensures Truthy(Find(codes, lat, lon)) <==> Covers(codes, lat, lon)
  {
  }

  /** The colour of one vertex: existing (red) beats potential (green) beats challenging (yellow); otherwise the grey default. */
  function VertexColor(v: LatLon, g: GlobeData.Buckets): (c: Hex)
    ensures c == ExistingColor || c == PotentialColor || c == ChallengingColor || c == DefaultColor
  {
    var existingCountry := Find(g.existing, v.lat, v.lon);
    var potentialCountry := Find(g.potential, v.lat, v.lon);
    var challengingCountry := Find(g.challenging, v.lat, v.lon);
    if Truthy(existingCountry) then ExistingColor
    else if Truthy(potentialCountry) then PotentialColor
    else if Truthy(challengingCountry) then ChallengingColor
    else DefaultColor
  }

  /** The priority rule, stated against bucket coverage in both directions. */
  lemma ColorPriority(v: LatLon, g: GlobeData.Buckets)
    ensures var c := VertexColor(v, g);
      && (c == ExistingColor <==> Covers(g.existing, v.lat, v.lon))
      && (c == PotentialColor <==> !Covers(g.existing, v.lat, v.lon) && Covers(g.potential, v.lat, v.lon))
      && (c == ChallengingColor <==> !Covers(g.existing, v.lat, v.lon) && !Covers(g.potential, v.lat, v.lon)
                                      && Covers(g.challenging, v.lat, v.lon))
      && (c == DefaultColor <==> !Covers(g.existing, v.lat, v.lon) && !Covers(g.potential, v.lat, v.lon)
                                  && !Covers(g.challenging, v.lat, v.lon))
  {
  }

  lemma CoversPermutation(a: seq<string>, b: seq<string>, lat: real, lon: real)
    requires multiset(a) == multiset(b)
    ensures Covers(a, lat, lon) <==> Covers(b, lat, lon)
  {
    if Covers(a, lat, lon) {
      var i :| 0 <= i < |a| && IsPointInCountry(lat, lon, a[i]);
      assert a[i] in multiset(b);
      var j :| 0 <= j < |b| && b[j] == a[i];
    }
    if Covers(b, lat, lon) {
      var i :| 0 <= i < |b| && IsPointInCountry(lat, lon, b[i]);
      assert b[i] in multiset(a);
      var j :| 0 <= j < |a| && a[j] == b[i];
    }
  }

  /** Reordering the codes inside any bucket does not change any vertex colour. */
  lemma ColorIgnoresOrder(v: LatLon, g: GlobeData.Buckets, h: GlobeData.Buckets)
    requires multiset(g.existing) == multiset(h.existing)
    requires multiset(g.potential) == multiset(h.potential)
    requires multiset(g.challenging) == multiset(h.challenging)
    ensures VertexColor(v, g) == VertexColor(v, h)
  {
    ColorPriority(v, g);
    ColorPriority(v, h);
    CoversPermutation(g.existing, h.existing, v.lat, v.lon);
    CoversPermutation(g.potential, h.potential, v.lat, v.lon);
    CoversPermutation(g.challenging, h.challenging, v.lat, v.lon);
  }

  /** Channel k (0 red, 1 green, 2 blue) of a hex colour, as an 8-bit value. */
  function Channel(c: Hex, k: nat): (r: int)
    requires k < 3
    ensures 0 <= r < 0x100
  {
    if k == 0 then c / 0x10000 else if k == 1 then (c / 0x100) % 0x100 else c % 0x100
  }

  /** The three channels written for a vertex determine its colour. */
  lemma ChannelsDetermineColor(c: Hex)
    ensures Channel(c, 0) * 0x10000 + Channel(c, 1) * 0x100 + Channel(c, 2) == c
  {
  }

  /** The effect's loop: a buffer of three entries per vertex, slots 3i..3i+2 holding the channels of vertex i's colour. */
  method FillColors(vertices: seq<LatLon>, g: GlobeData.Buckets) returns (colors: array<int>)
    ensures fresh(colors)
    ensures colors.Length == 3 * |vertices|
    ensures forall i :: 0 <= i < |vertices| ==>
      && colors[3 * i] == Channel(VertexColor(vertices[i], g), 0)
      && colors[3 * i + 1] == Channel(VertexColor(vertices[i], g), 1)
      && colors[3 * i + 2] == Channel(VertexColor(vertices[i], g), 2)
  {
    colors := new int[3 * |vertices|];
    var i := 0;
    while i < |vertices|
      invariant 0 <= i <= |vertices|
      invariant forall j :: 0 <= j < i ==>
        && colors[3 * j] == Channel(VertexColor(vertices[j], g), 0)
        && colors[3 * j + 1] == Channel(VertexColor(vertices[j], g), 1)
        && colors[3 * j + 2] == Channel(VertexColor(vertices[j], g), 2)
    {
      var color := VertexColor(vertices[i], g);
      colors[i * 3] := Channel(color, 0);
      colors[i * 3 + 1] := Channel(color, 1);
      colors[i * 3 + 2] := Channel(color, 2);
      i := i + 1;
    }
  }
}
