/**
 * The record transformations of the map screen (app/index.tsx): renaming the
 * fields of incoming vessel records, projecting vessels onto map features and
 * reading a tapped feature back, the zoom buttons, and the viewport message
 * sent to the server. React state, rendering and the map library are not
 * part of this model; their results arrive here as parameters.
 */
module HomeScreen {
  import opened Wrappers

  /**
   * A JavaScript number. Latitudes, longitudes, headings, courses and speeds
   * are only ever copied from one record to another, never computed with.
   */
  type Number = real

  /** `Coordinate` of shared/types.ts. */
  datatype Coordinate = Coordinate(latitude: Number, longitude: Number)

  /** `VesselCoordinate` of shared/types.ts: a coordinate with the ship's identity and motion. */
  datatype VesselCoordinate = VesselCoordinate(
    latitude: Number,
    longitude: Number,
    mmsi: string,    // ship identifier
    heading: Number,
    cog: Number,     // course over ground
    sog: Number)     // speed over ground

  /** One element of the array the server sends, with its own field names. */
  datatype FeedRecord = FeedRecord(
    mmsi: string,
    lat: Number,
    lon: Number,
    cog: Number,
    sog: Number,
    heading: Number)

  // ---------------------------------------------------------------------
  // Incoming records
  // ---------------------------------------------------------------------

  function Rename(rec: FeedRecord): VesselCoordinate {
    VesselCoordinate(rec.lat, rec.lon, rec.mmsi, rec.heading, rec.cog, rec.sog)
  }

  /**
   * The `vesselCoordinateData.map(...)` renaming: one vessel per record, in
   * the same order, with `lat` and `lon` becoming `latitude` and `longitude`
   * and every other field passed through.
   */
  function RenameAll(recs: seq<FeedRecord>): (vs: seq<VesselCoordinate>)
    ensures |vs| == |recs|
    ensures forall i :: 0 <= i < |recs| ==>
      && vs[i].latitude == recs[i].lat
      && vs[i].longitude == recs[i].lon
      && vs[i].mmsi == recs[i].mmsi
      && vs[i].cog == recs[i].cog
      && vs[i].sog == recs[i].sog
      && vs[i].heading == recs[i].heading
    decreases |recs|
  {
    if recs == [] then [] else [Rename(recs[0])] + RenameAll(recs[1..])
  }

  /** Renaming works record by record: renaming a concatenation concatenates the renamings. */
  lemma {:induction false} RenameAllAppend(a: seq<FeedRecord>, b: seq<FeedRecord>)
    ensures RenameAll(a + b) == RenameAll(a) + RenameAll(b)
    decreases |a|
  {
    if a != [] {
      assert (a + b)[0] == a[0];
      assert (a + b)[1..] == a[1..] + b;
      RenameAllAppend(a[1..], b);
    } else {
      assert a + b == b;
    }
  }

  // ---------------------------------------------------------------------
  // Map features
  // ---------------------------------------------------------------------

  /** A GeoJSON point; `coordinates` is the array `[longitude, latitude]`. */
  datatype Point = Point(coordinates: seq<Number>)

  /** The properties a feature carries for icon rotation and for taps. */
  datatype FeatureProperties = FeatureProperties(
    heading: Number,
    speed: Number,
    cog: Number,
    mmsi: string)

  datatype Feature = Feature(geometry: Point, properties: FeatureProperties)

  datatype FeatureCollection = FeatureCollection(features: seq<Feature>)

  function ToFeature(c: VesselCoordinate): Feature {
    Feature(Point([c.longitude, c.latitude]), FeatureProperties(c.heading, c.sog, c.cog, c.mmsi))
  }

  /** The `shipCoordinates.map(...)` of `featureCollectionShape`: one feature per vessel, in order. */
  function ToFeatures(cs: seq<VesselCoordinate>): (fs: seq<Feature>)
    ensures |fs| == |cs|
    ensures forall i :: 0 <= i < |cs| ==> fs[i] == ToFeature(cs[i])
    decreases |cs|
  {
    if cs == [] then [] else [ToFeature(cs[0])] + ToFeatures(cs[1..])
  }

  /**
   * `featureCollectionShape`: one feature per vessel, in order, placed at
   * `[longitude, latitude]` and carrying `heading`, `speed` (the vessel's
   * `sog`), `cog` and `mmsi`.
   */
  function FeatureCollectionShape(cs: seq<VesselCoordinate>): (fc: FeatureCollection)
    ensures |fc.features| == |cs|
    ensures forall i :: 0 <= i < |cs| ==>
      && fc.features[i].geometry.coordinates == [cs[i].longitude, cs[i].latitude]
      && fc.features[i].properties.heading == cs[i].heading
      && fc.features[i].properties.speed == cs[i].sog
      && fc.features[i].properties.cog == cs[i].cog
      && fc.features[i].properties.mmsi == cs[i].mmsi
  {
    FeatureCollection(ToFeatures(cs))
  }

  /**
   * `onSourceLayerPress`: the vessel shown after a tap, built from the first
   * feature under the tap and the tapped position. With no feature under the
   * tap, `features[0].properties` throws; that outcome is `None`.
   */
  function SelectedVessel(features: seq<Feature>, pressed: Coordinate): (v: Option<VesselCoordinate>)
    ensures v.None? <==> features == []
    ensures v.Some? ==>
      && v.value.latitude == pressed.latitude
      && v.value.longitude == pressed.longitude
      && v.value.mmsi == features[0].properties.mmsi
      && v.value.sog == features[0].properties.speed
      && v.value.cog == features[0].properties.cog
      && v.value.heading == features[0].properties.heading
  {
    if features == [] then None
    else
      var p := features[0].properties;
      Some(VesselCoordinate(pressed.latitude, pressed.longitude, p.mmsi, p.heading, p.cog, p.speed))
  }

  /**
   * Tapping the feature drawn for vessel `i` gives back that vessel's
   * `mmsi`, `sog`, `cog` and `heading`; its position is the tapped one, so
   * a tap exactly on the vessel gives back the vessel itself.
   */
  lemma TapReadsBackVessel(cs: seq<VesselCoordinate>, i: nat, others: seq<Feature>, pressed: Coordinate)
    requires i < |cs|
    ensures SelectedVessel([FeatureCollectionShape(cs).features[i]] + others, pressed)
      == Some(cs[i].(latitude := pressed.latitude, longitude := pressed.longitude))
    ensures pressed == Coordinate(cs[i].latitude, cs[i].longitude) ==>
      SelectedVessel([FeatureCollectionShape(cs).features[i]] + others, pressed) == Some(cs[i])
  {
  }

  // ---------------------------------------------------------------------
  // Zoom buttons
  // ---------------------------------------------------------------------

  const MinZoom: int := 0
  const MaxZoom: int := 20
  /** The zoom level the screen starts with. */
  const InitialZoom: int := 10

  /** `increaseZoom`: one level closer, but never past `MaxZoom`. */
  function IncreaseZoom(z: int): (r: int)
    ensures r <= MaxZoom
    ensures z < MaxZoom ==> r == z + 1
    ensures z >= MaxZoom ==> r == MaxZoom
  {
    if z + 1 < MaxZoom then z + 1 else MaxZoom
  }

  /** `decreaseZoom`: one level out, but never below `MinZoom`. */
  function DecreaseZoom(z: int): (r: int)
    ensures r >= MinZoom
    ensures z > MinZoom ==> r == z - 1
    ensures z <= MinZoom ==> r == MinZoom
  {
    if z - 1 > MinZoom then z - 1 else MinZoom
  }

  /** Inside the range, one press of each button undoes the other. */
  lemma ZoomStepsUndo(z: int)
    ensures MinZoom <= z < MaxZoom ==> DecreaseZoom(IncreaseZoom(z)) == z
    ensures MinZoom < z <= MaxZoom ==> IncreaseZoom(DecreaseZoom(z)) == z
  {
  }

  datatype ZoomButton = ZoomIn | ZoomOut

  /** The zoom level after pressing `presses` in order, starting at `z`. */
  function ZoomAfter(z: int, presses: seq<ZoomButton>): int
    decreases |presses|
  {
    if presses == [] then z
    else ZoomAfter(if presses[0] == ZoomIn then IncreaseZoom(z) else DecreaseZoom(z), presses[1..])
  }

  /**
   * No sequence of presses leaves the range: from any level in
   * `[MinZoom, MaxZoom]`, in particular from `InitialZoom`, the level stays inside.
   */
  lemma {:induction false} ZoomStaysInRange(z: int, presses: seq<ZoomButton>)
    requires MinZoom <= z <= MaxZoom
    ensures MinZoom <= ZoomAfter(z, presses) <= MaxZoom
    decreases |presses|
  {
    if presses != [] {
      var next := if presses[0] == ZoomIn then IncreaseZoom(z) else DecreaseZoom(z);
      ZoomStaysInRange(next, presses[1..]);
    }
  }

  // ---------------------------------------------------------------------
  // Viewport message
  // ---------------------------------------------------------------------

  /** What `getVisibleBounds` resolved to: two corners, each `[first, second]`. */
  type VisibleBounds = seq<seq<Number>>

  /** The four bound fields of the message; `None` is a field `JSON.stringify` omits. */
  datatype ViewportBounds = ViewportBounds(
    minLatitude: Option<Number>,
    minLongitude: Option<Number>,
    maxLatitude: Option<Number>,
    maxLongitude: Option<Number>)

  /** The `{bounds, zoom}` object sent to the server. */
  datatype ViewportMessage = ViewportMessage(bounds: ViewportBounds, zoom: int)

  /** `bounds?.[i]?.[j]`: undefined when the bounds or either index is missing. */
  function Corner(bounds: Option<VisibleBounds>, i: nat, j: nat): (c: Option<Number>)
    ensures c.Some? <==> bounds.Some? && i < |bounds.value| && j < |bounds.value[i]|
    ensures c.Some? ==> c.value == bounds.value[i][j]
  {
    if bounds.Some? && i < |bounds.value| && j < |bounds.value[i]| then Some(bounds.value[i][j]) else None
  }

  /** Two corners of two numbers each. */
  predicate WellFormed(bounds: VisibleBounds) {
    |bounds| == 2 && |bounds[0]| == 2 && |bounds[1]| == 2
  }

  /**
   * The message built from the visible bounds and a zoom level: the first
   * corner gives the minima and the second the maxima, each corner read as
   * `[latitude, longitude]`; absent bounds give a message without bounds.
   * The debounced region-change handler sends this whether or not bounds exist.
   */
  function ViewportPayload(bounds: Option<VisibleBounds>, zoom: int): (m: ViewportMessage)
    ensures m.zoom == zoom
    ensures bounds.None? ==> m.bounds == ViewportBounds(None, None, None, None)
    ensures bounds.Some? && WellFormed(bounds.value) ==>
      var b := bounds.value;
      m.bounds == ViewportBounds(Some(b[0][0]), Some(b[0][1]), Some(b[1][0]), Some(b[1][1]))
  {
    ViewportMessage(
      ViewportBounds(Corner(bounds, 0, 0), Corner(bounds, 0, 1), Corner(bounds, 1, 0), Corner(bounds, 1, 1)),
      zoom)
  }

  /**
   * One tick of the periodic sender, with the zoom level the screen shows:
   * nothing is sent without bounds, otherwise the viewport message for that zoom.
   */
  function PeriodicMessage(bounds: Option<VisibleBounds>, zoom: int): (m: Option<ViewportMessage>)
    ensures m.None? <==> bounds.None?
    ensures m.Some? ==> m.value.zoom == zoom && m.value == ViewportPayload(bounds, zoom)
  {
    if bounds.None? then None else Some(ViewportPayload(bounds, zoom))
  }

  /**
   * The periodic sender as written: its callback is created once, when the
   * screen mounts, and reads the zoom level of that first render, so the
   * current zoom level plays no part.
   */
  function PeriodicMessageAsWritten(bounds: Option<VisibleBounds>, currentZoom: int): (m: Option<ViewportMessage>)
    ensures m.None? <==> bounds.None?
    ensures m.Some? ==> m.value.zoom == InitialZoom && m.value.bounds == ViewportPayload(bounds, currentZoom).bounds
  {
    PeriodicMessage(bounds, InitialZoom)
  }

  /** After one press of the zoom-in button the screen shows 11, yet the periodic message still says 10. */
  lemma PeriodicMessageIgnoresZoomPresses(bounds: VisibleBounds)
    ensures ZoomAfter(InitialZoom, [ZoomIn]) == InitialZoom + 1
    ensures PeriodicMessageAsWritten(Some(bounds), ZoomAfter(InitialZoom, [ZoomIn])).Some?
    ensures PeriodicMessageAsWritten(Some(bounds), ZoomAfter(InitialZoom, [ZoomIn])).value.zoom
      != ZoomAfter(InitialZoom, [ZoomIn])
  {
    assert [ZoomIn][1..] == [];
  }
}
