/**
  The render branch of `App` (App.tsx:68-121): which of the three views is
  shown for the current cells, and the data handed to the map widget.
 */
module Render {
  import opened Wrappers
  import opened LocationProvider
  import opened ScreenState

  /** Both spans of the map's initial region (App.tsx:101-102). */
  const MapDelta: real := 0.01
  const MarkerTitle: string := "Você está aqui!"
  const PinColor: string := "#ff0000"
  const LoadingCaption: string := "Obtendo sua localização..."
  const RetryLabel: string := "Tentar novamente"

  datatype Region = Region(latitude: real, longitude: real, latitudeDelta: real, longitudeDelta: real)

  /** The marker's props; its description text is not modelled. */
  datatype MarkerData = MarkerData(coordinate: Coords, title: string, pinColor: string)

  /** The props handed to the map widget and its one child marker. */
  datatype MapData = MapData(
    initialRegion: Region,
    marker: MarkerData,
    showsUserLocation: bool,
    showsMyLocationButton: bool,
    followsUserLocation: bool)

  /**
    The view returned. `MapScreen(None)` is the plain container drawn when
    there is no sample to put on a map.
   */
  datatype ViewKind =
    | LoadingView(caption: string)
    | ErrorView(message: string, retryLabel: string)
    | MapScreen(mapData: Option<MapData>)

  /** A render that either returns a view or throws. */
  datatype Rendering = Rendered(view: ViewKind) | TypeErrorThrown

  /** The map for a sample: centred on it, with the marker on it. */
  function MapFor(s: Sample): (m: MapData)
    ensures m.initialRegion.latitude == s.coords.latitude
    ensures m.initialRegion.longitude == s.coords.longitude
    ensures m.initialRegion.latitudeDelta == m.initialRegion.longitudeDelta == 0.01
    ensures m.marker.coordinate == s.coords
    ensures m.marker.title == MarkerTitle && m.marker.pinColor == PinColor
    ensures m.showsUserLocation && m.showsMyLocationButton && m.followsUserLocation
  {
    MapData(
      Region(s.coords.latitude, s.coords.longitude, MapDelta, MapDelta),
      MarkerData(Coords(s.coords.latitude, s.coords.longitude), MarkerTitle, PinColor),
      true, true, true)
  }

  /**
    The view selected by the cells: loading first, then a truthy error
    message, then the map. The map itself is drawn only when a sample is
    stored.
   */
  function View(c: Cells): (v: ViewKind)
    ensures v.LoadingView? <==> c.loading
    ensures v.ErrorView? <==> !c.loading && c.errorMsg != ""
    ensures v.MapScreen? <==> !c.loading && c.errorMsg == ""
    ensures v.LoadingView? ==> v.caption == LoadingCaption
    ensures v.ErrorView? ==> v.message == c.errorMsg && v.retryLabel == RetryLabel
    ensures v.MapScreen? ==> (v.mapData.Some? <==> c.location.Some?)
    ensures v.MapScreen? && v.mapData.Some? ==> v.mapData.value == MapFor(c.location.value)
  {
    if c.loading then LoadingView(LoadingCaption)
    else if c.errorMsg != "" then ErrorView(c.errorMsg, RetryLabel)
    else
      match c.location
      case Some(s) => MapScreen(Some(MapFor(s)))
      case None => MapScreen(None)
  }

  /**
    The render branch as written. The initial `{}` passes the `location &&`
    guard, and reading `location.coords.latitude` for the marker then throws.
   */
  function RenderAsWritten(c: Cells): (r: Rendering)
    ensures r.TypeErrorThrown? <==> !c.loading && c.errorMsg == "" && c.location.None?
    ensures r.Rendered? ==> r.view == View(c)
  {
    if c.loading then Rendered(LoadingView(LoadingCaption))
    else if c.errorMsg != "" then Rendered(ErrorView(c.errorMsg, RetryLabel))
    else
      match c.location
      case Some(s) => Rendered(MapScreen(Some(MapFor(s))))
      case None => TypeErrorThrown
  }

  /** The first render, before the mount effect has run, throws. */
  lemma FirstRenderThrows()
    ensures RenderAsWritten(Initial()) == TypeErrorThrown
    ensures View(Initial()) == MapScreen(None)
  {
  }

  /** A failure without a message before any sample was stored makes the next render throw. */
  lemma BlankFailureWithoutSampleThrows(c: Cells, r: Replies)
    requires c.location == None
    requires Result(r).Failed? && MessageText(Result(r).message) == ""
    ensures RenderAsWritten(Fetched(c, r)) == TypeErrorThrown
  {
  }
}
