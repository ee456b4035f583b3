/** The proximity map: the marker list built from a location query, and the component state around it. */
module NearMe {
  import opened Common

  const LABEL_YOU_ARE_HERE := "You are here!"
  const ICON_STANDARD_USER := "standard:user"
  const ERROR_TITLE := "Error loading Boats Near Me"
  const ERROR_VARIANT := "error"

  datatype Location = Location(Latitude: Option<Coordinate>, Longitude: Option<Coordinate>)

  /** A lightning-map marker; `icon` is None where the marker object has no icon property. */
  datatype MapMarker = MapMarker(location: Location, title: string, icon: Option<string>)

  /** The error object a wire adapter delivers. */
  datatype WireError = WireError(message: string)

  /** The `{error, data}` object handed to a wired method. */
  datatype WireResult = WireResult(error: Option<WireError>, data: Option<seq<Boat>>)

  /** A ShowToastEvent as dispatched by the component. */
  datatype Toast = Toast(title: string, message: string, variant: string)

  /** The `coords` of a browser geolocation position. */
  datatype Position = Position(latitude: Coordinate, longitude: Coordinate)

  /** The marker shown for one boat: its geolocation and its name, no icon. */
  predicate IsMarkerOf(m: MapMarker, boat: Boat) {
    && m.location == Location(boat.GeolocationLatitude, boat.GeolocationLongitude)
    && m.title == boat.Name
    && m.icon == None
  }

  /** The synthetic marker for the user's own position. */
  predicate IsHereMarker(m: MapMarker, latitude: Option<Coordinate>, longitude: Option<Coordinate>) {
    m == MapMarker(Location(latitude, longitude), LABEL_YOU_ARE_HERE, Some(ICON_STANDARD_USER))
  }

  /** The callback of `boatData.map`: the marker for one boat. */
  function BoatMarker(boat: Boat): (m: MapMarker)
    ensures IsMarkerOf(m, boat)
    ensures forall latitude, longitude :: !IsHereMarker(m, latitude, longitude)
  {
    MapMarker(Location(boat.GeolocationLatitude, boat.GeolocationLongitude), boat.Name, None)
  }

  /** `boatData.map(...)`: one marker per boat, in input order. */
  function BoatMarkers(boats: seq<Boat>): (r: seq<MapMarker>)
    ensures |r| == |boats|
    ensures forall i :: 0 <= i < |boats| ==> IsMarkerOf(r[i], boats[i])
  {
    if boats == [] then [] else [BoatMarker(boats[0])] + BoatMarkers(boats[1..])
  }

  /** The list `createMapMarkers` builds: the "You are here!" marker unshifted in front of the boat markers. */
  function NewMarkers(latitude: Option<Coordinate>, longitude: Option<Coordinate>, boatData: seq<Boat>): (r: seq<MapMarker>)
    ensures |r| == |boatData| + 1
    ensures IsHereMarker(r[0], latitude, longitude)
    ensures forall i :: 0 <= i < |boatData| ==> IsMarkerOf(r[i + 1], boatData[i])
    ensures forall i :: 0 <= i < |r| ==> (r[i].icon.Some? <==> i == 0)
  {
    [MapMarker(Location(latitude, longitude), LABEL_YOU_ARE_HERE, Some(ICON_STANDARD_USER))] + BoatMarkers(boatData)
  }

  function Titles(markers: seq<MapMarker>): seq<string> {
    if markers == [] then [] else [markers[0].title] + Titles(markers[1..])
  }

  function Names(boats: seq<Boat>): seq<string> {
    if boats == [] then [] else [boats[0].Name] + Names(boats[1..])
  }

  /** The titles on the map are "You are here!" followed by the boat names in query order. */
  lemma {:induction false} MarkerTitles(latitude: Option<Coordinate>, longitude: Option<Coordinate>, boatData: seq<Boat>)
    ensures Titles(NewMarkers(latitude, longitude, boatData)) == [LABEL_YOU_ARE_HERE] + Names(boatData)
  {
    var r := NewMarkers(latitude, longitude, boatData);
    assert r[1..] == BoatMarkers(boatData);
    BoatMarkerTitles(boatData);
  }

  lemma {:induction false} BoatMarkerTitles(boats: seq<Boat>)
    ensures Titles(BoatMarkers(boats)) == Names(boats)
  {
    if boats != [] {
      assert BoatMarkers(boats)[1..] == BoatMarkers(boats[1..]);
      BoatMarkerTitles(boats[1..]);
    }
  }

  /** The BoatsNearMe component. */
  class BoatsNearMe {
    var boatTypeId: Option<string>
    var mapMarkers: seq<MapMarker>
    var isLoading: bool
    var isRendered: bool
    var latitude: Option<Coordinate>
    var longitude: Option<Coordinate>
    var error: Option<WireError>
    /** Toasts dispatched so far. */
    ghost var toasts: seq<Toast>
    /** Calls made to the browser's getCurrentPosition so far. */
    ghost var locationRequests: nat

    /** The component invariant: location is requested at most once, and only by the first render;
        the spinner shows until the first wire result; the marker list keeps its shape; every toast is an error toast. */
    ghost predicate Valid()
      reads this
    {
      && locationRequests <= 1
      && (isRendered <==> locationRequests == 1)
      && (isLoading ==> mapMarkers == [] && toasts == [])
      && (mapMarkers != [] ==>
            && mapMarkers[0].title == LABEL_YOU_ARE_HERE
            && mapMarkers[0].icon == Some(ICON_STANDARD_USER)
            && forall i :: 1 <= i < |mapMarkers| ==> mapMarkers[i].icon == None)
      && forall t :: t in toasts ==> t.title == ERROR_TITLE && t.variant == ERROR_VARIANT
    }

    /** The field initialisers; `boatTypeId` is the public property the parent sets. */
    constructor (boatTypeId: Option<string>)
      ensures Valid()
      ensures this.boatTypeId == boatTypeId
      ensures mapMarkers == [] && isLoading && !isRendered
      ensures latitude == None && longitude == None && error == None
      ensures toasts == [] && locationRequests == 0
    {
      this.boatTypeId := boatTypeId;
      mapMarkers := [];
      isLoading := true;
      isRendered := false;
      latitude, longitude := None, None;
      error := None;
      toasts := [];
      locationRequests := 0;
    }

    /** The wired handler for the location query: data and error are tested independently. */
    method WiredBoatsJSON(result: WireResult)
      requires Valid()
      modifies this`isLoading, this`error, this`mapMarkers, this`toasts
      ensures Valid()
      ensures isLoading == (if result.data.Some? || result.error.Some? then false else old(isLoading))
      ensures error == (if result.data.Some? then None else old(error))
      ensures mapMarkers == (if result.data.Some? then NewMarkers(latitude, longitude, result.data.value) else old(mapMarkers))
      ensures toasts == old(toasts) +
        (if result.error.Some? then [Toast(ERROR_TITLE, result.error.value.message, ERROR_VARIANT)] else [])
    {
      if result.data.Some? {
        isLoading := false;
        error := None;
        CreateMapMarkers(result.data.value);
      }
      if result.error.Some? {
        isLoading := false;
        toasts := toasts + [Toast(ERROR_TITLE, result.error.value.message, ERROR_VARIANT)];
      }
    }

    /** Replaces the marker list wholesale with the one built at the current position. */
    method CreateMapMarkers(boatData: seq<Boat>)
      modifies this`mapMarkers
      ensures mapMarkers == NewMarkers(latitude, longitude, boatData)
    {
      mapMarkers := NewMarkers(latitude, longitude, boatData);
    }

    /** Requests the position on the first render only. */
    method RenderedCallback()
      requires Valid()
      modifies this`isRendered, this`locationRequests
      ensures Valid() && isRendered
      ensures locationRequests == if old(isRendered) then old(locationRequests) else old(locationRequests) + 1
    {
      if !isRendered {
        GetLocationFromBrowser();
      }
      isRendered := true;
    }

    /** Issues one getCurrentPosition request; the answer arrives through OnPositionAcquired. */
    method GetLocationFromBrowser()
      modifies this`locationRequests
      ensures locationRequests == old(locationRequests) + 1
    {
      locationRequests := locationRequests + 1;
    }

    /** The success callback passed to getCurrentPosition. */
    method OnPositionAcquired(position: Position)
      requires Valid()
      modifies this`latitude, this`longitude
      ensures Valid()
      ensures latitude == Some(position.latitude) && longitude == Some(position.longitude)
    {
      latitude := Some(position.latitude);
      longitude := Some(position.longitude);
    }
  }

  /** Render, position, a data result and then an error result: the error toast leaves the markers
      built from the data in place. */
  method DataThenError(position: Position, boats: seq<Boat>, failure: WireError)
    returns (loading: bool, markers: seq<MapMarker>, ghost toasts: seq<Toast>)
    ensures !loading
    ensures markers == NewMarkers(Some(position.latitude), Some(position.longitude), boats)
    ensures toasts == [Toast(ERROR_TITLE, failure.message, ERROR_VARIANT)]
  {
    var c := new BoatsNearMe(None);
    c.RenderedCallback();
    c.OnPositionAcquired(position);
    c.WiredBoatsJSON(WireResult(None, Some(boats)));
    c.WiredBoatsJSON(WireResult(Some(failure), None));
    loading, markers, toasts := c.isLoading, c.mapMarkers, c.toasts;
  }
}
