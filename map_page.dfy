/**
 * The `TourismMap` component's state: six fields set by the page's event
 * handlers, over a catalog fixed when the component is created.
 */
module MapPage {
  import opened Wrappers
  import opened Catalog
  import opened Search
  import opened Display

  /** Which renderer shows the filtered places. */
  datatype ViewMode = MapMode | ListMode

  /** The six state fields as one value, to say what a handler changes and what it keeps. */
  datatype View = View(
    selectedPlace: Option<PlaceWithMeta>,
    hoveredPlace: Option<PlaceWithMeta>,
    activeFilter: string,
    searchTerm: string,
    viewMode: ViewMode,
    zoom: int)

  /** Nothing selected or hovered, every category, no search, the map, zoom 1.0. */
  const InitialView: View := View(None, None, "all", "", MapMode, DefaultZoom)

  class TourismMap {
    const data: Data
    var selectedPlace: Option<PlaceWithMeta>
    var hoveredPlace: Option<PlaceWithMeta>
    var activeFilter: string
    var searchTerm: string
    var viewMode: ViewMode
    /** In quarter steps: the zoom factor is `Scale(zoom)`. */
    var zoom: int

    /** The zoom never leaves [0.5, 2.5]. */
    ghost predicate Valid()
      reads this
    {
      InZoomRange(zoom)
    }

    function Current(): View
      reads this
    {
      View(selectedPlace, hoveredPlace, activeFilter, searchTerm, viewMode, zoom)
    }

    constructor (data: Data)
      ensures Valid()
      ensures this.data == data && Current() == InitialView
    {
      this.data := data;
      selectedPlace := None;
      hoveredPlace := None;
      activeFilter := "all";
      searchTerm := "";
      viewMode := MapMode;
      zoom := DefaultZoom;
    }

    /** A filter button: sets the filter only. */
    method SetActiveFilter(key: string)
      requires Valid()
      modifies this
      ensures Valid()
      ensures Current() == old(Current()).(activeFilter := key)
    {
      activeFilter := key;
    }

    /** Typing in the search box: the term is stored verbatim, untrimmed. */
    method SetSearchTerm(text: string)
      requires Valid()
      modifies this
      ensures Valid()
      ensures Current() == old(Current()).(searchTerm := text)
    {
      searchTerm := text;
    }

    /** The Map and List buttons. */
    method SetViewMode(mode: ViewMode)
      requires Valid()
      modifies this
      ensures Valid()
      ensures Current() == old(Current()).(viewMode := mode)
    {
      viewMode := mode;
    }

    /** `handleZoomIn`. */
    method HandleZoomIn()
      requires Valid()
      modifies this
      ensures Valid()
      ensures Current() == old(Current()).(zoom := ZoomedIn(old(zoom)))
    {
      zoom := ZoomedIn(zoom);
    }

    /** `handleZoomOut`. */
    method HandleZoomOut()
      requires Valid()
      modifies this
      ensures Valid()
      ensures Current() == old(Current()).(zoom := ZoomedOut(old(zoom)))
    {
      zoom := ZoomedOut(zoom);
    }

    /** `resetView`: zoom back to 1.0; filter, search, view mode, selection and hover are kept. */
    method ResetView()
      requires Valid()
      modifies this
      ensures Valid()
      ensures Current() == old(Current()).(zoom := DefaultZoom)
    {
      zoom := DefaultZoom;
    }

    /** A click on a marker or a card: the place replaces any earlier selection. */
    method SelectPlace(p: PlaceWithMeta)
      requires Valid()
      modifies this
      ensures Valid()
      ensures Current() == old(Current()).(selectedPlace := Some(p))
    {
      selectedPlace := Some(p);
    }

    /** The close button of the details overlay. */
    method CloseDetails()
      requires Valid()
      modifies this
      ensures Valid()
      ensures Current() == old(Current()).(selectedPlace := None)
    {
      selectedPlace := None;
    }

    /** The pointer enters a marker. */
    method HoverPlace(p: PlaceWithMeta)
      requires Valid()
      modifies this
      ensures Valid()
      ensures Current() == old(Current()).(hoveredPlace := Some(p))
    {
      hoveredPlace := Some(p);
    }

    /** The pointer leaves a marker: nothing is hovered any more. */
    method LeavePlace()
      requires Valid()
      modifies this
      ensures Valid()
      ensures Current() == old(Current()).(hoveredPlace := None)
    {
      hoveredPlace := None;
    }

    /** `const places = filteredPlaces()`: what the map and the list show for the current state. */
    method Places() returns (places: seq<PlaceWithMeta>)
      ensures places == FilteredPlaces(data, activeFilter, searchTerm)
    {
      places := ComputeFilteredPlaces(data, activeFilter, searchTerm);
    }

    /** "Showing N place(s)": N is the number of places shown, "place" exactly when N is 1. */
    method ResultsCount() returns (count: nat, noun: string)
      ensures count == |FilteredPlaces(data, activeFilter, searchTerm)|
      ensures noun == "place" <==> count == 1
      ensures noun == "place" || noun == "places"
    {
      var places := Places();
      count := |places|;
      noun := PlacesNoun(count);
    }
  }

  /**
   * A session of clicks: selecting A then B leaves only B selected, reset
   * leaves the filter alone, and eight zoom-ins stop at 2.5.
   */
  method Session(data: Data, a: PlaceWithMeta, b: PlaceWithMeta)
  {
    var page := new TourismMap(data);
    page.SetActiveFilter("hotels");
    page.SelectPlace(a);
    page.SelectPlace(b);
    assert page.selectedPlace == Some(b);
    page.CloseDetails();
    assert page.selectedPlace == None;

    var k := 0;
    while k < 8
      invariant 0 <= k <= 8
      invariant page.Valid() && page.zoom == ZoomInTimes(DefaultZoom, k)
      invariant page.activeFilter == "hotels"
    {
      page.HandleZoomIn();
      ZoomInStep(DefaultZoom, k);
      k := k + 1;
    }
    EightPresses();
    assert Scale(page.zoom) == 2.5;
    page.ResetView();
    assert page.zoom == DefaultZoom && page.activeFilter == "hotels";
  }
}
