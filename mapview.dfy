/**
 * The public map screen: the facilities, the filtered list, the selected facility, the requested
 * map centre, the settings menu and the filters, with the handlers that change them.
 */
module MapView {
  import opened Wrappers
  import opened Types
  import ResponderFilter
  import Filters
  import MapController

  /** The zoom the screen always hands to the map controller. */
  const ScreenZoom: int := 15

  /** The state the handlers change, apart from the lists. */
  datatype Ui = Ui(selected: Option<FirstResponder>, mapCenter: Option<LatLng>, settingsOpen: bool, filters: FilterState)

  /** `handleResponderClick`: select the facility and centre the map on it. */
  function Click(u: Ui, r: FirstResponder): (v: Ui)
    ensures v.selected == Some(r) && v.mapCenter == Some(LatLng(r.locationLat, r.locationLng))
    ensures v.settingsOpen == u.settingsOpen && v.filters == u.filters
  {
    u.(selected := Some(r), mapCenter := Some(LatLng(r.locationLat, r.locationLng)))
  }

  /** `closeInfoCard`: drop the selection only. */
  function Close(u: Ui): (v: Ui)
    ensures v.selected.None?
    ensures v.mapCenter == u.mapCenter && v.settingsOpen == u.settingsOpen && v.filters == u.filters
  {
    u.(selected := None)
  }

  /** `handleResetFilters`: default filters, no selection, no centre, settings closed. */
  function Reset(u: Ui): (v: Ui)
    ensures v.selected.None? && v.mapCenter.None? && !v.settingsOpen
    ensures !Filters.HasActiveFilters(v.filters) && v.filters == Filters.ClearFilters()
  {
    Ui(None, None, false, Filters.ClearFilters())
  }

  /** The settings button: flip the menu, nothing else. */
  function Toggle(u: Ui): (v: Ui)
    ensures v.settingsOpen == !u.settingsOpen
    ensures v.selected == u.selected && v.mapCenter == u.mapCenter && v.filters == u.filters
  {
    u.(settingsOpen := !u.settingsOpen)
  }

  /** Resetting twice is resetting once, from any state. */
  lemma ResetIdempotent(u: Ui)
    ensures Reset(Reset(u)) == Reset(u)
  {
  }

  /** Toggling twice restores the state. */
  lemma ToggleInvolution(u: Ui)
    ensures Toggle(Toggle(u)) == u
  {
  }

  /** After a reset the whole list is shown and the map keeps its centre, only re-zooming to 15. */
  lemma ResetShowsAll(u: Ui, rs: seq<FirstResponder>)
    ensures ResponderFilter.Apply(rs, Reset(u).filters) == rs
    ensures MapController.CommandFor(Reset(u).mapCenter, Some(ScreenZoom)) == Some(MapController.SetZoom(15))
  {
    Filters.ClearedShowsAll(rs);
  }

  /** A click moves the map to the facility at zoom 15. */
  lemma ClickMovesMap(u: Ui, r: FirstResponder)
    ensures MapController.CommandFor(Click(u, r).mapCenter, Some(ScreenZoom))
         == Some(MapController.SetView(LatLng(r.locationLat, r.locationLng), 15))
  {
  }

  class MapScreen {
    var responders: seq<FirstResponder>
    var filtered: seq<FirstResponder>
    var selected: Option<FirstResponder>
    var mapCenter: Option<LatLng>
    var settingsOpen: bool
    var filters: FilterState

    function View(): Ui
      reads this
    {
      Ui(selected, mapCenter, settingsOpen, filters)
    }

    /** After the filter effect has run: the shown list is the filtered facilities. */
    predicate Synced()
      reads this
    {
      filtered == ResponderFilter.Apply(responders, filters)
    }

    /** The first render: nothing loaded, nothing selected, default filters. */
    constructor()
      ensures responders == [] && filtered == []
      ensures View() == Ui(None, None, false, Filters.ClearFilters())
      ensures Synced()
    {
      responders := [];
      filtered := [];
      selected := None;
      mapCenter := None;
      settingsOpen := false;
      filters := FilterState("", "All", None, "", "");
    }

    /** The load effect: the initial data becomes both the list and the shown list. */
    method Load(data: seq<FirstResponder>)
      modifies this
      ensures responders == data && filtered == data
      ensures View() == old(View())
    {
      responders := data;
      filtered := data;
    }

    /** The filter effect: the shown list is recomputed from the list and the filters. */
    method RunFilterEffect()
      modifies this
      ensures filtered == ResponderFilter.Apply(responders, filters) && Synced()
      ensures responders == old(responders) && View() == old(View())
    {
      filtered := ResponderFilter.FilterInStages(responders, filters);
    }

    /** The filter panel's callback. */
    method SetFilters(f: FilterState)
      modifies this
      ensures View() == old(View()).(filters := f)
      ensures responders == old(responders) && filtered == old(filtered)
    {
      filters := f;
    }

    method ResponderClick(r: FirstResponder)
      modifies this
      ensures View() == Click(old(View()), r)
      ensures responders == old(responders) && filtered == old(filtered)
      ensures old(Synced()) ==> Synced()
    {
      selected := Some(r);
      mapCenter := Some(LatLng(r.locationLat, r.locationLng));
    }

    method CloseInfoCard()
      modifies this
      ensures View() == Close(old(View()))
      ensures responders == old(responders) && filtered == old(filtered)
      ensures old(Synced()) ==> Synced()
    {
      selected := None;
    }

    method ResetFilters()
      modifies this
      ensures View() == Reset(old(View()))
      ensures responders == old(responders) && filtered == old(filtered)
    {
      filters := FilterState("", "All", None, "", "");
      selected := None;
      mapCenter := None;
      settingsOpen := false;
    }

    method ToggleSettings()
      modifies this
      ensures View() == Toggle(old(View()))
      ensures responders == old(responders) && filtered == old(filtered)
      ensures old(Synced()) ==> Synced()
    {
      settingsOpen := !settingsOpen;
    }

    /** The command the map controller issues for the current centre and the screen's zoom. */
    function ControllerCommand(): (cmd: Option<MapController.MapCommand>)
      reads this
      ensures mapCenter.Some? ==> cmd == Some(MapController.SetView(mapCenter.value, 15))
      ensures mapCenter.None? ==> cmd == Some(MapController.SetZoom(15))
    {
      MapController.CommandFor(mapCenter, Some(ScreenZoom))
    }
  }
}
