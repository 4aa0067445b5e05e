/** The marker layer: one marker per facility, grouped into clusters whose icon grows with the count. */
module MarkerCluster {
  import opened Wrappers
  import opened Types

  datatype ClusterSize = Small | Medium | Large

  /** A cluster's icon: its size class, its square size in pixels and the count it shows. */
  datatype ClusterIcon = ClusterIcon(size: ClusterSize, iconSize: int, count: int)

  /** `iconCreateFunction`: up to 50 children small, up to 100 medium, more large. */
  function IconFor(count: int): (icon: ClusterIcon)
    ensures count <= 50 ==> icon.size == Small && icon.iconSize == 40
    ensures 50 < count <= 100 ==> icon.size == Medium && icon.iconSize == 50
    ensures count > 100 ==> icon.size == Large && icon.iconSize == 60
    ensures icon.count == count
  {
    if count > 100 then ClusterIcon(Large, 60, count)
    else if count > 50 then ClusterIcon(Medium, 50, count)
    else ClusterIcon(Small, 40, count)
  }

  /** A larger cluster never gets a smaller icon. */
  lemma IconSizeMonotone(a: int, b: int)
    requires a <= b
    ensures IconFor(a).iconSize <= IconFor(b).iconSize
  {
  }

  /** The popup of a marker: the facility's title, category name, city, state, phone and distance. */
  datatype Popup = Popup(title: string, category: string, city: string, state: string, phone: string, distance: Option<real>)

  /** A marker: where it stands, which category icon it shows, its popup, and whom a click selects. */
  datatype Marker = Marker(position: LatLng, category: Category, popup: Popup, responder: FirstResponder)

  /** `distances && typeof distances[id] === 'number'`: the distance line is shown only for a known id. */
  function DistanceFor(distances: Option<map<string, real>>, id: string): (d: Option<real>)
    ensures d.Some? <==> distances.Some? && id in distances.value
    ensures d.Some? ==> d.value == distances.value[id]
  {
    if distances.Some? && id in distances.value then Some(distances.value[id]) else None
  }

  function MarkerFor(r: FirstResponder, distances: Option<map<string, real>>): (m: Marker)
    ensures m.position == LatLng(r.locationLat, r.locationLng) && m.responder == r
    ensures m.popup.distance == DistanceFor(distances, r.id)
  {
    Marker(LatLng(r.locationLat, r.locationLng), r.category,
           Popup(r.title, CategoryName(r.category), r.city, r.state, r.phoneNumber, DistanceFor(distances, r.id)),
           r)
  }

  /** The markers for a list of facilities, in the list's order. */
  function MarkersFor(rs: seq<FirstResponder>, distances: Option<map<string, real>>): (ms: seq<Marker>)
    ensures |ms| == |rs|
    ensures forall i :: 0 <= i < |rs| ==> ms[i] == MarkerFor(rs[i], distances)
  {
    seq(|rs|, i requires 0 <= i < |rs| => MarkerFor(rs[i], distances))
  }

  /** The cluster group: the layers added to it, in order. */
  class ClusterGroup {
    var layers: seq<Marker>

    constructor()
      ensures layers == []
    {
      layers := [];
    }

    /** `addLayer`. */
    method AddLayer(m: Marker)
      modifies this
      ensures layers == old(layers) + [m]
    {
      layers := layers + [m];
    }
  }

  /** The `forEach` loop: one marker per facility is added to `group`, in order. */
  method AddMarkers(group: ClusterGroup, rs: seq<FirstResponder>, distances: Option<map<string, real>>)
    modifies group
    ensures group.layers == old(group.layers) + MarkersFor(rs, distances)
  {
    var i := 0;
    while i < |rs|
      invariant 0 <= i <= |rs|
      invariant group.layers == old(group.layers) + MarkersFor(rs[..i], distances)
    {
      assert MarkersFor(rs[..i + 1], distances) == MarkersFor(rs[..i], distances) + [MarkerFor(rs[i], distances)];
      group.AddLayer(MarkerFor(rs[i], distances));
      i := i + 1;
    }
    assert rs[..i] == rs;
  }

  /**
   * The effect: nothing without a map; otherwise a fresh group holding one marker per facility,
   * which is what the map then shows.
   */
  method Render(mapReady: bool, rs: seq<FirstResponder>, distances: Option<map<string, real>>) returns (shown: seq<Marker>)
    ensures shown == if mapReady then MarkersFor(rs, distances) else []
    ensures mapReady ==> |shown| == |rs| && forall i :: 0 <= i < |rs| ==> shown[i].responder == rs[i]
    ensures mapReady ==> forall i :: 0 <= i < |rs| ==>
      (shown[i].popup.distance.Some? <==> distances.Some? && rs[i].id in distances.value)
  {
    if !mapReady {
      return [];
    }
    var group := new ClusterGroup();
    AddMarkers(group, rs, distances);
    shown := group.layers;
  }
}
