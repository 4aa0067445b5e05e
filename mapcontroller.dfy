/** The map controller: turns the requested centre and zoom into at most one call on the map. */
module MapController {
  import opened Wrappers
  import opened Types

  /** The zoom used when a centre arrives without one. */
  const DefaultZoom: int := 15

  /** A call on the map: move to a centre at a zoom, or change only the zoom. */
  datatype MapCommand = SetView(center: LatLng, zoom: int) | SetZoom(zoom: int)

  /**
   * The effect's branch: a centre with a zoom, a centre alone (zoom 15), a zoom alone, or
   * nothing at all (`None`) when neither is given.
   */
  function CommandFor(center: Option<LatLng>, zoom: Option<int>): (cmd: Option<MapCommand>)
    ensures center.Some? && zoom.Some? ==> cmd == Some(SetView(center.value, zoom.value))
    ensures center.Some? && zoom.None? ==> cmd == Some(SetView(center.value, DefaultZoom))
    ensures center.None? && zoom.Some? ==> cmd == Some(SetZoom(zoom.value))
    ensures cmd.None? <==> center.None? && zoom.None?
  {
    if center.Some? && zoom.Some? then Some(SetView(center.value, zoom.value))
    else if center.Some? && zoom.None? then Some(SetView(center.value, DefaultZoom))
    else if zoom.Some? && center.None? then Some(SetZoom(zoom.value))
    else None
  }

  /** What the map shows: its centre and zoom. */
  datatype View = View(center: LatLng, zoom: int)

  /** The map after the command, if any, has run. */
  function Perform(v: View, cmd: Option<MapCommand>): (w: View)
    ensures cmd.None? ==> w == v
    ensures cmd.Some? && cmd.value.SetZoom? ==> w.center == v.center
  {
    match cmd
    case None => v
    case Some(SetView(c, z)) => View(c, z)
    case Some(SetZoom(z)) => v.(zoom := z)
  }

  /** After the effect, a given centre is shown, and the zoom shown is the given one or 15. */
  lemma EffectShowsRequest(v: View, center: Option<LatLng>, zoom: Option<int>)
    ensures center.Some? ==> Perform(v, CommandFor(center, zoom)).center == center.value
    ensures center.None? ==> Perform(v, CommandFor(center, zoom)).center == v.center
    ensures zoom.Some? ==> Perform(v, CommandFor(center, zoom)).zoom == zoom.value
    ensures center.Some? && zoom.None? ==> Perform(v, CommandFor(center, zoom)).zoom == DefaultZoom
  {
  }

  /** Repeating the effect with the same inputs leaves the map as the first run left it. */
  lemma EffectIdempotent(v: View, center: Option<LatLng>, zoom: Option<int>)
    ensures Perform(Perform(v, CommandFor(center, zoom)), CommandFor(center, zoom)) == Perform(v, CommandFor(center, zoom))
  {
  }
}
