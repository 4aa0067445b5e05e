/**
 * The place-search client: a once-only initialisation of the Places library, and the shaping of
 * autocomplete predictions and place details into the application's records. The Google services
 * are not modelled; their callback arguments (a status and an optional payload) are inputs.
 */
module GooglePlaces {
  import opened Wrappers
  import opened Types
  import opened JsOr
  import JsText

  /** The country searched when the caller names none. */
  const DefaultCountry: string := "in"

  /** `PlacesServiceStatus`, as far as the client distinguishes it. */
  datatype Status = Ok | ZeroResults | OtherStatus(code: string)

  // ---------------------------------------------------------------------------------------------
  // Initialisation.

  /**
   * What `initGooglePlaces` finds: no browser window; the Places library already present; a
   * loader script already in the page (which either yields the library within the 10-second
   * timeout or not); or no script, in which case one is injected and either loads (with or
   * without the library then present) or fails.
   */
  datatype Environment =
    | NoWindow
    | LibraryPresent
    | ScriptTagPresent(appearsInTime: bool)
    | NoScriptTag(scriptLoads: bool, libraryAfterLoad: bool)

  /** Whether the Places library is there when `setupServices` runs on a path that resolves. */
  predicate LibraryAvailable(env: Environment) {
    if env.NoScriptTag? then env.libraryAfterLoad else true
  }

  /** Which service constructors succeed when `setupServices` runs. */
  datatype Construction = BothConstructed | AutocompleteThrows | PlacesThrows

  /** How the returned promise settles. */
  datatype InitResult = Resolved | Rejected(message: string)

  const TimeoutMessage: string := "Timeout waiting for Google Maps to load"
  const LoadFailedMessage: string := "Failed to load Google Maps API"

  /** The module's three globals: the loaded flag and whether each service object exists. */
  class PlacesClient {
    var loaded: bool
    var hasAutocomplete: bool
    var hasPlaces: bool

    constructor()
      ensures !loaded && !hasAutocomplete && !hasPlaces
    {
      loaded := false;
      hasAutocomplete := false;
      hasPlaces := false;
    }

    /**
     * `setupServices`: nothing without the library; otherwise each service constructed in turn,
     * a throwing constructor leaving that service (and any after it) as it was.
     */
    method SetupServices(libraryAvailable: bool, construct: Construction)
      modifies this
      ensures loaded == old(loaded)
      ensures hasAutocomplete == if libraryAvailable && construct != AutocompleteThrows then true else old(hasAutocomplete)
      ensures hasPlaces == if libraryAvailable && construct == BothConstructed then true else old(hasPlaces)
    {
      if !libraryAvailable {
        return;
      }
      if construct == AutocompleteThrows {
        return;
      }
      hasAutocomplete := true;
      if construct == PlacesThrows {
        return;
      }
      hasPlaces := true;
    }

    /**
     * `initGooglePlaces`: a no-op without a window or once loaded; otherwise every path that
     * resolves has run `setupServices` and set the loaded flag, and every path that rejects has
     * changed nothing.
     */
    method Init(env: Environment, construct: Construction) returns (result: InitResult)
      modifies this
      ensures env.NoWindow? || old(loaded) ==>
        result == Resolved && loaded == old(loaded) && hasAutocomplete == old(hasAutocomplete) && hasPlaces == old(hasPlaces)
      ensures !env.NoWindow? && result == Resolved ==> loaded
      ensures result.Rejected? ==>
        !loaded && hasAutocomplete == old(hasAutocomplete) && hasPlaces == old(hasPlaces)
      ensures !old(loaded) && env.ScriptTagPresent? && !env.appearsInTime ==> result == Rejected(TimeoutMessage)
      ensures !old(loaded) && env.NoScriptTag? && !env.scriptLoads ==> result == Rejected(LoadFailedMessage)
      ensures !old(loaded) && (env.LibraryPresent? || (env.ScriptTagPresent? && env.appearsInTime)) ==> result == Resolved
      ensures !old(loaded) && env.NoScriptTag? && env.scriptLoads ==> result == Resolved
      ensures !old(loaded) && !env.NoWindow? && result == Resolved ==>
        && hasAutocomplete == (if LibraryAvailable(env) && construct != AutocompleteThrows then true else old(hasAutocomplete))
        && hasPlaces == (if LibraryAvailable(env) && construct == BothConstructed then true else old(hasPlaces))
    {
      if env.NoWindow? || loaded {
        return Resolved;
      }
      match env {
        case LibraryPresent =>
          SetupServices(true, construct);
          loaded := true;
          result := Resolved;
        case ScriptTagPresent(appearsInTime) =>
          if appearsInTime {
            SetupServices(true, construct);
            loaded := true;
            result := Resolved;
          } else {
            result := Rejected(TimeoutMessage);
          }
        case NoScriptTag(scriptLoads, libraryAfterLoad) =>
          if scriptLoads {
            SetupServices(libraryAfterLoad, construct);
            loaded := true;
            result := Resolved;
          } else {
            result := Rejected(LoadFailedMessage);
          }
      }
    }

    /**
     * `getAutocompleteSuggestions` for the provider's answer `reply`: no request and no
     * suggestions unless loaded, with an autocomplete service, and an input of at least two
     * UTF-16 code units; otherwise the request and the shaped predictions.
     */
    method GetAutocompleteSuggestions(input: string, regionCodes: Option<seq<string>>, reply: PredictionsReply)
      returns (request: Option<AutocompleteRequest>, suggestions: seq<Suggestion>)
      ensures request.None? <==> !loaded || !hasAutocomplete || input == "" || JsText.Utf16Length(input) < 2
      ensures request.None? ==> suggestions == []
      ensures request.Some? ==> request.value == AutocompleteRequest(input, Country(regionCodes), ["geocode", "establishment"])
      ensures request.Some? ==> suggestions == ShapeSuggestions(reply)
    {
      if !loaded || !hasAutocomplete || input == "" || JsText.Utf16Length(input) < 2 {
        return None, [];
      }
      request := Some(AutocompleteRequest(input, Country(regionCodes), ["geocode", "establishment"]));
      suggestions := ShapeSuggestions(reply);
    }

    /**
     * `getPlaceDetails` for the provider's answer `reply`: nothing unless loaded with a places
     * service; otherwise the request for the four fields and the shaped place.
     */
    method GetPlaceDetails(placeId: string, reply: DetailsReply)
      returns (request: Option<DetailsRequest>, place: Option<GooglePlace>)
      ensures request.None? <==> !loaded || !hasPlaces
      ensures request.None? ==> place.None?
      ensures request.Some? ==> request.value == DetailsRequest(placeId, ["place_id", "name", "formatted_address", "geometry"])
      ensures request.Some? ==> place == ShapeDetails(placeId, reply)
    {
      if !loaded || !hasPlaces {
        return None, None;
      }
      request := Some(DetailsRequest(placeId, ["place_id", "name", "formatted_address", "geometry"]));
      place := ShapeDetails(placeId, reply);
    }
  }

  /** A second initialisation after a successful one changes nothing and resolves. */
  method InitTwice(client: PlacesClient, env: Environment, env': Environment, construct: Construction, construct': Construction)
    returns (first: InitResult, second: InitResult)
    modifies client
    ensures !env.NoWindow? && first == Resolved ==> second == Resolved && client.loaded
  {
    first := client.Init(env, construct);
    var autocomplete, places := client.hasAutocomplete, client.hasPlaces;
    second := client.Init(env', construct');
    assert !env.NoWindow? && first == Resolved ==> client.hasAutocomplete == autocomplete && client.hasPlaces == places;
  }

  // ---------------------------------------------------------------------------------------------
  // Autocomplete.

  datatype StructuredFormatting = StructuredFormatting(mainText: Option<string>, secondaryText: Option<string>)

  /** A prediction as the provider hands it over; every field may be missing. */
  datatype Prediction = Prediction(placeId: Option<string>, description: Option<string>, structured: Option<StructuredFormatting>)

  /** The callback's arguments: the predictions (possibly none) and the status. */
  datatype PredictionsReply = PredictionsReply(predictions: Option<seq<Prediction>>, status: Status)

  datatype AutocompleteRequest = AutocompleteRequest(input: string, country: string, types: seq<string>)

  datatype StructuredFormat = StructuredFormat(mainText: string, secondaryText: string)

  datatype Suggestion = Suggestion(placeId: string, text: string, structuredFormat: StructuredFormat)

  /** `options?.includedRegionCodes?.[0] || 'in'`. */
  function Country(regionCodes: Option<seq<string>>): (c: string)
    ensures regionCodes.Some? && |regionCodes.value| > 0 && regionCodes.value[0] != "" ==> c == regionCodes.value[0]
    ensures regionCodes.None? || |regionCodes.value| == 0 || regionCodes.value[0] == "" ==> c == DefaultCountry
    ensures c != ""
  {
    match regionCodes
    case Some(codes) => if |codes| > 0 then Or(Some(codes[0]), DefaultCountry) else DefaultCountry
    case None => DefaultCountry
  }

  function MainText(p: Prediction): Option<string> {
    match p.structured
    case Some(sf) => sf.mainText
    case None => None
  }

  function SecondaryText(p: Prediction): Option<string> {
    match p.structured
    case Some(sf) => sf.secondaryText
    case None => None
  }

  /** One prediction as a suggestion: missing texts become "", and the main text falls back to the description. */
  function ShapePrediction(p: Prediction): (s: Suggestion)
    ensures s.placeId == FirstNonEmpty([p.placeId])
    ensures s.text == FirstNonEmpty([p.description])
    ensures s.structuredFormat.mainText == FirstNonEmpty([MainText(p), p.description])
    ensures s.structuredFormat.secondaryText == FirstNonEmpty([SecondaryText(p)])
  {
    FirstNonEmptyOne(p.placeId);
    FirstNonEmptyOne(p.description);
    FirstNonEmptyTwo(MainText(p), p.description);
    FirstNonEmptyOne(SecondaryText(p));
    Suggestion(Or(p.placeId, ""), Or(p.description, ""),
               StructuredFormat(Or(MainText(p), Or(p.description, "")), Or(SecondaryText(p), "")))
  }

  /** The callback: nothing unless the status is OK and predictions came; else one suggestion per prediction. */
  function ShapeSuggestions(reply: PredictionsReply): (ss: seq<Suggestion>)
    ensures reply.status != Ok || reply.predictions.None? ==> ss == []
    ensures reply.status == Ok && reply.predictions.Some? ==>
      |ss| == |reply.predictions.value| &&
      forall i :: 0 <= i < |ss| ==> ss[i] == ShapePrediction(reply.predictions.value[i])
  {
    if reply.status != Ok || reply.predictions.None? then []
    else
      var ps := reply.predictions.value;
      seq(|ps|, i requires 0 <= i < |ps| => ShapePrediction(ps[i]))
  }

  /** A suggestion always has a main text when its prediction has a description. */
  lemma MainTextFromDescription(p: Prediction)
    requires Truthy(p.description)
    ensures ShapePrediction(p).structuredFormat.mainText != ""
  {
  }

  // ---------------------------------------------------------------------------------------------
  // Details.

  /** A coordinate of the provider's location: a getter method, or a plain number. */
  datatype Coordinate = Getter(result: int) | Plain(value: int)

  function CoordinateValue(c: Coordinate): int {
    match c
    case Getter(v) => v
    case Plain(v) => v
  }

  datatype ProviderLocation = ProviderLocation(lat: Coordinate, lng: Coordinate)

  datatype Geometry = Geometry(location: Option<ProviderLocation>)

  datatype PlaceResult = PlaceResult(placeId: Option<string>, name: Option<string>, formattedAddress: Option<string>, geometry: Option<Geometry>)

  datatype DetailsReply = DetailsReply(place: Option<PlaceResult>, status: Status)

  datatype DetailsRequest = DetailsRequest(placeId: string, fields: seq<string>)

  datatype GooglePlace = GooglePlace(placeId: string, displayName: string, formattedAddress: string, location: LatLng)

  /** The place has a location the client can read. */
  predicate Locatable(p: PlaceResult) {
    p.geometry.Some? && p.geometry.value.location.Some?
  }

  /**
   * The details callback: nothing unless the status is OK and a place with a location came;
   * otherwise the place with its id falling back to the requested one and missing texts as "".
   */
  function ShapeDetails(requested: string, reply: DetailsReply): (g: Option<GooglePlace>)
    ensures g.Some? <==> reply.status == Ok && reply.place.Some? && Locatable(reply.place.value)
    ensures g.Some? ==>
      var p := reply.place.value;
      var loc := p.geometry.value.location.value;
      && g.value.placeId == Or(p.placeId, requested)
      && g.value.displayName == FirstNonEmpty([p.name])
      && g.value.formattedAddress == FirstNonEmpty([p.formattedAddress])
      && g.value.location == LatLng(CoordinateValue(loc.lat), CoordinateValue(loc.lng))
  {
    if reply.status != Ok || reply.place.None? || !Locatable(reply.place.value) then None
    else
      var p := reply.place.value;
      var loc := p.geometry.value.location.value;
      FirstNonEmptyOne(p.name);
      FirstNonEmptyOne(p.formattedAddress);
      Some(GooglePlace(Or(p.placeId, requested), Or(p.name, ""), Or(p.formattedAddress, ""),
                       LatLng(CoordinateValue(loc.lat), CoordinateValue(loc.lng))))
  }

  /** The returned id is never empty when the requested one is not. */
  lemma DetailsIdNonEmpty(requested: string, reply: DetailsReply)
    requires requested != "" && ShapeDetails(requested, reply).Some?
    ensures ShapeDetails(requested, reply).value.placeId != ""
  {
  }
}
