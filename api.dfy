/**
 * The directory client: it builds the query of each backend call, and folds whatever JSON the
 * backend returns into canonical `FirstResponder` records. The HTTP exchange itself is an input
 * (`HttpOutcome`); every failure ends in an empty list, never in an error.
 */
module Api {
  import opened Wrappers
  import opened Types
  import opened JsOr
  import JsText
  import Decimal

  // ---------------------------------------------------------------------------------------------
  // The backend's JSON as the mapper reads it. Every field may be missing; `city` and `state`
  // may be flat strings or nested objects; `id` may be a string or a number.

  datatype IdValue = IdText(text: string) | IdNumber(number: int)

  datatype StateObject = StateObject(name: Option<string>)

  datatype CityValue =
    | CityText(text: string)
    | CityObject(name: Option<string>, state: Option<StateObject>)

  datatype StateValue = StateText(text: string) | StateNested(obj: StateObject)

  datatype LocationJson = LocationJson(
    id: Option<IdValue>,
    title: Option<string>,
    category: Option<string>,
    city: Option<CityValue>,
    state: Option<StateValue>,
    address: Option<string>,
    latitude: Option<int>,
    locationLat: Option<int>,
    longitude: Option<int>,
    locationLng: Option<int>,
    phone: Option<string>,
    phoneNumber: Option<string>,
    website: Option<string>,
    websiteUrl: Option<string>,
    googleLocationURL: Option<string>,
    googleLocationUrl: Option<string>,
    googleLocation: Option<string>)

  /** An element of a returned JSON array: an object, or `null` (reading a field of which throws). */
  datatype Element = Object(loc: LocationJson) | Null

  /** A parsed response body: an array, an object with an optional `locations` array, or anything else. */
  datatype Body =
    | Array(items: seq<Element>)
    | Wrapper(locations: Option<seq<Element>>)
    | Scalar

  /**
   * What `fetch` produced: a transport failure, or a response with its `ok` flag and its body
   * (`None` when `response.json()` fails to parse it).
   */
  datatype HttpOutcome = NetworkError | Http(ok: bool, body: Option<Body>)

  // ---------------------------------------------------------------------------------------------
  // Categories.

  /** The category name as the backend spells it, upper case. */
  function UpperName(c: Category): string {
    match c
    case Police => "POLICE"
    case Fire => "FIRE"
    case Hospital => "HOSPITAL"
    case Ambulance => "AMBULANCE"
    case Emergency => "EMERGENCY"
  }

  /** The category name in lower case. */
  function LowerName(c: Category): string {
    match c
    case Police => "police"
    case Fire => "fire"
    case Hospital => "hospital"
    case Ambulance => "ambulance"
    case Emergency => "emergency"
  }

  lemma LowerNameIsWord(c: Category)
    ensures JsText.IsLowerWord(LowerName(c))
  {
  }

  lemma UpperOfLowerName(c: Category)
    ensures JsText.ToUpper(LowerName(c)) == UpperName(c)
  {
    match c
    case Police => UpperOfWord(LowerName(c), UpperName(c));
    case Fire => UpperOfWord(LowerName(c), UpperName(c));
    case Hospital => UpperOfWord(LowerName(c), UpperName(c));
    case Ambulance => UpperOfWord(LowerName(c), UpperName(c));
    case Emergency => UpperOfWord(LowerName(c), UpperName(c));
  }

  /** `u` is `w` upper-cased when it is so character by character. */
  lemma UpperOfWord(w: string, u: string)
    requires |w| == |u| && forall i :: 0 <= i < |w| ==> JsText.UpperChar(w[i]) == u[i]
    ensures JsText.ToUpper(w) == u
  {
    var r := JsText.ToUpper(w);
    assert forall i :: 0 <= i < |w| ==> r[i] == u[i];
  }

  lemma DisplayNameIsCasing(c: Category)
    ensures JsText.IsCasingOf(CategoryName(c), LowerName(c))
  {
  }

  /** Comparing the upper-cased text with `UpperName(c)` accepts exactly the casings of `c`'s name. */
  lemma CategoryComparison(s: string, c: Category)
    ensures JsText.ToUpper(s) == UpperName(c) <==> JsText.IsCasingOf(s, LowerName(c))
  {
    LowerNameIsWord(c);
    UpperOfLowerName(c);
    JsText.UpperMatchesCasing(s, LowerName(c));
  }

  /** `(loc.category || '').toUpperCase()` compared against the five upper-case names, else Police. */
  function MapCategory(raw: Option<string>): (c: Category)
    ensures forall k :: JsText.IsCasingOf(Or(raw, ""), LowerName(k)) ==> c == k
    ensures c != Police ==> JsText.IsCasingOf(Or(raw, ""), LowerName(c))
  {
    var s := Or(raw, "");
    CategoryComparison(s, Police);
    CategoryComparison(s, Fire);
    CategoryComparison(s, Hospital);
    CategoryComparison(s, Ambulance);
    CategoryComparison(s, Emergency);
    var u := JsText.ToUpper(s);
    if u == "POLICE" then Police
    else if u == "FIRE" then Fire
    else if u == "HOSPITAL" then Hospital
    else if u == "AMBULANCE" then Ambulance
    else if u == "EMERGENCY" then Emergency
    else Police
  }

  /** A category's own display name, in any casing, maps back to that category. */
  lemma MapCategoryOfName(c: Category, s: string)
    requires JsText.IsCasingOf(s, LowerName(c))
    ensures MapCategory(Some(s)) == c
  {
    assert Or(Some(s), "") == s;
  }

  /** Text that is no casing of any category name, or a missing category, maps to Police. */
  lemma MapCategoryDefault(raw: Option<string>)
    requires forall k :: !JsText.IsCasingOf(Or(raw, ""), LowerName(k))
    ensures MapCategory(raw) == Police
  {
  }

  // ---------------------------------------------------------------------------------------------
  // The id, city and state fields.

  /** `loc.id?.toString() || ''`. */
  function IdString(id: Option<IdValue>): (s: string)
    ensures id.None? ==> s == ""
    ensures id.Some? && id.value.IdText? ==> s == id.value.text
    ensures id.Some? && id.value.IdNumber? ==>
      s != "" && ((s[0] == '-' && Decimal.AllDigits(s[1..])) || Decimal.AllDigits(s))
      && Decimal.ParseInt(s) == id.value.number
  {
    match id
    case None => ""
    case Some(IdText(t)) => t
    case Some(IdNumber(n)) => Decimal.IntRoundTrip(n); Decimal.IntToDecimal(n)
  }

  /** The value a chain of `||` picked: a string, or a non-string object that was truthy. */
  datatype Picked = Text(value: string) | Opaque

  function NestedCityName(loc: LocationJson): Option<string> {
    match loc.city
    case Some(CityObject(name, _)) => name
    case _ => None
  }

  function FlatCity(loc: LocationJson): Option<string> {
    match loc.city
    case Some(CityText(t)) => Some(t)
    case _ => None
  }

  function NestedStateName(loc: LocationJson): Option<string> {
    match loc.city
    case Some(CityObject(_, Some(StateObject(name)))) => name
    case _ => None
  }

  function StateObjectName(loc: LocationJson): Option<string> {
    match loc.state
    case Some(StateNested(StateObject(name))) => name
    case _ => None
  }

  function FlatState(loc: LocationJson): Option<string> {
    match loc.state
    case Some(StateText(t)) => Some(t)
    case _ => None
  }

  /**
   * `loc.city?.name || loc.city || ''` as written: a city object without a non-empty name is
   * itself truthy, so the expression yields the object rather than a string.
   */
  function CityAsWritten(loc: LocationJson): (p: Picked)
    ensures p.Opaque? <==> loc.city.Some? && loc.city.value.CityObject? && !Truthy(loc.city.value.name)
    ensures p.Text? ==> p.value == FirstNonEmpty([NestedCityName(loc), FlatCity(loc)])
  {
    FirstNonEmptyTwo(NestedCityName(loc), FlatCity(loc));
    match loc.city
    case None => Text("")
    case Some(CityText(t)) => Text(t)
    case Some(CityObject(name, _)) => if Truthy(name) then Text(name.value) else Opaque
  }

  /** `loc.city?.state?.name || loc.state?.name || loc.state || ''` as written. */
  function StateAsWritten(loc: LocationJson): (p: Picked)
    ensures p.Opaque? <==>
      !Truthy(NestedStateName(loc)) && loc.state.Some? && loc.state.value.StateNested? && !Truthy(loc.state.value.obj.name)
    ensures p.Text? ==> p.value == FirstNonEmpty([NestedStateName(loc), StateObjectName(loc), FlatState(loc)])
  {
    FirstNonEmptyThree(NestedStateName(loc), StateObjectName(loc), FlatState(loc));
    var nested := NestedStateName(loc);
    if Truthy(nested) then Text(nested.value)
    else match loc.state
      case None => Text("")
      case Some(StateText(t)) => Text(t)
      case Some(StateNested(StateObject(name))) => if Truthy(name) then Text(name.value) else Opaque
  }

  /** The city: the nested name, else the flat string, else "" (an object without a name gives ""). */
  function CityName(loc: LocationJson): (s: string)
    ensures s == FirstNonEmpty([NestedCityName(loc), FlatCity(loc)])
    ensures CityAsWritten(loc).Text? ==> s == CityAsWritten(loc).value
  {
    match CityAsWritten(loc)
    case Text(v) => v
    case Opaque => ""
  }

  /** The state: `city.state.name`, else `state.name`, else the flat `state`, else "". */
  function StateName(loc: LocationJson): (s: string)
    ensures s == FirstNonEmpty([NestedStateName(loc), StateObjectName(loc), FlatState(loc)])
    ensures StateAsWritten(loc).Text? ==> s == StateAsWritten(loc).value
  {
    match StateAsWritten(loc)
    case Text(v) => v
    case Opaque => ""
  }

  /** The flaw: a city object that carries no name leaks through as the city "string". */
  lemma CityObjectLeaks()
    ensures CityAsWritten(EmptyLocation().(city := Some(CityObject(None, None)))) == Opaque
    ensures CityName(EmptyLocation().(city := Some(CityObject(None, None)))) == ""
  {
  }

  /** The same flaw for a state object without a name. */
  lemma StateObjectLeaks()
    ensures StateAsWritten(EmptyLocation().(state := Some(StateNested(StateObject(Some(""))))) ) == Opaque
    ensures StateName(EmptyLocation().(state := Some(StateNested(StateObject(Some(""))))) ) == ""
  {
  }

  /** An object with no fields at all (also what a number or string element reads as). */
  function EmptyLocation(): LocationJson {
    LocationJson(None, None, None, None, None, None, None, None, None, None,
                 None, None, None, None, None, None, None)
  }

  // ---------------------------------------------------------------------------------------------
  // The whole record.

  /** `mapLocationToResponder`: every field by its priority table; nothing can make it fail. */
  function MapLocation(loc: LocationJson): (r: FirstResponder)
    ensures r.id == IdString(loc.id)
    ensures r.title == FirstNonEmpty([loc.title])
    ensures r.category == MapCategory(loc.category)
    ensures r.city == FirstNonEmpty([NestedCityName(loc), FlatCity(loc)])
    ensures r.state == FirstNonEmpty([NestedStateName(loc), StateObjectName(loc), FlatState(loc)])
    ensures r.address == FirstNonEmpty([loc.address])
    ensures r.locationLat == FirstNonZero([loc.latitude, loc.locationLat])
    ensures r.locationLng == FirstNonZero([loc.longitude, loc.locationLng])
    ensures r.phoneNumber == FirstNonEmpty([loc.phone, loc.phoneNumber])
    ensures Truthy(loc.website) ==> r.websiteUrl == loc.website
    ensures !Truthy(loc.website) ==> r.websiteUrl == loc.websiteUrl
    ensures r.googleLocationUrl == FirstNonEmpty([loc.googleLocationURL, loc.googleLocationUrl, loc.googleLocation])
  {
    FirstNonEmptyOne(loc.title);
    FirstNonEmptyOne(loc.address);
    FirstNonEmptyTwo(loc.phone, loc.phoneNumber);
    FirstNonEmptyThree(loc.googleLocationURL, loc.googleLocationUrl, loc.googleLocation);
    FirstNonZeroChain(loc.latitude, loc.locationLat);
    FirstNonZeroChain(loc.longitude, loc.locationLng);
    FirstResponder(
      IdString(loc.id),
      Or(loc.title, ""),
      MapCategory(loc.category),
      CityName(loc),
      StateName(loc),
      Or(loc.address, ""),
      OrNumber(loc.latitude, OrNumber(loc.locationLat, 0)),
      OrNumber(loc.longitude, OrNumber(loc.locationLng, 0)),
      Or(loc.phone, Or(loc.phoneNumber, "")),
      if Truthy(loc.website) then loc.website else loc.websiteUrl,
      Or(loc.googleLocationURL, Or(loc.googleLocationUrl, Or(loc.googleLocation, ""))))
  }

  /**
   * `items.map(mapLocationToResponder)`: one record per element, in order; `None` when some
   * element is `null`, because reading its fields throws and aborts the whole map.
   */
  function MapAll(items: seq<Element>): (r: Option<seq<FirstResponder>>)
    ensures r.Some? <==> forall i :: 0 <= i < |items| ==> items[i].Object?
    ensures r.Some? ==> |r.value| == |items|
    ensures r.Some? ==> forall i :: 0 <= i < |items| ==> r.value[i] == MapLocation(items[i].loc)
  {
    MapObjects(items, MapLocation)
  }

  /** `items.map(f)` over elements that must all be objects. */
  function MapObjects(items: seq<Element>, f: LocationJson -> FirstResponder): (r: Option<seq<FirstResponder>>)
    ensures r.Some? <==> forall i :: 0 <= i < |items| ==> items[i].Object?
    ensures r.Some? ==> |r.value| == |items|
    ensures r.Some? ==> forall i :: 0 <= i < |items| ==> r.value[i] == f(items[i].loc)
    decreases |items|
  {
    if items == [] then Some([])
    else if items[0].Null? then None
    else match MapObjects(items[1..], f)
      case None => None
      case Some(rest) => Some([f(items[0].loc)] + rest)
  }

  /** `normalizeLocationsResponse`: a bare array, the `locations` array of an object, or nothing. */
  function Normalize(data: Body): (items: seq<Element>)
    ensures data.Array? ==> items == data.items
    ensures data.Wrapper? && data.locations.Some? ==> items == data.locations.value
    ensures data.Scalar? || (data.Wrapper? && data.locations.None?) ==> items == []
  {
    match data
    case Array(xs) => xs
    case Wrapper(Some(xs)) => xs
    case _ => []
  }

  /** The parsed body of a successful response; `None` for a network error, a non-ok status or a parse failure. */
  function Payload(outcome: HttpOutcome): Option<Body> {
    match outcome
    case Http(true, Some(b)) => Some(b)
    case _ => None
  }

  /** What `getClosestLocations` and `getNearbyLocations` return for a given exchange. */
  function NormalizedResult(outcome: HttpOutcome): (r: seq<FirstResponder>)
    ensures Payload(outcome).None? ==> r == []
    ensures Payload(outcome).Some? && MapAll(Normalize(Payload(outcome).value)).None? ==> r == []
    ensures Payload(outcome).Some? && MapAll(Normalize(Payload(outcome).value)).Some? ==>
      var items := Normalize(Payload(outcome).value);
      |r| == |items| && forall i :: 0 <= i < |items| ==> r[i] == MapLocation(items[i].loc)
  {
    match Payload(outcome)
    case None => []
    case Some(b) => MapAll(Normalize(b)).GetOr([])
  }

  /** What `getAllLocations` returns: it skips normalisation, so only a bare array yields records. */
  function ListResult(outcome: HttpOutcome): (r: seq<FirstResponder>)
    ensures r != [] ==> Payload(outcome).Some? && Payload(outcome).value.Array?
    ensures Payload(outcome).Some? && Payload(outcome).value.Array? && MapAll(Payload(outcome).value.items).None? ==> r == []
    ensures Payload(outcome).Some? && Payload(outcome).value.Array? && MapAll(Payload(outcome).value.items).Some? ==>
      var items := Payload(outcome).value.items;
      |r| == |items| && forall i :: 0 <= i < |items| ==> r[i] == MapLocation(items[i].loc)
  {
    match Payload(outcome)
    case Some(Array(xs)) => MapAll(xs).GetOr([])
    case _ => []
  }

  /** A bare array and a `{locations: [...]}` wrapper of the same elements give the same list. */
  lemma ShapeTolerance(xs: seq<Element>)
    ensures NormalizedResult(Http(true, Some(Array(xs)))) == NormalizedResult(Http(true, Some(Wrapper(Some(xs)))))
  {
  }

  /** A `null` element in the list endpoint's array makes the mapping throw, and the call returns `[]`. */
  lemma ListRejectsNull(xs: seq<Element>, i: int)
    requires 0 <= i < |xs| && xs[i].Null?
    ensures ListResult(Http(true, Some(Array(xs)))) == []
  {
  }

  /** `getAllLocations` does not accept the wrapper shape: it returns an empty list for it. */
  lemma ListRejectsWrapper(xs: seq<Element>)
    ensures ListResult(Http(true, Some(Wrapper(Some(xs))))) == []
  {
  }

  // ---------------------------------------------------------------------------------------------
  // Queries. `URLSearchParams` is a sequence of key/value pairs; `Lookup` reads the first value of a key.

  type Query = seq<(string, string)>

  function Lookup(q: Query, k: string): Option<string>
    decreases |q|
  {
    if q == [] then None else if q[0].0 == k then Some(q[0].1) else Lookup(q[1..], k)
  }

  function Keys(q: Query): (ks: seq<string>)
    ensures |ks| == |q| && forall i :: 0 <= i < |q| ==> ks[i] == q[i].0
  {
    seq(|q|, i requires 0 <= i < |q| => q[i].0)
  }

  predicate Distinct(ks: seq<string>) {
    forall i, j :: 0 <= i < j < |ks| ==> ks[i] != ks[j]
  }

  /** A parameter the client may send: `key=value`, appended only when `present`. */
  datatype Param = Param(present: bool, key: string, value: string)

  /** The pairs the client appends for `ps`, in order: the present ones. */
  function Sent(ps: seq<Param>): (q: Query)
    ensures |q| <= |ps|
    decreases |ps|
  {
    if ps == [] then []
    else
      var last := ps[|ps| - 1];
      Sent(ps[..|ps| - 1]) + if last.present then [(last.key, last.value)] else []
  }

  function ParamKeys(ps: seq<Param>): (ks: seq<string>)
    ensures |ks| == |ps| && forall i :: 0 <= i < |ps| ==> ks[i] == ps[i].key
  {
    seq(|ps|, i requires 0 <= i < |ps| => ps[i].key)
  }

  /** Appending a pair adds its key to the lookup only if the key was absent. */
  lemma {:induction false} LookupAppend(q: Query, k: string, v: string, k': string)
    ensures Lookup(q + [(k, v)], k') == if Lookup(q, k').Some? then Lookup(q, k') else if k == k' then Some(v) else None
    decreases |q|
  {
    if q != [] {
      assert (q + [(k, v)])[1..] == q[1..] + [(k, v)];
      LookupAppend(q[1..], k, v, k');
    }
  }

  lemma {:induction false} LookupAbsent(q: Query, k: string)
    requires k !in Keys(q)
    ensures Lookup(q, k) == None
    decreases |q|
  {
    if q != [] {
      assert Keys(q[1..]) == Keys(q)[1..];
      LookupAbsent(q[1..], k);
    }
  }

  /** The keys sent are keys of the parameters, in their order; distinct parameters send distinct keys. */
  lemma {:induction false} SentKeys(ps: seq<Param>)
    ensures forall k :: k in Keys(Sent(ps)) ==> k in ParamKeys(ps)
    ensures Distinct(ParamKeys(ps)) ==> Distinct(Keys(Sent(ps)))
    decreases |ps|
  {
    if ps != [] {
      var init := ps[..|ps| - 1];
      var last := ps[|ps| - 1];
      SentKeys(init);
      assert ParamKeys(ps) == ParamKeys(init) + [last.key];
      if Distinct(ParamKeys(ps)) {
        assert Distinct(ParamKeys(init));
        assert last.key !in ParamKeys(init);
      }
      if last.present {
        assert Keys(Sent(ps)) == Keys(Sent(init)) + [last.key];
      } else {
        assert Keys(Sent(ps)) == Keys(Sent(init));
      }
    }
  }

  /** With distinct keys, each parameter is looked up as its value when present and is missing otherwise. */
  lemma {:induction false} SentLookup(ps: seq<Param>, i: int)
    requires Distinct(ParamKeys(ps)) && 0 <= i < |ps|
    ensures Lookup(Sent(ps), ps[i].key) == if ps[i].present then Some(ps[i].value) else None
    decreases |ps|
  {
    var init := ps[..|ps| - 1];
    var last := ps[|ps| - 1];
    var k := ps[i].key;
    var pre := Sent(init);
    assert ParamKeys(ps) == ParamKeys(init) + [last.key];
    assert Distinct(ParamKeys(init));
    var expected := if ps[i].present then Some(ps[i].value) else None;
    if i < |ps| - 1 {
      assert init[i] == ps[i];
      SentLookup(init, i);
      assert last.key != k;
      assert Lookup(pre, k) == expected;
    } else {
      SentKeys(init);
      assert k !in ParamKeys(init);
      LookupAbsent(pre, k);
    }
    if last.present {
      assert Sent(ps) == pre + [(last.key, last.value)];
      LookupAppend(pre, last.key, last.value, k);
    } else {
      assert Sent(ps) == pre;
    }
  }

  /** `if (present) params.append(key, value)`. */
  method Append(q: Query, p: Param) returns (q': Query)
    ensures q' == q + if p.present then [(p.key, p.value)] else []
  {
    if p.present {
      q' := q + [(p.key, p.value)];
    } else {
      q' := q;
    }
  }

  datatype Request = Request(path: string, query: Query)

  datatype ListParams = ListParams(category: Option<string>, address: Option<string>, cityId: Option<int>, cityName: Option<string>)

  datatype ClosestParams = ClosestParams(limit: Option<int>, category: Option<string>)

  datatype NearbyParams = NearbyParams(radiusKm: Option<int>, category: Option<string>, limit: Option<int>)

  /** An optional string parameter, sent when non-empty. */
  function TextParam(key: string, v: Option<string>): Param {
    Param(Truthy(v), key, v.GetOr(""))
  }

  /** An optional number parameter, sent as its decimal spelling when non-zero. */
  function NumberParam(key: string, v: Option<int>): Param {
    Param(NumberTruthy(v), key, Decimal.IntToDecimal(v.GetOr(0)))
  }

  /** The category parameter, sent upper-cased when non-empty. */
  function CategoryParam(v: Option<string>): Param {
    Param(Truthy(v), "category", JsText.ToUpper(v.GetOr("")))
  }

  /** A parameter that is always sent. */
  function Always(key: string, value: string): Param {
    Param(true, key, value)
  }

  /** The parameters of `getAllLocations`, in the order it appends them. */
  function ListParamsOf(params: ListParams): seq<Param> {
    [CategoryParam(params.category), TextParam("address", params.address),
     NumberParam("cityId", params.cityId), TextParam("cityName", params.cityName)]
  }

  /** The parameters of `getClosestLocations`, in the order it appends them. */
  function ClosestParamsOf(latitude: int, longitude: int, params: ClosestParams): seq<Param> {
    [Always("latitude", Decimal.IntToDecimal(latitude)), Always("longitude", Decimal.IntToDecimal(longitude)),
     NumberParam("limit", params.limit), CategoryParam(params.category)]
  }

  /** The parameters of `getNearbyLocations`, in the order it appends them. */
  function NearbyParamsOf(latitude: int, longitude: int, params: NearbyParams): seq<Param> {
    [Always("latitude", Decimal.IntToDecimal(latitude)), Always("longitude", Decimal.IntToDecimal(longitude)),
     NumberParam("radiusKm", params.radiusKm), CategoryParam(params.category), NumberParam("limit", params.limit)]
  }

  /** An optional string parameter: sent with its value exactly when the value is non-empty. */
  predicate SentIfGiven(q: Query, k: string, v: Option<string>) {
    Lookup(q, k) == if Truthy(v) then v else None
  }

  /** An optional number parameter: sent as its decimal spelling exactly when it is non-zero. */
  predicate NumberSentIfGiven(q: Query, k: string, v: Option<int>) {
    Lookup(q, k) == if NumberTruthy(v) then Some(Decimal.IntToDecimal(v.value)) else None
  }

  /** The category parameter: sent upper-cased exactly when it is non-empty. */
  predicate CategorySent(q: Query, v: Option<string>) {
    Lookup(q, "category") == if Truthy(v) then Some(JsText.ToUpper(v.value)) else None
  }

  /** The query of `getAllLocations`. */
  predicate ListQuery(q: Query, params: ListParams) {
    && CategorySent(q, params.category)
    && SentIfGiven(q, "address", params.address)
    && NumberSentIfGiven(q, "cityId", params.cityId)
    && SentIfGiven(q, "cityName", params.cityName)
    && Distinct(Keys(q))
    && forall k :: k in Keys(q) ==> k in ["category", "address", "cityId", "cityName"]
  }

  /** The query of `getClosestLocations`. */
  predicate ClosestQuery(q: Query, latitude: int, longitude: int, params: ClosestParams) {
    && Lookup(q, "latitude") == Some(Decimal.IntToDecimal(latitude))
    && Lookup(q, "longitude") == Some(Decimal.IntToDecimal(longitude))
    && NumberSentIfGiven(q, "limit", params.limit)
    && CategorySent(q, params.category)
    && Distinct(Keys(q))
    && forall k :: k in Keys(q) ==> k in ["latitude", "longitude", "limit", "category"]
  }

  /** The query of `getNearbyLocations`. */
  predicate NearbyQuery(q: Query, latitude: int, longitude: int, params: NearbyParams) {
    && Lookup(q, "latitude") == Some(Decimal.IntToDecimal(latitude))
    && Lookup(q, "longitude") == Some(Decimal.IntToDecimal(longitude))
    && NumberSentIfGiven(q, "radiusKm", params.radiusKm)
    && CategorySent(q, params.category)
    && NumberSentIfGiven(q, "limit", params.limit)
    && Distinct(Keys(q))
    && forall k :: k in Keys(q) ==> k in ["latitude", "longitude", "radiusKm", "category", "limit"]
  }

  lemma ListQueryMeaning(params: ListParams)
    ensures ListQuery(Sent(ListParamsOf(params)), params)
  {
    var ps := ListParamsOf(params);
    assert ParamKeys(ps) == ["category", "address", "cityId", "cityName"];
    SentLookup(ps, 0);
    SentLookup(ps, 1);
    SentLookup(ps, 2);
    SentLookup(ps, 3);
    SentKeys(ps);
    assert ps[0].key == "category" && ps[1].key == "address" && ps[2].key == "cityId" && ps[3].key == "cityName";
  }

  lemma ClosestQueryMeaning(latitude: int, longitude: int, params: ClosestParams)
    ensures ClosestQuery(Sent(ClosestParamsOf(latitude, longitude, params)), latitude, longitude, params)
  {
    var ps := ClosestParamsOf(latitude, longitude, params);
    assert ParamKeys(ps) == ["latitude", "longitude", "limit", "category"];
    SentLookup(ps, 0);
    SentLookup(ps, 1);
    SentLookup(ps, 2);
    SentLookup(ps, 3);
    SentKeys(ps);
    assert ps[0].key == "latitude" && ps[1].key == "longitude" && ps[2].key == "limit" && ps[3].key == "category";
  }

  lemma NearbyQueryMeaning(latitude: int, longitude: int, params: NearbyParams)
    ensures NearbyQuery(Sent(NearbyParamsOf(latitude, longitude, params)), latitude, longitude, params)
  {
    var ps := NearbyParamsOf(latitude, longitude, params);
    assert ParamKeys(ps) == ["latitude", "longitude", "radiusKm", "category", "limit"];
    SentLookup(ps, 0);
    SentLookup(ps, 1);
    SentLookup(ps, 2);
    SentLookup(ps, 3);
    SentLookup(ps, 4);
    SentKeys(ps);
    assert ps[0].key == "latitude" && ps[1].key == "longitude" && ps[2].key == "radiusKm";
    assert ps[3].key == "category" && ps[4].key == "limit";
  }

  /** Appends the four `getAllLocations` parameters in order. */
  method BuildListQuery(params: ListParams) returns (q: Query)
    ensures q == Sent(ListParamsOf(params))
    ensures ListQuery(q, params)
  {
    var ps := ListParamsOf(params);
    q := [];
    q := Append(q, ps[0]);
    assert q == Sent(ps[..1]);
    q := Append(q, ps[1]);
    assert q == Sent(ps[..2]) by { assert ps[..2][..1] == ps[..1]; }
    q := Append(q, ps[2]);
    assert q == Sent(ps[..3]) by { assert ps[..3][..2] == ps[..2]; }
    q := Append(q, ps[3]);
    assert q == Sent(ps) by { assert ps[..3] == ps[..|ps| - 1]; }
    ListQueryMeaning(params);
  }

  /** Appends the four `getClosestLocations` parameters in order. */
  method BuildClosestQuery(latitude: int, longitude: int, params: ClosestParams) returns (q: Query)
    ensures q == Sent(ClosestParamsOf(latitude, longitude, params))
    ensures ClosestQuery(q, latitude, longitude, params)
  {
    var ps := ClosestParamsOf(latitude, longitude, params);
    q := [];
    q := Append(q, ps[0]);
    assert q == Sent(ps[..1]);
    q := Append(q, ps[1]);
    assert q == Sent(ps[..2]) by { assert ps[..2][..1] == ps[..1]; }
    q := Append(q, ps[2]);
    assert q == Sent(ps[..3]) by { assert ps[..3][..2] == ps[..2]; }
    q := Append(q, ps[3]);
    assert q == Sent(ps) by { assert ps[..3] == ps[..|ps| - 1]; }
    ClosestQueryMeaning(latitude, longitude, params);
  }

  /** Appends the five `getNearbyLocations` parameters in order. */
  method BuildNearbyQuery(latitude: int, longitude: int, params: NearbyParams) returns (q: Query)
    ensures q == Sent(NearbyParamsOf(latitude, longitude, params))
    ensures NearbyQuery(q, latitude, longitude, params)
  {
    var ps := NearbyParamsOf(latitude, longitude, params);
    q := [];
    q := Append(q, ps[0]);
    assert q == Sent(ps[..1]);
    q := Append(q, ps[1]);
    assert q == Sent(ps[..2]) by { assert ps[..2][..1] == ps[..1]; }
    q := Append(q, ps[2]);
    assert q == Sent(ps[..3]) by { assert ps[..3][..2] == ps[..2]; }
    q := Append(q, ps[3]);
    assert q == Sent(ps[..4]) by { assert ps[..4][..3] == ps[..3]; }
    q := Append(q, ps[4]);
    assert q == Sent(ps) by { assert ps[..4] == ps[..|ps| - 1]; }
    NearbyQueryMeaning(latitude, longitude, params);
  }

  /** `getAllLocations`: the request it sends and the list it returns for the exchange `outcome`. */
  method GetAllLocations(apiBase: string, params: ListParams, outcome: HttpOutcome)
    returns (request: Request, result: seq<FirstResponder>)
    ensures request.path == apiBase + "/locations"
    ensures request.query == Sent(ListParamsOf(params)) && ListQuery(request.query, params)
    ensures result == ListResult(outcome)
  {
    var q := BuildListQuery(params);
    request := Request(apiBase + "/locations", q);
    result := ListResult(outcome);
  }

  /** `getClosestLocations`: latitude and longitude always, then `limit` and `category` when given. */
  method GetClosestLocations(apiBase: string, latitude: int, longitude: int, params: ClosestParams, outcome: HttpOutcome)
    returns (request: Request, result: seq<FirstResponder>)
    ensures request.path == apiBase + "/locations/closest"
    ensures request.query == Sent(ClosestParamsOf(latitude, longitude, params))
    ensures ClosestQuery(request.query, latitude, longitude, params)
    ensures result == NormalizedResult(outcome)
  {
    var q := BuildClosestQuery(latitude, longitude, params);
    request := Request(apiBase + "/locations/closest", q);
    result := NormalizedResult(outcome);
  }

  /** `getNearbyLocations`: latitude and longitude always, then `radiusKm`, `category` and `limit` when given. */
  method GetNearbyLocations(apiBase: string, latitude: int, longitude: int, params: NearbyParams, outcome: HttpOutcome)
    returns (request: Request, result: seq<FirstResponder>)
    ensures request.path == apiBase + "/locations/nearby"
    ensures request.query == Sent(NearbyParamsOf(latitude, longitude, params))
    ensures NearbyQuery(request.query, latitude, longitude, params)
    ensures result == NormalizedResult(outcome)
  {
    var q := BuildNearbyQuery(latitude, longitude, params);
    request := Request(apiBase + "/locations/nearby", q);
    result := NormalizedResult(outcome);
  }
}
