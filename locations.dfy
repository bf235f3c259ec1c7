/**
 * The Locations resource (src/locations.rs): the typed request values, the
 * translation of a request into a path and a parameter map, and the
 * unwrapping of the service's resource-set envelope into a list of results.
 */
module Locations {
  import opened Wrappers
  import opened Text
  import opened Errors
  import opened Clients

  /** An IEEE-754 double, known only by its bits; it is never computed on here. */
  datatype F64 = F64(bits: bv64)

  /** Latitude then longitude. */
  type LatLng = (F64, F64)

  /** The culture code of the `common` module, which is not part of this model. */
  datatype CultureCode = CultureCode(tag: string)

  datatype EntityType =
    | Address | Neighborhood | PopulatedPlace | Postcode1 | AdminDivision1 | AdminDivision2
    | CountryRegion | Postcode2 | Postcode3 | RoadBlock | RoadIntersection
    | HigherEducationFacility | Stadium | TouristStructure | Airport | Park | Lake | River | Island

  /** `format!("{:?}", t)`: the variant's own name. */
  function EntityName(t: EntityType): string
  {
    match t
    case Address => "Address"
    case Neighborhood => "Neighborhood"
    case PopulatedPlace => "PopulatedPlace"
    case Postcode1 => "Postcode1"
    case AdminDivision1 => "AdminDivision1"
    case AdminDivision2 => "AdminDivision2"
    case CountryRegion => "CountryRegion"
    case Postcode2 => "Postcode2"
    case Postcode3 => "Postcode3"
    case RoadBlock => "RoadBlock"
    case RoadIntersection => "RoadIntersection"
    case HigherEducationFacility => "HigherEducationFacility"
    case Stadium => "Stadium"
    case TouristStructure => "TouristStructure"
    case Airport => "Airport"
    case Park => "Park"
    case Lake => "Lake"
    case River => "River"
    case Island => "Island"
  }

  /** The entity type a name stands for, as the service reads it back. */
  function EntityOfName(s: string): Option<EntityType>
  {
    if s == "Address" then Some(EntityType.Address)
    else if s == "Neighborhood" then Some(Neighborhood)
    else if s == "PopulatedPlace" then Some(PopulatedPlace)
    else if s == "Postcode1" then Some(Postcode1)
    else if s == "AdminDivision1" then Some(AdminDivision1)
    else if s == "AdminDivision2" then Some(AdminDivision2)
    else if s == "CountryRegion" then Some(CountryRegion)
    else if s == "Postcode2" then Some(Postcode2)
    else if s == "Postcode3" then Some(Postcode3)
    else if s == "RoadBlock" then Some(RoadBlock)
    else if s == "RoadIntersection" then Some(RoadIntersection)
    else if s == "HigherEducationFacility" then Some(HigherEducationFacility)
    else if s == "Stadium" then Some(Stadium)
    else if s == "TouristStructure" then Some(TouristStructure)
    else if s == "Airport" then Some(Airport)
    else if s == "Park" then Some(Park)
    else if s == "Lake" then Some(Lake)
    else if s == "River" then Some(River)
    else if s == "Island" then Some(Island)
    else None
  }

  lemma EntityNameRoundTrip(t: EntityType)
    ensures EntityOfName(EntityName(t)) == Some(t)
  {
  }

  lemma EntityNameCommaFree(t: EntityType)
    ensures ',' !in EntityName(t)
  {
  }

  function EntityNames(ts: seq<EntityType>): seq<string>
  {
    seq(|ts|, i requires 0 <= i < |ts| => EntityName(ts[i]))
  }

  /** The `include_entity_types` value: the names in list order, comma-separated. */
  function JoinEntityNames(ts: seq<EntityType>): string
  {
    JoinComma(EntityNames(ts))
  }

  function EntitiesOfNames(names: seq<string>): Option<seq<EntityType>>
  {
    if |names| == 0 then Some([])
    else match (EntityOfName(names[0]), EntitiesOfNames(names[1..]))
      case (Some(t), Some(rest)) => Some([t] + rest)
      case _ => None
  }

  /** How the service reads an `include_entity_types` value. */
  function ParseEntityTypes(s: string): Option<seq<EntityType>>
  {
    EntitiesOfNames(SplitComma(s))
  }

  lemma {:induction false} EntitiesOfEntityNames(ts: seq<EntityType>)
    ensures EntitiesOfNames(EntityNames(ts)) == Some(ts)
  {
    if |ts| > 0 {
      EntityNameRoundTrip(ts[0]);
      assert EntityNames(ts)[1..] == EntityNames(ts[1..]);
      EntitiesOfEntityNames(ts[1..]);
      assert [ts[0]] + ts[1..] == ts;
    }
  }

  /** A non-empty entity-type list survives the trip through its comma-joined names. */
  lemma EntityTypesRoundTrip(ts: seq<EntityType>)
    requires |ts| > 0
    ensures ParseEntityTypes(JoinEntityNames(ts)) == Some(ts)
  {
    var names := EntityNames(ts);
    forall i | 0 <= i < |names| ensures ',' !in names[i] {
      EntityNameCommaFree(ts[i]);
    }
    SplitJoin(names);
    EntitiesOfEntityNames(ts);
  }

  datatype Point = Point(latlng: LatLng)

  datatype Address = Address(
    addressLine: Option<string>, neighborhood: Option<string>, locality: Option<string>,
    postalCode: Option<string>, adminDistrict1: Option<string>, adminDistrict2: Option<string>,
    country: Option<string>, countryIso: Option<string>, landmark: Option<string>,
    formatted: Option<string>)

  datatype Confidence = High | Medium | Low

  datatype MatchCode = Good | Ambiguous | UpHierarchy

  /** One geocoding result; `bbox` is south latitude, west longitude, north latitude, east longitude. */
  datatype Location = Location(
    name: string, point: Point, bbox: seq<F64>, entityType: EntityType,
    address: Address, confidence: Confidence, matchCodes: seq<MatchCode>)

  /** The service's envelope: resource sets, each holding resources. */
  datatype ResourceSet = ResourceSet(resources: seq<Location>)
  datatype Response = Response(resourceSets: seq<ResourceSet>)

  /** The reverse-geocoding request. */
  datatype FindPoint = FindPoint(
    point: string, includeEntityTypes: seq<EntityType>,
    includeNeighborhood: bool, includeCiso2: bool)

  /** `FindPoint::default()`. */
  function DefaultFindPoint(): FindPoint
  {
    FindPoint("", [], false, false)
  }

  /** `FindPoint::from_latlng`: the default request with the point formatted to five decimals. */
  method FromLatLng(lat: F64, lng: F64, fixed5: F64 -> string) returns (find: FindPoint)
    ensures find.point == fixed5(lat) + "," + fixed5(lng)
    ensures find.includeEntityTypes == [] && !find.includeNeighborhood && !find.includeCiso2
  {
    find := DefaultFindPoint();
    find := find.(point := fixed5(lat) + "," + fixed5(lng));
  }

  /** `FindPoint::from_str`: the default request with the given point text, verbatim. */
  method FromStr(latlng: string) returns (find: FindPoint)
    ensures find.point == latlng
    ensures find.includeEntityTypes == [] && !find.includeNeighborhood && !find.includeCiso2
  {
    find := DefaultFindPoint();
    find := find.(point := latlng);
  }

  /** Optional hints shared by both operations. */
  datatype ContextParams = ContextParams(
    culture: Option<CultureCode>, userMapView: Option<seq<F64>>,
    userLocation: Option<LatLng>, userIp: Option<string>, userRegion: Option<string>)

  /**
   * Everything outside the library that the two operations depend on: the
   * encoder applied to a culture code, `f64`'s `Display`, the query encoder,
   * the network, and the JSON decoder for the envelope.
   */
  datatype Collaborators = Collaborators(
    encodeCulture: CultureCode -> Result<string, UrlEncodeError>,
    showF64: F64 -> string,
    encodeQuery: QueryEncoder,
    transport: Transport,
    decodeResponse: string -> Result<Response, JsonError>)

  const ContextKeys: set<string> := {"c", "umv", "ul", "uip", "ur"}
  const FindKeys: set<string> := {"include_entity_types", "inclnb", "incl"}

  function Entry(key: string, value: Option<string>): (m: map<string, string>)
    ensures key in m <==> value.Some?
    ensures m.Keys <= {key}
    ensures value.Some? ==> m[key] == value.value
  {
    if value.Some? then map[key := value.value] else map[]
  }

  function ShowAll(xs: seq<F64>, show: F64 -> string): seq<string>
  {
    seq(|xs|, i requires 0 <= i < |xs| => show(xs[i]))
  }

  /** The `umv` value: each number by `to_string`, comma-separated. */
  function MapViewText(umv: seq<F64>, show: F64 -> string): string
  {
    JoinComma(ShowAll(umv, show))
  }

  /** The `ul` value: `"{},{}"` of latitude and longitude. */
  function LocationText(ul: LatLng, show: F64 -> string): string
  {
    show(ul.0) + "," + show(ul.1)
  }

  function MapViewValue(umv: Option<seq<F64>>, show: F64 -> string): Option<string>
  {
    match umv
    case None => None
    case Some(v) => Some(MapViewText(v, show))
  }

  function LocationValue(ul: Option<LatLng>, show: F64 -> string): Option<string>
  {
    match ul
    case None => None
    case Some(l) => Some(LocationText(l, show))
  }

  /** The culture code as encoded for the `c` parameter, when one is given. */
  function CultureText(culture: Option<CultureCode>, io: Collaborators): Result<Option<string>, UrlEncodeError>
  {
    match culture
    case None => Success(None)
    case Some(c) =>
      match io.encodeCulture(c)
      case Success(text) => Success(Some(text))
      case Failure(u) => Failure(u)
  }

  function HintEntries(ctx: ContextParams, culture: Option<string>, show: F64 -> string): map<string, string>
  {
    Entry("c", culture)
    + Entry("umv", MapViewValue(ctx.userMapView, show))
    + Entry("ul", LocationValue(ctx.userLocation, show))
    + Entry("uip", ctx.userIp)
    + Entry("ur", ctx.userRegion)
  }

  /** The parameters the context hints contribute, or the culture encoder's failure. */
  function ContextEntries(opts: Option<ContextParams>, io: Collaborators): Result<map<string, string>, Error>
  {
    match opts
    case None => Success(map[])
    case Some(ctx) =>
      match CultureText(ctx.culture, io)
      case Failure(u) => Failure(FromUrlEncodeError(u))
      case Success(c) => Success(HintEntries(ctx, c, io.showF64))
  }

  /** The parameters a `FindPoint` contributes. */
  function FindEntries(find: FindPoint): map<string, string>
  {
    Entry("include_entity_types",
          if |find.includeEntityTypes| > 0 then Some(JoinEntityNames(find.includeEntityTypes)) else None)
    + Entry("inclnb", if find.includeNeighborhood then Some("1") else None)
    + Entry("incl", if find.includeCiso2 then Some("ciso2") else None)
  }

  /** A request before the key is added: a path and its parameters. */
  datatype PreparedRequest = PreparedRequest(path: string, params: map<string, string>)

  function PointRequest(find: FindPoint, opts: Option<ContextParams>, io: Collaborators): Result<PreparedRequest, Error>
  {
    match ContextEntries(opts, io)
    case Failure(e) => Failure(e)
    case Success(ctx) => Success(PreparedRequest("/Locations/" + find.point, FindEntries(find) + ctx))
  }

  function QueryRequest(query: string, opts: Option<ContextParams>, io: Collaborators): Result<PreparedRequest, Error>
  {
    match ContextEntries(opts, io)
    case Failure(e) => Failure(e)
    case Success(ctx) => Success(PreparedRequest("/Locations", map["q" := query] + ctx))
  }

  /** Reverse geocoding asks for the point text verbatim under `/Locations/`; forward geocoding for `/Locations`. */
  lemma RequestPaths(find: FindPoint, query: string, opts: Option<ContextParams>, io: Collaborators)
    ensures PointRequest(find, opts, io).Success? ==> PointRequest(find, opts, io).value.path == "/Locations/" + find.point
    ensures QueryRequest(query, opts, io).Success? ==> QueryRequest(query, opts, io).value.path == "/Locations"
    ensures PointRequest(find, opts, io).Success? <==> QueryRequest(query, opts, io).Success?
  {
  }

  /** Each flag of a `FindPoint` adds its own parameter, and only when it is set. */
  lemma FindEntriesDecided(find: FindPoint)
    ensures var m := FindEntries(find);
      && m.Keys <= FindKeys
      && ("include_entity_types" in m <==> |find.includeEntityTypes| > 0)
      && ("include_entity_types" in m ==> m["include_entity_types"] == JoinEntityNames(find.includeEntityTypes))
      && ("inclnb" in m <==> find.includeNeighborhood)
      && ("inclnb" in m ==> m["inclnb"] == "1")
      && ("incl" in m <==> find.includeCiso2)
      && ("incl" in m ==> m["incl"] == "ciso2")
  {
  }

  /** Without context hints nothing is added; a failing culture encoder fails the whole lookup. */
  lemma ContextAbsentOrFailed(opts: Option<ContextParams>, io: Collaborators)
    ensures opts.None? ==> ContextEntries(opts, io) == Success(map[])
    ensures opts.Some? && opts.value.culture.Some? && io.encodeCulture(opts.value.culture.value).Failure? ==>
      ContextEntries(opts, io) == Failure(Conversion(UrlEncoding(io.encodeCulture(opts.value.culture.value).error)))
  {
  }

  lemma DisjointUnion(a: map<string, string>, b: map<string, string>)
    requires a.Keys !! b.Keys
    ensures (a + b).Keys == a.Keys + b.Keys
    ensures forall k :: k in a ==> (a + b)[k] == a[k]
    ensures forall k :: k in b ==> (a + b)[k] == b[k]
  {
  }

  lemma HintEntriesDecided(ctx: ContextParams, culture: Option<string>, show: F64 -> string)
    ensures var m := HintEntries(ctx, culture, show);
      && m.Keys <= ContextKeys
      && ("c" in m <==> culture.Some?) && ("c" in m ==> m["c"] == culture.value)
      && ("umv" in m <==> ctx.userMapView.Some?)
      && ("umv" in m ==> m["umv"] == MapViewText(ctx.userMapView.value, show))
      && ("ul" in m <==> ctx.userLocation.Some?)
      && ("ul" in m ==> m["ul"] == LocationText(ctx.userLocation.value, show))
      && ("uip" in m <==> ctx.userIp.Some?) && ("uip" in m ==> m["uip"] == ctx.userIp.value)
      && ("ur" in m <==> ctx.userRegion.Some?) && ("ur" in m ==> m["ur"] == ctx.userRegion.value)
  {
    var c, umv, ul := Entry("c", culture), Entry("umv", MapViewValue(ctx.userMapView, show)),
      Entry("ul", LocationValue(ctx.userLocation, show));
    var uip, ur := Entry("uip", ctx.userIp), Entry("ur", ctx.userRegion);
    var m := HintEntries(ctx, culture, show);
    assert m == c + umv + ul + uip + ur;
    DisjointUnion(c, umv);
    DisjointUnion(c + umv, ul);
    DisjointUnion(c + umv + ul, uip);
    DisjointUnion(c + umv + ul + uip, ur);
  }

  /** With context hints, each key appears exactly when its field is given; `uip` and `ur` are copied verbatim. */
  lemma ContextEntriesDecided(ctx: ContextParams, io: Collaborators)
    requires CultureText(ctx.culture, io).Success?
    ensures ContextEntries(Some(ctx), io).Success?
    ensures var m := ContextEntries(Some(ctx), io).value;
      && m.Keys <= ContextKeys
      && ("c" in m <==> ctx.culture.Some?)
      && ("c" in m ==> m["c"] == io.encodeCulture(ctx.culture.value).value)
      && ("umv" in m <==> ctx.userMapView.Some?)
      && ("umv" in m ==> m["umv"] == MapViewText(ctx.userMapView.value, io.showF64))
      && ("ul" in m <==> ctx.userLocation.Some?)
      && ("ul" in m ==> m["ul"] == LocationText(ctx.userLocation.value, io.showF64))
      && ("uip" in m <==> ctx.userIp.Some?)
      && ("uip" in m ==> m["uip"] == ctx.userIp.value)
      && ("ur" in m <==> ctx.userRegion.Some?)
      && ("ur" in m ==> m["ur"] == ctx.userRegion.value)
  {
    HintEntriesDecided(ctx, CultureText(ctx.culture, io).value, io.showF64);
  }

  lemma ContextKeysBounded(opts: Option<ContextParams>, io: Collaborators)
    requires ContextEntries(opts, io).Success?
    ensures ContextEntries(opts, io).value.Keys <= ContextKeys
  {
    if opts.Some? {
      ContextEntriesDecided(opts.value, io);
    }
  }

  /** The reverse-geocoding parameters are the flags' entries beside the context entries, neither hiding the other. */
  lemma PointParamsSplit(find: FindPoint, opts: Option<ContextParams>, io: Collaborators)
    requires PointRequest(find, opts, io).Success?
    ensures var m := PointRequest(find, opts, io).value.params;
      var ctx := ContextEntries(opts, io).value;
      && m.Keys == FindEntries(find).Keys + ctx.Keys
      && (forall k :: k in FindEntries(find) ==> m[k] == FindEntries(find)[k])
      && (forall k :: k in ctx ==> m[k] == ctx[k])
      && (opts.None? ==> m == FindEntries(find))
  {
    var ctx, flags := ContextEntries(opts, io).value, FindEntries(find);
    FindEntriesDecided(find);
    ContextKeysBounded(opts, io);
    assert FindKeys !! ContextKeys;
    DisjointUnion(flags, ctx);
    if opts.None? {
      assert flags + ctx == flags;
    }
  }

  /** Forward geocoding always sends `q` as given and never the reverse-geocoding flags. */
  lemma QueryParamsDecided(query: string, opts: Option<ContextParams>, io: Collaborators)
    requires QueryRequest(query, opts, io).Success?
    ensures var m := QueryRequest(query, opts, io).value.params;
      && "q" in m && m["q"] == query
      && m.Keys !! FindKeys
      && m.Keys == {"q"} + ContextEntries(opts, io).value.Keys
      && (forall k :: k in ContextEntries(opts, io).value ==> m[k] == ContextEntries(opts, io).value[k])
      && (opts.None? ==> m == map["q" := query])
  {
    var ctx := ContextEntries(opts, io).value;
    ContextKeysBounded(opts, io);
    assert "q" !in ContextKeys && FindKeys !! ContextKeys;
    DisjointUnion(map["q" := query], ctx);
    if opts.None? {
      assert map["q" := query] + ctx == map["q" := query];
    }
  }

  /** The answer is the first resource set's resources, or nothing when there is no set. */
  function FirstResources(response: Response): seq<Location>
  {
    if |response.resourceSets| > 0 then response.resourceSets[0].resources else []
  }

  /** What a lookup returns: the built request fetched through the client, then unwrapped. */
  function Lookup(key: string, request: Result<PreparedRequest, Error>, io: Collaborators): Result<seq<Location>, Error>
  {
    match request
    case Failure(e) => Failure(e)
    case Success(req) =>
      match Fetch(key, req.path, req.params, io.encodeQuery, io.transport, io.decodeResponse)
      case Failure(e) => Failure(e)
      case Success(response) => Success(FirstResources(response))
  }

  lemma UnionAssociates(a: map<string, string>, b: map<string, string>, c: map<string, string>)
    ensures (a + b) + c == a + (b + c)
  {
  }

  /** `if let Some(v) = value { params.insert(key, v) }`. */
  method InsertSome(params: Params, key: string, value: Option<string>)
    modifies params
    ensures params.entries == old(params.entries) + Entry(key, value)
  {
    if value.Some? {
      params.Insert(key, value.value);
    }
  }

  /** The inserts that follow a successful culture encoding. */
  method InsertHints(params: Params, ctx: ContextParams, culture: Option<string>, show: F64 -> string)
    modifies params
    ensures params.entries == old(params.entries) + HintEntries(ctx, culture, show)
  {
    ghost var before, added := params.entries, map[];
    var umv := MapViewValue(ctx.userMapView, show);
    var ul := LocationValue(ctx.userLocation, show);
    InsertSome(params, "c", culture);
    assert map[] + Entry("c", culture) == Entry("c", culture);
    added := Entry("c", culture);
    InsertSome(params, "umv", umv);
    UnionAssociates(before, added, Entry("umv", umv));
    added := added + Entry("umv", umv);
    InsertSome(params, "ul", ul);
    UnionAssociates(before, added, Entry("ul", ul));
    added := added + Entry("ul", ul);
    InsertSome(params, "uip", ctx.userIp);
    UnionAssociates(before, added, Entry("uip", ctx.userIp));
    added := added + Entry("uip", ctx.userIp);
    InsertSome(params, "ur", ctx.userRegion);
    UnionAssociates(before, added, Entry("ur", ctx.userRegion));
    added := added + Entry("ur", ctx.userRegion);
    assert added == HintEntries(ctx, culture, show);
  }

  /** Adds the context parameters to `params`; on a culture-encoding failure adds nothing. */
  method InsertContext(params: Params, opts: Option<ContextParams>, io: Collaborators) returns (failure: Option<Error>)
    modifies params
    ensures ContextEntries(opts, io).Failure? <==> failure.Some?
    ensures failure.Some? ==> failure.value == ContextEntries(opts, io).error
    ensures failure.Some? ==> params.entries == old(params.entries)
    ensures failure.None? ==> params.entries == old(params.entries) + ContextEntries(opts, io).value
  {
    failure := None;
    if opts.Some? {
      var ctx := opts.value;
      var culture: Option<string> := None;
      if ctx.culture.Some? {
        var encoded := io.encodeCulture(ctx.culture.value);
        if encoded.Failure? {
          return Some(FromUrlEncodeError(encoded.error));
        }
        culture := Some(encoded.value);
      }
      assert CultureText(ctx.culture, io) == Success(culture);
      InsertHints(params, ctx, culture, io.showF64);
    } else {
      assert old(params.entries) + map[] == params.entries;
    }
  }

  /** `Location::find_by_point`. */
  method FindByPoint(client: Client, find: FindPoint, opts: Option<ContextParams>, io: Collaborators)
    returns (r: Result<seq<Location>, Error>)
    ensures r == Lookup(client.key, PointRequest(find, opts, io), io)
  {
    var path := "/Locations/" + find.point;
    var params := new Params();
    if |find.includeEntityTypes| > 0 {
      params.Insert("include_entity_types", JoinEntityNames(find.includeEntityTypes));
    }
    if find.includeNeighborhood {
      params.Insert("inclnb", "1");
    }
    if find.includeCiso2 {
      params.Insert("incl", "ciso2");
    }
    assert params.entries == FindEntries(find);
    var failure := InsertContext(params, opts, io);
    if failure.Some? {
      return Failure(failure.value);
    }
    var response := client.Get(path, params, io.encodeQuery, io.transport, io.decodeResponse);
    r := match response
      case Failure(e) => Failure(e)
      case Success(envelope) => Success(FirstResources(envelope));
  }

  /** `Location::find_by_query`. */
  method FindByQuery(client: Client, query: string, opts: Option<ContextParams>, io: Collaborators)
    returns (r: Result<seq<Location>, Error>)
    ensures r == Lookup(client.key, QueryRequest(query, opts, io), io)
  {
    var params := new Params();
    params.Insert("q", query);
    var failure := InsertContext(params, opts, io);
    if failure.Some? {
      return Failure(failure.value);
    }
    var response := client.Get("/Locations", params, io.encodeQuery, io.transport, io.decodeResponse);
    r := match response
      case Failure(e) => Failure(e)
      case Success(envelope) => Success(FirstResources(envelope));
  }

  /** A culture-encoding failure is returned before any request is made, whatever the network would answer. */
  lemma CultureFailureStopsLookup(key: string, find: FindPoint, query: string, ctx: ContextParams, io: Collaborators)
    requires ctx.culture.Some? && io.encodeCulture(ctx.culture.value).Failure?
    ensures var e := Failure(Conversion(UrlEncoding(io.encodeCulture(ctx.culture.value).error)));
      && Lookup(key, PointRequest(find, Some(ctx), io), io) == e
      && Lookup(key, QueryRequest(query, Some(ctx), io), io) == e
  {
  }

  /** A 2xx answer whose envelope holds no resource set is an empty list, not an error. */
  lemma EmptyEnvelopeIsEmptyList(key: string, req: PreparedRequest, io: Collaborators, response: HttpResponse)
    requires io.transport(Url(req.path, WithKey(req.params, key), io.encodeQuery)) == Success(response)
    requires 200 <= response.status <= 299 && response.body.Success?
    requires io.decodeResponse(response.body.value) == Success(Response([]))
    ensures Lookup(key, Success(req), io) == Success([])
  {
  }

  /** A 2xx answer yields the first resource set's resources, in order, and ignores later sets. */
  lemma FirstSetInOrder(key: string, req: PreparedRequest, io: Collaborators, response: HttpResponse,
                        first: seq<Location>, later: seq<ResourceSet>)
    requires io.transport(Url(req.path, WithKey(req.params, key), io.encodeQuery)) == Success(response)
    requires 200 <= response.status <= 299 && response.body.Success?
    requires io.decodeResponse(response.body.value) == Success(Response([ResourceSet(first)] + later))
    ensures Lookup(key, Success(req), io) == Success(first)
  {
  }

  /** Any failure of a lookup is that of building the request or that of the client's `get`. */
  lemma LookupFailures(key: string, req: PreparedRequest, io: Collaborators)
    ensures Lookup(key, Success(req), io).Failure? <==>
      Fetch(key, req.path, req.params, io.encodeQuery, io.transport, io.decodeResponse).Failure?
    ensures Lookup(key, Success(req), io).Failure? ==>
      Lookup(key, Success(req), io).error ==
      Fetch(key, req.path, req.params, io.encodeQuery, io.transport, io.decodeResponse).error
  {
  }

  /** The base URL ends in a slash and both paths begin with one, so every URL holds `v1//Locations`. */
  lemma LocationsUrlPrefix(point: string, params: map<string, string>, encode: QueryEncoder)
    ensures HasPrefix(Url("/Locations", params, encode), "https://dev.virtualearth.net/REST/v1//Locations?")
    ensures HasPrefix(Url("/Locations/" + point, params, encode),
                      "https://dev.virtualearth.net/REST/v1//Locations/" + point + "?")
  {
    UrlParts("/Locations", params, encode);
    UrlParts("/Locations/" + point, params, encode);
  }
}
