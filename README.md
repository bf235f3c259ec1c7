# bingmaps-rs in Dafny

A model of the decision layer of `bingmaps-rs`, a thin Rust client for the
Bing Maps Locations REST API, with proofs about it. The model covers three parts:

- **Locations** (`locations.dfy`, from `src/locations.rs`): the `FindPoint`
  request value and its two factory constructors. It also covers how
  `find_by_point` and `find_by_query` turn a typed request and optional
  `ContextParams` into a path and a string-to-string parameter map, filled by
  conditional inserts. Last, it unwraps the service's resource-set envelope
  into the first set's resources.
- **Client** (`client.dfy`, from `src/client.rs`): `Client.Get` injects the API
  key into the caller's map in place. `Url` concatenates the fixed base, the
  path and the encoded query (empty when encoding fails). `Send` turns the
  exchange into a value or an error: transport failure, then body-read
  failure, then status. A 2xx status is decoded. Any other status becomes a
  service error whose `should_wait` flag comes from the loop over the
  `X-MS-BM-WS-INFO` header lines.
- **Errors** (`errors.dfy`, from `src/error.rs`): the closed `Error` sum, the
  `From` conversions, `cause`, `Display` of `Error` and of `RequestError`, and
  `RequestError::default()`.

`text.dfy` holds comma join and split and decimal rendering, each with its
inverse. `wrappers.dfy` holds `Option` and `Result`.

The model performs no I/O. Everything outside the library is a function
parameter:

- the network (`Transport`: URL to response or transport error, where a
  response holds the status, the headers and the body as read or the read
  error);
- `serde_urlencoded` (`QueryEncoder`, and `encodeCulture` for the culture
  code);
- `serde_json` (`decode` and `decodeResponse`);
- the formatting of `f64` (`fixed5` for `{:.5}`, `showF64` for `{}` and
  `to_string`).

`Locations.Collaborators` holds `encodeCulture`, `showF64`, `encodeQuery`,
`transport` and `decodeResponse` for the two lookups. The rest are
parameters of the members that use them: `Locations.FromLatLng` takes
`fixed5`; `Clients.Classify` and `Clients.Send` take `decode`;
`Clients.Client.Get` and `Clients.Fetch` take `encode`, `transport` and
`decode`. An `f64` is an opaque `F64`
holding its 64 bits. The HTTP status is a `u16` subset type.

`Client` is a class whose `key` is a `const`, so no method can change it.
The Rust `HashMap<&str, &str>` is the class `Params`, whose map field
`Insert` updates in place. `Get`, `FindByPoint` and `FindByQuery` are
proved against the specification functions `Fetch` and `Lookup`, and the
properties are proved as lemmas about those functions.

Points where the code's behaviour is easy to misread:

- `should_wait` is true only when the header's **last** line is exactly `1`.
  Each line overwrites the flag (src/client.rs:60-65). A `1` followed by
  another line gives `false`.
- The base URL ends in `/` and both paths begin with `/`, so every request
  URL contains `v1//Locations`. `Locations.LocationsUrlPrefix` states this. It
  is not treated as a bug in the library, because the service may accept the
  doubled slash.
- src/client.rs sends with `hyper`, while src/error.rs wraps
  `reqwest::Error` and src/locations.rs awaits an `async` `get`. The model
  has a single opaque `TransportError` for the networking failure.

## Model

| member | source | states |
|---|---|---|
| Text.SplitJoin | src/locations.rs:145-146 | splitting a comma join at commas gives back the non-empty list of comma-free parts |
| Text.Decimal | src/error.rs:97 | the decimal rendering `{}` gives of an unsigned status: non-empty, digits only, leading `0` only for zero |
| Text.DecimalRoundTrip | src/error.rs:97 | reading the decimal rendering back gives the number |
| Errors.DescriptionsDistinct | src/error.rs:23-28 | the four variant descriptions are pairwise distinct |
| Errors.RequestErrorDescription | src/error.rs:101-104 | `RequestError`'s description is the same text as the `Bing` variant's |
| Errors.RequestErrorDisplayRecoversStatus | src/error.rs:95-99 | `RequestError` displays as `RequestError(` + decimal status + `)`, from which the status reads back |
| Errors.DefaultRequestError | src/error.rs:83-93 | the default has status 0, `should_wait` false, and displays as `RequestError(0)` |
| Errors.Cause | src/error.rs:39-47 | `cause` is `Some` for every variant and is exactly the wrapped error (the boxed one for `Conversion`) |
| Errors.DisplayIsDescriptionThenCause | src/error.rs:21-36 | an error displays as its variant's description, `": "`, then the display of its cause |
| Errors.KindOfPrefixed | src/error.rs:23-34 | a message made of a variant's description and `": "` is attributed to that variant and to no other, whatever follows |
| Errors.DisplayRecoversKind | src/error.rs:21-36 | the displayed message alone tells which of the four variants produced it |
| Errors.FromRequestError | src/error.rs:50-54 | converting a `RequestError` gives a `Bing` error whose cause is that very `RequestError` |
| Errors.FromTransportError | src/error.rs:56-60 | converting a networking error gives an `Http` error whose cause is that error |
| Errors.FromIoError | src/error.rs:62-66 | converting an I/O error gives an `Io` error whose cause is that error |
| Errors.FromUrlEncodeError | src/error.rs:68-72 | converting a query-encoding error gives a `Conversion` error whose cause is that encoding error |
| Errors.FromJsonError | src/error.rs:74-78 | converting a JSON error gives a `Conversion` error whose cause is that decoding error |
| Errors.ConversionKeepsDirection | src/error.rs:68-78 | encode and decode failures share the `Conversion` variant but stay distinguishable, and each displays its own message |
| Clients.GetRaw | src/client.rs:61 | the raw lines are present exactly when some header has the name, ignoring ASCII case |
| Clients.GetRawCollectsMatches | src/client.rs:61-62 | the raw lines hold the same lines as the headers with the name, ignoring order and repetition |
| Clients.GetRawSingle | src/client.rs:61 | a single header yields its own lines when its name matches, ignoring ASCII case, and nothing otherwise |
| Clients.GetRawAppend | src/client.rs:61-64 | the raw lines of two runs of headers are the first run's lines followed by the second's, so arrival order, and with it the last line, is kept |
| Clients.GetRawJoinsRepeatedField | src/client.rs:61-64 | a field sent twice yields both values in arrival order, so `1` then `0` gives `should_wait` false |
| Clients.ShouldWait | src/client.rs:60-65 | the flag left by the loop over the header lines is true iff the header is present and its last line is exactly `1` |
| Clients.Send | src/client.rs:52-74 | `send` returns exactly what `Classify` prescribes for the exchange, including the looped `should_wait` |
| Clients.SuccessOnlyFrom2xx | src/client.rs:56-58 | a call succeeds iff the exchange, the body read and the decoding succeed and the status is in 200..=299, and it then yields the decoded value |
| Clients.CheckOrder | src/client.rs:53-55 | a transport failure is `Http` whatever else holds, then a body-read failure is `Io` whatever the status, and on 2xx a decode failure is `Conversion`, never a default |
| Clients.Non2xxIsServiceError | src/client.rs:59-70 | any other status is a `Bing` error with that status and the header-derived flag, and the decoder is not consulted |
| Clients.NotFoundWaitHint | src/client.rs:59-70 | a 404 with header line `1` gives status 404 with `should_wait` true; without the header, false |
| Clients.LastLineDecides | src/client.rs:62-64 | lines `1`,`0` give false, lines `0`,`1` give true, and no lines or no header give false |
| Clients.UrlParts | src/client.rs:19-22 | the URL is the base, the path and `?`, followed by the encoded query, or by nothing when encoding fails |
| Clients.WithKey | src/client.rs:45 | after injection `key` maps to the client's key, whether or not it was there before, and every other entry is unchanged |
| Clients.Params.constructor | src/locations.rs:143 | a new parameter map is empty |
| Clients.Params.Insert | src/locations.rs:147 | inserting adds the entry or replaces the one under the same key, touching nothing else |
| Clients.Client.constructor | src/client.rs:25-32 | a client stores the key it is given |
| Clients.Client.Get | src/client.rs:44-49 | `get` leaves the caller's map with the key injected, changes only that map (the key is a constant), and returns the classified answer for the URL built from the path and the updated map |
| Locations.EntityNameRoundTrip | src/locations.rs:22-45 | each entity type's name reads back as that entity type |
| Locations.EntityNameCommaFree | src/locations.rs:22-45 | no entity type's name contains a comma |
| Locations.EntitiesOfEntityNames | src/locations.rs:145 | the names of a list of entity types read back as that list |
| Locations.EntityTypesRoundTrip | src/locations.rs:144-146 | a non-empty `include_entity_types` value reads back as exactly the requested list, in order |
| Locations.FromLatLng | src/locations.rs:93-97 | the point is the two five-decimal renderings joined by a comma; all other fields keep their defaults |
| Locations.FromStr | src/locations.rs:98-102 | the point is the given text verbatim, with no entity types and both flags false |
| Locations.Entry | src/locations.rs:155-169 | an optional field contributes its key exactly when it is present, with its value |
| Locations.RequestPaths | src/locations.rs:136 | reverse geocoding requests `/Locations/` followed by the point text verbatim, and forward geocoding requests `/Locations` |
| Locations.FindEntriesDecided | src/locations.rs:144-154 | `include_entity_types` appears iff the list is non-empty, with the comma-joined names; `inclnb`=`1` iff the neighborhood flag is set; `incl`=`ciso2` iff the ISO flag is set |
| Locations.ContextAbsentOrFailed | src/locations.rs:155-157 | without context no key is added; a failing culture encoding is a `Conversion` error |
| Locations.HintEntriesDecided | src/locations.rs:158-169 | once the culture is settled, each context key appears iff its value is given, with that value, and no other key |
| Locations.ContextEntriesDecided | src/locations.rs:155-170 | with context, each of `c`, `umv`, `ul`, `uip`, `ur` appears iff its field is given, `uip` and `ur` verbatim, and no other key |
| Locations.ContextKeysBounded | src/locations.rs:189-204 | the context contributes only the keys `c`, `umv`, `ul`, `uip` and `ur` |
| Locations.PointParamsSplit | src/locations.rs:143-170 | the reverse-geocoding map is the flag entries beside the context entries, with neither overriding the other |
| Locations.QueryParamsDecided | src/locations.rs:187-204 | the forward-geocoding map always has `q` equal to the query, never a reverse-geocoding flag, and otherwise only context keys, each holding its context value |
| Locations.InsertSome | src/locations.rs:168-169 | an optional value is inserted under its key exactly when present |
| Locations.InsertHints | src/locations.rs:158-169 | after the culture, the context inserts leave the map extended by exactly the context entries |
| Locations.InsertContext | src/locations.rs:155-170 | the context inserts add exactly the context entries, or on a culture-encoding failure return that error and add nothing more |
| Locations.FindByPoint | src/locations.rs:135-180 | `find_by_point` returns the `Lookup` of the reverse-geocoding request through the client |
| Locations.FindByQuery | src/locations.rs:183-214 | `find_by_query` returns the `Lookup` of the forward-geocoding request through the client |
| Locations.CultureFailureStopsLookup | src/locations.rs:157 | a culture-encoding failure is the lookup's result whatever the network would answer, so no request matters |
| Locations.EmptyEnvelopeIsEmptyList | src/locations.rs:207-213 | a 2xx answer whose envelope holds no resource set gives the empty list, not an error |
| Locations.FirstSetInOrder | src/locations.rs:173-179 | a 2xx answer gives the first set's resources unchanged and in order, and later sets are ignored |
| Locations.LookupFailures | src/locations.rs:173 | a lookup fails exactly when the client's `get` fails, and with the same error |
| Locations.LocationsUrlPrefix | src/client.rs:21 | URLs for `/Locations` begin with `https://dev.virtualearth.net/REST/v1//Locations?`, and for `/Locations/` + point with `https://dev.virtualearth.net/REST/v1//Locations/` + point + `?` |

## Left out

- TLS and HTTP client construction (src/client.rs:24-42): `Client.constructor` stores only the key. The HTTP client handle is left out.
- The actual network exchange and `read_to_string` are left out. They are I/O, so the model takes their results as the `Transport` parameter.
- `async`/`await` on the two lookups is left out. It schedules the call but does not change the result.
- Float formatting is left out: `{:.5}`, `f64::to_string` and `{}` on `f64`. These are the parameters `fixed5` and `showF64`. This also leaves out the `Point` JSON round-trip test (src/locations.rs:224-231).
- The percent-encoding of `serde_urlencoded` and the parsing of `serde_json` are left out. Each is a function parameter that may fail.
- The query encoder sees the parameters as a map. `HashMap` iteration order, and so the order of pairs in the query string, is not modelled.
- Clients.GetRaw: keeps headers as a list of named entries, matches names without regard to ASCII case, and joins the lines of every matching entry in arrival order. This is what hyper's one-entry-per-name map gives for repeated fields; hyper's map itself is not modelled.
- The serde field renames, `Debug`/`Clone` derives and deserialization of `Location`, `Address`, `Confidence` and `MatchCode` are left out. These types are plain data.
- The `common` module (`CultureCode`) and the `response` module (`Response`) are not part of this model. `CultureCode` is an opaque tag. `Response` is a sequence of resource sets, each a sequence of resources.
- `src/lib.rs` is left out. It only declares modules and re-exports them.
- `Conversion` holds any `Box<dyn Error + Send>`, an open set; the library itself boxes only query-encoding and JSON errors (src/error.rs:68-78). The model uses `SourceError`, a closed stand-in for the trait object with five cases.
