/**
 * The decoded MQTT payload and the observation extracted from it
 * (fog_handler.py `on_message`, lines 109-129).
 */
module Telemetry {
  import opened Wrappers
  import opened Traffic
  import opened PyInt

  /** A JSON value found under `lat` or `lng`: only numbers survive the `:.6f` formatting of line 125. */
  datatype CoordValue = Number(x: real) | NonNumeric

  /** The value found under `location`: an object with optional `lat`/`lng`, or anything else. */
  datatype LocationField =
    | LocationObject(lat: Option<CoordValue>, lng: Option<CoordValue>)
    | LocationOther

  /** The value found under `gateway_id`: a string, or an array/object (unhashable in Python). */
  datatype GatewayValue = GatewayName(name: string) | GatewayUnhashable

  /** The four keys the handler reads from a JSON object; `None` is a missing key. */
  datatype Fields = Fields(
    timestamp: Option<string>,
    location: Option<LocationField>,
    vehicleCount: Option<CountValue>,
    gatewayId: Option<GatewayValue>)

  /** What `json.loads` returned: an object, or some other JSON value (array, string, number, ...). */
  datatype Document = Object(fields: Fields) | NonObject

  /** The raw MQTT payload bytes, classified by how far decoding gets. */
  datatype RawMessage =
    | Json(doc: Document)   // valid UTF-8 holding one JSON document
    | NotJson               // valid UTF-8, but `json.loads` raises JSONDecodeError
    | NotUtf8               // `bytes.decode()` raises UnicodeDecodeError
    | Unloadable            // `json.loads` raises another exception: RecursionError on deep
                            // nesting, ValueError on an integer literal longer than Python allows

  /** The exception raised after a successful decode (caught at lines 170-171). */
  datatype Fault =
    | InvalidUtf8                        // UnicodeDecodeError, not a JSONDecodeError
    | LoadFailed                         // `json.loads` raised something other than JSONDecodeError
    | PayloadNotObject                   // `payload.get` on a non-dict
    | LocationNotObject                  // `location.get` on a non-dict
    | CountNotInteger(cause: CoerceError) // `int(...)` raised
    | CoordinateNotNumber                // `f"{lat:.6f}"` on a non-number
    | GatewayNotHashable                 // `gateways_seen.add` of a list or dict

  /** The two diagnostics the handler prints: line 169 and line 171. */
  datatype Diagnostic = DecodeFailed | ProcessingFailed(fault: Fault)

  /** One history entry (lines 134-141): every field populated. */
  datatype Observation = Observation(
    timestamp: string,
    lat: real,
    lng: real,
    vehicleCount: int,
    gateway: string,
    level: Level)

  /** The gateway recorded when a payload has no `gateway_id`. */
  const DefaultGateway: string := "unknown"
  /** The coordinate recorded when `location`, `lat` or `lng` is missing. */
  const DefaultCoordinate: real := 0.0
  /** The count coerced when `vehicle_count` is missing. */
  const DefaultCount: CountValue := IntNumber(0)

  /** Line 111: decode the bytes as UTF-8 and parse them as JSON. */
  function Decode(raw: RawMessage): (r: Result<Document, Diagnostic>)
    ensures r.Ok? <==> raw.Json?
    ensures raw.NotJson? ==> r == Err(DecodeFailed)
    ensures raw.NotUtf8? ==> r == Err(ProcessingFailed(InvalidUtf8))
    ensures raw.Unloadable? ==> r == Err(ProcessingFailed(LoadFailed))
  {
    match raw
    case Json(doc) => Ok(doc)
    case NotJson => Err(DecodeFailed)
    case NotUtf8 => Err(ProcessingFailed(InvalidUtf8))
    case Unloadable => Err(ProcessingFailed(LoadFailed))
  }

  /** `location.get(key, 0.0)` followed by the check that the value formats with `:.6f`. */
  function Coordinate(v: Option<CoordValue>): Result<real, Diagnostic> {
    match v.GetOr(Number(DefaultCoordinate))
    case Number(x) => Ok(x)
    case NonNumeric => Err(ProcessingFailed(CoordinateNotNumber))
  }

  /** True when extraction gets past every point where the source can raise. */
  predicate Acceptable(doc: Document) {
    && doc.Object?
    && doc.fields.location.GetOr(LocationObject(None, None)).LocationObject?
    && Coerce(doc.fields.vehicleCount.GetOr(DefaultCount)).Ok?
    && (var loc := doc.fields.location.GetOr(LocationObject(None, None));
        && loc.lat.GetOr(Number(DefaultCoordinate)).Number?
        && loc.lng.GetOr(Number(DefaultCoordinate)).Number?)
    && doc.fields.gatewayId.GetOr(GatewayName(DefaultGateway)).GatewayName?
  }

  /**
   * Lines 114-133: read the keys with their defaults, coerce the count, classify it,
   * format the coordinates and hash the gateway, failing where Python raises.
   * `clock` is the `time.strftime` value used when `timestamp` is missing.
   */
  function Extract(doc: Document, clock: string): (r: Result<Observation, Diagnostic>)
    ensures r.Ok? <==> Acceptable(doc)
    ensures r.Err? ==> r.error.ProcessingFailed?
    ensures r.Ok? ==> r.value.level == Classify(r.value.vehicleCount)
  {
    if doc.NonObject? then Err(ProcessingFailed(PayloadNotObject))
    else
      var f := doc.fields;
      var timestamp := f.timestamp.GetOr(clock);
      match f.location.GetOr(LocationObject(None, None))
      case LocationOther => Err(ProcessingFailed(LocationNotObject))
      case LocationObject(latValue, lngValue) =>
        match Coerce(f.vehicleCount.GetOr(DefaultCount))
        case Err(e) => Err(ProcessingFailed(CountNotInteger(e)))
        case Ok(count) =>
          var level := Classify(count);
          var lat :- Coordinate(latValue);
          var lng :- Coordinate(lngValue);
          match f.gatewayId.GetOr(GatewayName(DefaultGateway))
          case GatewayUnhashable => Err(ProcessingFailed(GatewayNotHashable))
          case GatewayName(gateway) => Ok(Observation(timestamp, lat, lng, count, gateway, level))
  }

  /** The defaults of lines 114-119, key by key, and the classification of line 120. */
  lemma ExtractDefaults(f: Fields, clock: string)
    requires Acceptable(Object(f))
    ensures var o := Extract(Object(f), clock).value;
      && (f.timestamp.None? ==> o.timestamp == clock)
      && (f.timestamp.Some? ==> o.timestamp == f.timestamp.value)
      && (f.vehicleCount.None? ==> o.vehicleCount == 0 && o.level == Low)
      && (f.vehicleCount.Some? ==> Ok(o.vehicleCount) == Coerce(f.vehicleCount.value))
      && (f.gatewayId.None? ==> o.gateway == DefaultGateway)
      && (f.gatewayId.Some? ==> f.gatewayId.value == GatewayName(o.gateway))
      && (f.location.None? ==> o.lat == DefaultCoordinate && o.lng == DefaultCoordinate)
      && (f.location.Some? && f.location.value.lat.None? ==> o.lat == DefaultCoordinate)
      && (f.location.Some? && f.location.value.lng.None? ==> o.lng == DefaultCoordinate)
      && (f.location.Some? && f.location.value.lat.Some? ==> f.location.value.lat.value == Number(o.lat))
      && (f.location.Some? && f.location.value.lng.Some? ==> f.location.value.lng.value == Number(o.lng))
  {
  }
}
