# Fog handler message pipeline, in Dafny

A model of the per-message core of `fog_handler.py`, the fog-node listener of a
LoRaWAN vehicle-traffic system. Roadside gateways publish JSON telemetry over
MQTT; for each message the handler

1. decodes the payload and reads `timestamp`, `location.lat`, `location.lng`,
   `vehicle_count` and `gateway_id`, with defaults for missing keys;
2. classifies the vehicle count as `LOW` (< 5), `MEDIUM` (5..14) or `HEAVY` (>= 15);
3. adds the gateway to `gateways_seen` and appends the observation to
   `message_history`, evicting the oldest entry past 100;
4. emits an `update` event to dashboard viewers, and republishes an alert on the
   alert topic for `MEDIUM` and `HEAVY` observations.

Every exception is caught and printed. An exception raised before the commit at lines
132-143 drops the message and leaves the state as it was. The model covers every such
failure point that it represents. An exception raised after the commit, by `sio.emit`
or `client.publish`, leaves the new entry and gateway in place.
Viewers that join receive the last 25 history entries and the sorted gateway
list; the `/data` and `/gateways` routes return the same slices.

The model is a pure step function `Handler.Handle(state, raw, clock)` returning
the new state, the optional update, the optional alert and the optional
diagnostic, plus `Handler.Run`, its iteration over a sequence of deliveries.

Modules, one concept each:

- `wrappers.dfy` — `Option` (a missing key, `dict.get` with a default) and `Result`.
- `traffic.dfy` — `Traffic`: the classifier and its thresholds.
- `pyint.dfy` — `PyInt`: Python's `int()` applied to whatever JSON value sits under
  `vehicle_count` (int, float truncated toward zero, non-finite float, string
  literal with whitespace, sign and underscores, bool, null, container).
- `telemetry.dfy` — `Telemetry`: the raw message, the decoded fields, the
  observation record and the extraction with its defaults and failure points.
- `history.dfy` — `History`: the 100-entry FIFO and the `h[-n:]` window.
- `gatewayorder.dfy` — `GatewayOrder`: Python's string order and the sort of the
  gateway set.
- `handler.dfy` — `Handler`: state, step, run, and the lemmas about runs.
- `views.dfy` — `Views`: the snapshot, `/data`, `/gateways` and the join event.
- `scenarios.dfy` — `Scenarios`: concrete messages through the model.

Points where the code's behaviour is easy to misread:

- Any integer count is accepted. A negative count is classified `LOW`.
- Bytes that are not UTF-8 raise `UnicodeDecodeError` when decoded at line 111. That
  error is caught by the generic handler (lines 170-171), not the JSON one (lines
  168-169). The same holds for any exception from `json.loads` other than
  `JSONDecodeError`. The model keeps the two diagnostics apart. In every case nothing
  changes.
- When `int()` raises on the count, the message is dropped; the count is not set to 0.

## Model

| member | source | states |
|---|---|---|
| Traffic.Classify | fog_handler.py:48-55 | the level is LOW iff count < 5, MEDIUM iff 5 <= count < 15, HEAVY iff count >= 15, for every integer |
| Traffic.ClassifyBoundaries | fog_handler.py:48-55 | 4 is LOW, 5 and 14 are MEDIUM, 15 is HEAVY, every negative count is LOW |
| Traffic.ClassifyMonotone | fog_handler.py:48-55 | a larger count never gets a lower level |
| Traffic.AlertIffAtLeastMedium | fog_handler.py:157 | a count raises an alert exactly when it is at least 5 |
| PyInt.Truncate | fog_handler.py:118 | `int()` of a finite float is the integer next to it on the side of zero: r <= x < r + 1 for x >= 0, r - 1 < x <= r for x < 0 |
| PyInt.ParseSigned | fog_handler.py:118 | a stripped string is accepted iff it is a digit group with at most one leading sign |
| PyInt.ParseSignedValue | fog_handler.py:118 | an accepted literal's value is the positional value of its digits with underscores ignored; a leading `+` changes nothing and a leading `-` negates it |
| PyInt.GroupValueIsPositional | fog_handler.py:118 | the left-fold value of a digit group equals the sum of each digit times ten to the power of its place |
| PyInt.Coerce | fog_handler.py:118 | ints pass through, bools give 0/1, finite floats truncate toward zero, infinities/NaN, null and containers raise, strings are parsed |
| PyInt.ParseRenderRoundTrip | fog_handler.py:118 | `int(str(n)) == n` for every integer n |
| PyInt.ParseIgnoresPadding | fog_handler.py:118 | surrounding whitespace never changes what `int()` makes of a string |
| Telemetry.Extract | fog_handler.py:114-133 | extraction succeeds iff the payload and location are objects, the count coerces, the coordinates are numbers and the gateway is hashable; failures are processing errors; the level is the count's classification |
| Telemetry.ExtractDefaults | fog_handler.py:114-120 | a missing timestamp is the clock reading, a missing count is 0 (LOW), a missing gateway is "unknown", a missing location, lat or lng is 0.0; present values are carried through |
| History.Append | fog_handler.py:134-143 | the new entry is last; before it stands the old history, or the old history minus its oldest entry at the cap; the cap of 100 is kept |
| History.AppendIsWindow | fog_handler.py:134-143 | within the cap, one append equals keeping the last 100 of the old history plus the entry |
| History.Last | fog_handler.py:85 | `h[-n:]` has min(n, len(h)) entries and is a suffix of h |
| GatewayOrder.SortedNames | fog_handler.py:40 | the sorted gateway list is strictly ascending, duplicate-free, and holds exactly the set's elements |
| GatewayOrder.SortedUnique | fog_handler.py:89 | two strictly ascending lists with the same elements are equal, so the gateway list is determined by the set |
| GatewayOrder.LessTotal | fog_handler.py:40 | Python's string order is total and asymmetric on distinct strings |
| Handler.Handle | fog_handler.py:109-171 | a failed message leaves the state unchanged and emits nothing; success always emits an update; alerts carry MEDIUM or HEAVY; the gateway set never shrinks; the state invariant is kept |
| Handler.HandleAccepted | fog_handler.py:132-165 | gateways become gateways + {gateway}; the entry is appended FIFO with eviction; the update mirrors the entry; an alert exists iff the level is MEDIUM or HEAVY and copies the entry's fields |
| Handler.HandleRejected | fog_handler.py:109-171 | an undecodable or unprocessable message gives the unchanged state, no update, no alert, and its diagnostic; the JSON-decode diagnostic comes exactly from malformed JSON, while bad UTF-8 and other `json.loads` errors give the generic one |
| Handler.RunHistory | fog_handler.py:134-143 | after any run the history is the last 100 of the old history followed by every accepted entry, in arrival order |
| Handler.RunGateways | fog_handler.py:133 | after any run the gateway set is the old set plus the gateways of the accepted entries |
| Handler.RunEvents | fog_handler.py:146-165 | a run emits one update per accepted entry and one alert per MEDIUM or HEAVY entry, in arrival order |
| Handler.FromEmpty | fog_handler.py:142-143 | from empty, after n accepted messages the history holds exactly the last min(n, 100) of them |
| Handler.RunSplit | fog_handler.py:109-171 | handling a concatenation of deliveries is handling the first part, then the second from the resulting state |
| Handler.RunKeepsValid | fog_handler.py:132-143 | every reachable state is within the cap, has every entry classified by its count, and remembers every entry's gateway |
| Views.RecentMessages | fog_handler.py:39 | the snapshot is the last min(25, len(history)) entries in insertion order |
| Views.GatewayList | fog_handler.py:87-89 | `/gateways` is the gateway set, sorted, each gateway once |
| Views.Join | fog_handler.py:33-41 | the init event holds the snapshot (at most 25 entries) and the sorted gateway list |
| Views.SnapshotAfterAccept | fog_handler.py:79 | after an accepted message the snapshot slides by one and ends with the new entry |
| Views.JoinSeesEveryLaterUpdate | fog_handler.py:36-41 | a viewer joining between two batches gets the snapshot at that instant and then exactly the updates of the later accepted messages, in order |
| Scenarios.LowTrafficNoAlert | fog_handler.py:114-165 | a count of 3 from GW1 at (1.0, 2.0) is stored as LOW, GW1 is remembered, and no alert is sent |
| Scenarios.HeavyTrafficAlerts | fog_handler.py:114-165 | a count of 20 from GW2 without location is HEAVY at (0.0, 0.0) and sends one HEAVY alert |
| Scenarios.UnderscoredCount | fog_handler.py:118 | the count string "1_000" coerces to 1000 |
| Scenarios.MisplacedUnderscores | fog_handler.py:118 | "1__0" and "_1" make the coercion fail |
| Scenarios.SeparatorIsNotPadding | fog_handler.py:118 | a count string led by U+001C is rejected, as Python's `int()` strips only space, tab, line feed, vertical tab, form feed and carriage return |
| Scenarios.FloatCounts | fog_handler.py:118 | 14.9 coerces to 14 (MEDIUM), -0.5 to 0 and -2.5 to -2 |

## Left out

- MQTT connection handling: `on_connect`, `on_disconnect` with its 5-second sleep and single `reconnect()`, TLS setup, `connect`, `loop_forever` and the interrupt handling in `main` (lines 92-107, 180-218). This is transport I/O with no state beyond a log line.
- Flask and Socket.IO serving: routing, `render_template`, `jsonify`, the viewer `disconnect` handler, `run_flask`, and `get_cloud9_preview_url` (an HTTP metadata lookup). Only the data these routes compute is modelled.
- `data_lock` and threads: each `Handle` is one atomic step. The unlocked reads of `/data` and `/gateways` (lines 85, 89) are a concurrency matter and are not modelled.
- Console output: the emoji lines and the `:.6f` coordinates are not modelled. Only the formatting failure on a non-numeric coordinate is kept.
- Sending events: the update and the alert are values returned by the step. `sio.emit`, `json.dumps` and `client.publish` are I/O. A failed `sio.emit` (line 146) or `client.publish` (line 165) is not modelled. In the source either one raises after the commit, so the entry and gateway stay and any later alert is skipped.
- Telemetry.Decode: JSON parsing is not modelled. A payload is given already classified as one of:
  - not UTF-8;
  - malformed JSON;
  - JSON that `json.loads` rejects with another exception (RecursionError on deep nesting, ValueError on an over-long integer literal);
  - a non-object document;
  - an object with the four keys the handler reads.

  Which inputs fall into the "another exception" class is not modelled.
- Telemetry.Extract: gateway ids are strings or unhashable values (arrays, objects). Numeric, boolean and null ids are accepted by the source, where `1`, `1.0` and `true` are one set element and a mixed-type set later makes `sorted` raise. The model does not cover them.
- Telemetry.Extract: timestamps are strings. A non-string `timestamp` value is carried through unchanged by the source, and the model does not cover it.
- Telemetry.Extract: coordinates and float counts are exact reals. Binary floating-point rounding is not modelled, and neither is the difference between a boolean and a numeric coordinate.
- Telemetry.Extract: an integer coordinate beyond float range makes `f"{lat:.6f}"` (line 125) raise OverflowError, and the source drops the message. The model accepts every numeric coordinate.
- Telemetry.Extract: infinite and NaN coordinates, which `json.loads` produces and the source keeps, cannot be represented as reals and are not modelled.
- PyInt.ParseInt: the stripped ASCII whitespace is space, tab, line feed, vertical tab, form feed and carriage return, as in Python. Non-ASCII whitespace and non-ASCII decimal digits, which Python's `int()` also accepts, are not recognised.
- PyInt.ParseInt: the limit of recent Python versions on the length of integer strings (4300 digits by default, beyond which `int()` raises) is not modelled; longer strings are read like any other.
- GatewayOrder.Less: Dafny characters are Unicode scalar values. Python strings holding lone surrogates are not modelled.
- `lorawan_device.py`, `test_fog_pipeline.py`, `tail_s3_log.py` and `static/js/dashboard.js`: a random publisher, AWS test and log utilities, and browser code. They are not part of this model.
