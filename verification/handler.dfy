/**
 * The per-message step of fog_handler.py `on_message` (lines 109-171) as a pure
 * function of the shared state, the raw payload and the wall-clock reading.
 */
module Handler {
  import opened Wrappers
  import opened Traffic
  import opened Telemetry
  import opened History

  /** `message_history` and `gateways_seen` (lines 23-24). */
  datatype State = State(history: seq<Observation>, gateways: set<string>)

  /** Both structures start empty at process start. */
  const Initial: State := State([], {})

  /** The `update` event sent to every viewer (lines 146-153). */
  datatype Update = Update(
    lat: real, lng: real, vehicleCount: int, level: Level, gateway: string, timestamp: string)

  /** The `location` object nested in an alert. */
  datatype Location = Location(lat: real, lng: real)

  /** The message republished on the alert topic (lines 158-164). */
  datatype Alert = Alert(
    timestamp: string, gatewayId: string, vehicleCount: int, level: Level, location: Location)

  /** The effect of one inbound message: the new state, what was emitted, and the diagnostic printed on failure. */
  datatype Step = Step(
    state: State, update: Option<Update>, alert: Option<Alert>, diagnostic: Option<Diagnostic>)

  /** The state the handler keeps: within the cap, every entry classified, every entry's gateway remembered. */
  predicate Valid(s: State) {
    && |s.history| <= HistoryCap
    && (forall k :: 0 <= k < |s.history| ==> s.history[k].level == Classify(s.history[k].vehicleCount))
    && (forall k :: 0 <= k < |s.history| ==> s.history[k].gateway in s.gateways)
  }

  /** Decode (line 111), then extract (lines 114-133). */
  function Observe(raw: RawMessage, clock: string): Result<Observation, Diagnostic> {
    var doc :- Decode(raw);
    Extract(doc, clock)
  }

  function UpdateOf(o: Observation): Update {
    Update(o.lat, o.lng, o.vehicleCount, o.level, o.gateway, o.timestamp)
  }

  /** Lines 157-165: an alert only for MEDIUM and HEAVY. */
  function AlertOf(o: Observation): Option<Alert> {
    if IsAlertLevel(o.level) then
      Some(Alert(o.timestamp, o.gateway, o.vehicleCount, o.level, Location(o.lat, o.lng)))
    else
      None
  }

  /** Lines 132-143, under `data_lock`: remember the gateway, append the entry, evict the oldest. */
  function Commit(s: State, o: Observation): State {
    State(Append(s.history, o), s.gateways + {o.gateway})
  }

  /** `on_message`: every exception is caught, so a failure leaves the state as it was. */
  function Handle(s: State, raw: RawMessage, clock: string): (step: Step)
    ensures step.diagnostic.Some? ==> step.state == s && step.update.None? && step.alert.None?
    ensures step.diagnostic.None? <==> step.update.Some?
    ensures step.alert.Some? ==> step.update.Some? && IsAlertLevel(step.alert.value.level)
    ensures s.gateways <= step.state.gateways
    ensures Valid(s) ==> Valid(step.state)
  {
    match Observe(raw, clock)
    case Err(d) => Step(s, None, None, Some(d))
    case Ok(o) => Step(Commit(s, o), Some(UpdateOf(o)), AlertOf(o), None)
  }

  /** An accepted message: FIFO append with eviction, gateway added, update and alert mirror the entry. */
  lemma HandleAccepted(s: State, raw: RawMessage, clock: string)
    requires Observe(raw, clock).Ok?
    ensures var o := Observe(raw, clock).value;
      var step := Handle(s, raw, clock);
      var h' := step.state.history;
      && step.state.gateways == s.gateways + {o.gateway}
      && |h'| > 0 && h'[|h'| - 1] == o
      && (|s.history| < HistoryCap ==> h'[..|h'| - 1] == s.history)
      && (|s.history| >= HistoryCap ==> h'[..|h'| - 1] == s.history[1..])
      && step.update == Some(Update(o.lat, o.lng, o.vehicleCount, o.level, o.gateway, o.timestamp))
      && (step.alert.Some? <==> IsAlertLevel(o.level))
      && (step.alert.Some? ==> step.alert.value == Alert(o.timestamp, o.gateway, o.vehicleCount, o.level, Location(o.lat, o.lng)))
      && step.diagnostic.None?
  {
  }

  /**
   * A message that cannot be decoded or processed changes nothing and emits nothing.
   * Only malformed JSON reaches the JSONDecodeError handler; every other failure,
   * including bad UTF-8 and a `json.loads` that raises something else, reaches the
   * generic one.
   */
  lemma HandleRejected(s: State, raw: RawMessage, clock: string)
    requires Observe(raw, clock).Err?
    ensures Handle(s, raw, clock) == Step(s, None, None, Some(Observe(raw, clock).error))
    ensures Handle(s, raw, clock).diagnostic == Some(DecodeFailed) <==> raw.NotJson?
    ensures raw.NotUtf8? ==> Handle(s, raw, clock).diagnostic == Some(ProcessingFailed(InvalidUtf8))
    ensures raw.Unloadable? ==> Handle(s, raw, clock).diagnostic == Some(ProcessingFailed(LoadFailed))
  {
  }

  /** One delivery from the transport: the payload and the clock reading at that moment. */
  datatype Delivery = Delivery(raw: RawMessage, clock: string)

  /** The state and the event streams after a sequence of deliveries. */
  datatype Trace = Trace(state: State, updates: seq<Update>, alerts: seq<Alert>)

  function OptionToSeq<T>(x: Option<T>): seq<T> {
    match x
    case Some(v) => [v]
    case None => []
  }

  /** Handle one more delivery and record what it emitted. */
  function Extend(t: Trace, d: Delivery): Trace {
    var step := Handle(t.state, d.raw, d.clock);
    Trace(step.state, t.updates + OptionToSeq(step.update), t.alerts + OptionToSeq(step.alert))
  }

  /** Deliveries handled one at a time, in arrival order. */
  function Run(s: State, ds: seq<Delivery>): Trace
    decreases |ds|
  {
    if |ds| == 0 then Trace(s, [], []) else Extend(Run(s, ds[..|ds| - 1]), ds[|ds| - 1])
  }

  /** Reference definition: the entries extracted from the deliveries that are accepted. */
  function Accepted(ds: seq<Delivery>): seq<Observation>
    decreases |ds|
  {
    if |ds| == 0 then []
    else
      var d := ds[|ds| - 1];
      Accepted(ds[..|ds| - 1]) + (if Observe(d.raw, d.clock).Ok? then [Observe(d.raw, d.clock).value] else [])
  }

  function GatewaysOf(os: seq<Observation>): set<string> {
    set k | 0 <= k < |os| :: os[k].gateway
  }

  function UpdatesOf(os: seq<Observation>): seq<Update>
    decreases |os|
  {
    if |os| == 0 then [] else UpdatesOf(os[..|os| - 1]) + [UpdateOf(os[|os| - 1])]
  }

  function AlertsOf(os: seq<Observation>): seq<Alert>
    decreases |os|
  {
    if |os| == 0 then [] else AlertsOf(os[..|os| - 1]) + OptionToSeq(AlertOf(os[|os| - 1]))
  }

  /** How the last delivery of a run extends the trace, stated through the accepted entries. */
  lemma RunStep(s: State, ds: seq<Delivery>)
    requires |ds| > 0
    ensures var before := Run(s, ds[..|ds| - 1]);
      var d := ds[|ds| - 1];
      var r := Observe(d.raw, d.clock);
      && (r.Err? ==> Run(s, ds) == before && Accepted(ds) == Accepted(ds[..|ds| - 1]))
      && (r.Ok? ==>
           && Accepted(ds) == Accepted(ds[..|ds| - 1]) + [r.value]
           && Run(s, ds).state == Commit(before.state, r.value)
           && Run(s, ds).updates == before.updates + [UpdateOf(r.value)]
           && Run(s, ds).alerts == before.alerts + OptionToSeq(AlertOf(r.value)))
  {
    var before := Run(s, ds[..|ds| - 1]);
    assert before.updates + [] == before.updates;
    assert before.alerts + [] == before.alerts;
    assert Accepted(ds[..|ds| - 1]) + [] == Accepted(ds[..|ds| - 1]);
  }

  /** After any sequence of deliveries the history is the last HistoryCap of everything accepted, in arrival order. */
  lemma {:induction false} RunHistory(s: State, ds: seq<Delivery>)
    requires |s.history| <= HistoryCap
    ensures Run(s, ds).state.history == Last(s.history + Accepted(ds), HistoryCap)
    decreases |ds|
  {
    if |ds| == 0 {
      assert s.history + [] == s.history;
    } else {
      var init := ds[..|ds| - 1];
      var d := ds[|ds| - 1];
      RunHistory(s, init);
      RunStep(s, ds);
      var before := Run(s, init);
      var prior := Accepted(init);
      if Observe(d.raw, d.clock).Ok? {
        var o := Observe(d.raw, d.clock).value;
        AppendIsWindow(before.state.history, o);
        LastAppend(s.history + prior, o, HistoryCap);
        assert s.history + prior + [o] == s.history + (prior + [o]);
      }
    }
  }

  lemma GatewaysOfAppend(os: seq<Observation>, o: Observation)
    ensures GatewaysOf(os + [o]) == GatewaysOf(os) + {o.gateway}
  {
    forall g | g in GatewaysOf(os + [o])
      ensures g in GatewaysOf(os) + {o.gateway}
    {
      var k :| 0 <= k < |os + [o]| && (os + [o])[k].gateway == g;
      if k < |os| {
        assert os[k].gateway == g;
      }
    }
    forall g | g in GatewaysOf(os)
      ensures g in GatewaysOf(os + [o])
    {
      var k :| 0 <= k < |os| && os[k].gateway == g;
      assert (os + [o])[k].gateway == g;
    }
    assert (os + [o])[|os|].gateway == o.gateway;
  }

  /** The gateway set grows by exactly the gateways of the accepted entries and loses nothing. */
  lemma {:induction false} RunGateways(s: State, ds: seq<Delivery>)
    ensures Run(s, ds).state.gateways == s.gateways + GatewaysOf(Accepted(ds))
    decreases |ds|
  {
    if |ds| > 0 {
      var init := ds[..|ds| - 1];
      var d := ds[|ds| - 1];
      RunGateways(s, init);
      RunStep(s, ds);
      if Observe(d.raw, d.clock).Ok? {
        GatewaysOfAppend(Accepted(init), Observe(d.raw, d.clock).value);
      }
    }
  }

  /** One update per accepted message and one alert per MEDIUM or HEAVY one, in arrival order. */
  lemma {:induction false} RunEvents(s: State, ds: seq<Delivery>)
    ensures Run(s, ds).updates == UpdatesOf(Accepted(ds))
    ensures Run(s, ds).alerts == AlertsOf(Accepted(ds))
    decreases |ds|
  {
    if |ds| > 0 {
      var init := ds[..|ds| - 1];
      var d := ds[|ds| - 1];
      RunEvents(s, init);
      RunStep(s, ds);
      if Observe(d.raw, d.clock).Ok? {
        var prior := Accepted(init);
        var o := Observe(d.raw, d.clock).value;
        assert (prior + [o])[..|prior + [o]| - 1] == prior;
      }
    }
  }

  /** Starting empty, the history holds exactly the last min(n, 100) accepted entries. */
  lemma FromEmpty(ds: seq<Delivery>)
    ensures var h := Run(Initial, ds).state.history;
      var n := |Accepted(ds)|;
      && |h| == (if n < HistoryCap then n else HistoryCap)
      && h == Accepted(ds)[n - |h|..]
  {
    RunHistory(Initial, ds);
    assert Initial.history + Accepted(ds) == Accepted(ds);
  }

  /** Handling a concatenation is handling the first part, then the second from where it left off. */
  lemma {:induction false} RunSplit(s: State, ds1: seq<Delivery>, ds2: seq<Delivery>)
    ensures var first := Run(s, ds1);
      var second := Run(first.state, ds2);
      && Run(s, ds1 + ds2).state == second.state
      && Run(s, ds1 + ds2).updates == first.updates + second.updates
      && Run(s, ds1 + ds2).alerts == first.alerts + second.alerts
    decreases |ds2|
  {
    if |ds2| == 0 {
      assert ds1 + ds2 == ds1;
      var first := Run(s, ds1);
      assert first.updates + [] == first.updates && first.alerts + [] == first.alerts;
    } else {
      var init := ds2[..|ds2| - 1];
      var d := ds2[|ds2| - 1];
      RunSplit(s, ds1, init);
      assert (ds1 + ds2)[..|ds1 + ds2| - 1] == ds1 + init;
      assert (ds1 + ds2)[|ds1 + ds2| - 1] == d;
      var first := Run(s, ds1);
      var mid := Run(first.state, init);
      ExtendShift(mid, first.updates, first.alerts, d);
    }
  }

  /** Events already emitted do not influence how the next delivery is handled. */
  lemma ExtendShift(t: Trace, pu: seq<Update>, pa: seq<Alert>, d: Delivery)
    ensures var e := Extend(t, d);
      Extend(Trace(t.state, pu + t.updates, pa + t.alerts), d) == Trace(e.state, pu + e.updates, pa + e.alerts)
  {
    var step := Handle(t.state, d.raw, d.clock);
    assert pu + t.updates + OptionToSeq(step.update) == pu + (t.updates + OptionToSeq(step.update));
    assert pa + t.alerts + OptionToSeq(step.alert) == pa + (t.alerts + OptionToSeq(step.alert));
  }

  /** The handler keeps its state valid across any sequence of deliveries. */
  lemma {:induction false} RunKeepsValid(s: State, ds: seq<Delivery>)
    requires Valid(s)
    ensures Valid(Run(s, ds).state)
    ensures s.gateways <= Run(s, ds).state.gateways
    decreases |ds|
  {
    if |ds| > 0 {
      RunKeepsValid(s, ds[..|ds| - 1]);
    }
  }
}
