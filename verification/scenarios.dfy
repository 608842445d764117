/** Concrete messages run through the model, as the dashboard and the alert topic would see them. */
module Scenarios {
  import opened Wrappers
  import opened Traffic
  import opened PyInt
  import opened Telemetry
  import opened Handler

  /** `{"vehicle_count": 3, "gateway_id": "GW1", "location": {"lat": 1.0, "lng": 2.0}}`: LOW, no alert. */
  lemma LowTrafficNoAlert(clock: string)
    ensures var raw := Json(Object(Fields(None, Some(LocationObject(Some(Number(1.0)), Some(Number(2.0)))),
                                          Some(IntNumber(3)), Some(GatewayName("GW1")))));
      var step := Handle(Initial, raw, clock);
      && step.state == State([Observation(clock, 1.0, 2.0, 3, "GW1", Low)], {"GW1"})
      && step.alert == None
  {
  }

  /** `{"vehicle_count": 20, "gateway_id": "GW2"}`: HEAVY at the default location, one alert. */
  lemma HeavyTrafficAlerts(clock: string)
    ensures var raw := Json(Object(Fields(None, None, Some(IntNumber(20)), Some(GatewayName("GW2")))));
      var step := Handle(Initial, raw, clock);
      && step.state.history == [Observation(clock, 0.0, 0.0, 20, "GW2", Heavy)]
      && step.alert == Some(Alert(clock, "GW2", 20, Heavy, Location(0.0, 0.0)))
  {
  }

  /** Single underscores between digits are accepted, as Python's `int("1_000")` does. */
  lemma UnderscoredCount()
    ensures ParseInt("1_000") == Ok(1000)
  {
    assert IsDigitGroup("1") && GroupValue("1") == 1;
    assert "1_0"[..1] == "1";
    assert IsDigitGroup("1_0") && GroupValue("1_0") == 10;
    assert "1_00"[..3] == "1_0";
    assert IsDigitGroup("1_00") && GroupValue("1_00") == 100;
    assert "1_000"[..4] == "1_00";
    TrimStartKeeps("1_000");
    TrimEndKeeps("1_000");
  }

  /** A doubled or a leading underscore makes `int()` raise. */
  lemma MisplacedUnderscores()
    ensures ParseInt("1__0").Err? && ParseInt("_1").Err?
  {
    assert "1__0"[..2] == "1_";
    assert "_1"[..1] == "_";
    TrimStartKeeps("1__0");
    TrimEndKeeps("1__0");
    TrimStartKeeps("_1");
    TrimEndKeeps("_1");
  }

  /** An ASCII separator such as U+001C is not whitespace to `int()`, so the count is rejected. */
  lemma SeparatorIsNotPadding()
    ensures ParseInt(['\U{1c}', '5']).Err?
  {
    var t := ['\U{1c}', '5'];
    TrimStartKeeps(t);
    TrimEndKeeps(t);
    assert t[..1] == ['\U{1c}'];
    assert t[1..] == ['5'];
  }

  /** A float count is truncated toward zero: 14.9 is still MEDIUM, -0.5 counts as 0. */
  lemma FloatCounts()
    ensures Coerce(FloatNumber(14.9)) == Ok(14) && Classify(14) == Medium
    ensures Coerce(FloatNumber(-0.5)) == Ok(0)
    ensures Coerce(FloatNumber(-2.5)) == Ok(-2)
  {
  }
}
