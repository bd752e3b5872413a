/**
 * The KPI engine: thresholds registered per metric name, and the check of a
 * reading against its metric's bounds that records the reading in the journal
 * and, when the reading is out of range, hands one `kpi_alert` event to the CEO.
 * Readings are exact reals; `fmt` stands for Python's rendering of a float in
 * an f-string, and the CEO's answer to the alert arrives as a parameter.
 */
module KpiEngine {
  import opened Wrappers
  import opened Text
  import opened OrderedDict
  import opened Memory
  import AgenticCeo

  /** A threshold; an absent bound is not checked. */
  datatype Threshold = Threshold(name: string, minValue: Option<real>, maxValue: Option<real>, unit: string)

  // ---------------------------------------------------------------------
  // Registration
  // ---------------------------------------------------------------------

  /** The thresholds after registering `ts` one after the other. */
  function RegisterAll(d: Dict<string, Threshold>, ts: seq<Threshold>): Dict<string, Threshold> {
    if |ts| == 0 then d else Put(RegisterAll(d, ts[..|ts| - 1]), ts[|ts| - 1].name, ts[|ts| - 1])
  }

  /** The last threshold of `ts` with that name. */
  function LastNamed(ts: seq<Threshold>, name: string): (r: Option<Threshold>)
    ensures r.Some? ==> r.value.name == name
  {
    if |ts| == 0 then None
    else if ts[|ts| - 1].name == name then Some(ts[|ts| - 1])
    else LastNamed(ts[..|ts| - 1], name)
  }

  /** No threshold carries the name, or the last one that does is found. */
  lemma {:induction false} LastNamedMeaning(ts: seq<Threshold>, name: string)
    ensures LastNamed(ts, name).None? <==> forall k :: 0 <= k < |ts| ==> ts[k].name != name
    ensures LastNamed(ts, name).Some? ==>
      exists k :: 0 <= k < |ts| && ts[k] == LastNamed(ts, name).value && forall j :: k < j < |ts| ==> ts[j].name != name
  {
    if |ts| > 0 && ts[|ts| - 1].name != name {
      var init := ts[..|ts| - 1];
      LastNamedMeaning(init, name);
      assert forall k :: 0 <= k < |init| ==> init[k] == ts[k];
      if LastNamed(init, name).Some? {
        var k :| 0 <= k < |init| && init[k] == LastNamed(init, name).value && forall j :: k < j < |init| ==> init[j].name != name;
        assert ts[k] == LastNamed(ts, name).value;
      }
    } else if |ts| > 0 {
      assert ts[|ts| - 1] == LastNamed(ts, name).value;
    }
  }

  /** In `register_many` the last of several thresholds with one name wins; other names keep theirs. */
  lemma {:induction false} RegisterAllGet(d: Dict<string, Threshold>, ts: seq<Threshold>, name: string)
    ensures Get(RegisterAll(d, ts), name) == if LastNamed(ts, name).Some? then LastNamed(ts, name) else Get(d, name)
  {
    if |ts| > 0 {
      var t := ts[|ts| - 1];
      PutGet(RegisterAll(d, ts[..|ts| - 1]), t.name, t, name);
      if t.name != name {
        RegisterAllGet(d, ts[..|ts| - 1], name);
      }
    }
  }

  // ---------------------------------------------------------------------
  // The range check
  // ---------------------------------------------------------------------

  predicate BelowMin(t: Threshold, value: real) {
    t.minValue.Some? && value < t.minValue.value
  }

  predicate AboveMax(t: Threshold, value: real) {
    t.maxValue.Some? && value > t.maxValue.value
  }

  /** A reading within every bound that is set; a reading equal to a bound is within it. */
  predicate InRange(t: Threshold, value: real) {
    (t.minValue.None? || t.minValue.value <= value) && (t.maxValue.None? || value <= t.maxValue.value)
  }

  function BelowMessage(name: string, value: real, min: real, fmt: real -> string): string {
    "KPI " + name + " out of range: value " + fmt(value) + " is below minimum " + fmt(min)
  }

  function AboveMessage(name: string, value: real, max: real, fmt: real -> string): string {
    "KPI " + name + " out of range: value " + fmt(value) + " is above maximum " + fmt(max)
  }

  /**
   * The messages of the range check: the below-minimum one first when the
   * minimum is violated, the above-maximum one last when the maximum is.
   */
  function Messages(t: Threshold, name: string, value: real, fmt: real -> string): (ms: seq<string>)
    ensures |ms| == (if BelowMin(t, value) then 1 else 0) + (if AboveMax(t, value) then 1 else 0)
    ensures BelowMin(t, value) ==> ms[0] == BelowMessage(name, value, t.minValue.value, fmt)
    ensures AboveMax(t, value) ==> ms[|ms| - 1] == AboveMessage(name, value, t.maxValue.value, fmt)
  {
    (if BelowMin(t, value) then [BelowMessage(name, value, t.minValue.value, fmt)] else []) +
    (if AboveMax(t, value) then [AboveMessage(name, value, t.maxValue.value, fmt)] else [])
  }

  /** The check reports nothing exactly when the reading is in range. */
  lemma MessagesInRange(t: Threshold, name: string, value: real, fmt: real -> string)
    ensures Messages(t, name, value, fmt) == [] <==> InRange(t, value)
  {
    var ms := Messages(t, name, value, fmt);
    assert |ms| == 0 <==> !BelowMin(t, value) && !AboveMax(t, value);
  }

  /** With the minimum above the maximum, a reading between them breaks both bounds. */
  lemma CrossedBoundsBothMessages(t: Threshold, name: string, value: real, fmt: real -> string)
    requires t.minValue.Some? && t.maxValue.Some? && t.maxValue.value < value < t.minValue.value
    ensures Messages(t, name, value, fmt) ==
            [BelowMessage(name, value, t.minValue.value, fmt), AboveMessage(name, value, t.maxValue.value, fmt)]
  {
  }

  /** What `record_kpi` stores as the reading. */
  datatype Reading = Reading(timestamp: string, metricName: string, value: real, unit: string, source: string)

  datatype KpiResult = KpiResult(reading: Reading, alertsTriggered: nat, alertDecisions: seq<string>)

  function KpiMetadata(unit: string, source: string, timestamp: string): Payload {
    map["unit" := Str(unit), "source" := Str(source), "timestamp" := Str(timestamp)]
  }

  function AlertPayload(name: string, value: real, unit: string, reason: string, timestamp: string): Payload {
    map["metric_name" := Str(name), "value" := Num(value), "unit" := Str(unit), "reason" := Str(reason),
        "timestamp" := Str(timestamp)]
  }

  class KpiEngine {
    var thresholds: Dict<string, Threshold>

    constructor()
      ensures thresholds == []
    {
      thresholds := [];
    }

    /** `register_threshold`: stored under its name, replacing an earlier one in place. */
    method RegisterThreshold(t: Threshold)
      modifies this
      ensures thresholds == Put(old(thresholds), t.name, t)
      ensures Get(thresholds, t.name) == Some(t)
      ensures forall n :: n != t.name ==> Get(thresholds, n) == Get(old(thresholds), n)
    {
      forall n ensures Get(Put(thresholds, t.name, t), n) == if n == t.name then Some(t) else Get(thresholds, n) {
        PutGet(thresholds, t.name, t, n);
      }
      thresholds := Put(thresholds, t.name, t);
    }

    /** `register_many`: the thresholds registered in list order. */
    method RegisterMany(ts: seq<Threshold>)
      modifies this
      ensures thresholds == RegisterAll(old(thresholds), ts)
    {
      var k := 0;
      while k < |ts|
        invariant 0 <= k <= |ts|
        invariant thresholds == RegisterAll(old(thresholds), ts[..k])
      {
        assert ts[..k + 1][..k] == ts[..k];
        RegisterThreshold(ts[k]);
        k := k + 1;
      }
      assert ts[..k] == ts;
    }

    /**
     * `record_kpi`: the reading is journalled first; with no threshold for the
     * metric, or a reading in range, nothing else happens; otherwise exactly one
     * `kpi_alert` event goes to the CEO, whose answer `response` becomes the
     * single alert decision.
     */
    method RecordKpi(ceo: AgenticCeo.Ceo, metricName: string, value: real, unit: string, source: string,
                     timestamp: string, fmt: real -> string, response: string, usage: Option<map<string, int>>)
        returns (res: KpiResult)
      requires ceo.Valid()
      modifies ceo.state, ceo.memory
      ensures ceo.Valid()
      ensures res.reading == Reading(timestamp, metricName, value, unit, source)
      ensures ceo.memory.kpis == old(ceo.memory.kpis) + [KpiEntry(metricName, value, KpiMetadata(unit, source, timestamp))]
      ensures res.alertsTriggered == |res.alertDecisions| <= 1
      ensures res.alertsTriggered == 1 <==>
                Get(thresholds, metricName).Some? && !InRange(Get(thresholds, metricName).value, value)
      ensures res.alertsTriggered == 0 ==>
                ceo.memory.events == old(ceo.memory.events) && ceo.memory.decisions == old(ceo.memory.decisions) &&
                ceo.memory.tokenUsage == old(ceo.memory.tokenUsage) &&
                ceo.state.tasks == old(ceo.state.tasks) && ceo.state.nextId == old(ceo.state.nextId)
      ensures res.alertsTriggered == 1 ==>
                var reason := Join(" ", Messages(Get(thresholds, metricName).value, metricName, value, fmt));
                ceo.memory.events == old(ceo.memory.events) +
                  [EventEntry("kpi_alert", AlertPayload(metricName, value, unit, reason, timestamp))] &&
                res.alertDecisions ==
                  ["KPI Alert: " + metricName + " value " + fmt(value) + ". " + reason + "\n" + response]
      ensures res.alertsTriggered == 1 ==>
                ceo.state.tasks == old(ceo.state.tasks) +
                  AgenticCeo.ToTasks(AgenticCeo.ParseText(response, "kpi_alert"), old(ceo.state.nextId), ceo.state.date) &&
                ceo.memory.decisions == old(ceo.memory.decisions) +
                  [DecisionEntry("Handled event " + "kpi_alert" + ":\n" + response,
                                 map["type" := Str("event_decision"), "event_type" := Str("kpi_alert")])] &&
                ceo.memory.tokenUsage == old(ceo.memory.tokenUsage) +
                  (if usage.Some? then [TokenUsageEntry("event_decision", usage.value)] else [])
      ensures ceo.memory.toolCalls == old(ceo.memory.toolCalls) && ceo.memory.reflections == old(ceo.memory.reflections)
    {
      var reading := Reading(timestamp, metricName, value, unit, source);
      ceo.memory.RecordKpi(metricName, value, KpiMetadata(unit, source, timestamp));
      var found := Get(thresholds, metricName);
      if found.None? {
        return KpiResult(reading, 0, []);
      }
      var t := found.value;
      var messages: seq<string> := [];
      var outOfRange := false;
      if t.minValue.Some? && value < t.minValue.value {
        messages := messages + [BelowMessage(metricName, value, t.minValue.value, fmt)];
        outOfRange := true;
      }
      if t.maxValue.Some? && value > t.maxValue.value {
        messages := messages + [AboveMessage(metricName, value, t.maxValue.value, fmt)];
        outOfRange := true;
      }
      assert messages == Messages(t, metricName, value, fmt);
      MessagesInRange(t, metricName, value, fmt);
      if !outOfRange {
        return KpiResult(reading, 0, []);
      }
      var reason := Join(" ", messages);
      var event := AgenticCeo.Event("kpi_alert", AlertPayload(metricName, value, unit, reason, timestamp));
      ghost var kpis1, toolCalls1, reflections1 := ceo.memory.kpis, ceo.memory.toolCalls, ceo.memory.reflections;
      var decision := ceo.IngestEvent(event, response, usage);
      assert ceo.memory.kpis == kpis1 && ceo.memory.toolCalls == toolCalls1 && ceo.memory.reflections == reflections1;
      res := KpiResult(reading, 1, ["KPI Alert: " + metricName + " value " + fmt(value) + ". " + reason + "\n" + decision]);
    }
  }
}
