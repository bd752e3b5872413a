/**
 * The journal the engine writes to: one append-only list per category
 * (decisions, events, tool calls, reflections, KPI readings, token usage)
 * and the day summary that counts them.
 */
module Memory {
  import opened Text
  import OrderedDict

  /** The JSON-like values that journal payloads and contexts hold. */
  datatype Value =
    | Str(s: string)
    | Num(r: real)
    | Int(i: int)
    | Bool(b: bool)
    | Null
    | List(items: seq<Value>)
    | Dict(entries: map<string, Value>)

  type Payload = map<string, Value>

  datatype EventEntry = EventEntry(eventType: string, payload: Payload)
  datatype DecisionEntry = DecisionEntry(text: string, context: Payload)
  datatype ToolCallEntry = ToolCallEntry(tool: string, payload: Payload, result: Payload)
  datatype ReflectionEntry = ReflectionEntry(text: string)
  datatype KpiEntry = KpiEntry(metricName: string, value: real, metadata: Payload)
  /** One LLM call's usage counters, keyed as the client reports them (`total_tokens`, ...). */
  datatype TokenUsageEntry = TokenUsageEntry(stage: string, usage: map<string, int>)

  /** The counts a day summary reports. */
  datatype DaySummary = DaySummary(
    decisions: nat,
    toolCalls: nat,
    kpiUpdates: nat,
    events: nat,
    llmCalls: nat,
    totalTokens: int)

  /** The `total_tokens` counter of one usage entry, 0 when the client did not report it. */
  function EntryTokens(e: TokenUsageEntry): int {
    if "total_tokens" in e.usage then e.usage["total_tokens"] else 0
  }

  /** The tokens of all recorded LLM calls. */
  function TotalTokens(entries: seq<TokenUsageEntry>): int {
    if |entries| == 0 then 0 else TotalTokens(entries[..|entries| - 1]) + EntryTokens(entries[|entries| - 1])
  }

  /** Recording one more call adds exactly that call's tokens. */
  lemma TotalTokensAppend(entries: seq<TokenUsageEntry>, e: TokenUsageEntry)
    ensures TotalTokens(entries + [e]) == TotalTokens(entries) + EntryTokens(e)
  {
    assert (entries + [e])[..|entries|] == entries;
  }

  /** Calls that report no `total_tokens` contribute nothing. */
  lemma {:induction false} TotalTokensWithoutCounters(entries: seq<TokenUsageEntry>)
    requires forall k :: 0 <= k < |entries| ==> "total_tokens" !in entries[k].usage
    ensures TotalTokens(entries) == 0
  {
    if |entries| > 0 {
      TotalTokensWithoutCounters(entries[..|entries| - 1]);
    }
  }

  /** The header line of a day summary; the date only ever appears here. */
  function SummaryHeader(date: string): string {
    "Reflection for " + date + ":\n"
  }

  /** One line `- <marker> <number>` of a day summary. */
  function CountLine(marker: string, digits: string): string {
    "- " + marker + " " + digits + "\n"
  }

  /** The count lines of a day summary. */
  function SummaryBody(s: DaySummary): string {
    CountLine("Decisions made:", NatToString(s.decisions)) +
    CountLine("Tool calls executed:", NatToString(s.toolCalls)) +
    CountLine("KPI updates recorded:", NatToString(s.kpiUpdates)) +
    CountLine("Events processed:", NatToString(s.events)) +
    CountLine("LLM calls today:", NatToString(s.llmCalls)) +
    CountLine("Total tokens used today:", IntToString(s.totalTokens))
  }

  /** The text `summarize_day` returns. */
  function SummaryText(date: string, s: DaySummary): string {
    SummaryHeader(date) + SummaryBody(s)
  }

  /** Two summaries of the same journal differ only in their header line. */
  lemma SummaryDateOnlyInHeader(d1: string, d2: string, s: DaySummary)
    ensures SummaryText(d1, s)[|SummaryHeader(d1)|..] == SummaryText(d2, s)[|SummaryHeader(d2)|..]
  {
    assert SummaryText(d1, s)[|SummaryHeader(d1)|..] == SummaryBody(s);
    assert SummaryText(d2, s)[|SummaryHeader(d2)|..] == SummaryBody(s);
  }

  class MemoryEngine {
    var events: seq<EventEntry>
    var decisions: seq<DecisionEntry>
    var toolCalls: seq<ToolCallEntry>
    var reflections: seq<ReflectionEntry>
    var kpis: seq<KpiEntry>
    var tokenUsage: seq<TokenUsageEntry>

    /** A journal with nothing recorded yet (no journal file on disk). */
    constructor()
      ensures events == [] && decisions == [] && toolCalls == []
      ensures reflections == [] && kpis == [] && tokenUsage == []
    {
      events, decisions, toolCalls := [], [], [];
      reflections, kpis, tokenUsage := [], [], [];
    }

    method RecordEvent(eventType: string, payload: Payload)
      modifies this
      ensures events == old(events) + [EventEntry(eventType, payload)]
      ensures decisions == old(decisions) && toolCalls == old(toolCalls)
      ensures reflections == old(reflections) && kpis == old(kpis) && tokenUsage == old(tokenUsage)
    {
      events := events + [EventEntry(eventType, payload)];
    }

    method RecordDecision(text: string, context: Payload)
      modifies this
      ensures decisions == old(decisions) + [DecisionEntry(text, context)]
      ensures events == old(events) && toolCalls == old(toolCalls)
      ensures reflections == old(reflections) && kpis == old(kpis) && tokenUsage == old(tokenUsage)
    {
      decisions := decisions + [DecisionEntry(text, context)];
    }

    method RecordToolCall(tool: string, payload: Payload, result: Payload)
      modifies this
      ensures toolCalls == old(toolCalls) + [ToolCallEntry(tool, payload, result)]
      ensures events == old(events) && decisions == old(decisions)
      ensures reflections == old(reflections) && kpis == old(kpis) && tokenUsage == old(tokenUsage)
    {
      toolCalls := toolCalls + [ToolCallEntry(tool, payload, result)];
    }

    /** Recording a reflection leaves every day summary as it was. */
    method RecordReflection(text: string)
      modifies this
      ensures reflections == old(reflections) + [ReflectionEntry(text)]
      ensures events == old(events) && decisions == old(decisions) && toolCalls == old(toolCalls)
      ensures kpis == old(kpis) && tokenUsage == old(tokenUsage)
      ensures Summarize() == old(Summarize())
    {
      reflections := reflections + [ReflectionEntry(text)];
    }

    /** `metadata` defaults to the empty dictionary when the caller passes none. */
    method RecordKpi(metricName: string, value: real, metadata: Payload)
      modifies this
      ensures kpis == old(kpis) + [KpiEntry(metricName, value, metadata)]
      ensures events == old(events) && decisions == old(decisions) && toolCalls == old(toolCalls)
      ensures reflections == old(reflections) && tokenUsage == old(tokenUsage)
    {
      kpis := kpis + [KpiEntry(metricName, value, metadata)];
    }

    method RecordTokenUsage(stage: string, usage: map<string, int>)
      modifies this
      ensures tokenUsage == old(tokenUsage) + [TokenUsageEntry(stage, usage)]
      ensures events == old(events) && decisions == old(decisions) && toolCalls == old(toolCalls)
      ensures reflections == old(reflections) && kpis == old(kpis)
      ensures Summarize().llmCalls == old(Summarize().llmCalls) + 1
      ensures Summarize().totalTokens == old(Summarize().totalTokens) + EntryTokens(TokenUsageEntry(stage, usage))
    {
      TotalTokensAppend(tokenUsage, TokenUsageEntry(stage, usage));
      tokenUsage := tokenUsage + [TokenUsageEntry(stage, usage)];
    }

    /** The counts `summarize_day` prints: every entry, whatever its date. */
    function Summarize(): (s: DaySummary)
      reads this
      ensures s.decisions == |decisions| && s.toolCalls == |toolCalls| && s.kpiUpdates == |kpis|
      ensures s.events == |events| && s.llmCalls == |tokenUsage|
      ensures s.totalTokens == TotalTokens(tokenUsage)
    {
      DaySummary(|decisions|, |toolCalls|, |kpis|, |events|, |tokenUsage|, TotalTokens(tokenUsage))
    }

    /** `summarize_day(date)`. */
    function SummarizeDay(date: string): string
      reads this
    {
      SummaryText(date, Summarize())
    }
  }
}
