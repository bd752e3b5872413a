/**
 * The Agentic CEO engine: the parser that turns an LLM's free text into task
 * records, the tool registry, the example logging tool, and the task runner.
 * The LLM itself is outside the model: its answer (and, when the client
 * reports one, its token usage) arrives as a parameter.
 */
module AgenticCeo {
  import opened Wrappers
  import opened Text
  import opened Memory

  // ---------------------------------------------------------------------
  // Records
  // ---------------------------------------------------------------------

  /**
   * A task record. `area`, `suggestedOwner` and `priority` are the fields the
   * task manager reads; "" and 0 stand for "not set" (all three are falsy in
   * Python). `status` is a free string ("todo", "in-progress", "done", ...).
   */
  datatype Task = Task(
    id: nat,
    title: string,
    description: string,
    owner: string,
    dueDate: string,
    status: string,
    suggestedTool: Option<string>,
    toolInput: map<string, string>,
    area: string,
    suggestedOwner: string,
    priority: int)

  /** What the parser extracts from one numbered line, before an id is assigned. */
  datatype Draft = Draft(title: string, description: string, suggestedTool: string, toolInput: map<string, string>)

  /** An event the engine reacts to (e.g. "daily_check_in", "kpi_alert"). */
  datatype Event = Event(eventType: string, payload: Payload)

  datatype CompanyProfile = CompanyProfile(
    name: string,
    industry: string,
    vision: string,
    mission: string,
    northStarMetric: string,
    primaryMarkets: seq<string>,
    productsOrServices: seq<string>,
    teamSize: int,
    website: Option<string>)

  const DefaultOwner := "Agentic CEO"
  const EnDash: char := '\U{2013}'

  // ---------------------------------------------------------------------
  // The plan-text parser
  // ---------------------------------------------------------------------

  /** A line that switches the parser into the task section. */
  predicate IsHeading(line: string) {
    StartsWith(Upper(Strip(line)), "TASKS")
  }

  /** A stripped line that is a numbered item: longer than two, a digit, then a period. */
  predicate IsItem(stripped: string) {
    |stripped| > 2 && IsDigit(stripped[0]) && stripped[1] == '.'
  }

  /** An item line never reads as a heading, so the parser never has to choose. */
  lemma ItemIsNotHeading(line: string)
    requires IsItem(Strip(line))
    ensures !IsHeading(line)
  {
    assert Upper(Strip(line))[0] == UpperChar(Strip(line)[0]);
  }

  /**
   * Title and description of an item's content: split at the first en dash,
   * else at the first hyphen; without either both are the whole content.
   */
  function SplitTitle(content: string): (string, string) {
    var parts := match SplitOnce(content, EnDash)
      case Some(p) => Some(p)
      case None => SplitOnce(content, '-');
    match parts
    case Some(p) => (Strip(p.0), Strip(p.1))
    case None => (Strip(content), Strip(content))
  }

  /** The split is at the first en dash, else at the first hyphen, else there is none. */
  lemma SplitTitleMeaning(content: string)
    ensures EnDash in content ==>
      exists a, b :: content == a + [EnDash] + b && EnDash !in a && SplitTitle(content) == (Strip(a), Strip(b))
    ensures EnDash !in content && '-' in content ==>
      exists a, b :: content == a + ['-'] + b && '-' !in a && SplitTitle(content) == (Strip(a), Strip(b))
    ensures EnDash !in content && '-' !in content ==> SplitTitle(content) == (Strip(content), Strip(content))
  {
    if EnDash in content {
      var p := SplitOnce(content, EnDash).value;
      assert content == p.0 + [EnDash] + p.1 && EnDash !in p.0 && SplitTitle(content) == (Strip(p.0), Strip(p.1));
    } else if '-' in content {
      var p := SplitOnce(content, '-').value;
      assert content == p.0 + ['-'] + p.1 && '-' !in p.0 && SplitTitle(content) == (Strip(p.0), Strip(p.1));
    }
  }

  /**
   * The seeded tool: Slack when the title asks to message or notify the team, else the log tool.
   * (The ensures only exposes the split to callers, as a proof hint for `DraftTitleRule`;
   * what the split means is stated there and in `SplitTitleMeaning`.)
   */
  function DraftOf(stripped: string, eventType: string): (d: Draft)
    requires IsItem(stripped)
    ensures (d.title, d.description) == SplitTitle(Strip(stripped[2..]))
  {
    var (title, desc) := SplitTitle(Strip(stripped[2..]));
    var lowerTitle := Lower(title);
    if Contains(lowerTitle, "message the team") || Contains(lowerTitle, "notify the team") then
      Draft(title, desc, "slack_tool", map["message" := "[Agentic CEO] " + desc])
    else
      Draft(title, desc, "log_tool", map["message" := "[From event " + eventType + "] " + desc])
  }

  /**
   * The draft of an item line: its content is the text after `<digit>.`, stripped,
   * and title and description are that content cut at its first en dash, else at
   * its first hyphen, each stripped; with neither, both are the whole content.
   */
  lemma DraftTitleRule(stripped: string, eventType: string)
    requires IsItem(stripped)
    ensures var content := Strip(stripped[2..]); var d := DraftOf(stripped, eventType);
      (EnDash in content ==>
        exists a, b :: content == a + [EnDash] + b && EnDash !in a && d.title == Strip(a) && d.description == Strip(b)) &&
      (EnDash !in content && '-' in content ==>
        exists a, b :: content == a + ['-'] + b && '-' !in a && d.title == Strip(a) && d.description == Strip(b)) &&
      (EnDash !in content && '-' !in content ==> d.title == content && d.description == content)
  {
    var content := Strip(stripped[2..]);
    SplitTitleMeaning(content);
    StripIdempotent(stripped[2..]);
  }

  /** `suggested_tool` is `slack_tool`, with its message, iff the title asks to message or notify the team. */
  lemma SuggestedToolRule(stripped: string, eventType: string)
    requires IsItem(stripped)
    ensures var d := DraftOf(stripped, eventType);
      var notify := Contains(Lower(d.title), "message the team") || Contains(Lower(d.title), "notify the team");
      (d.suggestedTool == "slack_tool" <==> notify) &&
      (notify ==> d.toolInput == map["message" := "[Agentic CEO] " + d.description]) &&
      (!notify ==> d.suggestedTool == "log_tool" &&
                   d.toolInput == map["message" := "[From event " + eventType + "] " + d.description])
  {
  }

  /** Content with no separator gives a description equal to the title. */
  lemma NoSeparatorDuplicatesTitle(stripped: string, eventType: string)
    requires IsItem(stripped)
    requires EnDash !in stripped[2..] && '-' !in stripped[2..]
    ensures DraftOf(stripped, eventType).description == DraftOf(stripped, eventType).title
  {
    var content := Strip(stripped[2..]);
    forall c | c in content ensures c != EnDash && c != '-' {
      StripInfix(stripped[2..], c);
    }
    SplitTitleMeaning(content);
  }

  /** Every character of a stripped string occurs in the original. */
  lemma StripInfix(s: string, c: char)
    requires c in Strip(s)
    ensures c in s
  {
    var l := TrimLeft(s, IsSpace);
    var r := TrimRight(l, IsSpace);
    var k :| 0 <= k < |r| && r[k] == c;
    assert l[k] == c;
    assert s[|s| - |l| + k] == c;
  }

  /** The drafts one line contributes once the parser is inside the task section. */
  function LineDrafts(line: string, eventType: string): seq<Draft> {
    if IsItem(Strip(line)) then [DraftOf(Strip(line), eventType)] else []
  }

  /** `f` applied to every element, the results concatenated in order. */
  function FlatMap<T, U>(xs: seq<T>, f: T -> seq<U>): seq<U> {
    if |xs| == 0 then [] else FlatMap(xs[..|xs| - 1], f) + f(xs[|xs| - 1])
  }

  lemma {:induction false} FlatMapConcat<T, U>(a: seq<T>, b: seq<T>, f: T -> seq<U>)
    ensures FlatMap(a + b, f) == FlatMap(a, f) + FlatMap(b, f)
  {
    if |b| > 0 {
      assert (a + b)[..|a + b| - 1] == a + b[..|b| - 1];
      FlatMapConcat(a, b[..|b| - 1], f);
    } else {
      assert a + b == a;
    }
  }

  /** The index of the first element satisfying `p`, if any. */
  function FirstWhere<T>(xs: seq<T>, p: T -> bool): (r: Option<nat>)
    ensures r.Some? ==> r.value < |xs|
  {
    if |xs| == 0 then None
    else match FirstWhere(xs[..|xs| - 1], p)
      case Some(k) => Some(k)
      case None => if p(xs[|xs| - 1]) then Some(|xs| - 1) else None
  }

  /** `FirstWhere` finds nothing exactly when no element satisfies `p`, and otherwise the first one that does. */
  lemma {:induction false} FirstWhereMeaning<T>(xs: seq<T>, p: T -> bool)
    ensures FirstWhere(xs, p).None? <==> forall j :: 0 <= j < |xs| ==> !p(xs[j])
    ensures FirstWhere(xs, p).Some? ==>
              var k := FirstWhere(xs, p).value; p(xs[k]) && forall j :: 0 <= j < k ==> !p(xs[j])
  {
    if |xs| > 0 {
      var init := xs[..|xs| - 1];
      FirstWhereMeaning(init, p);
      assert forall j :: 0 <= j < |init| ==> init[j] == xs[j];
    }
  }

  lemma FirstWhereSnoc<T>(xs: seq<T>, x: T, p: T -> bool)
    ensures FirstWhere(xs + [x], p) ==
      if FirstWhere(xs, p).Some? then FirstWhere(xs, p) else if p(x) then Some(|xs|) else None
  {
    assert (xs + [x])[..|xs|] == xs;
  }

  function LineDraftsFor(eventType: string): string -> seq<Draft> {
    line => LineDrafts(line, eventType)
  }

  /** The drafts of a run of lines inside the task section, in line order. */
  function Drafts(lines: seq<string>, eventType: string): seq<Draft> {
    FlatMap(lines, LineDraftsFor(eventType))
  }

  /** Parsing a run of lines is parsing its two halves one after the other. */
  lemma DraftsConcat(a: seq<string>, b: seq<string>, eventType: string)
    ensures Drafts(a + b, eventType) == Drafts(a, eventType) + Drafts(b, eventType)
  {
    FlatMapConcat(a, b, LineDraftsFor(eventType));
  }

  /** One more line inside the task section adds that line's drafts at the end. */
  lemma DraftsSnoc(a: seq<string>, line: string, eventType: string)
    ensures Drafts(a + [line], eventType) == Drafts(a, eventType) + LineDrafts(line, eventType)
  {
    assert (a + [line])[..|a|] == a;
  }

  /** A blank, non-numbered or heading line inside the task section contributes nothing. */
  lemma NonItemIgnored(a: seq<string>, line: string, b: seq<string>, eventType: string)
    requires !IsItem(Strip(line))
    ensures Drafts(a + [line] + b, eventType) == Drafts(a, eventType) + Drafts(b, eventType)
  {
    DraftsConcat(a + [line], b, eventType);
    DraftsSnoc(a, line, eventType);
  }

  /** `10. X` is not an item: the second character is not a period. */
  lemma MultiDigitNumberDropped(line: string, eventType: string)
    requires |Strip(line)| >= 2 && IsDigit(Strip(line)[0]) && IsDigit(Strip(line)[1])
    ensures LineDrafts(line, eventType) == []
  {
  }

  /** The index of the first heading line, if any. */
  function FirstHeading(lines: seq<string>): (r: Option<nat>)
    ensures r.Some? ==> r.value < |lines|
  {
    FirstWhere(lines, IsHeading)
  }

  /** `f` over the elements after the first one satisfying `p`; nothing when none does. */
  function Section<T, U>(xs: seq<T>, p: T -> bool, f: T -> seq<U>): seq<U> {
    match FirstWhere(xs, p)
    case None => []
    case Some(k) => FlatMap(xs[k + 1..], f)
  }

  lemma SectionSnoc<T, U>(xs: seq<T>, x: T, p: T -> bool, f: T -> seq<U>)
    ensures Section(xs + [x], p, f) == if FirstWhere(xs, p).Some? then Section(xs, p, f) + f(x) else []
  {
    FirstWhereSnoc(xs, x, p);
    if FirstWhere(xs, p).Some? {
      SectionSnocFound(xs, x, p, f);
    } else if p(x) {
      assert (xs + [x])[|xs| + 1..] == [];
    }
  }

  lemma SectionSnocFound<T, U>(xs: seq<T>, x: T, p: T -> bool, f: T -> seq<U>)
    requires FirstWhere(xs, p).Some? && FirstWhere(xs + [x], p) == FirstWhere(xs, p)
    ensures Section(xs + [x], p, f) == Section(xs, p, f) + f(x)
  {
    var k := FirstWhere(xs, p).value;
    SectionAt(xs, p, f, k);
    SectionAt(xs + [x], p, f, k);
    FlatMapSuffixSnoc(xs, x, k, f);
  }

  lemma FlatMapSuffixSnoc<T, U>(xs: seq<T>, x: T, k: nat, f: T -> seq<U>)
    requires k < |xs|
    ensures FlatMap((xs + [x])[k + 1..], f) == FlatMap(xs[k + 1..], f) + f(x)
  {
    var tail := xs[k + 1..];
    assert (xs + [x])[k + 1..] == tail + [x];
    FlatMapSnoc(tail, x, f);
  }

  lemma SectionAt<T, U>(xs: seq<T>, p: T -> bool, f: T -> seq<U>, k: nat)
    requires FirstWhere(xs, p) == Some(k)
    ensures Section(xs, p, f) == FlatMap(xs[k + 1..], f)
  {
    assert FirstWhere(xs, p).value == k;
  }

  lemma FlatMapSnoc<T, U>(xs: seq<T>, x: T, f: T -> seq<U>)
    ensures FlatMap(xs + [x], f) == FlatMap(xs, f) + f(x)
  {
    assert (xs + [x])[..|xs|] == xs;
  }

  /** What the parser yields for a list of lines: the items after the first heading. */
  function ParseLines(lines: seq<string>, eventType: string): seq<Draft> {
    Section(lines, IsHeading, LineDraftsFor(eventType))
  }

  /** What `_parse_tasks` yields for a text. */
  function ParseText(text: string, eventType: string): seq<Draft> {
    ParseLines(Lines(text), eventType)
  }

  /** Text with no heading line yields no task, and no error. */
  lemma NoHeadingNoTasks(text: string, eventType: string)
    requires forall line :: line in Lines(text) ==> !IsHeading(line)
    ensures ParseText(text, eventType) == []
  {
    var lines := Lines(text);
    FirstWhereMeaning(lines, IsHeading);
    assert forall j :: 0 <= j < |lines| ==> lines[j] in lines;
  }

  /** Whatever precedes the first heading, numbered or not, is ignored. */
  lemma BeforeHeadingIgnored(before: seq<string>, heading: string, after: seq<string>, eventType: string)
    requires forall j :: 0 <= j < |before| ==> !IsHeading(before[j])
    requires IsHeading(heading)
    ensures ParseLines(before + [heading] + after, eventType) == Drafts(after, eventType)
  {
    SectionAfterFirst(before, heading, after, IsHeading, LineDraftsFor(eventType));
  }

  /** The section is everything after the first element satisfying `p`. */
  lemma SectionAfterFirst<T, U>(before: seq<T>, x: T, after: seq<T>, p: T -> bool, f: T -> seq<U>)
    requires forall j :: 0 <= j < |before| ==> !p(before[j])
    requires p(x)
    ensures Section(before + [x] + after, p, f) == FlatMap(after, f)
  {
    var xs := before + [x] + after;
    FirstWhereMeaning(xs, p);
    assert xs[|before|] == x;
    assert forall j :: 0 <= j < |before| ==> xs[j] == before[j];
    assert xs[|before| + 1..] == after;
  }

  /** One more line: before the first heading nothing is collected, after it the line's drafts. */
  lemma ParseLinesSnoc(ls: seq<string>, line: string, eventType: string)
    ensures FirstHeading(ls + [line]).Some? <==> FirstHeading(ls).Some? || IsHeading(line)
    ensures ParseLines(ls + [line], eventType) ==
      if FirstHeading(ls).Some? then ParseLines(ls, eventType) + LineDrafts(line, eventType) else []
  {
    FirstWhereSnoc(ls, line, IsHeading);
    SectionSnoc(ls, line, IsHeading, LineDraftsFor(eventType));
  }

  /** The parser's step for one line: only an item after the first heading adds a draft. */
  lemma ParseLinesStep(ls: seq<string>, line: string, eventType: string)
    ensures FirstHeading(ls + [line]).Some? <==> FirstHeading(ls).Some? || IsHeading(line)
    ensures ParseLines(ls + [line], eventType) ==
      if FirstHeading(ls).Some? && !IsHeading(line) && IsItem(Strip(line))
      then ParseLines(ls, eventType) + [DraftOf(Strip(line), eventType)]
      else ParseLines(ls, eventType)
  {
    ParseLinesSnoc(ls, line, eventType);
    if IsItem(Strip(line)) {
      ItemIsNotHeading(line);
    }
  }

  /** The parser's step at line `i` of a list of lines. */
  lemma ParseLinesAt(lines: seq<string>, i: nat, eventType: string)
    requires i < |lines|
    ensures FirstHeading(lines[..i + 1]).Some? <==> FirstHeading(lines[..i]).Some? || IsHeading(lines[i])
    ensures ParseLines(lines[..i + 1], eventType) ==
      if FirstHeading(lines[..i]).Some? && !IsHeading(lines[i]) && IsItem(Strip(lines[i]))
      then ParseLines(lines[..i], eventType) + [DraftOf(Strip(lines[i]), eventType)]
      else ParseLines(lines[..i], eventType)
  {
    assert lines[..i + 1] == lines[..i] + [lines[i]];
    ParseLinesStep(lines[..i], lines[i], eventType);
  }

  /** `_parse_tasks`: one pass over the lines with an `in_tasks` flag. */
  method ParseTasks(text: string, eventType: string) returns (drafts: seq<Draft>)
    ensures drafts == ParseText(text, eventType)
  {
    var lines := Lines(text);
    var inTasks := false;
    drafts := [];
    var i := 0;
    while i < |lines|
      invariant 0 <= i <= |lines|
      invariant inTasks <==> FirstHeading(lines[..i]).Some?
      invariant drafts == ParseLines(lines[..i], eventType)
    {
      var stripped := Strip(lines[i]);
      ParseLinesAt(lines, i, eventType);
      if IsHeading(lines[i]) {
        inTasks := true;
      } else if inTasks && IsItem(stripped) {
        drafts := drafts + [DraftOf(stripped, eventType)];
      }
      i := i + 1;
    }
    assert lines[..i] == lines;
  }

  // ---------------------------------------------------------------------
  // Turning drafts into tasks
  // ---------------------------------------------------------------------

  /** The task record `_parse_tasks` builds for a draft, with a fresh id and today's due date. */
  function ToTask(d: Draft, id: nat, date: string): Task {
    Task(id, d.title, d.description, DefaultOwner, date, "todo", Some(d.suggestedTool), d.toolInput, "", "", 0)
  }

  /** The tasks for a list of drafts, numbered from `firstId` on. */
  function ToTasks(ds: seq<Draft>, firstId: nat, date: string): (ts: seq<Task>)
    ensures |ts| == |ds|
    ensures forall k :: 0 <= k < |ds| ==>
      ts[k].id == firstId + k && ts[k].title == ds[k].title && ts[k].description == ds[k].description &&
      ts[k].owner == DefaultOwner && ts[k].status == "todo" && ts[k].dueDate == date &&
      ts[k].suggestedTool == Some(ds[k].suggestedTool) && ts[k].toolInput == ds[k].toolInput
  {
    if |ds| == 0 then [] else [ToTask(ds[0], firstId, date)] + ToTasks(ds[1..], firstId + 1, date)
  }

  // ---------------------------------------------------------------------
  // State and tools
  // ---------------------------------------------------------------------

  /** Ids are distinct and below the next id to hand out. */
  ghost predicate FreshIds(tasks: seq<Task>, nextId: nat) {
    (forall k :: 0 <= k < |tasks| ==> tasks[k].id < nextId) &&
    (forall j, k :: 0 <= j < k < |tasks| ==> tasks[j].id != tasks[k].id)
  }

  /** The CEO state shared by the engine, the task manager and the orchestrator. */
  class CeoState {
    var tasks: seq<Task>
    /** The id the next new task receives (in place of a random uuid). */
    var nextId: nat
    const date: string
    /** Set once when the CEO is built; no operation of the core changes it. */
    const focusTheme: string

    ghost predicate Valid()
      reads this
    {
      FreshIds(tasks, nextId)
    }

    constructor(date: string, focusTheme: string)
      ensures Valid() && tasks == [] && nextId == 0
      ensures this.date == date && this.focusTheme == focusTheme
    {
      this.date := date;
      this.focusTheme := focusTheme;
      tasks := [];
      nextId := 0;
    }

    /** `state.tasks.extend(...)` with freshly numbered tasks for `ds`. */
    method AddDrafts(ds: seq<Draft>)
      requires Valid()
      modifies this
      ensures Valid()
      ensures tasks == old(tasks) + ToTasks(ds, old(nextId), date)
      ensures nextId == old(nextId) + |ds|
    {
      var added := ToTasks(ds, nextId, date);
      tasks := tasks + added;
      nextId := nextId + |ds|;
    }
  }

  /** The line the log tool writes for a payload. */
  function LogLine(payload: map<string, string>, timestamp: string): string {
    "[" + timestamp + "] " + (if "message" in payload then payload["message"] else "")
  }

  /** The example tool: every run appends one timestamped line to its sink. */
  class LogTool {
    const name: string := "log_tool"
    var sink: seq<string>

    constructor()
      ensures sink == []
    {
      sink := [];
    }

    /** `run`: the message (empty when the payload has none) after a timestamp. */
    method Run(payload: map<string, string>, timestamp: string) returns (entry: string)
      modifies this
      ensures entry == "[" + timestamp + "] " + (if "message" in payload then payload["message"] else "")
      ensures sink == old(sink) + [entry]
    {
      var message := if "message" in payload then payload["message"] else "";
      entry := "[" + timestamp + "] " + message;
      sink := sink + [entry];
    }
  }

  /** What `run_task` returns: the status, the tool that ran (or none) and its result. */
  datatype RunResult = RunResult(status: string, tool: Option<string>, result: Payload)

  function AsPayload(m: map<string, string>): Payload {
    map k | k in m :: Str(m[k])
  }

  /** The payload `run_task` hands the tool: the task's own input, else its description or title. */
  function ToolPayload(t: Task): map<string, string> {
    if |t.toolInput| > 0 then t.toolInput
    else map["message" := if |t.description| > 0 then t.description else t.title]
  }

  /** Whether `run_task` finds a registered tool for the task. */
  predicate HasTool(t: Task, tools: set<string>) {
    t.suggestedTool.Some? && |t.suggestedTool.value| > 0 && t.suggestedTool.value in tools
  }

  /** The tool-call record `run_task` leaves when the task's tool runs. */
  function ToolCallOf(t: Task, timestamp: string): ToolCallEntry {
    var payload := ToolPayload(t);
    ToolCallEntry("log_tool", AsPayload(payload), map["ok" := Bool(true), "logged" := Str(LogLine(payload, timestamp))])
  }

  /** The decision `run_task` records when the task is completed by hand. */
  function ManualDecisionOf(t: Task): DecisionEntry {
    DecisionEntry("Task completed manually: " + t.title, map["type" := Str("manual_task")])
  }

  /**
   * What one `run_task` of `t` appends to the sink of `tool`: the logged line
   * when the task's tool is that very object (two names may share one tool).
   */
  function SinkLine(t: Task, tools: map<string, LogTool>, tool: LogTool, timestamp: string): seq<string> {
    if HasTool(t, tools.Keys) && tools[t.suggestedTool.value] == tool then [LogLine(ToolPayload(t), timestamp)] else []
  }

  class Ceo {
    const company: CompanyProfile
    const state: CeoState
    const memory: MemoryEngine
    var tools: map<string, LogTool>

    ghost predicate Valid()
      reads this, state
    {
      state.Valid()
    }

    /** `tools or {}`: the given table, or an empty one when none (or an empty one) is given. */
    constructor(company: CompanyProfile, memory: MemoryEngine, date: string, tools: Option<map<string, LogTool>>)
      ensures Valid() && fresh(state)
      ensures this.company == company && this.memory == memory
      ensures this.tools == (if tools.Some? then tools.value else map[])
      ensures state.tasks == [] && state.date == date
      ensures state.focusTheme == "Grow " + company.name + " using the north star: " + company.northStarMetric
    {
      this.company := company;
      this.memory := memory;
      this.tools := if tools.Some? then tools.value else map[];
      state := new CeoState(date, "Grow " + company.name + " using the north star: " + company.northStarMetric);
    }

    /** `register_tool`: a tool is stored under its name, replacing an earlier one. */
    method RegisterTool(tool: LogTool)
      modifies this
      ensures tools == old(tools)[tool.name := tool]
    {
      tools := tools[tool.name := tool];
    }

    /**
     * The deterministic tail of `plan_day`: log the usage (when the client
     * reports one) and the plan, then append the parsed tasks to the state.
     */
    method PlanDay(planText: string, usage: Option<map<string, int>>) returns (r: string)
      requires Valid()
      modifies state, memory
      ensures Valid() && r == planText
      ensures state.tasks == old(state.tasks) + ToTasks(ParseText(planText, "daily_plan"), old(state.nextId), state.date)
      ensures state.nextId == old(state.nextId) + |ParseText(planText, "daily_plan")|
      ensures memory.tokenUsage ==
        old(memory.tokenUsage) + (if usage.Some? then [TokenUsageEntry("daily_plan", usage.value)] else [])
      ensures memory.decisions == old(memory.decisions) +
        [DecisionEntry("Daily plan generated for " + state.date + ":\n" + planText, map["type" := Str("daily_plan")])]
      ensures memory.events == old(memory.events) && memory.toolCalls == old(memory.toolCalls)
      ensures memory.kpis == old(memory.kpis) && memory.reflections == old(memory.reflections)
    {
      ghost var tasks0, nextId0 := state.tasks, state.nextId;
      ghost var decisions0, events0, toolCalls0 := memory.decisions, memory.events, memory.toolCalls;
      ghost var kpis0, reflections0 := memory.kpis, memory.reflections;
      if usage.Some? {
        memory.RecordTokenUsage("daily_plan", usage.value);
      }
      ghost var usage1 := memory.tokenUsage;
      memory.RecordDecision("Daily plan generated for " + state.date + ":\n" + planText, map["type" := Str("daily_plan")]);
      assert state.tasks == tasks0 && state.nextId == nextId0 && state.Valid();
      var drafts := ParseTasks(planText, "daily_plan");
      state.AddDrafts(drafts);
      assert memory.tokenUsage == usage1 && memory.events == events0 && memory.toolCalls == toolCalls0;
      assert memory.kpis == kpis0 && memory.reflections == reflections0;
      r := planText;
    }

    /** The deterministic tail of `ingest_event`: log usage, event and decision, then add the parsed tasks. */
    method IngestEvent(event: Event, response: string, usage: Option<map<string, int>>) returns (r: string)
      requires Valid()
      modifies state, memory
      ensures Valid() && r == response
      ensures state.tasks == old(state.tasks) + ToTasks(ParseText(response, event.eventType), old(state.nextId), state.date)
      ensures state.nextId == old(state.nextId) + |ParseText(response, event.eventType)|
      ensures memory.tokenUsage ==
        old(memory.tokenUsage) + (if usage.Some? then [TokenUsageEntry("event_decision", usage.value)] else [])
      ensures memory.events == old(memory.events) + [EventEntry(event.eventType, event.payload)]
      ensures memory.decisions == old(memory.decisions) +
        [DecisionEntry("Handled event " + event.eventType + ":\n" + response,
                       map["type" := Str("event_decision"), "event_type" := Str(event.eventType)])]
      ensures memory.toolCalls == old(memory.toolCalls) && memory.kpis == old(memory.kpis)
      ensures memory.reflections == old(memory.reflections)
    {
      if usage.Some? {
        memory.RecordTokenUsage("event_decision", usage.value);
      }
      memory.RecordEvent(event.eventType, event.payload);
      memory.RecordDecision("Handled event " + event.eventType + ":\n" + response,
                            map["type" := Str("event_decision"), "event_type" := Str(event.eventType)]);
      var drafts := ParseTasks(response, event.eventType);
      state.AddDrafts(drafts);
      r := response;
    }

    /**
     * `run_task` on the task at index `i` of the state: run the registered
     * tool the task suggests, or complete it manually. Either way it ends done.
     */
    method RunTask(i: nat, timestamp: string) returns (res: RunResult)
      requires Valid() && i < |state.tasks|
      modifies state, memory, tools.Values
      ensures Valid()
      ensures state.tasks == old(state.tasks)[i := old(state.tasks[i]).(status := "done")]
      ensures state.nextId == old(state.nextId)
      ensures res.status == "done"
      ensures HasTool(old(state.tasks[i]), tools.Keys) ==>
        var tool := tools[old(state.tasks[i]).suggestedTool.value];
        var payload := ToolPayload(old(state.tasks[i]));
        var entry := LogLine(payload, timestamp);
        res.tool == Some("log_tool") &&
        res.result == map["ok" := Bool(true), "logged" := Str(entry)] &&
        tool.sink == old(tool.sink) + [entry] &&
        memory.toolCalls == old(memory.toolCalls) + [ToolCallEntry("log_tool", AsPayload(payload), res.result)] &&
        memory.decisions == old(memory.decisions)
      ensures !HasTool(old(state.tasks[i]), tools.Keys) ==> res.tool == None && res.result == map[]
      ensures !HasTool(old(state.tasks[i]), tools.Keys) ==>
        memory.toolCalls == old(memory.toolCalls) &&
        memory.decisions == old(memory.decisions) +
          [DecisionEntry("Task completed manually: " + old(state.tasks[i]).title, map["type" := Str("manual_task")])]
      ensures memory.events == old(memory.events) && memory.kpis == old(memory.kpis)
      ensures memory.tokenUsage == old(memory.tokenUsage) && memory.reflections == old(memory.reflections)
      ensures tools == old(tools)
      ensures forall tl :: tl in tools.Values ==> tl.sink == old(tl.sink) + SinkLine(old(state.tasks[i]), tools, tl, timestamp)
    {
      var task := state.tasks[i];
      if task.suggestedTool.Some? && |task.suggestedTool.value| > 0 && task.suggestedTool.value in tools {
        var tool := tools[task.suggestedTool.value];
        var payload := ToolPayload(task);
        var entry := tool.Run(payload, timestamp);
        var result := map["ok" := Bool(true), "logged" := Str(entry)];
        memory.RecordToolCall(tool.name, AsPayload(payload), result);
        state.tasks := state.tasks[i := task.(status := "done")];
        res := RunResult("done", Some(tool.name), result);
      } else {
        memory.RecordDecision("Task completed manually: " + task.title, map["type" := Str("manual_task")]);
        state.tasks := state.tasks[i := task.(status := "done")];
        res := RunResult("done", None, map[]);
      }
    }

    /** `reflect`: the day summary plus the number of tracked tasks, recorded as a reflection. */
    method Reflect() returns (text: string)
      modifies memory
      ensures text == old(memory.SummarizeDay(state.date)) +
                      "- Tasks currently tracked in CEO state: " + NatToString(|state.tasks|)
      ensures memory.reflections == old(memory.reflections) + [ReflectionEntry(text)]
      ensures memory.Summarize() == old(memory.Summarize())
      ensures memory.events == old(memory.events) && memory.decisions == old(memory.decisions)
      ensures memory.toolCalls == old(memory.toolCalls) && memory.kpis == old(memory.kpis)
      ensures memory.tokenUsage == old(memory.tokenUsage)
    {
      text := memory.SummarizeDay(state.date) + "- Tasks currently tracked in CEO state: " + NatToString(|state.tasks|);
      memory.RecordReflection(text);
    }
  }
}
