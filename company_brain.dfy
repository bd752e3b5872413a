/**
 * The company brain's own logic: running every pending task of the CEO
 * state in one batch, and picking one company profile out of an already
 * parsed configuration document.  Reading and parsing the file itself
 * (JSON or YAML) happens outside the model: its outcome arrives as the
 * `fileExists`, `suffix`, `yamlAvailable` and `data` parameters.
 */
module CompanyBrain {
  import opened Wrappers
  import opened Text
  import opened Memory
  import opened AgenticCeo

  // ---------------------------------------------------------------------
  // Running the pending tasks
  // ---------------------------------------------------------------------

  /** The tasks a batch run executes: those not done, in list order. */
  function Pending(ts: seq<Task>): (p: seq<Task>)
    ensures |p| <= |ts|
  {
    if |ts| == 0 then []
    else Pending(ts[..|ts| - 1]) + (if ts[|ts| - 1].status != "done" then [ts[|ts| - 1]] else [])
  }

  /** The task list with every status set to `done`. */
  function MarkDone(ts: seq<Task>): (r: seq<Task>)
    ensures |r| == |ts|
  {
    if |ts| == 0 then [] else MarkDone(ts[..|ts| - 1]) + [ts[|ts| - 1].(status := "done")]
  }

  /** Every task of a marked list is done, and nothing else about it changed. */
  lemma {:induction false} MarkDoneAt(ts: seq<Task>, k: nat)
    requires k < |ts|
    ensures MarkDone(ts)[k] == ts[k].(status := "done")
    ensures MarkDone(ts)[k].status == "done" && MarkDone(ts)[k].id == ts[k].id && MarkDone(ts)[k].title == ts[k].title
  {
    if k < |ts| - 1 {
      MarkDoneAt(ts[..|ts| - 1], k);
    }
  }

  /** After a batch run nothing is pending, so a second run executes no task. */
  lemma {:induction false} NothingPendingAfterRun(ts: seq<Task>)
    ensures Pending(MarkDone(ts)) == []
  {
    if |ts| > 0 {
      assert MarkDone(ts)[..|ts| - 1] == MarkDone(ts[..|ts| - 1]);
      NothingPendingAfterRun(ts[..|ts| - 1]);
    }
  }

  /** A list whose tasks are all done has nothing pending. */
  lemma {:induction false} PendingEmptyIffAllDone(ts: seq<Task>)
    ensures Pending(ts) == [] <==> forall k :: 0 <= k < |ts| ==> ts[k].status == "done"
  {
    if |ts| > 0 {
      var init := ts[..|ts| - 1];
      PendingEmptyIffAllDone(init);
      assert forall k :: 0 <= k < |init| ==> init[k] == ts[k];
    }
  }

  /** The pending tasks of one more task. */
  lemma PendingStep(ts: seq<Task>, k: nat)
    requires k < |ts|
    ensures Pending(ts[..k + 1]) == Pending(ts[..k]) + if ts[k].status != "done" then [ts[k]] else []
  {
    assert ts[..k + 1][..k] == ts[..k];
  }

  /** Marking the task at `k` of a list whose first `k` tasks are already marked. */
  lemma MarkDoneNext(ts: seq<Task>, k: nat)
    requires k < |ts|
    ensures (MarkDone(ts[..k]) + ts[k..])[k] == ts[k]
    ensures (MarkDone(ts[..k]) + ts[k..])[k := ts[k].(status := "done")] == MarkDone(ts[..k + 1]) + ts[k + 1..]
  {
    assert ts[..k + 1][..k] == ts[..k];
    assert MarkDone(ts[..k + 1]) == MarkDone(ts[..k]) + [ts[k].(status := "done")];
  }

  /** One entry of the batch result: the task's title and what `run_task` returned. */
  datatype TaskRun = TaskRun(task: string, result: RunResult)

  /** The results of a batch answer the pending tasks one by one. */
  predicate RunsMatch(results: seq<TaskRun>, pending: seq<Task>, tools: set<string>) {
    |results| == |pending| &&
    forall j :: 0 <= j < |results| ==>
      results[j].task == pending[j].title && results[j].result.status == "done" &&
      (results[j].result.tool.Some? <==> HasTool(pending[j], tools))
  }

  lemma RunsMatchStep(results: seq<TaskRun>, pending: seq<Task>, tools: set<string>, t: Task, res: RunResult)
    requires RunsMatch(results, pending, tools)
    requires res.status == "done" && (res.tool.Some? <==> HasTool(t, tools))
    ensures RunsMatch(results + [TaskRun(t.title, res)], pending + [t], tools)
  {
  }

  /** The tool calls a batch over `ps` records: one per task whose tool is registered, in order. */
  function ToolCallsOf(ps: seq<Task>, tools: set<string>, timestamp: string): seq<ToolCallEntry> {
    if |ps| == 0 then []
    else ToolCallsOf(ps[..|ps| - 1], tools, timestamp) +
         (if HasTool(ps[|ps| - 1], tools) then [ToolCallOf(ps[|ps| - 1], timestamp)] else [])
  }

  /** The decisions a batch over `ps` records: one per task completed by hand, in order. */
  function ManualDecisionsOf(ps: seq<Task>, tools: set<string>): seq<DecisionEntry> {
    if |ps| == 0 then []
    else ManualDecisionsOf(ps[..|ps| - 1], tools) +
         (if HasTool(ps[|ps| - 1], tools) then [] else [ManualDecisionOf(ps[|ps| - 1])])
  }

  /** The lines a batch over `ps` appends to the sink of `tool`, in order. */
  function SinkLines(ps: seq<Task>, tools: map<string, LogTool>, tool: LogTool, timestamp: string): seq<string> {
    if |ps| == 0 then []
    else SinkLines(ps[..|ps| - 1], tools, tool, timestamp) + SinkLine(ps[|ps| - 1], tools, tool, timestamp)
  }

  /** A batch records exactly one tool call or one manual decision for every task it runs. */
  lemma {:induction false} BatchJournalSize(ps: seq<Task>, tools: set<string>, timestamp: string)
    ensures |ToolCallsOf(ps, tools, timestamp)| + |ManualDecisionsOf(ps, tools)| == |ps|
  {
    if |ps| > 0 {
      BatchJournalSize(ps[..|ps| - 1], tools, timestamp);
    }
  }

  /** The journal of a batch over `ps` and then one more task, which runs when `ran`. */
  lemma JournalNext(tools: set<string>, timestamp: string, ps: seq<Task>, t: Task, ran: bool,
                    toolCalls0: seq<ToolCallEntry>, toolCalls: seq<ToolCallEntry>, toolCalls': seq<ToolCallEntry>,
                    decisions0: seq<DecisionEntry>, decisions: seq<DecisionEntry>, decisions': seq<DecisionEntry>)
    requires toolCalls == toolCalls0 + ToolCallsOf(ps, tools, timestamp)
    requires toolCalls' == toolCalls + if ran && HasTool(t, tools) then [ToolCallOf(t, timestamp)] else []
    requires decisions == decisions0 + ManualDecisionsOf(ps, tools)
    requires decisions' == decisions + if ran && !HasTool(t, tools) then [ManualDecisionOf(t)] else []
    ensures toolCalls' == toolCalls0 + ToolCallsOf(ps + if ran then [t] else [], tools, timestamp)
    ensures decisions' == decisions0 + ManualDecisionsOf(ps + if ran then [t] else [], tools)
  {
    if ran {
      assert (ps + [t])[..|ps|] == ps;
    } else {
      assert ps + [] == ps;
    }
  }

  /** The sink of one tool after a batch over `ps` and then one more task, which runs when `ran`. */
  lemma SinkNext(tools: map<string, LogTool>, tool: LogTool, timestamp: string, ps: seq<Task>, t: Task, ran: bool,
                 sink0: seq<string>, sink: seq<string>, sink': seq<string>)
    requires sink == sink0 + SinkLines(ps, tools, tool, timestamp)
    requires sink' == sink + if ran then SinkLine(t, tools, tool, timestamp) else []
    ensures sink' == sink0 + SinkLines(ps + if ran then [t] else [], tools, tool, timestamp)
  {
    if ran {
      assert (ps + [t])[..|ps|] == ps;
    } else {
      assert ps + [] == ps;
    }
  }

  /**
   * The body of the loop of `run_pending_tasks` for the task at `k`: a task
   * not done is run and gives one result; a done task is left alone.
   */
  method RunIfPending(ceo: Ceo, k: nat, timestamp: string) returns (run: Option<TaskRun>)
    requires ceo.Valid() && k < |ceo.state.tasks|
    modifies ceo.state, ceo.memory, ceo.tools.Values
    ensures ceo.Valid()
    ensures ceo.state.tasks == old(ceo.state.tasks)[k := old(ceo.state.tasks[k]).(status := "done")]
    ensures ceo.state.nextId == old(ceo.state.nextId)
    ensures run.Some? <==> old(ceo.state.tasks[k]).status != "done"
    ensures run.Some? ==>
      run.value.task == old(ceo.state.tasks[k]).title && run.value.result.status == "done" &&
      (run.value.result.tool.Some? <==> HasTool(old(ceo.state.tasks[k]), ceo.tools.Keys))
    ensures ceo.memory.toolCalls == old(ceo.memory.toolCalls) +
      (if run.Some? && HasTool(old(ceo.state.tasks[k]), ceo.tools.Keys) then [ToolCallOf(old(ceo.state.tasks[k]), timestamp)] else [])
    ensures ceo.memory.decisions == old(ceo.memory.decisions) +
      (if run.Some? && !HasTool(old(ceo.state.tasks[k]), ceo.tools.Keys) then [ManualDecisionOf(old(ceo.state.tasks[k]))] else [])
    ensures forall tl :: tl in ceo.tools.Values ==>
      tl.sink == old(tl.sink) + (if run.Some? then SinkLine(old(ceo.state.tasks[k]), ceo.tools, tl, timestamp) else [])
    ensures ceo.memory.events == old(ceo.memory.events) && ceo.memory.kpis == old(ceo.memory.kpis)
    ensures ceo.memory.tokenUsage == old(ceo.memory.tokenUsage) && ceo.memory.reflections == old(ceo.memory.reflections)
  {
    var t := ceo.state.tasks[k];
    if t.status != "done" {
      var res := ceo.RunTask(k, timestamp);
      run := Some(TaskRun(t.title, res));
    } else {
      assert ceo.state.tasks[k := t.(status := "done")] == ceo.state.tasks;
      run := None;
    }
  }

  /**
   * Where `run_pending_tasks` stands after the first `k` tasks of `tasks0`:
   * those are marked done, `ps` are the pending ones among them, and the
   * results, the journal (past `toolCalls0` and `decisions0`) and every
   * tool's sink (past `sinks0`) hold exactly what running `ps` adds.
   */
  ghost predicate Batched(ceo: Ceo, timestamp: string, tasks0: seq<Task>, k: nat, ps: seq<Task>, results: seq<TaskRun>,
                          toolCalls0: seq<ToolCallEntry>, decisions0: seq<DecisionEntry>, sinks0: map<LogTool, seq<string>>)
    reads ceo, ceo.state, ceo.memory, ceo.tools.Values
  {
    k <= |tasks0| && ceo.Valid() &&
    ceo.state.tasks == MarkDone(tasks0[..k]) + tasks0[k..] && ps == Pending(tasks0[..k]) &&
    RunsMatch(results, ps, ceo.tools.Keys) &&
    ceo.memory.toolCalls == toolCalls0 + ToolCallsOf(ps, ceo.tools.Keys, timestamp) &&
    ceo.memory.decisions == decisions0 + ManualDecisionsOf(ps, ceo.tools.Keys) &&
    forall tl :: tl in ceo.tools.Values ==> tl in sinks0 && tl.sink == sinks0[tl] + SinkLines(ps, ceo.tools, tl, timestamp)
  }

  /** One turn of the loop of `run_pending_tasks`: `RunIfPending` at `k`, which carries `Batched` from `k` to `k + 1`. */
  method RunNext(ceo: Ceo, k: nat, timestamp: string, results: seq<TaskRun>, ghost tasks0: seq<Task>, ghost ps: seq<Task>,
                 ghost toolCalls0: seq<ToolCallEntry>, ghost decisions0: seq<DecisionEntry>,
                 ghost sinks0: map<LogTool, seq<string>>)
    returns (results': seq<TaskRun>, ghost ps': seq<Task>)
    requires k < |tasks0| && Batched(ceo, timestamp, tasks0, k, ps, results, toolCalls0, decisions0, sinks0)
    modifies ceo.state, ceo.memory, ceo.tools.Values
    ensures Batched(ceo, timestamp, tasks0, k + 1, ps', results', toolCalls0, decisions0, sinks0)
    ensures ceo.state.nextId == old(ceo.state.nextId)
    ensures ceo.memory.events == old(ceo.memory.events) && ceo.memory.kpis == old(ceo.memory.kpis)
    ensures ceo.memory.tokenUsage == old(ceo.memory.tokenUsage) && ceo.memory.reflections == old(ceo.memory.reflections)
  {
    PendingStep(tasks0, k);
    MarkDoneNext(tasks0, k);
    var t := ceo.state.tasks[k];
    assert t == tasks0[k];
    ps' := ps + if t.status != "done" then [t] else [];
    var run := RunIfPending(ceo, k, timestamp);
    JournalNext(ceo.tools.Keys, timestamp, ps, t, run.Some?, toolCalls0, old(ceo.memory.toolCalls), ceo.memory.toolCalls,
                decisions0, old(ceo.memory.decisions), ceo.memory.decisions);
    forall tl | tl in ceo.tools.Values
      ensures tl in sinks0 && tl.sink == sinks0[tl] + SinkLines(ps', ceo.tools, tl, timestamp)
    {
      SinkNext(ceo.tools, tl, timestamp, ps, t, run.Some?, sinks0[tl], old(tl.sink), tl.sink);
    }
    if run.Some? {
      RunsMatchStep(results, ps, ceo.tools.Keys, t, run.value.result);
      results' := results + [run.value];
    } else {
      results' := results;
    }
  }

  /**
   * `run_pending_tasks`: `run_task` for exactly the tasks not done at the
   * start, in list order, one result each; afterwards every task is done
   * and the journal holds the tool call of every task run with a registered
   * tool and the manual decision of every other task run, in list order.
   */
  method RunPendingTasks(ceo: Ceo, timestamp: string) returns (results: seq<TaskRun>)
    requires ceo.Valid()
    modifies ceo.state, ceo.memory, ceo.tools.Values
    ensures ceo.Valid()
    ensures ceo.state.tasks == MarkDone(old(ceo.state.tasks)) && ceo.state.nextId == old(ceo.state.nextId)
    ensures RunsMatch(results, Pending(old(ceo.state.tasks)), ceo.tools.Keys)
    ensures ceo.memory.toolCalls == old(ceo.memory.toolCalls) + ToolCallsOf(Pending(old(ceo.state.tasks)), ceo.tools.Keys, timestamp)
    ensures ceo.memory.decisions == old(ceo.memory.decisions) + ManualDecisionsOf(Pending(old(ceo.state.tasks)), ceo.tools.Keys)
    ensures forall tl :: tl in ceo.tools.Values ==>
      tl.sink == old(tl.sink) + SinkLines(Pending(old(ceo.state.tasks)), ceo.tools, tl, timestamp)
    ensures ceo.memory.events == old(ceo.memory.events) && ceo.memory.kpis == old(ceo.memory.kpis)
    ensures ceo.memory.tokenUsage == old(ceo.memory.tokenUsage) && ceo.memory.reflections == old(ceo.memory.reflections)
  {
    ghost var tasks0 := ceo.state.tasks;
    ghost var sinks0 := map tl | tl in ceo.tools.Values :: tl.sink;
    assert tasks0[..0] == [] && tasks0[0..] == tasks0;
    results := [];
    ghost var ps: seq<Task> := [];
    var k := 0;
    while k < |ceo.state.tasks|
      invariant Batched(ceo, timestamp, tasks0, k, ps, results, old(ceo.memory.toolCalls), old(ceo.memory.decisions), sinks0)
      invariant |ceo.state.tasks| == |tasks0| && ceo.state.nextId == old(ceo.state.nextId)
      invariant ceo.memory.events == old(ceo.memory.events) && ceo.memory.kpis == old(ceo.memory.kpis)
      invariant ceo.memory.tokenUsage == old(ceo.memory.tokenUsage) && ceo.memory.reflections == old(ceo.memory.reflections)
    {
      results, ps := RunNext(ceo, k, timestamp, results, tasks0, ps, old(ceo.memory.toolCalls), old(ceo.memory.decisions), sinks0);
      k := k + 1;
    }
    assert tasks0[..k] == tasks0 && tasks0[k..] == [];
  }

  // ---------------------------------------------------------------------
  // Picking a company profile out of a configuration document
  // ---------------------------------------------------------------------

  /** A parsed JSON or YAML document. */
  datatype Json =
    | JNull
    | JBool(b: bool)
    | JInt(i: int)
    | JStr(s: string)
    | JList(items: seq<Json>)
    | JObject(fields: map<string, Json>)

  /** The ways loading a profile fails, one per exception the loader can raise. */
  datatype ConfigError =
    | FileNotFound(path: string)
    /** A YAML file while the YAML library is not installed (`ImportError`). */
    | YamlUnavailable
    /** A suffix other than `.yml`, `.yaml` or `.json` (`ValueError`). */
    | UnsupportedSuffix(suffix: string)
    /** The document is no mapping, so it has no `.get` (`AttributeError`). */
    | NotAMapping
    /** The company key is not in the table (`KeyError`). */
    | CompanyNotFound(key: string)
    /** A required field is missing from the company's entry (`KeyError`). */
    | MissingField(field: string)
    /** The table or the entry cannot be indexed by a string, or is no container (`TypeError`). */
    | NotIndexable
    /** A field has the wrong type for the profile (the profile's validation error). */
    | Mistyped(field: string)

  datatype Format = Yaml | JsonFile

  /** The format a suffix selects, compared case-insensitively. */
  function FormatOf(suffix: string): (f: Option<Format>)
    ensures f == Some(Yaml) <==> Lower(suffix) == ".yml" || Lower(suffix) == ".yaml"
    ensures f == Some(JsonFile) <==> Lower(suffix) == ".json"
  {
    var s := Lower(suffix);
    if s == ".yml" || s == ".yaml" then Some(Yaml)
    else if s == ".json" then Some(JsonFile)
    else None
  }

  /** `data.get("companies", data)`: the nested table when there is one, else the whole document. */
  function Companies(data: Json): (r: Result<Json, ConfigError>)
    ensures !data.JObject? <==> r == Err(NotAMapping)
    ensures data.JObject? && "companies" in data.fields ==> r == Ok(data.fields["companies"])
    ensures data.JObject? && "companies" !in data.fields ==> r == Ok(data)
  {
    match data
    case JObject(fields) => if "companies" in fields then Ok(fields["companies"]) else Ok(data)
    case _ => Err(NotAMapping)
  }

  /**
   * `company_key not in companies` followed by `companies[company_key]`:
   * a mapping is looked up; a list or a string answers `in` by membership
   * or substring, and indexing it with a string then fails; any other
   * value cannot answer `in` at all.
   */
  function CompanyEntry(companies: Json, key: string): (r: Result<Json, ConfigError>)
    ensures companies.JObject? ==>
      r == if key in companies.fields then Ok(companies.fields[key]) else Err(CompanyNotFound(key))
    ensures !companies.JObject? ==> r.Err? && r.error in {CompanyNotFound(key), NotIndexable}
  {
    match companies
    case JObject(fields) => if key in fields then Ok(fields[key]) else Err(CompanyNotFound(key))
    case JList(items) => if JStr(key) in items then Err(NotIndexable) else Err(CompanyNotFound(key))
    case JStr(s) => if Contains(s, key) then Err(NotIndexable) else Err(CompanyNotFound(key))
    case _ => Err(NotIndexable)
  }

  /** The config keys of the required fields, in the order the loader reads them. */
  const RequiredFields: seq<string> := ["name", "industry", "vision", "mission", "north_star_metric"]

  /** The first required field missing from the entry, if any. */
  function FirstMissing(fields: map<string, Json>, names: seq<string>): (r: Option<string>)
    ensures r.None? <==> forall k :: 0 <= k < |names| ==> names[k] in fields
    ensures r.Some? ==> r.value in names && r.value !in fields
  {
    if |names| == 0 then None
    else if names[0] !in fields then Some(names[0])
    else
      var r := FirstMissing(fields, names[1..]);
      assert forall k :: 1 <= k < |names| ==> names[1..][k - 1] == names[k];
      r
  }

  predicate IsStr(j: Json) {
    j.JStr?
  }

  predicate IsStrList(j: Json) {
    j.JList? && forall k :: 0 <= k < |j.items| ==> j.items[k].JStr?
  }

  /** The strings of a list of strings. */
  function StrList(j: Json): (r: seq<string>)
    requires IsStrList(j)
    ensures |r| == |j.items| && forall k :: 0 <= k < |r| ==> JStr(r[k]) == j.items[k]
  {
    StrsIn(j.items)
  }

  function StrsIn(items: seq<Json>): (r: seq<string>)
    requires forall k :: 0 <= k < |items| ==> items[k].JStr?
    ensures |r| == |items| && forall k :: 0 <= k < |r| ==> JStr(r[k]) == items[k]
  {
    if |items| == 0 then [] else [items[0].s] + StrsIn(items[1..])
  }

  /** `cfg.get(field, default)`. */
  function GetOr(fields: map<string, Json>, field: string, default: Json): Json {
    if field in fields then fields[field] else default
  }

  /** The entry has every required field. */
  predicate HasRequired(fields: map<string, Json>) {
    "name" in fields && "industry" in fields && "vision" in fields && "mission" in fields &&
    "north_star_metric" in fields
  }

  lemma RequiredPresent(fields: map<string, Json>)
    requires FirstMissing(fields, RequiredFields).None?
    ensures HasRequired(fields)
  {
    assert RequiredFields[0] in fields && RequiredFields[1] in fields && RequiredFields[2] in fields;
    assert RequiredFields[3] in fields && RequiredFields[4] in fields;
  }

  /** The first field, in declaration order, whose value the profile does not accept. */
  function FirstMistyped(fields: map<string, Json>): Option<string>
    requires HasRequired(fields)
  {
    if !IsStr(fields["name"]) then Some("name")
    else if !IsStr(fields["industry"]) then Some("industry")
    else if !IsStr(fields["vision"]) then Some("vision")
    else if !IsStr(fields["mission"]) then Some("mission")
    else if !IsStr(fields["north_star_metric"]) then Some("north_star_metric")
    else if !IsStrList(GetOr(fields, "primary_markets", JList([]))) then Some("primary_markets")
    else if !IsStrList(GetOr(fields, "products_or_services", JList([]))) then Some("products_or_services")
    else if !GetOr(fields, "team_size", JInt(0)).JInt? then Some("team_size")
    else if !(GetOr(fields, "website", JNull).JNull? || GetOr(fields, "website", JNull).JStr?) then Some("website")
    else None
  }

  /** The profile for one company entry: required fields first, then the optional ones with their defaults. */
  function ProfileOf(entry: Json): (r: Result<CompanyProfile, ConfigError>)
    ensures r.Ok? ==> entry.JObject? && HasRequired(entry.fields)
  {
    match entry
    case JObject(fields) =>
      (match FirstMissing(fields, RequiredFields)
       case Some(f) => Err(MissingField(f))
       case None =>
         RequiredPresent(fields);
         (match FirstMistyped(fields)
          case Some(f) => Err(Mistyped(f))
          case None =>
            var website := GetOr(fields, "website", JNull);
            Ok(CompanyProfile(
                 fields["name"].s, fields["industry"].s, fields["vision"].s, fields["mission"].s,
                 fields["north_star_metric"].s,
                 StrList(GetOr(fields, "primary_markets", JList([]))),
                 StrList(GetOr(fields, "products_or_services", JList([]))),
                 GetOr(fields, "team_size", JInt(0)).i,
                 if website.JStr? then Some(website.s) else None))))
    case _ => Err(NotIndexable)
  }

  /**
   * `load_company_profile_from_config` after the file is read: the existence
   * check, the suffix check, the YAML availability check, the company table,
   * the company entry and the profile.
   */
  function LoadCompanyProfile(path: string, fileExists: bool, suffix: string, yamlAvailable: bool,
                              data: Json, companyKey: string): (r: Result<CompanyProfile, ConfigError>)
    ensures !fileExists ==> r == Err(FileNotFound(path))
    ensures fileExists && FormatOf(suffix).None? ==> r == Err(UnsupportedSuffix(suffix))
    ensures fileExists && FormatOf(suffix) == Some(Yaml) && !yamlAvailable ==> r == Err(YamlUnavailable)
  {
    if !fileExists then Err(FileNotFound(path))
    else match FormatOf(suffix)
      case None => Err(UnsupportedSuffix(suffix))
      case Some(format) =>
        if format == Yaml && !yamlAvailable then Err(YamlUnavailable)
        else match Companies(data)
          case Err(e) => Err(e)
          case Ok(companies) =>
            match CompanyEntry(companies, companyKey)
            case Err(e) => Err(e)
            case Ok(entry) => ProfileOf(entry)
  }

  // ---------------------------------------------------------------------
  // Properties of the loader
  // ---------------------------------------------------------------------

  /** A readable file in a supported format, with YAML available when it is needed. */
  predicate Readable(fileExists: bool, suffix: string, yamlAvailable: bool) {
    fileExists && FormatOf(suffix).Some? && (FormatOf(suffix) == Some(Yaml) ==> yamlAvailable)
  }

  /** A key that is not in a mapping table is a `KeyError`, nested or top-level. */
  lemma MissingCompany(path: string, suffix: string, yamlAvailable: bool, data: Json, key: string)
    requires Readable(true, suffix, yamlAvailable)
    requires Companies(data).Ok? && Companies(data).value.JObject? && key !in Companies(data).value.fields
    ensures LoadCompanyProfile(path, true, suffix, yamlAvailable, data, key) == Err(CompanyNotFound(key))
  {
  }

  /** The mapping a profile is written as in a config file; `None` as a website is left out. */
  function EntryOf(p: CompanyProfile): Json {
    var required := map[
      "name" := JStr(p.name), "industry" := JStr(p.industry), "vision" := JStr(p.vision),
      "mission" := JStr(p.mission), "north_star_metric" := JStr(p.northStarMetric),
      "primary_markets" := StrsToJson(p.primaryMarkets),
      "products_or_services" := StrsToJson(p.productsOrServices),
      "team_size" := JInt(p.teamSize)];
    JObject(if p.website.Some? then required["website" := JStr(p.website.value)] else required)
  }

  function StrsToJson(xs: seq<string>): (j: Json)
    ensures IsStrList(j) && |j.items| == |xs|
  {
    JList(StrsOf(xs))
  }

  function StrsOf(xs: seq<string>): (js: seq<Json>)
    ensures |js| == |xs| && forall k :: 0 <= k < |xs| ==> js[k] == JStr(xs[k])
  {
    if |xs| == 0 then [] else [JStr(xs[0])] + StrsOf(xs[1..])
  }

  /** Reading a list of strings back from its JSON form. */
  lemma StrListOfStrs(xs: seq<string>)
    ensures StrList(StrsToJson(xs)) == xs
  {
    var r := StrList(StrsToJson(xs));
    assert |r| == |xs|;
    forall k | 0 <= k < |xs| ensures r[k] == xs[k] {
      assert JStr(r[k]) == JStr(xs[k]);
    }
  }

  /** A profile written into the `companies` table under its key is loaded back unchanged. */
  lemma LoadNestedRoundTrip(path: string, suffix: string, yamlAvailable: bool, p: CompanyProfile, key: string,
                            others: map<string, Json>)
    requires Readable(true, suffix, yamlAvailable)
    ensures LoadCompanyProfile(path, true, suffix, yamlAvailable,
                               JObject(map["companies" := JObject(others[key := EntryOf(p)])]), key) == Ok(p)
  {
    EntryRoundTrip(p);
  }

  /** A profile at the top level of the document, with no `companies` key, is loaded back too. */
  lemma LoadTopLevelRoundTrip(path: string, suffix: string, yamlAvailable: bool, p: CompanyProfile, key: string,
                              others: map<string, Json>)
    requires Readable(true, suffix, yamlAvailable) && key != "companies" && "companies" !in others
    ensures LoadCompanyProfile(path, true, suffix, yamlAvailable, JObject(others[key := EntryOf(p)]), key) == Ok(p)
  {
    EntryRoundTrip(p);
  }

  /** An entry written from a profile gives that profile. */
  lemma EntryRoundTrip(p: CompanyProfile)
    ensures ProfileOf(EntryOf(p)) == Ok(p)
  {
    var fields := EntryOf(p).fields;
    assert forall k :: 0 <= k < |RequiredFields| ==> RequiredFields[k] in fields;
    StrListOfStrs(p.primaryMarkets);
    StrListOfStrs(p.productsOrServices);
  }

  /** An entry with only the required strings gets the defaults for the optional fields. */
  lemma OptionalDefaults(name: string, industry: string, vision: string, mission: string, metric: string)
    ensures ProfileOf(JObject(map["name" := JStr(name), "industry" := JStr(industry), "vision" := JStr(vision),
                                  "mission" := JStr(mission), "north_star_metric" := JStr(metric)])) ==
            Ok(CompanyProfile(name, industry, vision, mission, metric, [], [], 0, None))
  {
    var fields := map["name" := JStr(name), "industry" := JStr(industry), "vision" := JStr(vision),
                      "mission" := JStr(mission), "north_star_metric" := JStr(metric)];
    assert forall k :: 0 <= k < |RequiredFields| ==> RequiredFields[k] in fields;
    assert StrList(JList([])) == [];
  }

  /** A website given as `null` is the same as no website at all. */
  lemma NullWebsite(fields: map<string, Json>)
    requires "website" !in fields
    ensures ProfileOf(JObject(fields["website" := JNull])) == ProfileOf(JObject(fields))
  {
    var with := fields["website" := JNull];
    assert forall f :: f != "website" ==> (f in with <==> f in fields);
    assert FirstMissing(with, RequiredFields) == FirstMissing(fields, RequiredFields) by {
      FirstMissingAgree(with, fields, RequiredFields);
    }
  }

  lemma {:induction false} FirstMissingAgree(a: map<string, Json>, b: map<string, Json>, names: seq<string>)
    requires forall k :: 0 <= k < |names| ==> (names[k] in a <==> names[k] in b)
    ensures FirstMissing(a, names) == FirstMissing(b, names)
  {
    if |names| > 0 {
      assert forall k :: 1 <= k < |names| ==> names[1..][k - 1] == names[k];
      FirstMissingAgree(a, b, names[1..]);
    }
  }

  /** The first required field missing, in reading order, is the one reported. */
  lemma MissingFieldReported(fields: map<string, Json>, i: nat)
    requires i < |RequiredFields| && RequiredFields[i] !in fields
    requires forall k :: 0 <= k < i ==> RequiredFields[k] in fields
    ensures ProfileOf(JObject(fields)) == Err(MissingField(RequiredFields[i]))
  {
    FirstMissingAt(fields, RequiredFields, i);
  }

  lemma {:induction false} FirstMissingAt(fields: map<string, Json>, names: seq<string>, i: nat)
    requires i < |names| && names[i] !in fields
    requires forall k :: 0 <= k < i ==> names[k] in fields
    ensures FirstMissing(fields, names) == Some(names[i])
  {
    if i > 0 {
      assert forall k :: 0 <= k < i - 1 ==> names[1..][k] == names[k + 1];
      FirstMissingAt(fields, names[1..], i - 1);
    }
  }
}
