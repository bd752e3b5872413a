# AgenticCEO core in Dafny

AgenticCEO is an "AI chief executive" built around a language model. It turns
model output into tasks and runs them through tools. It also keeps a journal of
decisions, events, tool calls, KPI readings and token usage, and it watches KPIs
against thresholds and trends. Beside the CEO sit a virtual-staff roster with
daily capacity, a hierarchical task and review tracker, and a learning engine
that scores executors. This project models the deterministic core of ten of
its Python modules and proves properties about it. The language model, the
network, the clock, uuids and file persistence are either parameters or left out.

One Dafny module per Python module:

| Dafny file | module | Python module |
|---|---|---|
| agentic_ceo.dfy | `AgenticCeo` | agentic_ceo.py: the task parser under a `TASKS` heading, the CEO state, `LogTool`, `register_tool`, `run_task`, the parse-then-extend tails of `plan_day` and `ingest_event`, `reflect` |
| task_manager.dfy | `TaskManagement` | task_manager.py: parent/child links, reviews, subtask creation, delegate completion, review, auto-closing the parent chain, the open-task forest |
| virtual_staff_manager.dfy | `VirtualStaff` | virtual_staff_manager.py: profile guessing, employee creation, role lookup, capacity, assignment, daily reset, summary, the dashboard counts |
| kpi_engine.dfy | `KpiEngine` | kpi_engine.py: threshold registration and the range check of `record_kpi` |
| kpi_trend_analyzer.dfy | `KpiTrends` | kpi_trend_analyzer.py: history with 90-day pruning, recent readings, moving averages, the least-squares slope, direction, projection, breach risk, recommendations |
| learning_engine.dfy | `Learning` | learning_engine.py: success patterns, the no-model quality path, best-executor selection, executor performance, recent scores |
| memory_engine.dfy | `Memory` | memory_engine.py: the append-only category lists and the day summary |
| dashboard.dfy | `Dashboard` | dashboard.py: `parse_snapshot`, the task table counters of `build_tasks_payload`, the `day` selection of the snapshot view |
| company_brain.dfy | `CompanyBrain` | company_brain.py: `run_pending_tasks` and company-profile selection from a parsed config document |
| env_loader.dfy | `EnvLoader` | env_loader.py: `load_env` |
| text.dfy, ordered_dict.dfy, wrappers.dfy | `Text`, `OrderedDict`, `Wrappers` | Python's string methods (`strip`, `lower`, `split(sep, 1)`, `splitlines`, `int()`, `str(int)`), insertion-ordered dictionaries and `collections.Counter`, `Option`/`Result` |

Modelling conventions:
- Objects whose methods update fields in place are classes: the CEO state, the
  CEO, the journal, the task manager, the roster, the KPI engine, the trend
  analyser, the learning engine and the env loader. Their methods carry
  `modifies` clauses and state the whole new state.
- Python dictionaries whose order or value sums matter are association lists
  (`OrderedDict.Dict`). `Put` keeps a key's position and appends a new key at
  the end, as a Python dict does.
- Tasks are values in the state's task list, so a task mutated in place is an
  update of that list entry. Task ids are a counter that stands in for
  `uuid4()`. The record carries `area`, `suggested_owner` and `priority`,
  because the task manager reads and writes them.
- Floats are exact `real`s. A settable float's text rendering (`str(value)`) is
  a function parameter `fmt`.
- Time is an integer count of seconds, passed in as `now` or `timestamp`.
  Output the model supplies is also a parameter: the model's reply text and
  its token-usage report, or `None` when there is none.

## Model

| member | source | states |
|---|---|---|
| AgenticCeo.ItemIsNotHeading | agentic_ceo.py:327-335 | a numbered line (digit, then `.`) never reads as a `TASKS` heading, so the heading test cannot swallow a task line |
| AgenticCeo.SplitTitleMeaning | agentic_ceo.py:339-345 | the content is cut at the first en dash if there is one, otherwise at the first `-`, with both halves stripped; with neither separator, title and description are both the stripped content |
| AgenticCeo.DraftTitleRule | agentic_ceo.py:335-345 | an item's content is the text after `<digit>.`, stripped; with an en dash the title and description are the stripped parts around the first one, else around the first hyphen, else both are the whole content |
| AgenticCeo.SuggestedToolRule | agentic_ceo.py:346-359 | the suggested tool is `slack_tool` exactly when the lower-cased title contains "message the team" or "notify the team", with message `"[Agentic CEO] " + desc`; otherwise it is `log_tool` with `"[From event <type>] " + desc` |
| AgenticCeo.NoSeparatorDuplicatesTitle | agentic_ceo.py:345 | with no en dash and no `-` after the number, the description equals the title |
| AgenticCeo.NonItemIgnored | agentic_ceo.py:331-335 | a line that is not `<digit>.<rest>` (blank lines included) adds no task wherever it stands |
| AgenticCeo.MultiDigitNumberDropped | agentic_ceo.py:335 | a line numbered with two digits, such as `10. X`, produces no task |
| AgenticCeo.NoHeadingNoTasks | agentic_ceo.py:319-332 | text with no line whose stripped upper-cased form starts with `TASKS` yields no tasks |
| AgenticCeo.BeforeHeadingIgnored | agentic_ceo.py:323-335 | everything before the first heading, numbered lines included, is ignored; the result is the drafts of the lines after it |
| AgenticCeo.FirstWhereMeaning | agentic_ceo.py:326-329 | the first heading is found: no line is a heading, or the index found is a heading and no earlier line is |
| AgenticCeo.ParseLinesStep | agentic_ceo.py:323-370 | one more line extends the result by that line's draft exactly when a heading has been seen, the line is not a heading and it is a task line |
| AgenticCeo.ParseLinesAt | agentic_ceo.py:323-370 | the same step at line `i` of the text's lines: the prefix up to `i` inclusive extends the prefix before `i` by that line's draft exactly when a heading was seen before, the line is not a heading and it is a task line |
| AgenticCeo.ParseTasks | agentic_ceo.py:307-372 | the loop with its `in_tasks` flag returns exactly the drafts of the text's lines after the first heading, in line order |
| AgenticCeo.ToTasks | agentic_ceo.py:361-369 | each draft becomes a task with a fresh id, owner "Agentic CEO", status `todo`, the state's date and the draft's tool and input, in draft order |
| AgenticCeo.CeoState.AddDrafts | agentic_ceo.py:217-218 | `state.tasks.extend(new_tasks)`: the old tasks, then the new ones; ids stay fresh |
| AgenticCeo.LogTool.Run | agentic_ceo.py:116-122 | the entry is `[timestamp] message`, with an empty message when the payload has none, and it is appended to the sink |
| AgenticCeo.Ceo.constructor | agentic_ceo.py:150-163 | the tool table is the one given, or empty when none is given; a fresh state with no tasks, and the focus theme built from the company's name and north-star metric |
| AgenticCeo.Ceo.RegisterTool | agentic_ceo.py:169-170 | the tool is stored under its name, replacing any earlier one |
| AgenticCeo.Ceo.PlanDay | agentic_ceo.py:202-220 | token usage is logged when reported, one decision is logged, and the parsed tasks of the plan text are appended, the id counter advancing by their number; events, tool calls, KPIs and reflections are unchanged |
| AgenticCeo.Ceo.IngestEvent | agentic_ceo.py:243-261 | token usage is logged when reported, then the event and one decision are logged, and the parsed tasks of the reply are appended, the id counter advancing by their number; tool calls, KPIs and reflections are unchanged |
| AgenticCeo.Ceo.RunTask | agentic_ceo.py:263-290 | the task always ends `done` and nothing else in the list changes; with a registered suggested tool, the tool's sink gains the entry `[timestamp] message`, exactly that tool call (name, payload, result) is logged, the result is `{ok: true, logged: entry}` and names `log_tool`, and no decision is logged; otherwise one manual-completion decision is logged and the result has no tool and an empty payload; every registered tool's sink gains exactly `SinkLine` (the entry for the tool object that ran, nothing for any other, even one registered under a second name); events, KPIs, token usage, reflections, the tool table and the id counter are unchanged |
| AgenticCeo.Ceo.Reflect | agentic_ceo.py:292-301 | the reflection is the day summary plus the task count line; it is recorded as a reflection, which leaves the summary and every other journal list unchanged |
| TaskManagement.FindTask | task_manager.py:81-85 | `None` exactly when no task has the id; otherwise the index of the first task with it |
| TaskManagement.ParentOf | task_manager.py:90-95 | `None` exactly when no child list holds the id; otherwise a parent whose list holds it |
| TaskManagement.ParentOfIsFirst | task_manager.py:90-95 | the parent found is the first one, in link order, whose list holds the id |
| TaskManagement.ReviewStatusOf | task_manager.py:113-114 | the stored review's status, or "none" for a task never reviewed |
| TaskManagement.ParentListsChild | task_manager.py:87-95 | the parent found for a child lists that child among its children |
| TaskManagement.AddChildKeepsForest | task_manager.py:149-155 | appending a new id to a parent's child list keeps the links a forest whose parents precede their children (each child has one parent) |
| TaskManagement.ExistingChildrenMeaning | task_manager.py:274-279 | the fetched child tasks are exactly the listed children that exist |
| TaskManagement.AutoClose | task_manager.py:259-306 | the upward recursion terminates; it changes no task except by setting status `done`, and never one whose id is above the starting parent |
| TaskManagement.AutoCloseParent | task_manager.py:266-301 | an unknown parent, or one with no existing child or with a child that is not done and approved, is left as it is and nothing is logged; otherwise it is marked `done` and the first logged decision is its auto-close |
| TaskManagement.AutoCloseStep | task_manager.py:291-306 | after closing a parent, the chain continues with the grandparent exactly when there is one |
| TaskManagement.AutoCloseMonotone | task_manager.py:259-306 | a `done` task stays `done` |
| TaskManagement.UnapprovedChildBlocks | task_manager.py:284-289 | a parent with an existing child whose review is not `approved` is not closed and nothing is logged |
| TaskManagement.StatusKeepsFreshIds | task_manager.py:189-190 | changing a task's status keeps the ids fresh and distinct |
| TaskManagement.BuildNode | task_manager.py:337-356 | a node exists exactly when the task exists and is not `done`; it carries the task and its review status, and its children are open nodes from the task's own child list |
| TaskManagement.BuildChildren | task_manager.py:346-350 | every open existing child of the list appears as a node; nothing else does |
| TaskManagement.RootIds | task_manager.py:327-335 | the roots are exactly the ids of tasks that are nobody's child |
| TaskManagement.OpenTaskTree | task_manager.py:358-364 | every tree node is open and every root is nobody's child |
| TaskManagement.OpenRootsAppear | task_manager.py:358-364 | every open task that is nobody's child is a root of the tree |
| TaskManagement.RootIdsInOrder | task_manager.py:327-335 | the roots are the ids of the tasks that are nobody's child, in task-list order and with nothing else |
| TaskManagement.BuildChildrenInOrder | task_manager.py:346-350 | the children built from an id list are the nodes of the ids that are open existing tasks, in the list's order |
| TaskManagement.BuildNodeChildren | task_manager.py:337-356 | a node's children are the nodes of its open children, in the order of its own child list |
| TaskManagement.OpenTaskTreeInOrder | task_manager.py:358-364 | the forest is the nodes of the open root tasks, in task-list order |
| TaskManagement.OpenRootsAll | task_manager.py:358-364 | every open task that is nobody's child heads a tree of the forest |
| TaskManagement.TaskManager.constructor | task_manager.py:32-58 | no links and no reviews |
| TaskManagement.TaskManager.SetReview | task_manager.py:97-111 | the task's review is replaced by the new status, reviewer and comments; links are unchanged |
| TaskManagement.TaskManager.CreateSubtask | task_manager.py:120-167 | an unknown parent is an error and nothing changes; otherwise the subtask takes the next id (which advances by one), inherits area, suggested owner and priority where the argument is empty, is appended to the tasks and to the end of the parent's child list only, and one decision is logged; reviews and the other journal lists are unchanged |
| TaskManagement.TaskManager.ChildrenClosed | task_manager.py:270-289 | the two loops answer exactly whether the parent has an existing child and all existing children are done and approved |
| TaskManagement.TaskManager.MaybeAutoCloseParentChain | task_manager.py:259-306 | the tasks and the logged decisions are exactly those of the auto-close recursion; the id counter, events, tool calls, KPIs, token usage and reflections are unchanged |
| TaskManagement.TaskManager.MarkTaskDoneByDelegate | task_manager.py:169-210 | an unknown id returns `None` and changes nothing; otherwise the task becomes `done` and owned by the delegate, its review becomes `awaiting`, one decision is logged, and no other task changes; the links, the id counter, events, tool calls, KPIs, token usage and reflections are unchanged |
| TaskManagement.TaskManager.ReviewTask | task_manager.py:212-253 | an unknown id returns `None`; otherwise the review becomes `approved` or `rejected` and the review decision is logged; when approved and a parent exists, the tasks and the decisions after the review's are exactly those of the parent chain's auto-close, and otherwise the review decision is the only one logged and the tasks are unchanged; the links, the id counter, events, tool calls, KPIs, token usage and reflections are unchanged |
| TaskManagement.TaskManager.GetOpenTaskTree | task_manager.py:312-364 | the forest is the nodes of the state's open root tasks, in task-list order: every root is a task of the state that is nobody's child, every node is open, and every open task that is nobody's child heads a tree |
| VirtualStaff.GuessProfile | virtual_staff_manager.py:104-152 | every guessed profile's tools include `log_tool` |
| VirtualStaff.GuessProfileFirstMatch | virtual_staff_manager.py:118-146 | the first keyword group, in the order Sales, Marketing, Product, Operations, Technology, Finance, that matches the lower-cased role decides the profile |
| VirtualStaff.GuessProfileNoMatch | virtual_staff_manager.py:113-116 | with no keyword group matching, the profile is General with the default skills and tools |
| VirtualStaff.GrowthMarketingIsSales | virtual_staff_manager.py:118-121 | "Growth Marketing" is Sales, because the Sales group is tried first |
| VirtualStaff.CreateEmployee | virtual_staff_manager.py:53-90 | a new employee is active with counter 0; title defaults to the role; empty skills, tools or department fall back to the guessed profile |
| VirtualStaff.FindByRole | virtual_staff_manager.py:232-235 | exactly the employees, active ones when asked, whose lower-cased role or title contains the lower-cased query |
| VirtualStaff.FindByKpi | virtual_staff_manager.py:237-239 | exactly the active employees whose lower-cased owner KPI (empty when unset) equals the lower-cased name |
| VirtualStaff.ActiveOf | virtual_staff_manager.py:229-230 | exactly the active employees |
| VirtualStaff.FindByRoleInOrder | virtual_staff_manager.py:232-235 | the role lookup is the roster filtered by its test, in roster order |
| VirtualStaff.FindByKpiInOrder | virtual_staff_manager.py:237-239 | the KPI lookup is the roster filtered by its test, in roster order |
| VirtualStaff.ActiveOfInOrder | virtual_staff_manager.py:229-230 | the active employees are the roster filtered by `active`, in roster order |
| VirtualStaff.CapacityAppendMatching | virtual_staff_manager.py:293-303 | adding a matching active employee raises the count by one and the remaining slots by its `max(0, max - assigned)` |
| VirtualStaff.CapacityAppendOther | virtual_staff_manager.py:293-303 | adding an inactive or non-matching employee leaves the capacity unchanged |
| VirtualStaff.Bump | virtual_staff_manager.py:374 | the counter rises by exactly one and nothing else changes |
| VirtualStaff.CapacityAfterAssign | virtual_staff_manager.py:370-374 | an assignment keeps every role's count and lowers its remaining slots by one exactly when the employee counts for the role and had a slot left |
| VirtualStaff.FindAssignable | virtual_staff_manager.py:370-372 | the first employee with the id who is active, or `None` when there is none |
| VirtualStaff.CapacityAfterReset | virtual_staff_manager.py:396-401 | the daily reset keeps every role's count and never lowers its remaining slots |
| VirtualStaff.VirtualStaffManager.constructor | virtual_staff_manager.py:173-189 | an empty roster |
| VirtualStaff.VirtualStaffManager.CreateVirtualEmployee | virtual_staff_manager.py:243-289 | the new employee, with a fresh id, is appended, and one tool call is logged when there is a journal; events, decisions, KPIs, token usage and reflections are unchanged |
| VirtualStaff.VirtualStaffManager.EnsureCapacityForRole | virtual_staff_manager.py:305-352 | exactly one employee is created iff the remaining slots are below `min_task_slots`; it takes the next id (which advances by one), has `max_daily_tasks = min_task_slots` and counter 0, its creation is logged as one tool call with the given or default reason, and the count rises by one and the slots by `max(0, min_task_slots)`; otherwise the roster, the id counter and the tool calls are unchanged and the first active match (or `None`) is returned; events, decisions, KPIs, token usage and reflections never change |
| VirtualStaff.VirtualStaffManager.AssignTask | virtual_staff_manager.py:356-394 | an unknown or inactive id returns `None` and changes nothing; otherwise exactly that employee's counter rises by one and one tool call is logged; the id counter, events, decisions, KPIs, token usage and reflections never change |
| VirtualStaff.VirtualStaffManager.ResetDailyCounters | virtual_staff_manager.py:396-402 | every employee's counter becomes 0, inactive ones included, and nothing else changes |
| VirtualStaff.VirtualStaffManager.Summarize | virtual_staff_manager.py:404-445 | one view per active employee in roster order; the totals are the roster size and the number of active employees |
| VirtualStaff.RoleCapacitiesMeaning | virtual_staff_manager.py:486-493 | the per-role table has one entry per distinct active role, each holding that role's capacity |
| VirtualStaff.RoleCapacitiesGet | virtual_staff_manager.py:486-493 | looking up any listed role gives its capacity |
| VirtualStaff.CountActive | virtual_staff_manager.py:480-484 | the loop counts departments (with "Unknown" for none) and roles exactly as counters of the active employees |
| VirtualStaff.CapacityTable | virtual_staff_manager.py:486-494 | the loop over the active employees' roles, with its seen-role set, builds the per-role table and the sum of its remaining slots |
| VirtualStaff.AddRole | virtual_staff_manager.py:488-494 | one step of that loop: a role already seen changes nothing; a new one is added to the set, gets its capacity entry and adds its remaining slots to the total |
| VirtualStaff.FromManager | virtual_staff_manager.py:469-503 | the dashboard figures are those counters and tables, and the department counts and the role counts each add up to the number of active employees |
| KpiEngine.LastNamedMeaning | kpi_engine.py:38-40 | no threshold has the name, or the one found is the last with that name |
| KpiEngine.RegisterAllGet | kpi_engine.py:38-40 | after `register_many`, a name maps to the last threshold with that name, and names not in the batch keep their entries |
| KpiEngine.Messages | kpi_engine.py:88-101 | one below-min message iff min is set and value < min, then one above-max message iff max is set and value > max, in that order |
| KpiEngine.MessagesInRange | kpi_engine.py:91-101 | no message exactly when the value is in range; a value equal to a bound is in range |
| KpiEngine.CrossedBoundsBothMessages | kpi_engine.py:88-101 | with min > max, a value between them gets both messages, min first |
| KpiEngine.KpiEngine.constructor | kpi_engine.py:33 | no thresholds |
| KpiEngine.KpiEngine.RegisterThreshold | kpi_engine.py:35-36 | the threshold is stored under its name, replacing an earlier one; other names keep their thresholds |
| KpiEngine.KpiEngine.RegisterMany | kpi_engine.py:38-40 | the loop registers the batch in order |
| KpiEngine.KpiEngine.RecordKpi | kpi_engine.py:42-126 | the reading is journalled exactly once; the alert count is 1 iff a threshold exists and the value is out of range, and it is 0 otherwise; with 0, no event, decision, token usage or task is added; with 1, exactly one `kpi_alert` event carries the joined messages, the CEO's answer is logged as the `event_decision` decision, its parsed tasks are appended and its token usage is logged when reported; tool calls and reflections never change |
| KpiTrends.KeepSinceMembers | kpi_trend_analyzer.py:109-112 | the pruned history keeps exactly the entries at or after the cutoff |
| KpiTrends.InsertSorted | kpi_trend_analyzer.py:141 | inserting by timestamp keeps the readings sorted |
| KpiTrends.SortByTime | kpi_trend_analyzer.py:141 | the result is sorted by timestamp and is a permutation of the input |
| KpiTrends.SortSorted | kpi_trend_analyzer.py:141 | already sorted readings come back unchanged |
| KpiTrends.SumValuesBounds | kpi_trend_analyzer.py:171-172 | values within [lo, hi] sum to within [n·lo, n·hi] |
| KpiTrends.MovingAverage | kpi_trend_analyzer.py:159-172 | `None` iff fewer than 2 readings fall in the window; otherwise a value that times their count is their sum, their mean |
| KpiTrends.Mean | kpi_trend_analyzer.py:172 | the mean times the count is the sum |
| KpiTrends.AverageWithinBounds | kpi_trend_analyzer.py:159-172 | a moving average of values within [lo, hi] lies within [lo, hi] |
| KpiTrends.KeepSinceBounds | kpi_trend_analyzer.py:163-166 | filtering keeps values within their bounds |
| KpiTrends.SumXClosed | kpi_trend_analyzer.py:207-209 | Σx over x = 0..n-1 is n(n-1)/2 |
| KpiTrends.SumX2Closed | kpi_trend_analyzer.py:207-212 | Σx² over x = 0..n-1 is (n-1)n(2n-1)/6 |
| KpiTrends.DenominatorPositive | kpi_trend_analyzer.py:204-222 | for n ≥ 2 the regression denominator n·Σx² − (Σx)² is positive, so its zero branch is unreachable |
| KpiTrends.ProjectionExtendsSlope | kpi_trend_analyzer.py:214-245 | for a non-zero current value, the 7-day projection is the current value plus seven times the slope |
| KpiTrends.DirectionOf | kpi_trend_analyzer.py:227-239 | increasing iff both averages exist and avg7 > 1.02·avg30; decreasing iff they exist, it is not increasing and avg7 < 0.98·avg30; stable otherwise |
| KpiTrends.Strength | kpi_trend_analyzer.py:227-239 | the strength lies in [-1, 1]; it is positive only when increasing, negative only when decreasing and 0 when stable |
| KpiTrends.MinRule | kpi_trend_analyzer.py:251-260 | a matching min rule gives a risk above `low` and a non-empty recommendation |
| KpiTrends.MaxRule | kpi_trend_analyzer.py:262-271 | a matching max rule gives a risk above `low` and a non-empty recommendation |
| KpiTrends.Risk | kpi_trend_analyzer.py:247-271 | risk is `low` iff there is no recommendation; above max is critical; below min is critical unless a max rule overrides it; no thresholds give (`low`, `None`) |
| KpiTrends.MaxRuleOverrides | kpi_trend_analyzer.py:262-271 | any matching max rule decides the result, whatever the min block chose |
| KpiTrends.MinRuleStands | kpi_trend_analyzer.py:251-260 | with no matching max rule, a matching min rule decides the result |
| KpiTrends.CriticalReplacedByHigh | kpi_trend_analyzer.py:251-271 | an example of the override: below min (critical) but projected above max gives `high` |
| KpiTrends.Values | kpi_trend_analyzer.py:171 | the values of the readings, in order |
| KpiTrends.KpiTrendAnalyzer.constructor | kpi_trend_analyzer.py:48-52 | empty history |
| KpiTrends.KpiTrendAnalyzer.RecordKpi | kpi_trend_analyzer.py:80-114 | the entry is appended, then entries older than 90 days before it are dropped; the new entry always survives and other metrics are unchanged |
| KpiTrends.KpiTrendAnalyzer.RecentReadings | kpi_trend_analyzer.py:116-142 | an unknown metric gives `[]`; otherwise exactly the readings within `days` of now, sorted by timestamp |
| KpiTrends.KpiTrendAnalyzer.AnalyzeTrend | kpi_trend_analyzer.py:174-285 | `None` iff fewer than 3 readings fall in 30 days; otherwise the current value is the last reading, both moving averages, the rate of change over the last seven readings, the strength, the week-ahead projection, and the risk and recommendation given by the bounds are those of the readings of the last 30 days, and the strength's sign matches the direction |
| KpiTrends.KpiTrendAnalyzer.TrendsOf | kpi_trend_analyzer.py:287-311 | every trend produced is well formed |
| KpiTrends.KpiTrendAnalyzer.TrendsForAll | kpi_trend_analyzer.py:300-311 | the loop collects the trends of the metrics that have one, in threshold-table order |
| KpiTrends.KpiTrendAnalyzer.ProactiveRecommendations | kpi_trend_analyzer.py:313-334 | the loop returns the recommendations of the medium, high and critical trends in order, one per such trend |
| KpiTrends.RecommendationsCount | kpi_trend_analyzer.py:329-332 | for well-formed trends, there are exactly as many recommendations as trends at risk |
| KpiTrends.KpiTrendAnalyzer.Analyses | kpi_trend_analyzer.py:300-311 | one analysis per metric of the table, in its order |
| KpiTrends.TrendsOfAnalyses | kpi_trend_analyzer.py:300-311 | the trends of a table are the analyses that produced one, in table order |
| KpiTrends.TrendsOfSound | kpi_trend_analyzer.py:300-311 | every collected trend is the analysis of some metric of the table |
| KpiTrends.TrendsOfComplete | kpi_trend_analyzer.py:300-311 | every metric of the table with enough data contributes its trend |
| KpiTrends.RecommendationsMeaning | kpi_trend_analyzer.py:313-334 | for well-formed trends, a text is recommended iff some trend above low risk carries it |
| KpiTrends.AtRiskMetricRecommended | kpi_trend_analyzer.py:313-334 | a metric of the table whose trend is at medium, high or critical risk has a recommendation, and it is among the proactive recommendations |
| KpiTrends.RecommendedOnlyAtRisk | kpi_trend_analyzer.py:313-334 | every proactive recommendation is that of some metric of the table at risk above low |
| Learning.NoRoleSharesKey | learning_engine.py:220 | with no role the key uses "none", as does the role "none" and also the empty role |
| Learning.CountSuccess | learning_engine.py:217-236 | successes never exceed the number of scores counted |
| Learning.PatternScoresSnoc | learning_engine.py:242-247 | appending a score adds its value to its own pattern's score list |
| Learning.Bumped | learning_engine.py:222-248 | total rises by one; successes rise by one iff the score is ≥ 7.0; the rate is successes/total; the average is the mean of the pattern's stored scores, the new one included |
| Learning.TracksAfterUpdate | learning_engine.py:208-248 | the update keeps every pattern tracking the counts and mean of its own scores |
| Learning.PatternCounts | learning_engine.py:233-236 | every stored pattern has 0 ≤ successes ≤ total and total > 0 |
| Learning.SuccessRateUnit | learning_engine.py:239 | every stored success rate lies in [0, 1] |
| Learning.OptionScore | learning_engine.py:272-281 | an option with no pattern scores 0.5 |
| Learning.OptionScores | learning_engine.py:271-281 | one score per option, in order |
| Learning.ScanStep | learning_engine.py:283-285 | one step of the arg-max loop, with strict `>`, keeps the best so far and its first index |
| Learning.UnknownOptionsFirstWins | learning_engine.py:265-287 | when no option has a pattern, the first one wins |
| Learning.Relevant | learning_engine.py:301-305 | exactly the stored patterns with the executor type and role |
| Learning.ByArea | learning_engine.py:329-336 | one entry per area of the relevant patterns |
| Learning.SumSuccessesBound | learning_engine.py:316-317 | summed successes never exceed summed totals |
| Learning.WeightedQualityBounds | learning_engine.py:321 | the weighted sum of averages within [lo, hi] lies within [lo·total, hi·total] |
| Learning.LearningEngine.constructor | learning_engine.py:57-67 | no scores and no patterns |
| Learning.LearningEngine.UpdateSuccessPatterns | learning_engine.py:214-248 | only the score's pattern changes: it is created if missing, then bumped |
| Learning.LearningEngine.AssessTaskQuality | learning_engine.py:138-212 | without a model the score is 7.0 with the fixed reason; exactly one score is appended and one pattern is updated |
| Learning.LearningEngine.BestExecutorForTask | learning_engine.py:250-287 | `None` for no options and iff no score is positive; otherwise the first option with the highest score |
| Learning.LearningEngine.ExecutorPerformance | learning_engine.py:289-337 | all zeros with no relevant pattern; otherwise the summed totals and successes, their ratio, the weighted mean quality and the per-area table |
| Learning.LearningEngine.AllPatterns | learning_engine.py:339-341 | the stored patterns in insertion order |
| Learning.LearningEngine.RecentQualityScores | learning_engine.py:343-345 | the slice `scores[-limit:]`: the last `limit` scores, the whole list for `limit = 0`, and all but the first `-limit` for a negative limit |
| Learning.PerformanceRateUnit | learning_engine.py:316-318 | an executor's success rate lies in [0, 1] |
| Learning.PerformanceQualityBounds | learning_engine.py:320-322 | an executor's average quality lies within any bounds that hold every pattern's average and include 0, the value reported when there is nothing relevant |
| Memory.TotalTokensAppend | memory_engine.py:122-124 | one more usage entry adds its `total_tokens` |
| Memory.TotalTokensWithoutCounters | memory_engine.py:122-124 | entries without `total_tokens` count 0 |
| Memory.SummaryDateOnlyInHeader | memory_engine.py:127-134 | the date changes only the header line; the counted lines are the same for every date |
| Memory.MemoryEngine.constructor | memory_engine.py:21-23 | every category list is empty |
| Memory.MemoryEngine.RecordEvent | memory_engine.py:42-49 | one entry appended to events; other categories unchanged |
| Memory.MemoryEngine.RecordDecision | memory_engine.py:51-58 | one entry appended to decisions; other categories unchanged |
| Memory.MemoryEngine.RecordToolCall | memory_engine.py:60-73 | one entry appended to tool calls; other categories unchanged |
| Memory.MemoryEngine.RecordReflection | memory_engine.py:75-81 | one entry appended to reflections; other categories and the summary unchanged |
| Memory.MemoryEngine.RecordKpi | memory_engine.py:83-99 | one entry appended to KPIs; other categories unchanged |
| Memory.MemoryEngine.RecordTokenUsage | memory_engine.py:101-111 | one entry appended to token usage; LLM calls rise by one and total tokens by the entry's `total_tokens` |
| Memory.MemoryEngine.Summarize | memory_engine.py:115-125 | the counts are the lengths of decisions, tool calls, KPIs, events and token usage, and the tokens are summed |
| Dashboard.SearchMeaning | dashboard.py:118 | `re.search` for `marker\s*(\d+)`: no match anywhere, or the number at some position |
| Dashboard.FirstMatchIsFirst | dashboard.py:118 | the search returns the leftmost match: no earlier position matches |
| Dashboard.SearchDateMeaning | dashboard.py:103-105 | the date search finds nothing exactly when no position holds `Reflection for\s+dddd-dd-dd` |
| Dashboard.ParsedCount | dashboard.py:107-123 | each label's count is the number its pattern finds, or the default 0 when it finds none; the keys are those of the defaults |
| Dashboard.EmptySnapshot | dashboard.py:88-100 | an empty snapshot gives no date and every count 0 |
| Dashboard.ParseSnapshot | dashboard.py:81-125 | the loop over the patterns computes exactly the parsed metrics |
| Dashboard.TryPatterns | dashboard.py:117-123 | the loop applies each label in order |
| Dashboard.ReadBack | dashboard.py:99-125 | any snapshot in which the date search and each count pattern find given values parses to exactly that date and those counts, with 0 where a pattern finds nothing |
| Dashboard.SearchSummary | memory_engine.py:127-134 | in a day summary, each count pattern finds the number printed on its own line, the tokens pattern only when the total is not negative, and the open-tasks pattern finds nothing |
| Dashboard.SummaryReadBack | memory_engine.py:127-134 | parsing a day summary recovers its date and every count it prints; tokens read 0 when negative (the pattern has no sign); open tasks stay 0 |
| Dashboard.OpenTasksNotInSummary | dashboard.py:114 | a day summary never contains the open-tasks label |
| Dashboard.TokensInSummary | dashboard.py:113 | the tokens pattern finds the printed total when it is not negative, and nothing otherwise |
| Dashboard.RowOf | dashboard.py:136-150 | a row's area and status are never empty; a task's non-empty area and status are kept as they are |
| Dashboard.BuildTasksPayload | dashboard.py:128-158 | one row per task in order, then counters of the rows' areas and statuses |
| Dashboard.TaskCountsAddUp | dashboard.py:151-152 | the area counts and the status counts each add up to the number of tasks |
| Dashboard.EmptyFieldsCountedUnderFallback | dashboard.py:141-152 | no counter has an empty key; a task without area or status is counted under the fallback |
| Dashboard.SnapshotSourceFor | dashboard.py:237-249 | live iff the day is "today"; an offset other than 1 comes only from a "d-N" whose N `int()` accepts |
| Dashboard.DaysBackRoundTrip | dashboard.py:242-245 | "d-" followed by a rendered number selects that many days back |
| Dashboard.UnknownDayIsYesterday | dashboard.py:240-249 | anything other than "today" or a valid "d-N" selects one day back |
| CompanyBrain.Pending | company_brain.py:270-271 | at most as many pending tasks as tasks |
| CompanyBrain.MarkDoneAt | company_brain.py:270-273 | after the run, each task is the old task with status `done` |
| CompanyBrain.NothingPendingAfterRun | company_brain.py:270-273 | after the run no task is pending |
| CompanyBrain.PendingEmptyIffAllDone | company_brain.py:270-271 | nothing is pending iff every task is `done` |
| CompanyBrain.BatchJournalSize | company_brain.py:270-273 | a batch records exactly one tool call or one manual decision per task it runs |
| CompanyBrain.RunIfPending | company_brain.py:271-273 | a task not yet `done` is run and its result reported; a `done` task is skipped and changes nothing; a run of a task with a registered tool appends its `ToolCallOf` entry to the tool calls, any other run appends its `ManualDecisionOf` entry to the decisions; each tool's sink gains `SinkLine` for a run and nothing otherwise; events, KPIs, token usage, reflections and the id counter are unchanged |
| CompanyBrain.RunPendingTasks | company_brain.py:265-274 | `run_task` is called exactly for the tasks not `done` at the start, in list order, one result each; afterwards every task is `done`; the tool calls gain `ToolCallsOf` the pending tasks (the entry of each one with a registered tool, in order), the decisions gain `ManualDecisionsOf` them (the manual-completion entry of each other one, in order), and every tool's sink gains `SinkLines` of them (the lines of the pending tasks whose tool is that object, in order); events, KPIs, token usage, reflections and the id counter are unchanged |
| CompanyBrain.FormatOf | company_brain.py:61-70 | `.yml`/`.yaml` (any case) is YAML, `.json` is JSON, anything else is unsupported |
| CompanyBrain.Companies | company_brain.py:72 | a document that is not a mapping is an error; otherwise the table is `data["companies"]` when the key is present, else the whole document |
| CompanyBrain.CompanyEntry | company_brain.py:74-77 | in a mapping, the entry under the key, or a `KeyError` when the key is missing; anything else cannot be indexed and is an error |
| CompanyBrain.FirstMissing | company_brain.py:80-84 | the first required field that is missing, if any |
| CompanyBrain.ProfileOf | company_brain.py:79-89 | a profile is built only from an entry with every required field |
| CompanyBrain.LoadCompanyProfile | company_brain.py:57-89 | a missing file is `FileNotFoundError`, another suffix is `ValueError`, YAML without the library is `ImportError` |
| CompanyBrain.MissingCompany | company_brain.py:74-75 | a key the table lacks is reported as not found |
| CompanyBrain.LoadNestedRoundTrip | company_brain.py:72-89 | a profile written under `companies` loads back unchanged |
| CompanyBrain.LoadTopLevelRoundTrip | company_brain.py:72-89 | a profile written at top level loads back unchanged |
| CompanyBrain.EntryRoundTrip | company_brain.py:79-89 | building a profile from its own entry gives it back |
| CompanyBrain.OptionalDefaults | company_brain.py:85-88 | optional fields default to `[]`, `[]`, 0 and `None` |
| CompanyBrain.NullWebsite | company_brain.py:88 | an explicit null website is the same as none |
| CompanyBrain.MissingFieldReported | company_brain.py:80-84 | the first missing required field is the one reported |
| EnvLoader.ParseLine | env_loader.py:32-38 | a line is skipped iff it is blank, a comment or has no `=` once stripped; the key has no `=` |
| EnvLoader.ParsedLines | env_loader.py:31 | each line is parsed, in order |
| EnvLoader.SplitAtFirstEquals | env_loader.py:36-38 | the line splits at its first `=`: the stripped key and the rest, `=` included, cleaned of whitespace, then `"`, then `'` |
| EnvLoader.FirstSplitUnique | env_loader.py:36 | there is only one way to cut at an `=` with none before it |
| EnvLoader.NeverOverwrites | env_loader.py:39-40 | a variable already set keeps its value |
| EnvLoader.OnlyFileKeys | env_loader.py:39-40 | every new variable comes from a line of the file |
| EnvLoader.FirstWins | env_loader.py:39-40 | among duplicate keys in the file, the first sets the value |
| EnvLoader.FileKeysPresent | env_loader.py:39-40 | every non-empty key of the file is set afterwards |
| EnvLoader.ReloadNoChange | env_loader.py:31-40 | applying the same file twice changes nothing the second time |
| EnvLoader.BlankLineSkipped | env_loader.py:33 | an empty line sets nothing |
| EnvLoader.EnvLoader.constructor | env_loader.py:7 | the flag starts unset |
| EnvLoader.EnvLoader.LoadEnv | env_loader.py:10-42 | nothing happens once loaded; a missing file only sets the flag; otherwise the file's lines are applied in order and the flag is set |
| EnvLoader.EnvLoader.ApplyLines | env_loader.py:31-40 | the loop applies each parsed line to the environment |
| Text.Strip | env_loader.py:32 | `str.strip()`: no longer than the input and with no whitespace at either end |
| Text.StripIdempotent | env_loader.py:37 | stripping twice is stripping once |
| Text.StripChar | env_loader.py:38 | `str.strip(q)`: no longer than the input and with no `q` at either end |
| Text.Lower | agentic_ceo.py:346 | `str.lower()` character by character |
| Text.Upper | task_manager.py:238 | `str.upper()` character by character |
| Text.SplitOnce | env_loader.py:36 | `split(sep, 1)`: `None` iff no separator; otherwise the part before the first separator and the rest |
| Text.Lines | agentic_ceo.py:319 | lines contain no line-break character |
| Text.NatToStringRoundTrip | memory_engine.py:129 | reading back a printed count gives the count |
| Text.ParseIntOfRendered | dashboard.py:121 | `int(str(i)) == i` |
| OrderedDict.PutGet | kpi_engine.py:36 | after storing a key, it maps to the new value and other keys are unchanged |
| OrderedDict.PutKeys | kpi_engine.py:36 | storing keeps the key order and appends a new key at the end |
| OrderedDict.CountAllGet | dashboard.py:151-152 | a `Counter` holds each item's number of occurrences |
| OrderedDict.CountAllTotal | dashboard.py:151-152 | a `Counter`'s counts add up to the number of items |

## Left out

- The language model, Slack, tools other than `LogTool`, the MCP and HTTP layers and the web endpoints are outside the model. The model's reply text and its token-usage report are parameters.
- uuids are a counter of fresh ids. `utcnow` and `created_at`/`updated_at`/timestamps are a parameter or omitted.
- File persistence (`_load_*`, `_save_*`, the json and yaml decoders) is left out. The company config arrives as a parsed document; file existence, suffix and library availability are parameters.
- IEEE floating-point rounding is not modelled: values are exact reals. `str(float)` in messages is the parameter `fmt`.
- Calendar arithmetic in `get_previous_date_str` is left out: the day selection stops at the offset. The "No snapshot available" fallback is also left out, because `summarize_day` cannot raise in the model.
- `brain.snapshot()` and `get_dashboard_state()` of the dashboard, `to_markdown`, `to_dict` and `format_open_task_tree` are presentation only.
- `Text.Lower`, `Text.Upper`, `Text.IsDigit`: only ASCII letters are case-mapped and only ASCII digits are digits. Python maps all Unicode letters and `\d` matches all Unicode digits.
- `Text.Lines`: it differs from `splitlines()` by yielding an empty line after a final break, between the two characters of `\r\n`, and for empty text. Every consumer skips blank lines, so the results agree.
- `KpiTrends.SortByTime`: the sort is an insertion sort by integer timestamp. Python sorts the ISO timestamp strings, which agrees for same-format timestamps; stability among equal timestamps is not stated.
- `KpiTrends.Slope`: the least-squares slope is written out as the source computes it; that it minimises the squared error is not proved, because nothing in the source relies on that. `ProjectionExtendsSlope` states how the projection uses the slope.
- `CompanyBrain.ProfileOf`: pydantic's lax coercions (numbers from strings and so on) are not modelled; a field of the wrong JSON type is an error.
- Cross-module mismatches, such as `company_brain.py` calling `record_kpi`/`evaluate_alerts` with signatures that `kpi_engine.py` does not have, or building thresholds with `metric_name`, are not modelled. Each module is modelled against its own definitions.
- The rest of `company_brain.py` (KPI wiring, `snapshot`, proactive task generation) is not part of this model.
- `EnvLoader.EnvLoader.ApplyLines`, `CompanyBrain.RunIfPending`, `CompanyBrain.RunNext`, `VirtualStaff.AddRole` and `Dashboard.TryPatterns` are loop bodies or loops split out of their callers. Each states exactly its share of the caller's work.
- `AgenticCeo.Ceo.RunTask`: only `LogTool` is a registered tool class, so the tool's own result is that tool's log entry.
