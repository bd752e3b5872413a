/**
 * The virtual-staff ledger: a roster of AI employees, each with a daily task
 * budget and a counter of tasks assigned today; a case-insensitive role
 * lookup; the remaining-slot estimate; automatic hiring when a role runs
 * short; and the dashboard counts built over the active roster.
 * Employee ids (uuid4 in the original) come from a counter; creation
 * timestamps and the JSON roster file are outside the model.
 */
module VirtualStaff {
  import opened Wrappers
  import opened Text
  import opened OrderedDict
  import Memory

  // ---------------------------------------------------------------------
  // Employees and role profiles
  // ---------------------------------------------------------------------

  /** A virtual employee. An empty `department` stands for `None`. */
  datatype Employee = Employee(
    id: nat,
    role: string,
    title: string,
    ownerKpi: Option<string>,
    department: string,
    skills: seq<string>,
    tools: seq<string>,
    maxDailyTasks: int,
    active: bool,
    notes: string,
    tasksAssignedToday: nat)

  /** The department, skills and tools guessed for a role. */
  datatype Profile = Profile(department: string, skills: seq<string>, tools: seq<string>)

  /** Some keyword of `keywords` occurs in `r` (`any(k in r for k in keywords)`). */
  predicate AnyKeyword(r: string, keywords: seq<string>) {
    exists k :: k in keywords && Contains(r, k)
  }

  const SalesKeywords: seq<string> := ["sales", "sdr", "closer", "bdm", "growth"]
  const MarketingKeywords: seq<string> := ["marketing", "cmo", "brand", "performance"]
  const ProductKeywords: seq<string> := ["product", "pm", "roadmap"]
  const OperationsKeywords: seq<string> := ["ops", "operation", "coo", "support", "cx", "service"]
  const TechnologyKeywords: seq<string> := ["cto", "engineering", "tech", "developer", "ai", "data"]
  const FinanceKeywords: seq<string> := ["finance", "cfo", "accounts", "billing"]

  const SalesProfile := Profile("Sales", ["outbound", "inbound", "crm", "follow-ups", "pipeline-management"],
                                ["email", "slack", "crm", "log_tool"])
  const MarketingProfile := Profile("Marketing", ["funnel-design", "ads", "copywriting", "analysis"],
                                    ["email", "slack", "ads_manager", "log_tool"])
  const ProductProfile := Profile("Product", ["roadmap", "spec-writing", "user-research", "prioritisation"],
                                  ["notion", "slack", "log_tool"])
  const OperationsProfile := Profile("Operations", ["process-design", "sops", "qa", "incident-management"],
                                     ["notion", "slack", "helpdesk", "log_tool"])
  const TechnologyProfile := Profile("Technology", ["architecture", "backlog", "review", "experiments"],
                                     ["slack", "notion", "github", "log_tool"])
  const FinanceProfile := Profile("Finance", ["cashflow", "invoicing", "forecasting"],
                                  ["sheets", "email", "log_tool"])
  const GeneralProfile := Profile("General", ["analysis", "reporting"], ["log_tool"])

  /** The keyword groups in the order they are tried, each with the profile it selects. */
  const ProfileTable: seq<(seq<string>, Profile)> := [
    (SalesKeywords, SalesProfile),
    (MarketingKeywords, MarketingProfile),
    (ProductKeywords, ProductProfile),
    (OperationsKeywords, OperationsProfile),
    (TechnologyKeywords, TechnologyProfile),
    (FinanceKeywords, FinanceProfile)]

  /** The profile guessed for a role from keywords in its lower-cased name. */
  function GuessProfile(role: string): (p: Profile)
    ensures "log_tool" in p.tools
  {
    var r := Lower(role);
    if AnyKeyword(r, SalesKeywords) then SalesProfile
    else if AnyKeyword(r, MarketingKeywords) then MarketingProfile
    else if AnyKeyword(r, ProductKeywords) then ProductProfile
    else if AnyKeyword(r, OperationsKeywords) then OperationsProfile
    else if AnyKeyword(r, TechnologyKeywords) then TechnologyProfile
    else if AnyKeyword(r, FinanceKeywords) then FinanceProfile
    else GeneralProfile
  }

  /**
   * The guess is the profile of the first keyword group that matches, read off
   * the table, and the general profile when none does.
   */
  lemma GuessProfileFirstMatch(role: string, k: nat)
    requires k < |ProfileTable| && AnyKeyword(Lower(role), ProfileTable[k].0)
    requires forall j :: 0 <= j < k ==> !AnyKeyword(Lower(role), ProfileTable[j].0)
    ensures GuessProfile(role) == ProfileTable[k].1
  {
    var r := Lower(role);
    if k >= 1 { assert !AnyKeyword(r, ProfileTable[0].0); }
    if k >= 2 { assert !AnyKeyword(r, ProfileTable[1].0); }
    if k >= 3 { assert !AnyKeyword(r, ProfileTable[2].0); }
    if k >= 4 { assert !AnyKeyword(r, ProfileTable[3].0); }
    if k >= 5 { assert !AnyKeyword(r, ProfileTable[4].0); }
  }

  lemma GuessProfileNoMatch(role: string)
    requires forall j :: 0 <= j < |ProfileTable| ==> !AnyKeyword(Lower(role), ProfileTable[j].0)
    ensures GuessProfile(role) == GeneralProfile
  {
    var r := Lower(role);
    assert !AnyKeyword(r, ProfileTable[0].0) && !AnyKeyword(r, ProfileTable[1].0);
    assert !AnyKeyword(r, ProfileTable[2].0) && !AnyKeyword(r, ProfileTable[3].0);
    assert !AnyKeyword(r, ProfileTable[4].0) && !AnyKeyword(r, ProfileTable[5].0);
  }

  /** A role naming both a sales and a marketing keyword lands in Sales: the first group wins. */
  lemma GrowthMarketingIsSales()
    ensures GuessProfile("Growth Marketing").department == "Sales"
  {
    var r := Lower("Growth Marketing");
    assert r == "growth marketing";
    assert StartsWith(r[0..], "growth");
    assert "growth" in SalesKeywords;
  }

  /**
   * `VirtualEmployee.create`: the title defaults to the role when absent; empty
   * skills, tools and department fall back to the guessed profile.
   */
  function CreateEmployee(id: nat, role: string, title: Option<string>, ownerKpi: Option<string>,
                          department: string, skills: seq<string>, tools: seq<string>,
                          maxDailyTasks: int, notes: string): (e: Employee)
    ensures e.id == id && e.role == role && e.active && e.tasksAssignedToday == 0
    ensures e.maxDailyTasks == maxDailyTasks && e.ownerKpi == ownerKpi && e.notes == notes
    ensures e.title == (if title.Some? then title.value else role)
    ensures e.skills == (if skills != [] then skills else GuessProfile(role).skills)
    ensures e.tools == (if tools != [] then tools else GuessProfile(role).tools)
    ensures e.department == (if department != "" then department else GuessProfile(role).department)
    ensures tools == [] ==> "log_tool" in e.tools
  {
    var guessed := GuessProfile(role);
    Employee(id, role, title.GetOr(role), ownerKpi,
             if department != "" then department else guessed.department,
             if skills != [] then skills else guessed.skills,
             if tools != [] then tools else guessed.tools,
             maxDailyTasks, true, notes, 0)
  }

  // ---------------------------------------------------------------------
  // Lookups and capacity
  // ---------------------------------------------------------------------

  /** The role lookup's test: the lower-cased query occurs in the role or the title. */
  predicate Matches(e: Employee, query: string) {
    Contains(Lower(e.role), Lower(query)) || Contains(Lower(e.title), Lower(query))
  }

  /** `find_by_role`: the matching employees, in roster order. */
  function FindByRole(emps: seq<Employee>, query: string, activeOnly: bool): (r: seq<Employee>)
    ensures |r| <= |emps|
    ensures forall e :: e in r <==> e in emps && (e.active || !activeOnly) && Matches(e, query)
  {
    if |emps| == 0 then []
    else
      var rest := FindByRole(emps[..|emps| - 1], query, activeOnly);
      var e := emps[|emps| - 1];
      assert emps == emps[..|emps| - 1] + [e];
      if (e.active || !activeOnly) && Matches(e, query) then rest + [e] else rest
  }

  /** `find_by_kpi`: active employees whose KPI equals the name, ignoring case. */
  function FindByKpi(emps: seq<Employee>, kpiName: string): (r: seq<Employee>)
    ensures forall e :: e in r <==> e in emps && e.active && Lower(e.ownerKpi.GetOr("")) == Lower(kpiName)
  {
    if |emps| == 0 then []
    else
      var rest := FindByKpi(emps[..|emps| - 1], kpiName);
      var e := emps[|emps| - 1];
      assert emps == emps[..|emps| - 1] + [e];
      if e.active && Lower(e.ownerKpi.GetOr("")) == Lower(kpiName) then rest + [e] else rest
  }

  /** The employees of the roster that are active (`list_active`). */
  function ActiveOf(emps: seq<Employee>): (r: seq<Employee>)
    ensures |r| <= |emps|
    ensures forall e :: e in r <==> e in emps && e.active
  {
    if |emps| == 0 then []
    else
      var rest := ActiveOf(emps[..|emps| - 1]);
      var e := emps[|emps| - 1];
      assert emps == emps[..|emps| - 1] + [e];
      if e.active then rest + [e] else rest
  }

  /** The role lookup is the roster filtered by the test, in roster order. */
  lemma {:induction false} FindByRoleInOrder(emps: seq<Employee>, query: string, activeOnly: bool)
    ensures FindByRole(emps, query, activeOnly) == Filter(emps, (e: Employee) => (e.active || !activeOnly) && Matches(e, query))
  {
    if |emps| > 0 {
      FindByRoleInOrder(emps[..|emps| - 1], query, activeOnly);
    }
  }

  /** The KPI lookup is the roster filtered by the test, in roster order. */
  lemma {:induction false} FindByKpiInOrder(emps: seq<Employee>, kpiName: string)
    ensures FindByKpi(emps, kpiName) == Filter(emps, (e: Employee) => e.active && Lower(e.ownerKpi.GetOr("")) == Lower(kpiName))
  {
    if |emps| > 0 {
      FindByKpiInOrder(emps[..|emps| - 1], kpiName);
    }
  }

  /** The active employees are the roster filtered by `active`, in roster order. */
  lemma {:induction false} ActiveOfInOrder(emps: seq<Employee>)
    ensures ActiveOf(emps) == Filter(emps, (e: Employee) => e.active)
  {
    if |emps| > 0 {
      ActiveOfInOrder(emps[..|emps| - 1]);
    }
  }

  /** Today's free slots of one employee: `max(0, max_daily_tasks - tasks_assigned_today)`. */
  function Slots(e: Employee): nat {
    if e.maxDailyTasks - e.tasksAssignedToday > 0 then e.maxDailyTasks - e.tasksAssignedToday else 0
  }

  function SumSlots(emps: seq<Employee>): nat {
    if |emps| == 0 then 0 else SumSlots(emps[..|emps| - 1]) + Slots(emps[|emps| - 1])
  }

  /** What `_estimate_capacity_for_role` reports. */
  datatype Capacity = Capacity(count: nat, remaining: nat)

  /** The number of active matching employees and the sum of their free slots. */
  function CapacityFor(emps: seq<Employee>, role: string): Capacity {
    var m := FindByRole(emps, role, true);
    Capacity(|m|, SumSlots(m))
  }

  /** Appending an active employee that matches adds one head and that employee's free slots. */
  lemma CapacityAppendMatching(emps: seq<Employee>, e: Employee, role: string)
    requires e.active && Matches(e, role)
    ensures CapacityFor(emps + [e], role) ==
            Capacity(CapacityFor(emps, role).count + 1, CapacityFor(emps, role).remaining + Slots(e))
  {
    assert (emps + [e])[..|emps|] == emps;
    var m := FindByRole(emps, role, true);
    assert FindByRole(emps + [e], role, true) == m + [e];
    assert (m + [e])[..|m|] == m;
  }

  /** Appending an inactive or non-matching employee leaves the capacity as it was. */
  lemma CapacityAppendOther(emps: seq<Employee>, e: Employee, role: string)
    requires !(e.active && Matches(e, role))
    ensures CapacityFor(emps + [e], role) == CapacityFor(emps, role)
  {
    assert (emps + [e])[..|emps|] == emps;
  }

  /** A freshly created employee always matches its own role. */
  lemma MatchesOwnRole(e: Employee)
    requires e.title == e.role
    ensures Matches(e, e.role)
  {
    ContainsInfix([], Lower(e.role), []);
    assert [] + Lower(e.role) + [] == Lower(e.role);
  }

  /** The employee after `tasks_assigned_today += 1`. */
  function Bump(e: Employee): (b: Employee)
    ensures b.tasksAssignedToday == e.tasksAssignedToday + 1
    ensures b.(tasksAssignedToday := e.tasksAssignedToday) == e
  {
    e.(tasksAssignedToday := e.tasksAssignedToday + 1)
  }

  /**
   * One more assignment leaves every role's head count alone and takes one slot
   * from the roles the employee matches, if it had one left.
   */
  lemma {:induction false} CapacityAfterAssign(emps: seq<Employee>, i: nat, role: string)
    requires i < |emps|
    ensures CapacityFor(emps[i := Bump(emps[i])], role).count == CapacityFor(emps, role).count
    ensures CapacityFor(emps[i := Bump(emps[i])], role).remaining ==
            CapacityFor(emps, role).remaining -
            (if emps[i].active && Matches(emps[i], role) && Slots(emps[i]) > 0 then 1 else 0)
  {
    var n := |emps|;
    var emps' := emps[i := Bump(emps[i])];
    var init := emps[..n - 1];
    assert emps == init + [emps[n - 1]];
    if i == n - 1 {
      assert emps' == init + [Bump(emps[i])];
      if emps[i].active && Matches(emps[i], role) {
        CapacityAppendMatching(init, emps[i], role);
        CapacityAppendMatching(init, Bump(emps[i]), role);
      } else {
        CapacityAppendOther(init, emps[i], role);
        CapacityAppendOther(init, Bump(emps[i]), role);
      }
    } else {
      assert emps' == init[i := Bump(emps[i])] + [emps[n - 1]];
      CapacityAfterAssign(init, i, role);
      if emps[n - 1].active && Matches(emps[n - 1], role) {
        CapacityAppendMatching(init, emps[n - 1], role);
        CapacityAppendMatching(init[i := Bump(emps[i])], emps[n - 1], role);
      } else {
        CapacityAppendOther(init, emps[n - 1], role);
        CapacityAppendOther(init[i := Bump(emps[i])], emps[n - 1], role);
      }
    }
  }

  /** The first active employee with the id (`next(... if e.id == employee_id and e.active)`). */
  function FindAssignable(emps: seq<Employee>, id: nat): (r: Option<nat>)
    ensures r.None? ==> forall j :: 0 <= j < |emps| ==> !(emps[j].id == id && emps[j].active)
    ensures r.Some? ==> r.value < |emps| && emps[r.value].id == id && emps[r.value].active
    ensures r.Some? ==> forall j :: 0 <= j < r.value ==> !(emps[j].id == id && emps[j].active)
  {
    if |emps| == 0 then None
    else if emps[0].id == id && emps[0].active then Some(0)
    else match FindAssignable(emps[1..], id)
      case None => None
      case Some(k) => Some(k + 1)
  }

  /** Resetting the counters (inactive employees included) never shrinks a role's capacity. */
  lemma {:induction false} CapacityAfterReset(emps: seq<Employee>, reset: seq<Employee>, role: string)
    requires |reset| == |emps|
    requires forall i :: 0 <= i < |emps| ==> reset[i] == emps[i].(tasksAssignedToday := 0)
    ensures CapacityFor(reset, role).count == CapacityFor(emps, role).count
    ensures CapacityFor(reset, role).remaining >= CapacityFor(emps, role).remaining
  {
    var n := |emps|;
    if n > 0 {
      CapacityAfterReset(emps[..n - 1], reset[..n - 1], role);
      assert emps == emps[..n - 1] + [emps[n - 1]];
      assert reset == reset[..n - 1] + [reset[n - 1]];
      if emps[n - 1].active && Matches(emps[n - 1], role) {
        CapacityAppendMatching(emps[..n - 1], emps[n - 1], role);
        CapacityAppendMatching(reset[..n - 1], reset[n - 1], role);
      } else {
        CapacityAppendOther(emps[..n - 1], emps[n - 1], role);
        CapacityAppendOther(reset[..n - 1], reset[n - 1], role);
      }
    }
  }

  // ---------------------------------------------------------------------
  // The roster
  // ---------------------------------------------------------------------

  /** One row of `summarize()`; `name` is the title, or the role when the title is empty. */
  datatype EmployeeView = EmployeeView(
    id: nat, name: string, role: string, department: string,
    remainingSlots: nat, tasksAssignedToday: nat, maxDailyTasks: int)

  datatype StaffSummary = StaffSummary(employees: seq<EmployeeView>, totalEmployees: nat, activeEmployees: nat)

  function View(e: Employee): EmployeeView {
    EmployeeView(e.id, if e.title != "" then e.title else e.role, e.role, e.department,
                 Slots(e), e.tasksAssignedToday, e.maxDailyTasks)
  }

  /** What `ensure_capacity_for_role` returns. */
  datatype EnsureResult = EnsureResult(
    created: bool, employee: Option<Employee>, capacityBefore: Capacity, capacityAfter: Capacity)

  function OptStr(s: Option<string>): Memory.Value {
    match s
    case Some(v) => Memory.Str(v)
    case None => Memory.Null
  }

  class VirtualStaffManager {
    const companyId: string
    /** The journal hires and assignments are logged to, when there is one. */
    const memory: Memory.MemoryEngine?
    var employees: seq<Employee>
    /** The next employee id: every id below it may be in use, none above. */
    var nextId: nat

    ghost predicate Valid()
      reads this
    {
      forall i :: 0 <= i < |employees| ==> employees[i].id < nextId
    }

    /** A manager with no roster file on disk starts with nobody. */
    constructor(companyId: string, memory: Memory.MemoryEngine?)
      ensures this.companyId == companyId && this.memory == memory
      ensures employees == [] && Valid()
    {
      this.companyId := companyId;
      this.memory := memory;
      employees := [];
      nextId := 0;
    }

    function Capacity(role: string): Capacity
      reads this
    {
      CapacityFor(employees, role)
    }

    /** `create_virtual_employee`: appends one employee built by `CreateEmployee` and logs the hire. */
    method CreateVirtualEmployee(role: string, title: Option<string>, ownerKpi: Option<string>,
                                 department: string, skills: seq<string>, tools: seq<string>,
                                 maxDailyTasks: int, notes: string, logReason: Option<string>)
        returns (e: Employee)
      requires Valid()
      modifies this, memory
      ensures Valid()
      ensures e == CreateEmployee(old(nextId), role, title, ownerKpi, department, skills, tools, maxDailyTasks, notes)
      ensures employees == old(employees) + [e] && nextId == old(nextId) + 1
      ensures forall i :: 0 <= i < |old(employees)| ==> e.id != old(employees)[i].id
      ensures memory != null ==> memory.toolCalls == old(memory.toolCalls) + [Memory.ToolCallEntry(
                "virtual_staff_manager",
                map["action" := Memory.Str("create_virtual_employee"), "company_id" := Memory.Str(companyId),
                    "role" := Memory.Str(role), "owner_kpi" := OptStr(ownerKpi), "reason" := OptStr(logReason)],
                map["employee_id" := Memory.Int(e.id), "title" := Memory.Str(e.title)])]
      ensures memory != null ==> memory.events == old(memory.events) && memory.decisions == old(memory.decisions)
      ensures memory != null ==> memory.kpis == old(memory.kpis) && memory.tokenUsage == old(memory.tokenUsage)
      ensures memory != null ==> memory.reflections == old(memory.reflections)
    {
      e := CreateEmployee(nextId, role, title, ownerKpi, department, skills, tools, maxDailyTasks, notes);
      employees := employees + [e];
      nextId := nextId + 1;
      if memory != null {
        memory.RecordToolCall("virtual_staff_manager",
          map["action" := Memory.Str("create_virtual_employee"), "company_id" := Memory.Str(companyId),
              "role" := Memory.Str(role), "owner_kpi" := OptStr(ownerKpi), "reason" := OptStr(logReason)],
          map["employee_id" := Memory.Int(e.id), "title" := Memory.Str(e.title)]);
      }
    }

    /**
     * `ensure_capacity_for_role`: hires exactly one employee, with a daily budget
     * of `minTaskSlots`, when the role's free slots are below `minTaskSlots`;
     * otherwise the roster stays as it is and the first active match is returned.
     */
    method EnsureCapacityForRole(role: string, ownerKpi: Option<string>, minTaskSlots: int,
                                 notes: string, logReason: string)
        returns (res: EnsureResult)
      requires Valid()
      modifies this, memory
      ensures Valid()
      ensures res.capacityBefore == old(Capacity(role)) && res.capacityAfter == Capacity(role)
      ensures res.created <==> old(Capacity(role)).remaining < minTaskSlots
      ensures res.created ==> (
                res.employee.Some? &&
                employees == old(employees) + [res.employee.value] &&
                res.employee.value == CreateEmployee(old(nextId), role, None, ownerKpi, "", [], [], minTaskSlots, notes) &&
                res.capacityAfter.count == res.capacityBefore.count + 1 &&
                res.capacityAfter.remaining == res.capacityBefore.remaining + (if minTaskSlots > 0 then minTaskSlots else 0) &&
                nextId == old(nextId) + 1)
      ensures res.created && memory != null ==>
                var reason := if logReason != "" then logReason
                              else "Auto-created due to low capacity for role '" + role + "'";
                memory.toolCalls == old(memory.toolCalls) + [Memory.ToolCallEntry(
                  "virtual_staff_manager",
                  map["action" := Memory.Str("create_virtual_employee"), "company_id" := Memory.Str(companyId),
                      "role" := Memory.Str(role), "owner_kpi" := OptStr(ownerKpi), "reason" := OptStr(Some(reason))],
                  map["employee_id" := Memory.Int(res.employee.value.id), "title" := Memory.Str(res.employee.value.title)])]
      ensures memory != null ==> memory.events == old(memory.events) && memory.decisions == old(memory.decisions)
      ensures memory != null ==> memory.kpis == old(memory.kpis) && memory.tokenUsage == old(memory.tokenUsage)
      ensures memory != null ==> memory.reflections == old(memory.reflections)
      ensures !res.created ==> (
                employees == old(employees) && nextId == old(nextId) && res.capacityAfter == res.capacityBefore &&
                res.employee == (var m := FindByRole(employees, role, true); if |m| > 0 then Some(m[0]) else None))
      ensures !res.created && memory != null ==> memory.toolCalls == old(memory.toolCalls)
    {
      var before := Capacity(role);
      if before.remaining < minTaskSlots {
        var reason := if logReason != "" then logReason
                      else "Auto-created due to low capacity for role '" + role + "'";
        var e := CreateVirtualEmployee(role, None, ownerKpi, "", [], [], minTaskSlots, notes, Some(reason));
        MatchesOwnRole(e);
        CapacityAppendMatching(old(employees), e, role);
        res := EnsureResult(true, Some(e), before, Capacity(role));
      } else {
        var m := FindByRole(employees, role, true);
        res := EnsureResult(false, if |m| > 0 then Some(m[0]) else None, before, Capacity(role));
      }
    }

    /**
     * `assign_task_to_virtual_employee`: the first active employee with the id
     * gets one more task today; an unknown or inactive id changes nothing.
     */
    method AssignTask(employeeId: nat, taskTitle: string, taskPayload: Memory.Payload) returns (r: Option<Employee>)
      modifies this, memory
      ensures nextId == old(nextId)
      ensures FindAssignable(old(employees), employeeId).None? ==> r.None? && employees == old(employees)
      ensures FindAssignable(old(employees), employeeId).Some? ==>
                var i := FindAssignable(old(employees), employeeId).value;
                employees == old(employees)[i := Bump(old(employees)[i])] && r == Some(employees[i])
      ensures r.None? && memory != null ==> memory.toolCalls == old(memory.toolCalls)
      ensures r.Some? && memory != null ==> memory.toolCalls == old(memory.toolCalls) + [Memory.ToolCallEntry(
                "virtual_staff_manager",
                map["action" := Memory.Str("assign_task"), "company_id" := Memory.Str(companyId),
                    "employee_id" := Memory.Int(employeeId), "role" := Memory.Str(r.value.role),
                    "task_title" := Memory.Str(taskTitle), "task_payload" := Memory.Dict(taskPayload)],
                map["tasks_assigned_today" := Memory.Int(r.value.tasksAssignedToday)])]
      ensures memory != null ==> memory.events == old(memory.events) && memory.decisions == old(memory.decisions)
      ensures memory != null ==> memory.kpis == old(memory.kpis) && memory.tokenUsage == old(memory.tokenUsage)
      ensures memory != null ==> memory.reflections == old(memory.reflections)
    {
      match FindAssignable(employees, employeeId)
      case None =>
        r := None;
      case Some(i) =>
        var e := Bump(employees[i]);
        employees := employees[i := e];
        r := Some(e);
        if memory != null {
          memory.RecordToolCall("virtual_staff_manager",
            map["action" := Memory.Str("assign_task"), "company_id" := Memory.Str(companyId),
                "employee_id" := Memory.Int(employeeId), "role" := Memory.Str(e.role),
                "task_title" := Memory.Str(taskTitle), "task_payload" := Memory.Dict(taskPayload)],
            map["tasks_assigned_today" := Memory.Int(e.tasksAssignedToday)]);
        }
    }

    /** `reset_daily_task_counters`: every counter, inactive employees' included, back to 0. */
    method ResetDailyCounters()
      modifies this
      ensures nextId == old(nextId) && |employees| == |old(employees)|
      ensures forall i :: 0 <= i < |employees| ==> employees[i] == old(employees)[i].(tasksAssignedToday := 0)
    {
      var k := 0;
      while k < |employees|
        invariant 0 <= k <= |employees| == |old(employees)| && nextId == old(nextId)
        invariant forall i :: 0 <= i < k ==> employees[i] == old(employees)[i].(tasksAssignedToday := 0)
        invariant forall i :: k <= i < |employees| ==> employees[i] == old(employees)[i]
      {
        employees := employees[k := employees[k].(tasksAssignedToday := 0)];
        k := k + 1;
      }
    }

    /** `summarize()`: one row per active employee, plus the roster and active head counts. */
    function Summarize(): (s: StaffSummary)
      reads this
      ensures s.totalEmployees == |employees| && s.activeEmployees == |s.employees|
      ensures |s.employees| == |ActiveOf(employees)|
      ensures forall k :: 0 <= k < |s.employees| ==> s.employees[k] == View(ActiveOf(employees)[k])
    {
      var active := ActiveOf(employees);
      StaffSummary(seq(|active|, k requires 0 <= k < |active| => View(active[k])), |employees|, |active|)
    }
  }

  // ---------------------------------------------------------------------
  // The dashboard snapshot
  // ---------------------------------------------------------------------

  datatype Dashboard = Dashboard(
    totalEmployees: nat,
    activeEmployees: nat,
    byDepartment: Dict<string, nat>,
    byRole: Dict<string, nat>,
    totalRemainingTaskSlots: nat,
    perRoleCapacity: Dict<string, Capacity>)

  /** The department an employee is counted under (`e.department or "Unknown"`). */
  function DepartmentKey(e: Employee): string {
    if e.department != "" then e.department else "Unknown"
  }

  function Departments(emps: seq<Employee>): (r: seq<string>)
    ensures |r| == |emps| && forall k :: 0 <= k < |emps| ==> r[k] == DepartmentKey(emps[k])
  {
    seq(|emps|, k requires 0 <= k < |emps| => DepartmentKey(emps[k]))
  }

  function Roles(emps: seq<Employee>): (r: seq<string>)
    ensures |r| == |emps| && forall k :: 0 <= k < |emps| ==> r[k] == emps[k].role
  {
    seq(|emps|, k requires 0 <= k < |emps| => emps[k].role)
  }

  /** The capacity table over the distinct roles of `roles`, in order of first occurrence. */
  function RoleCapacities(emps: seq<Employee>, roles: seq<string>): Dict<string, Capacity> {
    if |roles| == 0 then []
    else
      var d := RoleCapacities(emps, roles[..|roles| - 1]);
      var r := roles[|roles| - 1];
      if r in roles[..|roles| - 1] then d else d + [(r, CapacityFor(emps, r))]
  }

  /** The table has one row per distinct role, each holding that role's capacity. */
  lemma {:induction false} RoleCapacitiesMeaning(emps: seq<Employee>, roles: seq<string>)
    ensures var d := RoleCapacities(emps, roles);
      DistinctKeys(d) &&
      (forall r :: r in Keys(d) <==> r in roles) &&
      (forall k :: 0 <= k < |d| ==> d[k].1 == CapacityFor(emps, d[k].0))
  {
    if |roles| > 0 {
      var init := roles[..|roles| - 1];
      var r := roles[|roles| - 1];
      var d := RoleCapacities(emps, init);
      RoleCapacitiesMeaning(emps, init);
      assert roles == init + [r];
      if r !in init {
        var e := (r, CapacityFor(emps, r));
        var d' := d + [e];
        assert Keys(d') == Keys(d) + [r];
        forall i, j | 0 <= i < j < |d'| ensures d'[i].0 != d'[j].0 {
          if j == |d| { assert d'[i].0 == Keys(d)[i]; }
        }
      }
    }
  }

  /** The sum of the free slots in a capacity table. */
  function TotalRemaining(d: Dict<string, Capacity>): nat {
    if |d| == 0 then 0 else TotalRemaining(d[..|d| - 1]) + d[|d| - 1].1.remaining
  }

  /** The set of the elements of `xs`. */
  function Elements(xs: seq<string>): set<string> {
    if |xs| == 0 then {} else Elements(xs[..|xs| - 1]) + {xs[|xs| - 1]}
  }

  lemma {:induction false} ElementsIn(xs: seq<string>, x: string)
    ensures x in Elements(xs) <==> x in xs
  {
    if |xs| > 0 {
      ElementsIn(xs[..|xs| - 1], x);
      assert xs == xs[..|xs| - 1] + [xs[|xs| - 1]];
    }
  }

  /** One more role: a new one adds its row at the end, a repeated one changes nothing. */
  lemma RoleCapacitiesStep(emps: seq<Employee>, roles: seq<string>, k: nat)
    requires k < |roles|
    ensures RoleCapacities(emps, roles[..k + 1]) ==
      if roles[k] in roles[..k] then RoleCapacities(emps, roles[..k])
      else RoleCapacities(emps, roles[..k]) + [(roles[k], CapacityFor(emps, roles[k]))]
  {
    assert roles[..k + 1][..k] == roles[..k];
  }

  lemma TotalRemainingSnoc(d: Dict<string, Capacity>, e: (string, Capacity))
    ensures TotalRemaining(d + [e]) == TotalRemaining(d) + e.1.remaining
  {
    assert (d + [e])[..|d|] == d;
  }

  /** Every role of the roster finds its capacity in the table. */
  lemma RoleCapacitiesGet(emps: seq<Employee>, roles: seq<string>, r: string)
    requires r in roles
    ensures Get(RoleCapacities(emps, roles), r) == Some(CapacityFor(emps, r))
  {
    var d := RoleCapacities(emps, roles);
    RoleCapacitiesMeaning(emps, roles);
    assert r in Keys(d);
    var k :| 0 <= k < |d| && Keys(d)[k] == r;
    GetDistinct(d, k);
  }

  /** The first loop of `from_manager`: the department and role counters. */
  method CountActive(active: seq<Employee>) returns (byDepartment: Dict<string, nat>, byRole: Dict<string, nat>)
    ensures byDepartment == CountAll(Departments(active)) && byRole == CountAll(Roles(active))
  {
    var depts, roles := Departments(active), Roles(active);
    byDepartment, byRole := [], [];
    var k := 0;
    while k < |active|
      invariant 0 <= k <= |active|
      invariant byDepartment == CountAll(depts[..k]) && byRole == CountAll(roles[..k])
    {
      assert depts[..k + 1][..k] == depts[..k] && roles[..k + 1][..k] == roles[..k];
      byDepartment := Increment(byDepartment, DepartmentKey(active[k]));
      byRole := Increment(byRole, active[k].role);
      k := k + 1;
    }
    assert depts[..k] == depts && roles[..k] == roles;
  }

  /** The second loop of `from_manager`: one capacity estimate per role not seen before. */
  method CapacityTable(emps: seq<Employee>, roles: seq<string>) returns (perRole: Dict<string, Capacity>, totalRemaining: nat)
    ensures perRole == RoleCapacities(emps, roles) && totalRemaining == TotalRemaining(perRole)
  {
    var seen: set<string> := {};
    perRole, totalRemaining := [], 0;
    var k := 0;
    while k < |roles|
      invariant 0 <= k <= |roles|
      invariant perRole == RoleCapacities(emps, roles[..k])
      invariant seen == Elements(roles[..k])
      invariant totalRemaining == TotalRemaining(perRole)
    {
      seen, perRole, totalRemaining := AddRole(emps, roles, k, seen, perRole, totalRemaining);
      k := k + 1;
    }
    assert roles[..k] == roles;
  }

  /** One pass of the second loop: a role not seen before gets its estimate and its free slots counted. */
  method AddRole(emps: seq<Employee>, roles: seq<string>, k: nat, seen: set<string>,
                 perRole: Dict<string, Capacity>, totalRemaining: nat)
    returns (seen': set<string>, perRole': Dict<string, Capacity>, totalRemaining': nat)
    requires k < |roles| && seen == Elements(roles[..k])
    requires perRole == RoleCapacities(emps, roles[..k]) && totalRemaining == TotalRemaining(perRole)
    ensures seen' == Elements(roles[..k + 1])
    ensures perRole' == RoleCapacities(emps, roles[..k + 1]) && totalRemaining' == TotalRemaining(perRole')
  {
    var r := roles[k];
    assert roles[..k + 1][..k] == roles[..k];
    ElementsIn(roles[..k], r);
    RoleCapacitiesStep(emps, roles, k);
    seen', perRole', totalRemaining' := seen, perRole, totalRemaining;
    if r !in seen {
      seen' := seen + {r};
      var cap := CapacityFor(emps, r);
      TotalRemainingSnoc(perRole, (r, cap));
      perRole' := perRole + [(r, cap)];
      totalRemaining' := totalRemaining + cap.remaining;
    }
  }

  /**
   * `VirtualEmployeeDashboard.from_manager`: department and role counters over
   * the active roster, then one capacity estimate per distinct role.
   */
  method FromManager(manager: VirtualStaffManager) returns (d: Dashboard)
    ensures d.totalEmployees == |manager.employees|
    ensures d.activeEmployees == |ActiveOf(manager.employees)|
    ensures d.byDepartment == CountAll(Departments(ActiveOf(manager.employees)))
    ensures d.byRole == CountAll(Roles(ActiveOf(manager.employees)))
    ensures d.perRoleCapacity == RoleCapacities(manager.employees, Roles(ActiveOf(manager.employees)))
    ensures d.totalRemainingTaskSlots == TotalRemaining(d.perRoleCapacity)
    ensures Total(d.byDepartment) == d.activeEmployees && Total(d.byRole) == d.activeEmployees
  {
    var emps := manager.employees;
    var active := ActiveOf(emps);
    var byDepartment, byRole := CountActive(active);
    CountAllTotal(Departments(active));
    CountAllTotal(Roles(active));
    var perRole, totalRemaining := CapacityTable(emps, Roles(active));
    d := Dashboard(|emps|, |active|, byDepartment, byRole, totalRemaining, perRole);
  }
}
