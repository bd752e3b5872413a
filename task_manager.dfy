/**
 * The task orchestration layer over the CEO state: a parent-to-children link
 * table and a review table kept beside the task list, subtask creation,
 * completion by a delegate, review, the upward auto-close of parents and the
 * forest of open tasks.
 */
module TaskManagement {
  import opened Wrappers
  import opened Text
  import opened OrderedDict
  import opened Memory
  import opened AgenticCeo

  /** `links`: parent id to the ids of its children, in insertion order. */
  type Links = Dict<nat, seq<nat>>

  /** One entry of the review table (its timestamp is not modelled). */
  datatype Review = Review(status: string, reviewedBy: string, comments: string)

  /** A node of the open-task forest. */
  datatype Node = Node(task: Task, review: string, children: seq<Node>)

  /** Task ids stand for the source's uuid strings inside journal contexts. */
  function IdValue(id: nat): Value {
    Int(id)
  }

  // ---------------------------------------------------------------------
  // Lookups
  // ---------------------------------------------------------------------

  /** `_find_task`: the position of the first task with this id. */
  function FindTask(tasks: seq<Task>, id: nat): (r: Option<nat>)
    ensures r.None? <==> forall k :: 0 <= k < |tasks| ==> tasks[k].id != id
    ensures r.Some? ==> r.value < |tasks| && tasks[r.value].id == id &&
                        forall k :: 0 <= k < r.value ==> tasks[k].id != id
  {
    if |tasks| == 0 then None
    else if tasks[0].id == id then Some(0)
    else match FindTask(tasks[1..], id)
      case None => None
      case Some(k) => Some(k + 1)
  }

  /** With distinct ids, a task is found at its own position. */
  lemma FindTaskDistinct(tasks: seq<Task>, k: nat)
    requires k < |tasks|
    requires forall i, j :: 0 <= i < j < |tasks| ==> tasks[i].id != tasks[j].id
    ensures FindTask(tasks, tasks[k].id) == Some(k)
  {
  }

  /** `_get_children_ids`: the child list of a parent, empty when it has none. */
  function ChildrenOf(links: Links, p: nat): seq<nat> {
    Get(links, p).GetOr([])
  }

  /** `_get_parent_id`: the key of the first link entry whose list holds the child. */
  function ParentOf(links: Links, c: nat): (r: Option<nat>)
    ensures r.None? <==> forall i :: 0 <= i < |links| ==> c !in links[i].1
    ensures r.Some? ==> exists i :: 0 <= i < |links| && links[i].0 == r.value && c in links[i].1
  {
    if |links| == 0 then None
    else if c in links[0].1 then Some(links[0].0)
    else
      var r := ParentOf(links[1..], c);
      assert r.Some? ==> exists i :: 1 <= i < |links| && links[i].0 == r.value && c in links[i].1 by {
        if r.Some? {
          var i :| 0 <= i < |links[1..]| && links[1..][i].0 == r.value && c in links[1..][i].1;
          assert links[i + 1] == links[1..][i];
        }
      }
      r
  }

  /** The parent found is the key of the first link entry, in link order, whose list holds the child. */
  lemma {:induction false} ParentOfIsFirst(links: Links, c: nat)
    requires ParentOf(links, c).Some?
    ensures exists i :: 0 <= i < |links| && links[i].0 == ParentOf(links, c).value && c in links[i].1 &&
                        forall j :: 0 <= j < i ==> c !in links[j].1
  {
    if c !in links[0].1 {
      ParentOfIsFirst(links[1..], c);
      var i :| 0 <= i < |links[1..]| && links[1..][i].0 == ParentOf(links[1..], c).value && c in links[1..][i].1 &&
               forall j :: 0 <= j < i ==> c !in links[1..][j].1;
      assert links[i + 1] == links[1..][i];
      forall j | 0 <= j < i + 1 ensures c !in links[j].1 {
        if j > 0 { assert links[j] == links[1..][j - 1]; }
      }
    } else {
      assert links[0].0 == ParentOf(links, c).value;
    }
  }

  /** `get_review_status`: the recorded status, `"none"` for a task never reviewed. */
  function ReviewStatusOf(reviews: map<nat, Review>, id: nat): (s: string)
    ensures id !in reviews ==> s == "none"
    ensures id in reviews ==> s == reviews[id].status
  {
    if id in reviews then reviews[id].status else "none"
  }

  // ---------------------------------------------------------------------
  // The shape of the link table
  // ---------------------------------------------------------------------

  /** Every child was created after its parent, so its id is larger. */
  predicate ParentsBelow(links: Links) {
    forall i, c :: 0 <= i < |links| && c in links[i].1 ==> links[i].0 < c
  }

  /** Every child id has already been handed out. */
  predicate ChildrenBelow(links: Links, bound: nat) {
    forall i, c :: 0 <= i < |links| && c in links[i].1 ==> c < bound
  }

  /** No id is listed under two parents, nor twice under one. */
  predicate UniqueParents(links: Links) {
    (forall i, j, c :: 0 <= i < |links| && 0 <= j < |links| && c in links[i].1 && c in links[j].1 ==> i == j) &&
    (forall i :: 0 <= i < |links| ==> Distinct(links[i].1))
  }

  predicate Distinct(xs: seq<nat>) {
    forall a, b :: 0 <= a < b < |xs| ==> xs[a] != xs[b]
  }

  /** The link table describes a forest whose ids grow from the roots down. */
  predicate Forest(links: Links, bound: nat) {
    DistinctKeys(links) && ParentsBelow(links) && ChildrenBelow(links, bound) && UniqueParents(links)
  }

  /** The parent of a child always has a smaller id: the upward walk terminates. */
  lemma ParentBelow(links: Links, c: nat)
    requires ParentsBelow(links)
    ensures ParentOf(links, c).Some? ==> ParentOf(links, c).value < c
  {
  }

  /** The child list of a child's parent contains that child. */
  lemma ParentListsChild(links: Links, c: nat)
    requires DistinctKeys(links)
    requires ParentOf(links, c).Some?
    ensures c in ChildrenOf(links, ParentOf(links, c).value)
  {
    var i :| 0 <= i < |links| && links[i].0 == ParentOf(links, c).value && c in links[i].1;
    GetDistinct(links, i);
  }

  /** `r` is `links` with the entry at `at` (appended when `at == |links|`) replaced by `p`'s new child list. */
  predicate ReplacedAt(links: Links, r: Links, at: nat, p: nat, kids: seq<nat>) {
    at <= |links| && |r| == (if at < |links| then |links| else |links| + 1) &&
    r[at] == (p, kids) && (forall j :: 0 <= j < |links| && j != at ==> r[j] == links[j])
  }

  /** The new child list: the old list of `p` (stored at `at` when present) plus `bound`. */
  predicate GrownList(links: Links, at: nat, p: nat, bound: nat, kids: seq<nat>) {
    at <= |links| && kids == ChildrenOf(links, p) + [bound] &&
    (at < |links| ==> links[at] == (p, ChildrenOf(links, p))) &&
    (at == |links| ==> ChildrenOf(links, p) == [])
  }

  lemma GrownBelow(links: Links, r: Links, at: nat, p: nat, bound: nat, kids: seq<nat>)
    requires ParentsBelow(links) && ChildrenBelow(links, bound) && p < bound
    requires ReplacedAt(links, r, at, p, kids) && GrownList(links, at, p, bound, kids)
    ensures ParentsBelow(r) && ChildrenBelow(r, bound + 1)
  {
    forall i, c | 0 <= i < |r| && c in r[i].1 ensures r[i].0 < c && c < bound + 1 {
      if i == at && c == bound {
      } else if i == at {
        assert c in links[at].1;
      } else {
        assert r[i] == links[i];
      }
    }
  }

  lemma GrownUniqueParents(links: Links, r: Links, at: nat, p: nat, bound: nat, kids: seq<nat>)
    requires ChildrenBelow(links, bound) && UniqueParents(links)
    requires ReplacedAt(links, r, at, p, kids) && GrownList(links, at, p, bound, kids)
    ensures UniqueParents(r)
  {
    forall i, j, c | 0 <= i < |r| && 0 <= j < |r| && c in r[i].1 && c in r[j].1 ensures i == j {
      if c != bound {
        assert c in links[i].1 && c in links[j].1 by {
          if i == at { assert c in ChildrenOf(links, p); } else { assert r[i] == links[i]; }
          if j == at { assert c in ChildrenOf(links, p); } else { assert r[j] == links[j]; }
        }
      }
    }
    forall i | 0 <= i < |r| ensures Distinct(r[i].1) {
      if i == at {
        forall a, b | 0 <= a < b < |kids| ensures kids[a] != kids[b] {
          if b == |kids| - 1 {
            assert kids[a] in ChildrenOf(links, p);
          }
        }
      } else {
        assert r[i] == links[i];
      }
    }
  }

  /** Adding a fresh child at the end of a known parent's list keeps the forest. */
  lemma AddChildKeepsForest(links: Links, p: nat, bound: nat)
    requires Forest(links, bound) && p < bound
    ensures Forest(Put(links, p, ChildrenOf(links, p) + [bound]), bound + 1)
  {
    var kids := ChildrenOf(links, p) + [bound];
    var r := Put(links, p, kids);
    PutKeys(links, p, kids);
    PutDistinct(links, p, kids);
    var at := match FindKey(links, p) case Some(i) => i case None => |links|;
    if at < |links| {
      GetDistinct(links, at);
      assert ChildrenOf(links, p) == links[at].1;
    } else {
      assert ChildrenOf(links, p) == [];
    }
    assert ReplacedAt(links, r, at, p, kids);
    assert GrownList(links, at, p, bound, kids);
    GrownBelow(links, r, at, p, bound, kids);
    GrownUniqueParents(links, r, at, p, bound, kids);
  }

  // ---------------------------------------------------------------------
  // Auto-closing parents
  // ---------------------------------------------------------------------

  /** The tasks a list of child ids refers to, skipping ids with no task. */
  function ExistingChildren(tasks: seq<Task>, cids: seq<nat>): seq<Task> {
    if |cids| == 0 then []
    else
      var rest := ExistingChildren(tasks, cids[..|cids| - 1]);
      match FindTask(tasks, cids[|cids| - 1])
      case None => rest
      case Some(k) => rest + [tasks[k]]
  }

  /** Exactly the listed children that exist are collected. */
  lemma {:induction false} ExistingChildrenMeaning(tasks: seq<Task>, cids: seq<nat>)
    ensures forall t :: t in ExistingChildren(tasks, cids) ==> t in tasks && t.id in cids
    ensures forall c :: c in cids && FindTask(tasks, c).Some? ==> tasks[FindTask(tasks, c).value] in ExistingChildren(tasks, cids)
  {
    if |cids| > 0 {
      var init := cids[..|cids| - 1];
      ExistingChildrenMeaning(tasks, init);
      assert forall c :: c in cids ==> c in init || c == cids[|cids| - 1];
      assert forall c :: c in init ==> c in cids;
    }
  }

  /** One more child id: an existing child is added at the end. */
  lemma ExistingChildrenStep(tasks: seq<Task>, cids: seq<nat>, j: nat)
    requires j < |cids|
    ensures ExistingChildren(tasks, cids[..j + 1]) ==
      match FindTask(tasks, cids[j])
      case None => ExistingChildren(tasks, cids[..j])
      case Some(k) => ExistingChildren(tasks, cids[..j]) + [tasks[k]]
  {
    assert cids[..j + 1][..j] == cids[..j];
  }

  /** A parent may be closed: it has an existing child, and every existing child is done and approved. */
  predicate CanClose(tasks: seq<Task>, links: Links, reviews: map<nat, Review>, p: nat) {
    var kids := ExistingChildren(tasks, ChildrenOf(links, p));
    |kids| > 0 &&
    forall k :: 0 <= k < |kids| ==> kids[k].status == "done" && ReviewStatusOf(reviews, kids[k].id) == "approved"
  }

  function ClosedEntry(parent: Task): DecisionEntry {
    DecisionEntry("Parent task '" + parent.title + "' auto-closed (all children done & approved).",
                  map["type" := Str("parent_task_auto_closed"), "parent_id" := IdValue(parent.id)])
  }

  /**
   * `_maybe_auto_close_parent_chain(p)` on values: the task list afterwards and
   * the decisions it records, closing parents upward while they qualify.
   */
  function AutoClose(tasks: seq<Task>, links: Links, reviews: map<nat, Review>, p: nat): (r: (seq<Task>, seq<DecisionEntry>))
    requires ParentsBelow(links)
    ensures |r.0| == |tasks|
    ensures forall k :: 0 <= k < |tasks| ==> r.0[k] == tasks[k] || r.0[k] == tasks[k].(status := "done")
    ensures forall k :: 0 <= k < |tasks| && tasks[k].id > p ==> r.0[k] == tasks[k]
    decreases p
  {
    match FindTask(tasks, p)
    case None => (tasks, [])
    case Some(ip) =>
      if !CanClose(tasks, links, reviews, p) then (tasks, [])
      else
        var closed := tasks[ip := tasks[ip].(status := "done")];
        var entry := ClosedEntry(tasks[ip]);
        match ParentOf(links, p)
        case None => (closed, [entry])
        case Some(g) =>
          ParentBelow(links, p);
          var rest := AutoClose(closed, links, reviews, g);
          assert rest.0[ip] == closed[ip];
          (rest.0, [entry] + rest.1)
  }

  /**
   * The parent is closed, and its closing recorded first, exactly when it
   * exists and qualifies; otherwise nothing changes and nothing is recorded.
   */
  lemma AutoCloseParent(tasks: seq<Task>, links: Links, reviews: map<nat, Review>, p: nat)
    requires ParentsBelow(links)
    ensures var r := AutoClose(tasks, links, reviews, p);
      (FindTask(tasks, p).None? || !CanClose(tasks, links, reviews, p) ==> r == (tasks, [])) &&
      (FindTask(tasks, p).Some? && CanClose(tasks, links, reviews, p) ==>
         r.0[FindTask(tasks, p).value] == tasks[FindTask(tasks, p).value].(status := "done") &&
         |r.1| >= 1 && r.1[0] == ClosedEntry(tasks[FindTask(tasks, p).value]))
  {
    if FindTask(tasks, p).Some? && CanClose(tasks, links, reviews, p) {
      var ip := FindTask(tasks, p).value;
      var closed := tasks[ip := tasks[ip].(status := "done")];
      if ParentOf(links, p).Some? {
        ParentBelow(links, p);
        var g := ParentOf(links, p).value;
        assert closed[ip].id == p && p > g;
      }
    }
  }

  /** One step up the chain: close the parent, record it, then continue with the grandparent (if any). */
  lemma AutoCloseStep(tasks: seq<Task>, links: Links, reviews: map<nat, Review>, p: nat, ip: nat, closed: seq<Task>)
    requires ParentsBelow(links)
    requires FindTask(tasks, p) == Some(ip) && CanClose(tasks, links, reviews, p)
    requires closed == tasks[ip := tasks[ip].(status := "done")]
    ensures ParentOf(links, p).None? ==> AutoClose(tasks, links, reviews, p) == (closed, [ClosedEntry(tasks[ip])])
    ensures ParentOf(links, p).Some? ==>
      AutoClose(tasks, links, reviews, p).0 == AutoClose(closed, links, reviews, ParentOf(links, p).value).0 &&
      AutoClose(tasks, links, reviews, p).1 ==
        [ClosedEntry(tasks[ip])] + AutoClose(closed, links, reviews, ParentOf(links, p).value).1
  {
  }

  /** A task that is done stays done through any auto-close. */
  lemma AutoCloseMonotone(tasks: seq<Task>, links: Links, reviews: map<nat, Review>, p: nat, k: nat)
    requires ParentsBelow(links) && k < |tasks| && tasks[k].status == "done"
    ensures AutoClose(tasks, links, reviews, p).0[k].status == "done"
  {
  }

  /** A parent with an existing child that has not been approved is left open, and nothing else changes. */
  lemma UnapprovedChildBlocks(tasks: seq<Task>, links: Links, reviews: map<nat, Review>, p: nat, c: nat)
    requires ParentsBelow(links)
    requires c in ChildrenOf(links, p) && FindTask(tasks, c).Some?
    requires ReviewStatusOf(reviews, c) != "approved"
    ensures AutoClose(tasks, links, reviews, p) == (tasks, [])
  {
    var kids := ExistingChildren(tasks, ChildrenOf(links, p));
    ExistingChildrenMeaning(tasks, ChildrenOf(links, p));
    var t := tasks[FindTask(tasks, c).value];
    assert t in kids;
    var k :| 0 <= k < |kids| && kids[k] == t;
    assert !CanClose(tasks, links, reviews, p);
    AutoCloseParent(tasks, links, reviews, p);
  }

  lemma SeqAssoc<T>(a: seq<T>, b: seq<T>, c: seq<T>)
    ensures (a + b) + c == a + (b + c)
  {
  }

  /** Changing a task's status keeps the ids fresh. */
  lemma StatusKeepsFreshIds(tasks: seq<Task>, k: nat, nextId: nat)
    requires FreshIds(tasks, nextId) && k < |tasks|
    ensures FreshIds(tasks[k := tasks[k].(status := "done")], nextId)
  {
    var r := tasks[k := tasks[k].(status := "done")];
    assert forall j :: 0 <= j < |tasks| ==> r[j].id == tasks[j].id;
  }

  // ---------------------------------------------------------------------
  // The open-task forest
  // ---------------------------------------------------------------------

  /** Every node of the tree is a task that is not done. */
  predicate AllOpen(n: Node) {
    n.task.status != "done" && forall c :: c in n.children ==> AllOpen(c)
  }

  /** `build_node`: nothing for an unknown or done task, else the task, its review and its open children. */
  function BuildNode(tasks: seq<Task>, links: Links, reviews: map<nat, Review>, bound: nat, id: nat): (r: Option<Node>)
    requires ParentsBelow(links) && ChildrenBelow(links, bound)
    ensures r.Some? <==> FindTask(tasks, id).Some? && tasks[FindTask(tasks, id).value].status != "done"
    ensures r.Some? ==> r.value.task == tasks[FindTask(tasks, id).value] && r.value.task.id == id
    ensures r.Some? ==> r.value.review == ReviewStatusOf(reviews, id) && AllOpen(r.value)
    ensures r.Some? ==> forall n :: n in r.value.children ==> n.task.id in ChildrenOf(links, id)
    decreases if id < bound then bound - id else 0, 1, 0
  {
    match FindTask(tasks, id)
    case None => None
    case Some(k) =>
      if tasks[k].status == "done" then None
      else
        var kids := ChildrenOf(links, id);
        ChildrenInRange(links, id, bound);
        Some(Node(tasks[k], ReviewStatusOf(reviews, id), BuildChildren(tasks, links, reviews, bound, id, kids)))
  }

  /** The nodes of a list of ids, in list order, dropping those that yield none. */
  function BuildChildren(tasks: seq<Task>, links: Links, reviews: map<nat, Review>, bound: nat, lo: int, ids: seq<nat>): (r: seq<Node>)
    requires ParentsBelow(links) && ChildrenBelow(links, bound)
    requires forall c :: c in ids ==> lo < c && (lo >= 0 ==> c < bound)
    requires lo >= -1
    ensures forall n :: n in r ==> AllOpen(n) && n.task.id in ids && n.task.status != "done" && n.task in tasks
    ensures forall c :: c in ids && FindTask(tasks, c).Some? && tasks[FindTask(tasks, c).value].status != "done" ==>
      exists n :: n in r && n.task == tasks[FindTask(tasks, c).value]
    decreases if lo < bound then bound - lo else 0, 0, |ids|
  {
    if |ids| == 0 then []
    else
      assert forall c :: c in ids ==> c == ids[0] || c in ids[1..];
      assert forall c :: c in ids[1..] ==> c in ids;
      assert ids[0] in ids;
      var rest := BuildChildren(tasks, links, reviews, bound, lo, ids[1..]);
      match BuildNode(tasks, links, reviews, bound, ids[0])
      case None => rest
      case Some(n) => [n] + rest
  }

  /** Children sit strictly between their parent and the bound. */
  lemma ChildrenInRange(links: Links, p: nat, bound: nat)
    requires ParentsBelow(links) && ChildrenBelow(links, bound)
    ensures forall c :: c in ChildrenOf(links, p) ==> p < c < bound
  {
    if FindKey(links, p).Some? {
      var i := FindKey(links, p).value;
      assert ChildrenOf(links, p) == links[i].1;
    }
  }

  /** Whether an id is listed as somebody's child. */
  predicate IsChild(links: Links, id: nat) {
    exists i :: 0 <= i < |links| && id in links[i].1
  }

  /** The ids of the tasks that are nobody's child, in task-list order. */
  function RootIds(tasks: seq<Task>, links: Links): (r: seq<nat>)
    ensures forall id :: id in r ==> !IsChild(links, id) && exists k :: 0 <= k < |tasks| && tasks[k].id == id
    ensures forall k :: 0 <= k < |tasks| && !IsChild(links, tasks[k].id) ==> tasks[k].id in r
  {
    if |tasks| == 0 then []
    else
      var rest := RootIds(tasks[1..], links);
      assert forall k :: 1 <= k < |tasks| ==> tasks[k] == tasks[1..][k - 1];
      if IsChild(links, tasks[0].id) then rest else [tasks[0].id] + rest
  }

  /** `get_open_task_tree` over the given task list, link table and review table. */
  function OpenTaskTree(tasks: seq<Task>, links: Links, reviews: map<nat, Review>, bound: nat): (tree: seq<Node>)
    requires ParentsBelow(links) && ChildrenBelow(links, bound)
    ensures forall n :: n in tree ==> AllOpen(n) && !IsChild(links, n.task.id) && n.task in tasks
  {
    var roots := RootIds(tasks, links);
    BuildChildren(tasks, links, reviews, bound, -1, roots)
  }

  /** Every open task that is nobody's child is the root of a tree (ids being distinct). */
  lemma OpenRootsAppear(tasks: seq<Task>, links: Links, reviews: map<nat, Review>, bound: nat, k: nat)
    requires ParentsBelow(links) && ChildrenBelow(links, bound)
    requires forall i, j :: 0 <= i < j < |tasks| ==> tasks[i].id != tasks[j].id
    requires k < |tasks| && tasks[k].status != "done" && !IsChild(links, tasks[k].id)
    ensures exists n :: n in OpenTaskTree(tasks, links, reviews, bound) && n.task == tasks[k]
  {
    FindTaskDistinct(tasks, k);
    var roots := RootIds(tasks, links);
    assert tasks[k].id in roots;
    var tree := BuildChildren(tasks, links, reviews, bound, -1, roots);
    assert tree == OpenTaskTree(tasks, links, reviews, bound);
    assert exists n :: n in tree && n.task == tasks[FindTask(tasks, tasks[k].id).value];
  }

  /** Each task's id when it is nobody's child, and nothing otherwise. */
  function RootMarks(tasks: seq<Task>, links: Links): (ms: seq<Option<nat>>)
    ensures |ms| == |tasks|
    ensures forall k :: 0 <= k < |tasks| ==>
              ms[k] == (if IsChild(links, tasks[k].id) then None else Some(tasks[k].id))
  {
    seq(|tasks|, k requires 0 <= k < |tasks| => if IsChild(links, tasks[k].id) then None else Some(tasks[k].id))
  }

  /** The roots are exactly the ids of the tasks that are nobody's child, in task-list order. */
  lemma {:induction false} RootIdsInOrder(tasks: seq<Task>, links: Links)
    ensures RootIds(tasks, links) == Somes(RootMarks(tasks, links))
  {
    if |tasks| > 0 {
      var ms, rest := RootMarks(tasks, links), RootMarks(tasks[1..], links);
      RootIdsInOrder(tasks[1..], links);
      assert ms == [ms[0]] + rest by {
        forall j | 0 <= j < |rest| ensures rest[j] == ms[j + 1] {
          assert tasks[1..][j] == tasks[j + 1];
        }
      }
      SomesCons(ms[0], rest);
    }
  }

  /** The node, if any, that each id of `ids` yields, in list order. */
  function NodesOf(tasks: seq<Task>, links: Links, reviews: map<nat, Review>, bound: nat, ids: seq<nat>)
    : (ns: seq<Option<Node>>)
    requires ParentsBelow(links) && ChildrenBelow(links, bound)
    ensures |ns| == |ids|
  {
    if |ids| == 0 then [] else [BuildNode(tasks, links, reviews, bound, ids[0])] + NodesOf(tasks, links, reviews, bound, ids[1..])
  }

  /** The children built are the nodes of the open ids of the list, in list order. */
  lemma {:induction false} BuildChildrenInOrder(tasks: seq<Task>, links: Links, reviews: map<nat, Review>, bound: nat,
                                                lo: int, ids: seq<nat>)
    requires ParentsBelow(links) && ChildrenBelow(links, bound)
    requires forall c :: c in ids ==> lo < c && (lo >= 0 ==> c < bound)
    requires lo >= -1
    ensures BuildChildren(tasks, links, reviews, bound, lo, ids) == Somes(NodesOf(tasks, links, reviews, bound, ids))
  {
    if |ids| > 0 {
      assert forall c :: c in ids[1..] ==> c in ids;
      BuildChildrenInOrder(tasks, links, reviews, bound, lo, ids[1..]);
      BuildChildrenCons(tasks, links, reviews, bound, lo, ids);
      SomesCons(BuildNode(tasks, links, reviews, bound, ids[0]), NodesOf(tasks, links, reviews, bound, ids[1..]));
    }
  }

  lemma BuildChildrenCons(tasks: seq<Task>, links: Links, reviews: map<nat, Review>, bound: nat,
                          lo: int, ids: seq<nat>)
    requires ParentsBelow(links) && ChildrenBelow(links, bound)
    requires forall c :: c in ids ==> lo < c && (lo >= 0 ==> c < bound)
    requires lo >= -1 && |ids| > 0
    ensures forall c :: c in ids[1..] ==> c in ids
    ensures var n0 := BuildNode(tasks, links, reviews, bound, ids[0]);
            BuildChildren(tasks, links, reviews, bound, lo, ids) ==
              (if n0.Some? then [n0.value] else []) + BuildChildren(tasks, links, reviews, bound, lo, ids[1..])
  {
    assert forall c :: c in ids[1..] ==> c in ids;
  }

  /** A node's children are the nodes of its open children, in child-list order. */
  lemma BuildNodeChildren(tasks: seq<Task>, links: Links, reviews: map<nat, Review>, bound: nat, id: nat)
    requires ParentsBelow(links) && ChildrenBelow(links, bound)
    requires BuildNode(tasks, links, reviews, bound, id).Some?
    ensures BuildNode(tasks, links, reviews, bound, id).value.children ==
              Somes(NodesOf(tasks, links, reviews, bound, ChildrenOf(links, id)))
  {
    ChildrenInRange(links, id, bound);
    BuildChildrenInOrder(tasks, links, reviews, bound, id, ChildrenOf(links, id));
  }

  /** The open forest is the nodes of the root tasks that are open, in task-list order. */
  lemma OpenTaskTreeInOrder(tasks: seq<Task>, links: Links, reviews: map<nat, Review>, bound: nat)
    requires ParentsBelow(links) && ChildrenBelow(links, bound)
    ensures RootIds(tasks, links) == Somes(RootMarks(tasks, links))
    ensures OpenTaskTree(tasks, links, reviews, bound) ==
              Somes(NodesOf(tasks, links, reviews, bound, RootIds(tasks, links)))
  {
    RootIdsInOrder(tasks, links);
    BuildChildrenInOrder(tasks, links, reviews, bound, -1, RootIds(tasks, links));
  }

  /** Every open root task heads a tree of the forest (ids being distinct). */
  lemma OpenRootsAll(tasks: seq<Task>, links: Links, reviews: map<nat, Review>, bound: nat)
    requires ParentsBelow(links) && ChildrenBelow(links, bound)
    requires forall i, j :: 0 <= i < j < |tasks| ==> tasks[i].id != tasks[j].id
    ensures forall k :: 0 <= k < |tasks| && tasks[k].status != "done" && !IsChild(links, tasks[k].id) ==>
              exists n :: n in OpenTaskTree(tasks, links, reviews, bound) && n.task == tasks[k]
  {
    forall k | 0 <= k < |tasks| && tasks[k].status != "done" && !IsChild(links, tasks[k].id)
      ensures exists n :: n in OpenTaskTree(tasks, links, reviews, bound) && n.task == tasks[k]
    {
      OpenRootsAppear(tasks, links, reviews, bound, k);
    }
  }

  // ---------------------------------------------------------------------
  // The manager
  // ---------------------------------------------------------------------

  class TaskManager {
    const state: CeoState
    const memory: MemoryEngine
    var links: Links
    var reviews: map<nat, Review>

    ghost predicate Valid()
      reads this, state
    {
      state.Valid() && Forest(links, state.nextId)
    }

    /** A manager with empty link and review tables (no metadata file on disk). */
    constructor(state: CeoState, memory: MemoryEngine)
      requires state.Valid()
      ensures Valid()
      ensures this.state == state && this.memory == memory && links == [] && reviews == map[]
    {
      this.state := state;
      this.memory := memory;
      links := [];
      reviews := map[];
    }

    /** `_set_review` (the timestamp and the save to disk are not modelled). */
    method SetReview(taskId: nat, status: string, reviewedBy: string, comments: string)
      modifies this
      ensures reviews == old(reviews)[taskId := Review(status, reviewedBy, comments)]
      ensures links == old(links)
    {
      reviews := reviews[taskId := Review(status, reviewedBy, comments)];
    }

    /**
     * `create_subtask`: an unknown parent is an error and changes nothing;
     * otherwise a new task inheriting the parent's falsy fields is appended to
     * the task list and its id to the end of the parent's child list.
     */
    method CreateSubtask(parentId: nat, title: string, description: string,
                         area: string, suggestedOwner: string, priority: int)
      returns (r: Result<Task, string>)
      requires Valid()
      modifies this, state, memory
      ensures Valid()
      ensures FindTask(old(state.tasks), parentId).None? ==>
        r == Err("Parent task " + NatToString(parentId) + " not found") &&
        state.tasks == old(state.tasks) && state.nextId == old(state.nextId) && links == old(links) &&
        memory.decisions == old(memory.decisions)
      ensures FindTask(old(state.tasks), parentId).Some? ==>
        var parent := old(state.tasks)[FindTask(old(state.tasks), parentId).value];
        r.Ok? && r.value.id == old(state.nextId) &&
        r.value.title == title && r.value.description == description &&
        r.value.area == (if area != "" then area else parent.area) &&
        r.value.suggestedOwner == (if suggestedOwner != "" then suggestedOwner else parent.suggestedOwner) &&
        r.value.priority == (if priority != 0 then priority else parent.priority) &&
        r.value.owner == DefaultOwner && r.value.status == "todo" && r.value.dueDate == state.date &&
        state.tasks == old(state.tasks) + [r.value] && state.nextId == old(state.nextId) + 1 &&
        links == Put(old(links), parentId, ChildrenOf(old(links), parentId) + [r.value.id]) &&
        memory.decisions == old(memory.decisions) +
          [DecisionEntry("Subtask created: '" + title + "' under parent '" + parent.title + "'",
                         map["type" := Str("subtask_created"), "parent_id" := IdValue(parentId),
                             "subtask_id" := IdValue(r.value.id)])]
      ensures reviews == old(reviews)
      ensures memory.events == old(memory.events) && memory.toolCalls == old(memory.toolCalls)
      ensures memory.kpis == old(memory.kpis) && memory.tokenUsage == old(memory.tokenUsage)
      ensures memory.reflections == old(memory.reflections)
    {
      var found := FindTask(state.tasks, parentId);
      if found.None? {
        return Err("Parent task " + NatToString(parentId) + " not found");
      }
      var parent := state.tasks[found.value];
      var sub := Task(state.nextId, title, description, DefaultOwner, state.date, "todo", None, map[],
                      if area != "" then area else parent.area,
                      if suggestedOwner != "" then suggestedOwner else parent.suggestedOwner,
                      if priority != 0 then priority else parent.priority);
      AddChildKeepsForest(links, parentId, state.nextId);
      state.tasks := state.tasks + [sub];
      state.nextId := state.nextId + 1;
      links := Put(links, parentId, ChildrenOf(links, parentId) + [sub.id]);
      memory.RecordDecision("Subtask created: '" + sub.title + "' under parent '" + parent.title + "'",
                            map["type" := Str("subtask_created"), "parent_id" := IdValue(parentId),
                                "subtask_id" := IdValue(sub.id)]);
      r := Ok(sub);
    }

    /**
     * The checks of `_maybe_auto_close_parent_chain` before it closes a parent:
     * a non-empty child list, at least one child that exists, and every
     * existing child done and approved.
     */
    method ChildrenClosed(parentId: nat) returns (ok: bool)
      ensures ok == CanClose(state.tasks, links, reviews, parentId)
    {
      var tasks := state.tasks;
      var childrenIds := ChildrenOf(links, parentId);
      if |childrenIds| == 0 {
        return false;
      }
      var childrenTasks: seq<Task> := [];
      var j := 0;
      while j < |childrenIds|
        invariant 0 <= j <= |childrenIds|
        invariant childrenTasks == ExistingChildren(tasks, childrenIds[..j])
      {
        ExistingChildrenStep(tasks, childrenIds, j);
        var t := FindTask(tasks, childrenIds[j]);
        if t.Some? {
          childrenTasks := childrenTasks + [tasks[t.value]];
        }
        j := j + 1;
      }
      assert childrenIds[..j] == childrenIds;
      if |childrenTasks| == 0 {
        return false;
      }
      var k := 0;
      while k < |childrenTasks|
        invariant 0 <= k <= |childrenTasks|
        invariant forall m :: 0 <= m < k ==>
          childrenTasks[m].status == "done" && ReviewStatusOf(reviews, childrenTasks[m].id) == "approved"
      {
        if childrenTasks[k].status != "done" {
          return false;
        }
        if ReviewStatusOf(reviews, childrenTasks[k].id) != "approved" {
          return false;
        }
        k := k + 1;
      }
      return true;
    }

    /**
     * `_maybe_auto_close_parent_chain`: close the parent when every existing
     * child is done and approved, then try the grandparent.
     */
    method MaybeAutoCloseParentChain(parentId: nat)
      requires Valid()
      modifies state, memory
      decreases parentId
      ensures Valid()
      ensures state.tasks == AutoClose(old(state.tasks), links, reviews, parentId).0
      ensures memory.decisions == old(memory.decisions) + AutoClose(old(state.tasks), links, reviews, parentId).1
      ensures state.nextId == old(state.nextId)
      ensures memory.events == old(memory.events) && memory.toolCalls == old(memory.toolCalls)
      ensures memory.kpis == old(memory.kpis) && memory.tokenUsage == old(memory.tokenUsage)
      ensures memory.reflections == old(memory.reflections)
    {
      AutoCloseParent(state.tasks, links, reviews, parentId);
      var found := FindTask(state.tasks, parentId);
      if found.None? {
        return;
      }
      var closable := ChildrenClosed(parentId);
      if !closable {
        return;
      }
      var parent := state.tasks[found.value];
      AutoCloseStep(state.tasks, links, reviews, parentId, found.value, state.tasks[found.value := parent.(status := "done")]);
      StatusKeepsFreshIds(state.tasks, found.value, state.nextId);
      state.tasks := state.tasks[found.value := parent.(status := "done")];
      var entry := ClosedEntry(parent);
      memory.RecordDecision(entry.text, entry.context);
      assert memory.decisions == old(memory.decisions) + [entry];
      ghost var logged := memory.decisions;
      ghost var closed := state.tasks;
      var grandparent := ParentOf(links, parentId);
      if grandparent.Some? {
        ParentBelow(links, parentId);
        MaybeAutoCloseParentChain(grandparent.value);
        ghost var upper := AutoClose(closed, links, reviews, grandparent.value).1;
        assert memory.decisions == logged + upper;
        assert AutoClose(old(state.tasks), links, reviews, parentId).1 == [entry] + upper;
        SeqAssoc(old(memory.decisions), [entry], upper);
      }
    }

    /**
     * `mark_task_done_by_delegate`: an unknown id gives `None` and changes
     * nothing; otherwise the task is done, owned by the delegate and awaiting
     * review. Its own awaiting review keeps the parent open, so no other task
     * changes.
     */
    method MarkTaskDoneByDelegate(taskId: nat, delegateName: string, notes: string) returns (r: Option<Task>)
      requires Valid()
      modifies this, state, memory
      ensures Valid()
      ensures links == old(links) && state.nextId == old(state.nextId)
      ensures FindTask(old(state.tasks), taskId).None? ==>
        r == None && state.tasks == old(state.tasks) && reviews == old(reviews) &&
        memory.decisions == old(memory.decisions)
      ensures FindTask(old(state.tasks), taskId).Some? ==>
        var k := FindTask(old(state.tasks), taskId).value;
        var done := old(state.tasks)[k].(status := "done", owner := delegateName);
        r == Some(done) &&
        state.tasks == old(state.tasks)[k := done] &&
        reviews == old(reviews)[taskId := Review("awaiting", "", "")] &&
        memory.decisions == old(memory.decisions) +
          [DecisionEntry("Task '" + done.title + "' marked done by delegate " + delegateName + ". Awaiting review.",
                         map["type" := Str("task_completed_by_delegate"), "task_id" := IdValue(taskId),
                             "delegate" := Str(delegateName), "notes" := Str(notes)])]
      ensures memory.events == old(memory.events) && memory.toolCalls == old(memory.toolCalls)
      ensures memory.kpis == old(memory.kpis) && memory.tokenUsage == old(memory.tokenUsage)
      ensures memory.reflections == old(memory.reflections)
    {
      var found := FindTask(state.tasks, taskId);
      if found.None? {
        return None;
      }
      var done := state.tasks[found.value].(status := "done", owner := delegateName);
      state.tasks := state.tasks[found.value := done];
      SetReview(taskId, "awaiting", "", "");
      memory.RecordDecision("Task '" + done.title + "' marked done by delegate " + delegateName + ". Awaiting review.",
                            map["type" := Str("task_completed_by_delegate"), "task_id" := IdValue(taskId),
                                "delegate" := Str(delegateName), "notes" := Str(notes)]);
      var parentId := ParentOf(links, taskId);
      if parentId.Some? {
        ParentListsChild(links, taskId);
        assert state.tasks[found.value].id == taskId;
        UnapprovedChildBlocks(state.tasks, links, reviews, parentId.value, taskId);
        MaybeAutoCloseParentChain(parentId.value);
      }
      r := Some(done);
    }

    /**
     * `review_task`: an unknown id gives `None` and changes nothing; otherwise
     * the review becomes approved or rejected, and only an approval tries to
     * close the parent chain.
     */
    method ReviewTask(taskId: nat, approved: bool, reviewedBy: string, comments: string) returns (r: Option<Task>)
      requires Valid()
      modifies this, state, memory
      ensures Valid()
      ensures links == old(links) && state.nextId == old(state.nextId)
      ensures FindTask(old(state.tasks), taskId).None? ==>
        r == None && state.tasks == old(state.tasks) && reviews == old(reviews) &&
        memory.decisions == old(memory.decisions)
      ensures FindTask(old(state.tasks), taskId).Some? ==>
        var task := old(state.tasks)[FindTask(old(state.tasks), taskId).value];
        var status := if approved then "approved" else "rejected";
        r == Some(task) &&
        reviews == old(reviews)[taskId := Review(status, reviewedBy, comments)] &&
        |memory.decisions| > |old(memory.decisions)| &&
        memory.decisions[..|old(memory.decisions)| + 1] == old(memory.decisions) +
          [DecisionEntry("Task review: '" + task.title + "' -> " + Upper(status) + " by " + reviewedBy,
                         map["type" := Str("task_review"), "task_id" := IdValue(taskId), "approved" := Bool(approved),
                             "reviewed_by" := Str(reviewedBy), "comments" := Str(comments)])] &&
        state.tasks == (if approved && ParentOf(links, taskId).Some?
                        then AutoClose(old(state.tasks), links, reviews, ParentOf(links, taskId).value).0
                        else old(state.tasks))
      ensures FindTask(old(state.tasks), taskId).Some? && !(approved && ParentOf(links, taskId).Some?) ==>
        |memory.decisions| == |old(memory.decisions)| + 1
      ensures FindTask(old(state.tasks), taskId).Some? && approved && ParentOf(links, taskId).Some? ==>
        memory.decisions[|old(memory.decisions)| + 1..] == AutoClose(old(state.tasks), links, reviews, ParentOf(links, taskId).value).1
      ensures memory.events == old(memory.events) && memory.toolCalls == old(memory.toolCalls)
      ensures memory.kpis == old(memory.kpis) && memory.tokenUsage == old(memory.tokenUsage)
      ensures memory.reflections == old(memory.reflections)
    {
      var found := FindTask(state.tasks, taskId);
      if found.None? {
        return None;
      }
      var task := state.tasks[found.value];
      var status := if approved then "approved" else "rejected";
      SetReview(taskId, status, reviewedBy, comments);
      memory.RecordDecision("Task review: '" + task.title + "' -> " + Upper(status) + " by " + reviewedBy,
                            map["type" := Str("task_review"), "task_id" := IdValue(taskId), "approved" := Bool(approved),
                                "reviewed_by" := Str(reviewedBy), "comments" := Str(comments)]);
      ghost var logged := memory.decisions;
      if approved {
        var parentId := ParentOf(links, taskId);
        if parentId.Some? {
          MaybeAutoCloseParentChain(parentId.value);
          assert memory.decisions[..|logged|] == logged;
        }
      }
      r := Some(task);
    }

    /** `get_open_task_tree`. */
    function GetOpenTaskTree(): (tree: seq<Node>)
      reads this, state
      requires Valid()
      ensures forall n :: n in tree ==> AllOpen(n) && !IsChild(links, n.task.id) && n.task in state.tasks
      ensures forall k :: 0 <= k < |state.tasks| && state.tasks[k].status != "done" && !IsChild(links, state.tasks[k].id) ==>
                exists n :: n in tree && n.task == state.tasks[k]
      ensures tree == Somes(NodesOf(state.tasks, links, reviews, state.nextId, RootIds(state.tasks, links)))
      ensures RootIds(state.tasks, links) == Somes(RootMarks(state.tasks, links))
    {
      OpenRootsAll(state.tasks, links, reviews, state.nextId);
      OpenTaskTreeInOrder(state.tasks, links, reviews, state.nextId);
      OpenTaskTree(state.tasks, links, reviews, state.nextId)
    }
  }
}
