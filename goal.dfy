/** Goals and the goal manager. A goal owns its sub-goals, so a goal is a tree;
    the model keeps each goal as a value, and an operation that changes a goal
    returns the changed goal. The manager keeps the flat list of root goals. */
module Goals {
  import opened Common

  datatype GoalStatus = Pending | InProgress | Completed | Failed | Blocked

  /** The key under which mark_failed records its error message */
  const ErrorKey := "error"

  /** A goal and its sub-goal tree: all a goal holds except its timestamps and parent link */
  datatype Goal = Goal(
    description: string,
    status: GoalStatus,
    priority: int,
    result: Option<Value>,
    metadata: map<string, Value>,
    subGoals: seq<Goal>)

  /** A newly built goal: PENDING, no sub-goals, no result, empty metadata */
  function NewGoal(description: string, priority: int): (g: Goal)
    ensures g.status == Pending && g.subGoals == [] && g.result == None && g.metadata == map[]
    ensures g.description == description && g.priority == priority
  {
    Goal(description, Pending, priority, None, map[], [])
  }

  /** Number of goals in a tree */
  function Size(g: Goal): nat
    decreases g, 1
  {
    1 + ForestSize(g.subGoals)
  }

  function ForestSize(gs: seq<Goal>): nat
    decreases gs, 0
  {
    if gs == [] then 0 else ForestSize(gs[..|gs| - 1]) + Size(gs[|gs| - 1])
  }

  /** add_sub_goal: `sub` becomes the last sub-goal; the earlier ones stay in place */
  function AddSubGoal(g: Goal, sub: Goal): (r: Goal)
    ensures r.subGoals == g.subGoals + [sub]
    ensures r.(subGoals := g.subGoals) == g
  {
    g.(subGoals := g.subGoals + [sub])
  }

  /** Attaching a sub-goal tree adds exactly its goals to the tree. */
  lemma AddSubGoalSize(g: Goal, sub: Goal)
    ensures Size(AddSubGoal(g, sub)) == Size(g) + Size(sub)
  {
    var gs := AddSubGoal(g, sub).subGoals;
    assert gs[..|gs| - 1] == g.subGoals;
  }

  /** mark_completed: COMPLETED with the given result, nothing else changed */
  function MarkCompleted(g: Goal, result: Option<Value>): (r: Goal)
    ensures IsCompleted(r) && r.result == result
    ensures r.(status := g.status, result := g.result) == g
  {
    g.(status := Completed, result := result)
  }

  /** mark_failed: FAILED; a given, non-empty error message is recorded in the metadata */
  function MarkFailed(g: Goal, error: Option<string>): (r: Goal)
    ensures r.status == Failed && !IsCompleted(r)
    ensures error.Some? && error.value != "" ==> r.metadata == g.metadata[ErrorKey := Str(error.value)]
    ensures error.None? || error.value == "" ==> r.metadata == g.metadata
    ensures r.(status := g.status, metadata := g.metadata) == g
  {
    if error.Some? && error.value != "" then
      g.(status := Failed, metadata := g.metadata[ErrorKey := Str(error.value)])
    else
      g.(status := Failed)
  }

  /** mark_in_progress: IN_PROGRESS whatever the status was */
  function MarkInProgress(g: Goal): (r: Goal)
    ensures r.status == InProgress && !IsCompleted(r)
    ensures r.(status := g.status) == g
  {
    g.(status := InProgress)
  }

  predicate IsCompleted(g: Goal) {
    g.status == Completed
  }

  /** Python's `all(...)` over the goals, scanning left to right */
  function AllCompletedIn(gs: seq<Goal>): (r: bool)
    ensures r <==> forall i :: 0 <= i < |gs| ==> IsCompleted(gs[i])
  {
    if gs == [] then true
    else IsCompleted(gs[0]) && AllCompletedIn(gs[1..])
  }

  /** all_sub_goals_completed: every sub-goal is COMPLETED; true when there are none */
  function AllSubGoalsCompleted(g: Goal): (r: bool)
    ensures r <==> forall i :: 0 <= i < |g.subGoals| ==> g.subGoals[i].status == Completed
    ensures g.subGoals == [] ==> r
  {
    AllCompletedIn(g.subGoals)
  }

  /** The number of entries of `ss` equal to `s` */
  function Count(ss: seq<GoalStatus>, s: GoalStatus): (r: nat)
    ensures r <= |ss|
  {
    if ss == [] then 0 else Count(ss[..|ss| - 1], s) + (if ss[|ss| - 1] == s then 1 else 0)
  }

  /** No entry is `s` exactly when the count is zero. */
  lemma {:induction false} CountZero(ss: seq<GoalStatus>, s: GoalStatus)
    ensures Count(ss, s) == 0 <==> forall i :: 0 <= i < |ss| ==> ss[i] != s
    decreases |ss|
  {
    if ss != [] {
      CountZero(ss[..|ss| - 1], s);
      assert forall i :: 0 <= i < |ss| - 1 ==> ss[..|ss| - 1][i] == ss[i];
    }
  }

  /** Changing one entry from `s` to something else lowers the count of `s` by one. */
  lemma {:induction false} CountAfterUpdate(ss: seq<GoalStatus>, k: nat, s: GoalStatus, t: GoalStatus)
    requires k < |ss| && ss[k] == s && t != s
    ensures Count(ss[k := t], s) == Count(ss, s) - 1
    decreases |ss|
  {
    var n := |ss| - 1;
    if k < n {
      assert ss[k := t][..n] == ss[..n][k := t];
      CountAfterUpdate(ss[..n], k, s, t);
    } else {
      assert ss[k := t][..n] == ss[..n];
    }
  }

  /** Entries of two kinds together never outnumber the sequence. */
  lemma {:induction false} CountTwo(ss: seq<GoalStatus>, s: GoalStatus, t: GoalStatus)
    requires s != t
    ensures Count(ss, s) + Count(ss, t) <= |ss|
    decreases |ss|
  {
    if ss != [] {
      CountTwo(ss[..|ss| - 1], s, t);
    }
  }

  /** The status of every goal of a list, in list order */
  function Statuses(gs: seq<Goal>): (r: seq<GoalStatus>)
    ensures |r| == |gs| && forall i :: 0 <= i < |gs| ==> r[i] == gs[i].status
  {
    seq(|gs|, i requires 0 <= i < |gs| => gs[i].status)
  }

  /** Replacing one goal replaces just its status. */
  lemma StatusesUpdate(gs: seq<Goal>, k: nat, g: Goal)
    requires k < |gs|
    ensures Statuses(gs[k := g]) == Statuses(gs)[k := g.status]
  {
  }

  /** The number of PENDING goals of a list */
  function PendingIn(gs: seq<Goal>): nat {
    Count(Statuses(gs), Pending)
  }

  /** No goal of a list is PENDING exactly when it has none to count. */
  lemma NoPending(gs: seq<Goal>)
    ensures PendingIn(gs) == 0 <==> forall j :: 0 <= j < |gs| ==> gs[j].status != Pending
  {
    CountZero(Statuses(gs), Pending);
  }

  /** `gs[k]` is the PENDING goal of highest priority, the first one among equals */
  ghost predicate IsNext(gs: seq<Goal>, k: int) {
    0 <= k < |gs| && gs[k].status == Pending &&
    (forall j :: 0 <= j < |gs| && gs[j].status == Pending ==> gs[j].priority <= gs[k].priority) &&
    (forall j :: 0 <= j < k && gs[j].status == Pending ==> gs[j].priority < gs[k].priority)
  }

  /** The choice rule names one position at most. */
  lemma NextIsUnique(gs: seq<Goal>, k: int, k': int)
    requires IsNext(gs, k) && IsNext(gs, k')
    ensures k == k'
  {
  }

  /** The position of the first PENDING goal of highest priority among the first `n`,
      as Python's `max` keeps the first of equal keys */
  function NextAmong(gs: seq<Goal>, n: nat): (r: Option<nat>)
    requires n <= |gs|
    ensures r.None? <==> forall j :: 0 <= j < n ==> gs[j].status != Pending
    ensures r.Some? ==> r.value < n && gs[r.value].status == Pending
    ensures r.Some? ==> forall j :: 0 <= j < n && gs[j].status == Pending ==>
                          gs[j].priority <= gs[r.value].priority
    ensures r.Some? ==> forall j :: 0 <= j < r.value && gs[j].status == Pending ==>
                          gs[j].priority < gs[r.value].priority
    decreases n
  {
    if n == 0 then None
    else
      var best := NextAmong(gs, n - 1);
      if gs[n - 1].status != Pending then best
      else if best.None? || gs[best.value].priority < gs[n - 1].priority then Some(n - 1)
      else best
  }

  /** The position get_next_goal picks: None when no goal is PENDING, else the only
      position the choice rule names */
  function NextOf(gs: seq<Goal>): (r: Option<nat>)
    ensures r.None? <==> forall j :: 0 <= j < |gs| ==> gs[j].status != Pending
    ensures r.Some? ==> IsNext(gs, r.value)
  {
    NextAmong(gs, |gs|)
  }

  /** The order-preserving filter of COMPLETED goals */
  function CompletedIn(gs: seq<Goal>): (r: seq<Goal>)
    ensures |r| == Count(Statuses(gs), Completed)
    ensures forall i :: 0 <= i < |r| ==> r[i] in gs && IsCompleted(r[i])
    ensures forall j :: 0 <= j < |gs| && IsCompleted(gs[j]) ==> gs[j] in r
    decreases |gs|
  {
    if gs == [] then []
    else
      var n := |gs| - 1;
      assert Statuses(gs)[..n] == Statuses(gs[..n]);
      assert forall j :: 0 <= j < n ==> gs[..n][j] == gs[j];
      CompletedIn(gs[..n]) + (if IsCompleted(gs[n]) then [gs[n]] else [])
  }

  /** The filter keeps list order: it distributes over concatenation. */
  lemma {:induction false} CompletedAppend(a: seq<Goal>, b: seq<Goal>)
    ensures CompletedIn(a + b) == CompletedIn(a) + CompletedIn(b)
    decreases |b|
  {
    if b == [] {
      assert a + b == a;
    } else {
      var b' := b[..|b| - 1];
      assert (a + b)[..|a + b| - 1] == a + b';
      CompletedAppend(a, b');
    }
  }

  /** The manager's flat list of root goals; sub-goals are reached only through their trees. */
  class GoalManager {
    var goals: seq<Goal>

    constructor ()
      ensures goals == []
    {
      goals := [];
    }

    method AddGoal(goal: Goal)
      modifies this
      ensures goals == old(goals) + [goal]
    {
      goals := goals + [goal];
    }

    /** get_all_goals: the root list itself, in the order the goals were added */
    function GetAllGoals(): (r: seq<Goal>)
      reads this
      ensures r == goals
    {
      goals
    }

    /** get_next_goal: the PENDING root goal of highest priority, the first in list
        order among equals; None when no root goal is PENDING */
    function GetNextGoal(): (r: Option<Goal>)
      reads this
      ensures r.None? <==> forall j :: 0 <= j < |goals| ==> goals[j].status != Pending
      ensures r.Some? ==> exists k :: IsNext(goals, k) && goals[k] == r.value
    {
      var k := NextOf(goals);
      if k.None? then None else Some(goals[k.value])
    }

    /** get_completed_goals: the COMPLETED root goals, in list order (see CompletedAppend) */
    function GetCompletedGoals(): (r: seq<Goal>)
      reads this
      ensures |r| == Count(Statuses(goals), Completed)
      ensures forall i :: 0 <= i < |r| ==> r[i] in goals && IsCompleted(r[i])
      ensures forall j :: 0 <= j < |goals| && IsCompleted(goals[j]) ==> goals[j] in r
    {
      CompletedIn(goals)
    }
  }
}
