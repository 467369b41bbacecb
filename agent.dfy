/** The agent: it owns a goal manager, a tool registry, a memory store and a
    reasoning history, executes goal trees recursively and tools by name, and
    runs a loop that executes the root goals in priority order. */
module CoreAgent {
  import opened Common
  import opened MemoryBase
  import opened Goals
  import opened Tools

  /** What a reasoning step did: a described activity, or a call of a tool with its arguments */
  datatype Action = Describe(text: string) | Call(tool: string, params: Params)

  datatype ReasoningStep = ReasoningStep(thought: string, action: Option<Action>, observation: Option<string>)

  const AnalysisAction := "Analyzing goal and sub-goals"

  /** The result execute_goal stores in a completed goal */
  const ExecutedResult := "Goal completed"

  /** A goal tree as execute_goal leaves it: every goal COMPLETED with the fixed
      result, nothing else changed */
  function Executed(t: Goal): Goal
    decreases t, 1
  {
    t.(status := Completed, result := Some(Str(ExecutedResult)), subGoals := ExecutedForest(t.subGoals))
  }

  function ExecutedForest(ts: seq<Goal>): (r: seq<Goal>)
    ensures |r| == |ts|
    decreases ts, 0
  {
    seq(|ts|, i requires 0 <= i < |ts| => Executed(ts[i]))
  }

  /** Every goal of the tree is COMPLETED */
  predicate AllCompleted(t: Goal)
    decreases t
  {
    t.status == Completed && forall i :: 0 <= i < |t.subGoals| ==> AllCompleted(t.subGoals[i])
  }

  /** An executed tree is COMPLETED throughout. */
  lemma {:induction false} ExecutedAllCompleted(t: Goal)
    ensures AllCompleted(Executed(t))
    decreases t
  {
    forall i | 0 <= i < |t.subGoals| ensures AllCompleted(Executed(t).subGoals[i]) {
      ExecutedAllCompleted(t.subGoals[i]);
    }
  }

  /** Execution neither adds nor drops goals. */
  lemma {:induction false} ExecutedSize(t: Goal)
    ensures Size(Executed(t)) == Size(t)
    decreases t, 1
  {
    ExecutedForestSize(t.subGoals);
  }

  lemma {:induction false} ExecutedForestSize(ts: seq<Goal>)
    ensures ForestSize(ExecutedForest(ts)) == ForestSize(ts)
    decreases ts, 0
  {
    if ts != [] {
      var ex := ExecutedForest(ts);
      assert ex[..|ex| - 1] == ExecutedForest(ts[..|ts| - 1]);
      ExecutedForestSize(ts[..|ts| - 1]);
      ExecutedSize(ts[|ts| - 1]);
    }
  }

  /** Executing an executed tree again changes nothing in it. */
  lemma {:induction false} ExecutedIdempotent(t: Goal)
    ensures Executed(Executed(t)) == Executed(t)
    decreases t
  {
    forall i | 0 <= i < |t.subGoals| ensures Executed(Executed(t.subGoals[i])) == Executed(t.subGoals[i]) {
      ExecutedIdempotent(t.subGoals[i]);
    }
    assert ExecutedForest(ExecutedForest(t.subGoals)) == ExecutedForest(t.subGoals);
  }

  /** The sub-goals executed so far, followed by the ones still to run */
  lemma ExecutedPrefixStep(subs: seq<Goal>, i: nat)
    requires i < |subs|
    ensures (ExecutedForest(subs[..i]) + subs[i..])[i := Executed(subs[i])] ==
            ExecutedForest(subs[..i + 1]) + subs[i + 1..]
  {
  }

  /** The step execute_goal records when it starts on a goal */
  function StartStep(description: string): ReasoningStep {
    ReasoningStep("Working on goal: " + description, Some(Describe(AnalysisAction)), None)
  }

  /** The steps recorded while executing a tree: one per goal, in pre-order */
  function StartSteps(t: Goal): seq<ReasoningStep>
    decreases t, 1
  {
    [StartStep(t.description)] + ForestStartSteps(t.subGoals)
  }

  function ForestStartSteps(ts: seq<Goal>): seq<ReasoningStep>
    decreases ts, 0
  {
    if ts == [] then [] else ForestStartSteps(ts[..|ts| - 1]) + StartSteps(ts[|ts| - 1])
  }

  /** The long-term memory execute_goal stores when it completes a goal */
  function CompletionMemory(description: string): MemoryEntry {
    NewEntry("Completed goal: " + description, 8, Some(["goal", "completed"]), None)
  }

  /** The memories stored while executing a tree: one per goal, in post-order */
  function CompletionMemories(t: Goal): seq<MemoryEntry>
    decreases t, 1
  {
    ForestCompletionMemories(t.subGoals) + [CompletionMemory(t.description)]
  }

  function ForestCompletionMemories(ts: seq<Goal>): seq<MemoryEntry>
    decreases ts, 0
  {
    if ts == [] then [] else ForestCompletionMemories(ts[..|ts| - 1]) + CompletionMemories(ts[|ts| - 1])
  }

  /** Executing a tree records exactly one reasoning step and one memory per goal. */
  lemma {:induction false} TraceSizes(t: Goal)
    ensures |StartSteps(t)| == Size(t) && |CompletionMemories(t)| == Size(t)
    decreases t, 1
  {
    ForestTraceSizes(t.subGoals);
  }

  lemma {:induction false} ForestTraceSizes(ts: seq<Goal>)
    ensures |ForestStartSteps(ts)| == ForestSize(ts) && |ForestCompletionMemories(ts)| == ForestSize(ts)
    decreases ts, 0
  {
    if ts != [] {
      ForestTraceSizes(ts[..|ts| - 1]);
      TraceSizes(ts[|ts| - 1]);
    }
  }

  /** The first step of a tree's trace is its root's; the last memory is its root's. */
  lemma TraceEnds(t: Goal)
    ensures StartSteps(t)[0] == StartStep(t.description)
    ensures CompletionMemories(t)[|CompletionMemories(t)| - 1] == CompletionMemory(t.description)
  {
  }

  /** Extending a forest by its next tree extends its traces by that tree's traces. */
  lemma ForestTraceSnoc(ts: seq<Goal>, i: nat)
    requires i < |ts|
    ensures ForestStartSteps(ts[..i + 1]) == ForestStartSteps(ts[..i]) + StartSteps(ts[i])
    ensures ForestCompletionMemories(ts[..i + 1]) == ForestCompletionMemories(ts[..i]) + CompletionMemories(ts[i])
  {
    assert ts[..i + 1][..i] == ts[..i];
  }

  /** Executing an already executed tree records the same steps and memories again. */
  lemma {:induction false} ReExecutionTrace(t: Goal)
    ensures StartSteps(Executed(t)) == StartSteps(t)
    ensures CompletionMemories(Executed(t)) == CompletionMemories(t)
    decreases t, 1
  {
    ForestReExecutionTrace(t.subGoals);
  }

  lemma {:induction false} ForestReExecutionTrace(ts: seq<Goal>)
    ensures ForestStartSteps(ExecutedForest(ts)) == ForestStartSteps(ts)
    ensures ForestCompletionMemories(ExecutedForest(ts)) == ForestCompletionMemories(ts)
    decreases ts, 0
  {
    if ts != [] {
      var ex := ExecutedForest(ts);
      assert ex[..|ex| - 1] == ExecutedForest(ts[..|ts| - 1]);
      ForestReExecutionTrace(ts[..|ts| - 1]);
      ReExecutionTrace(ts[|ts| - 1]);
    }
  }

  lemma AppendAssoc<T>(a: seq<T>, b: seq<T>, c: seq<T>)
    ensures a + (b + c) == a + b + c
  {
  }

  /** The root list after the goals at the positions in `done` were executed */
  function Apply(gs: seq<Goal>, done: seq<nat>): (r: seq<Goal>)
    ensures |r| == |gs|
  {
    seq(|gs|, p requires 0 <= p < |gs| => if p in done then Executed(gs[p]) else gs[p])
  }

  /** `order` is the sequence of positions run picks, one per iteration: each is the
      next goal of the list as the earlier iterations left it */
  ghost predicate RunOrder(gs: seq<Goal>, order: seq<nat>)
    decreases |order|
  {
    order == [] ||
    (RunOrder(gs, order[..|order| - 1]) && NextOf(Apply(gs, order[..|order| - 1])) == Some(order[|order| - 1]))
  }

  /** The steps recorded by the iterations that executed the goals at `order`, in turn */
  function RunHistory(gs: seq<Goal>, order: seq<nat>): seq<ReasoningStep>
    decreases |order|
  {
    if order == [] then []
    else
      var k := order[|order| - 1];
      RunHistory(gs, order[..|order| - 1]) + (if k < |gs| then StartSteps(gs[k]) else [])
  }

  /** The long-term memories stored by those iterations, in turn */
  function RunMemories(gs: seq<Goal>, order: seq<nat>): seq<MemoryEntry>
    decreases |order|
  {
    if order == [] then []
    else
      var k := order[|order| - 1];
      RunMemories(gs, order[..|order| - 1]) + (if k < |gs| then CompletionMemories(gs[k]) else [])
  }

  /** One iteration of run: the chosen goal was PENDING and untouched, executing it
      extends the order and the traces and leaves one PENDING goal fewer. */
  lemma {:induction false} RunStep(gs: seq<Goal>, order: seq<nat>, k: nat)
    requires RunOrder(gs, order) && NextOf(Apply(gs, order)) == Some(k)
    ensures k < |gs| && k !in order && Apply(gs, order)[k] == gs[k]
    ensures RunOrder(gs, order + [k])
    ensures Apply(gs, order + [k]) == Apply(gs, order)[k := Executed(gs[k])]
    ensures PendingIn(Apply(gs, order + [k])) == PendingIn(Apply(gs, order)) - 1
    ensures RunHistory(gs, order + [k]) == RunHistory(gs, order) + StartSteps(gs[k])
    ensures RunMemories(gs, order + [k]) == RunMemories(gs, order) + CompletionMemories(gs[k])
  {
    var a := Apply(gs, order);
    var order' := order + [k];
    assert order'[..|order'| - 1] == order;
    assert Apply(gs, order') == a[k := Executed(gs[k])];
    StatusesUpdate(a, k, Executed(gs[k]));
    CountAfterUpdate(Statuses(a), k, Pending, Completed);
  }

  /** Each iteration picked the goal the choice rule named at that moment. */
  lemma {:induction false} RunOrderPicks(gs: seq<Goal>, order: seq<nat>, j: nat)
    requires RunOrder(gs, order) && j < |order|
    ensures IsNext(Apply(gs, order[..j]), order[j])
    decreases |order|
  {
    var n := |order| - 1;
    if j < n {
      assert order[..n][..j] == order[..j];
      RunOrderPicks(gs, order[..n], j);
    }
  }

  /** The picked positions are distinct, and each held a PENDING goal at the start. */
  lemma {:induction false} RunOrderPending(gs: seq<Goal>, order: seq<nat>)
    requires RunOrder(gs, order)
    ensures forall j :: 0 <= j < |order| ==> order[j] < |gs| && gs[order[j]].status == Pending
    ensures forall i, j :: 0 <= i < j < |order| ==> order[i] != order[j]
    decreases |order|
  {
    if order != [] {
      var n := |order| - 1;
      var prefix, k := order[..n], order[n];
      RunOrderPending(gs, prefix);
      assert Apply(gs, prefix)[k].status == Pending;
      assert k !in prefix;
      forall i, j | 0 <= i < j < |order| ensures order[i] != order[j] {
        assert order[i] == prefix[i];
        if j < n {
          assert order[j] == prefix[j];
        }
      }
      forall j | 0 <= j < |order| ensures order[j] < |gs| && gs[order[j]].status == Pending {
        if j < n {
          assert order[j] == prefix[j];
        }
      }
    }
  }

  /** Goals run in non-increasing order of priority; among equal priorities, in list order. */
  lemma {:induction false} RunOrderPriorities(gs: seq<Goal>, order: seq<nat>, i: nat, j: nat)
    requires RunOrder(gs, order) && i < j < |order|
    ensures order[i] < |gs| && order[j] < |gs|
    ensures gs[order[j]].priority <= gs[order[i]].priority
    ensures gs[order[j]].priority == gs[order[i]].priority ==> order[i] < order[j]
  {
    RunOrderPending(gs, order);
    RunOrderPicks(gs, order, i);
    var a := Apply(gs, order[..i]);
    var k := order[j];
    assert order[j] !in order[..i];
    assert a[k] == gs[k];
    assert a[order[i]] == gs[order[i]];
  }

  /** The short-term memory add_goal stores */
  function GoalMemory(description: string, priority: int): MemoryEntry {
    NewEntry("New goal added: " + description, priority, Some(["goal"]), None)
  }

  /** The short-term memory add_tool stores */
  function ToolAddedMemory(tool: Tool): MemoryEntry {
    NewEntry("New tool available: " + tool.Name() + " - " + tool.Description(), 5, Some(["tool"]), None)
  }

  /** What execute_tool returns when the lookup of `name` gave `found` */
  function ToolCallResult(found: Option<Tool>, name: string, params: Params): (r: ToolResult)
    ensures found.None? ==> r == Failure("Tool '" + name + "' not found")
    ensures r.success ==> found.Some? && Execute(found.value, params) == Returned(r)
    ensures found.Some? && Execute(found.value, params).Returned? ==> r == Execute(found.value, params).result
    ensures found.Some? && Execute(found.value, params).Raised? ==>
              r == Failure("Error executing tool: " + Execute(found.value, params).message)
    ensures found.Some? && (found.value.Echo? || found.value.Calculator?) ==> WellFormed(r)
  {
    match found
    case None => Failure("Tool '" + name + "' not found")
    case Some(tool) =>
      match Execute(tool, params)
      case Returned(result) => result
      case Raised(message) => Failure("Error executing tool: " + message)
  }

  /** A tool call leaves a trace in memory and history exactly when the tool exists and does not raise */
  predicate Traced(found: Option<Tool>, params: Params) {
    found.Some? && Execute(found.value, params).Returned?
  }

  /** The short-term memory a traced tool call stores */
  function ToolMemory(name: string, r: ToolResult): MemoryEntry {
    NewEntry("Executed tool '" + name + "' with result: " + ShowOption(r.output), 5, Some(["action", "tool"]), None)
  }

  /** The reasoning step a traced tool call records: the output on success, the error otherwise */
  function ToolStep(name: string, params: Params, r: ToolResult): ReasoningStep {
    ReasoningStep("Using tool " + name, Some(Call(name, params)),
                  if r.success then Some(ShowOption(r.output)) else r.error)
  }

  /** `max_iterations` caps the run only when it is truthy: present and not 0 */
  predicate CapActive(maxIterations: Option<int>) {
    maxIterations.Some? && maxIterations.value != 0
  }

  function Min(a: int, b: int): int {
    if a <= b then a else b
  }

  function Max0(a: int): nat {
    if a < 0 then 0 else a
  }

  /** The dictionary run returns */
  datatype RunSummary = RunSummary(iterations: nat, completedGoals: nat, totalGoals: nat, reasoningSteps: nat)

  /** The dictionary get_status returns */
  datatype AgentStatus = AgentStatus(
    name: string,
    totalGoals: nat,
    pendingGoals: nat,
    completedGoals: nat,
    availableTools: seq<string>,
    shortTermMemories: nat,
    longTermMemories: nat,
    reasoningSteps: nat)

  class Agent {
    const name: string
    const manager: GoalManager
    const registry: ToolRegistry
    const memory: Memory
    var reasoningHistory: seq<ReasoningStep>

    ghost predicate Valid()
      reads this, registry, memory`shortTerm
    {
      registry.Valid() && memory.Valid()
    }

    /** A new agent knows the echo and calculator tools, in that order, and nothing else */
    constructor (name: string, maxShortTermMemory: int)
      ensures Valid() && fresh(manager) && fresh(registry) && fresh(memory)
      ensures this.name == name && memory.maxShortTerm == maxShortTermMemory
      ensures manager.goals == []
      ensures registry.names == ["echo", "calculator"]
      ensures registry.tools == map["echo" := Echo, "calculator" := Calculator]
      ensures memory.shortTerm == [] && memory.longTerm == [] && reasoningHistory == []
    {
      this.name := name;
      manager := new GoalManager();
      registry := new ToolRegistry();
      memory := new Memory(maxShortTermMemory);
      reasoningHistory := [];
      new;
      registry.Register(Echo);
      registry.Register(Calculator);
    }

    method AddGoal(goal: Goal)
      requires Valid()
      modifies manager, memory`shortTerm, memory`longTerm
      ensures Valid()
      ensures manager.goals == old(manager.goals) + [goal]
      ensures memory.State() == Push(old(memory.State()), memory.maxShortTerm, GoalMemory(goal.description, goal.priority))
    {
      manager.AddGoal(goal);
      memory.AddToShortTerm("New goal added: " + goal.description, goal.priority, Some(["goal"]), None);
    }

    method AddTool(tool: Tool)
      requires Valid()
      modifies registry, memory`shortTerm, memory`longTerm
      ensures Valid()
      ensures registry.tools == old(registry.tools)[tool.Name() := tool]
      ensures registry.names == if tool.Name() in old(registry.tools) then old(registry.names)
                                else old(registry.names) + [tool.Name()]
      ensures memory.State() == Push(old(memory.State()), memory.maxShortTerm, ToolAddedMemory(tool))
    {
      registry.Register(tool);
      memory.AddToShortTerm("New tool available: " + tool.Name() + " - " + tool.Description(), 5, Some(["tool"]), None);
    }

    /** Runs the tool registered under `toolName`. A missing tool and a raising tool
        leave memory and history as they were; otherwise one memory and one step are
        recorded and the tool's own result is returned. */
    method ExecuteTool(toolName: string, params: Params) returns (r: ToolResult)
      requires Valid()
      modifies this`reasoningHistory, memory`shortTerm, memory`longTerm
      ensures Valid()
      ensures r == ToolCallResult(registry.Get(toolName), toolName, params)
      ensures Traced(registry.Get(toolName), params) ==>
                memory.State() == Push(old(memory.State()), memory.maxShortTerm, ToolMemory(toolName, r)) &&
                reasoningHistory == old(reasoningHistory) + [ToolStep(toolName, params, r)]
      ensures !Traced(registry.Get(toolName), params) ==>
                memory.State() == old(memory.State()) && reasoningHistory == old(reasoningHistory)
    {
      var tool := registry.Get(toolName);
      if tool.None? {
        return Failure("Tool '" + toolName + "' not found");
      }
      match Execute(tool.value, params)
      case Raised(message) =>
        r := Failure("Error executing tool: " + message);
      case Returned(result) =>
        memory.AddToShortTerm("Executed tool '" + toolName + "' with result: " + ShowOption(result.output),
                              5, Some(["action", "tool"]), None);
        reasoningHistory := reasoningHistory + [ReasoningStep("Using tool " + toolName, Some(Call(toolName, params)),
                                                              if result.success then Some(ShowOption(result.output)) else result.error)];
        r := result;
    }

    /** Executes a goal tree: sub-goals first, each recursively, then the goal itself.
        Every goal ends COMPLETED, so the call always succeeds; `executed` is the goal
        as the call leaves it. */
    method ExecuteGoal(goal: Goal) returns (ok: bool, executed: Goal)
      requires memory.Valid()
      modifies this`reasoningHistory, memory`longTerm
      ensures ok && executed == Executed(goal)
      ensures reasoningHistory == old(reasoningHistory) + StartSteps(goal)
      ensures memory.longTerm == old(memory.longTerm) + CompletionMemories(goal)
      ensures memory.Valid()
      decreases goal
    {
      var current := MarkInProgress(goal);
      reasoningHistory := reasoningHistory + [ReasoningStep("Working on goal: " + goal.description,
                                                            Some(Describe(AnalysisAction)), None)];
      ghost var history, longTerm := reasoningHistory, memory.longTerm;
      var subs := goal.subGoals;
      var i := 0;
      while i < |subs|
        invariant 0 <= i <= |subs|
        invariant current == goal.(status := InProgress, subGoals := ExecutedForest(subs[..i]) + subs[i..])
        invariant reasoningHistory == history + ForestStartSteps(subs[..i])
        invariant memory.longTerm == longTerm + ForestCompletionMemories(subs[..i])
      {
        var subOk, subExecuted := ExecuteGoal(subs[i]);
        if !subOk {
          assert false;
        }
        ExecutedPrefixStep(subs, i);
        ForestTraceSnoc(subs, i);
        AppendAssoc(history, ForestStartSteps(subs[..i]), StartSteps(subs[i]));
        AppendAssoc(longTerm, ForestCompletionMemories(subs[..i]), CompletionMemories(subs[i]));
        current := current.(subGoals := current.subGoals[i := subExecuted]);
        i := i + 1;
      }
      assert subs[..i] == subs && subs[i..] == [];
      assert current.subGoals == ExecutedForest(subs);
      AppendAssoc(old(reasoningHistory), [StartStep(goal.description)], ForestStartSteps(subs));
      if AllSubGoalsCompleted(current) || |current.subGoals| == 0 {
        current := MarkCompleted(current, Some(Str(ExecutedResult)));
        memory.AddToLongTerm("Completed goal: " + goal.description, 8, Some(["goal", "completed"]), None);
        ok := true;
      } else {
        assert false;
      }
      executed := current;
    }

    /** The main loop: while the cap allows and some root goal is PENDING, execute the
        next goal and write it back into the root list. `order` is the sequence of
        positions executed. */
    method Run(maxIterations: Option<int>) returns (summary: RunSummary, ghost order: seq<nat>)
      requires Valid()
      modifies manager`goals, this`reasoningHistory, memory`longTerm
      ensures Valid()
      ensures RunOrder(old(manager.goals), order) && manager.goals == Apply(old(manager.goals), order)
      ensures summary == RunSummary(|order|, |order|, |manager.goals|, |reasoningHistory|)
      ensures CapActive(maxIterations) ==>
                |order| == Min(Max0(maxIterations.value), PendingIn(old(manager.goals)))
      ensures !CapActive(maxIterations) ==>
                |order| == PendingIn(old(manager.goals)) && NextOf(manager.goals).None?
      ensures reasoningHistory == old(reasoningHistory) + RunHistory(old(manager.goals), order)
      ensures memory.longTerm == old(memory.longTerm) + RunMemories(old(manager.goals), order)
    {
      ghost var start, history, longTerm := manager.goals, reasoningHistory, memory.longTerm;
      var iterations, completed := 0, 0;
      order := [];
      while true
        invariant RunOrder(start, order) && manager.goals == Apply(start, order)
        invariant iterations == completed == |order|
        invariant PendingIn(manager.goals) == PendingIn(start) - |order|
        invariant CapActive(maxIterations) ==> |order| <= Max0(maxIterations.value)
        invariant reasoningHistory == history + RunHistory(start, order)
        invariant memory.longTerm == longTerm + RunMemories(start, order)
        decreases PendingIn(manager.goals)
      {
        if CapActive(maxIterations) && iterations >= maxIterations.value {
          assert |order| == Max0(maxIterations.value) <= PendingIn(start);
          break;
        }
        var next := NextOf(manager.goals);
        if next.None? {
          NoPending(manager.goals);
          assert |order| == PendingIn(start);
          break;
        }
        var k := next.value;
        RunStep(start, order, k);
        var ok, executed := ExecuteGoal(manager.goals[k]);
        manager.goals := manager.goals[k := executed];
        if ok {
          completed := completed + 1;
        }
        iterations := iterations + 1;
        AppendAssoc(history, RunHistory(start, order), StartSteps(start[k]));
        AppendAssoc(longTerm, RunMemories(start, order), CompletionMemories(start[k]));
        order := order + [k];
      }
      summary := RunSummary(iterations, completed, |manager.GetAllGoals()|, |reasoningHistory|);
    }

    /** get_status: a snapshot of the agent's counters; it changes nothing */
    function GetStatus(): (s: AgentStatus)
      reads this, manager, registry, memory
      requires Valid()
      ensures s.name == name && s.totalGoals == |manager.goals|
      ensures s.pendingGoals == PendingIn(manager.goals)
      ensures s.pendingGoals == 0 <==> forall j :: 0 <= j < |manager.goals| ==> manager.goals[j].status != Pending
      ensures s.completedGoals == Count(Statuses(manager.goals), Completed)
      ensures s.pendingGoals + s.completedGoals <= s.totalGoals
      ensures forall n :: n in s.availableTools <==> registry.Get(n).Some?
      ensures s.shortTermMemories == |memory.shortTerm| && s.shortTermMemories <= Bound(memory.maxShortTerm)
      ensures s.availableTools == registry.names
      ensures s.longTermMemories == |memory.longTerm| && s.reasoningSteps == |reasoningHistory|
    {
      var all := manager.GetAllGoals();
      NoPending(all);
      CountTwo(Statuses(all), Pending, Completed);
      AgentStatus(name, |all|, PendingIn(all), |manager.GetCompletedGoals()|, registry.ListTools(),
                  |memory.shortTerm|, |memory.longTerm|, |reasoningHistory|)
    }
  }
}
