/**
 Agents that trigger workflows whose agents trigger workflows: app/core/workflow_trigger_context.py around
 app/workflowskill/service.py and app/services/workflow_execution_service.py.
 */
module WorkflowTriggers {
  import opened Prelude

  const MAX_GLOBAL_DEPTH := 5

  /** One tool built by build_trigger_tools: the workflow it names and the skill's maxTriggerDepth. */
  datatype Tool = Tool(workflowId: int, code: string, maxDepth: int)

  datatype Call = Call(tool: Tool, input: string)

  /** One agent run: the workflow tools it calls, in order, and how it ends. */
  datatype AgentRun = AgentRun(calls: seq<Call>, ending: Result<string, string>)

  datatype Workflow = Workflow(enabled: bool, steps: seq<int>)

  /**
   What the database and the agents do at each moment. Every lookup and every agent run happens at a moment of its
   own, so a world can give the same agent a different run each time: an agent that reacts to a tool's reply, to an
   exception raised through the tool or to chance is one of these worlds.
   */
  datatype World = World(
    lookup: (int, nat) -> Option<Workflow>,
    sessionUsable: nat -> bool,
    agent: (int, string, nat) -> AgentRun)

  datatype Exn =
    | DepthLimit(depth: nat, limit: int)
    | Cycle(code: string)
    | Disabled
    | NoSteps
    | StepFailed(step: int, text: string)
    | WorkflowNotFound
    | InvalidRequest
    | SessionNotFound
  {
    /** RuntimeExecutionError, the one exception the tool turns into a reply. */
    predicate IsRuntimeError() {
      DepthLimit? || Cycle? || Disabled? || NoSteps? || StepFailed?
    }
  }

  datatype Reply = Text(text: string) | Refused(code: string, why: Exn)

  /** A triggered workflow as it was entered: the triggered codes active then, its own last, and the skill's cap. */
  datatype Entry = Entry(chain: seq<string>, cap: int)

  datatype Trace<+T> = Trace(out: Result<T, Exn>, clock: nat, entered: seq<Entry>)

  function EffectiveMax(cap: int): int {
    if cap < MAX_GLOBAL_DEPTH then cap else MAX_GLOBAL_DEPTH
  }

  predicate MayEnter(chain: seq<string>, code: string, cap: int) {
    |chain| < EffectiveMax(cap) && code !in chain
  }

  function Refusal(chain: seq<string>, code: string, cap: int): Exn {
    if |chain| >= EffectiveMax(cap) then DepthLimit(|chain|, EffectiveMax(cap)) else Cycle(code)
  }

  function Left(chain: seq<string>): nat {
    if |chain| < MAX_GLOBAL_DEPTH then MAX_GLOBAL_DEPTH - |chain| else 0
  }

  // ---------------------------------------------------------------------------------------------
  // What happens inside a chain of active triggers
  // ---------------------------------------------------------------------------------------------

  function AsReply(code: string, out: Result<string, Exn>): Result<Reply, Exn> {
    match out
    case Ok(text) => Ok(Text(if text != "" then text else "(workflow completed with empty result)"))
    case Err(e) => if e.IsRuntimeError() then Ok(Refused(code, e)) else Err(e)
  }

  /** trigger_workflow. */
  function Triggered(w: World, chain: seq<string>, call: Call, clock: nat): Trace<Reply>
    decreases Left(chain), 0
  {
    var tool := call.tool;
    if !MayEnter(chain, tool.code, tool.maxDepth) then
      Trace(Ok(Refused(tool.code, Refusal(chain, tool.code, tool.maxDepth))), clock, [])
    else
      var inner := chain + [tool.code];
      var here := [Entry(inner, tool.maxDepth)];
      if call.input == "" then Trace(Err(InvalidRequest), clock, here)
      else
        var run := WorkflowRun(w, inner, tool.workflowId, call.input, clock);
        Trace(AsReply(tool.code, run.out), run.clock, here + run.entered)
  }

  /** The first n tool calls of one agent run. */
  function CallsMade(w: World, chain: seq<string>, calls: seq<Call>, n: nat, clock: nat): (nat, seq<Entry>)
    requires n <= |calls|
    decreases Left(chain), 1, n
  {
    if n == 0 then (clock, [])
    else
      var before := CallsMade(w, chain, calls, n - 1, clock);
      var last := Triggered(w, chain, calls[n - 1], before.0);
      (last.clock, before.1 + last.entered)
  }

  function StepOutcome(step: int, ending: Result<string, string>): Result<string, Exn> {
    match ending
    case Ok(text) => Ok(text)
    case Err(why) => Err(StepFailed(step, why))
  }

  function StepRun(w: World, chain: seq<string>, step: int, input: string, clock: nat): Trace<string>
    decreases Left(chain), 2, 0
  {
    var agent := w.agent(step, input, clock);
    var calls := CallsMade(w, chain, agent.calls, |agent.calls|, clock + 1);
    Trace(StepOutcome(step, agent.ending), calls.0, calls.1)
  }

  /** The first n steps of a workflow, the output of each the input of the next; stops at the first that fails. */
  function StepsRun(w: World, chain: seq<string>, steps: seq<int>, n: nat, input: string, clock: nat): Trace<string>
    requires n <= |steps|
    decreases Left(chain), 2, 1, n
  {
    if n == 0 then Trace(Ok(input), clock, [])
    else
      var before := StepsRun(w, chain, steps, n - 1, input, clock);
      if before.out.Err? then before
      else
        var last := StepRun(w, chain, steps[n - 1], before.out.value, before.clock);
        last.(entered := before.entered + last.entered)
  }

  /** run_workflow. */
  function WorkflowRun(w: World, chain: seq<string>, id: int, input: string, clock: nat): Trace<string>
    decreases Left(chain), 3
  {
    match w.lookup(id, clock)
    case None => Trace(Err(WorkflowNotFound), clock + 1, [])
    case Some(workflow) =>
      if !workflow.enabled then Trace(Err(Disabled), clock + 1, [])
      else if workflow.steps == [] then Trace(Err(NoSteps), clock + 1, [])
      else if !w.sessionUsable(clock) then Trace(Err(SessionNotFound), clock + 1, [])
      else StepsRun(w, chain, workflow.steps, |workflow.steps|, input, clock + 1)
  }

  // ---------------------------------------------------------------------------------------------
  // The two context variables
  // ---------------------------------------------------------------------------------------------

  predicate Distinct(chain: seq<string>) {
    forall i, j | 0 <= i < j < |chain| :: chain[i] != chain[j]
  }

  function Codes(chain: seq<string>): set<string> {
    set code | code in chain
  }

  lemma {:induction false} DistinctCodes(chain: seq<string>)
    requires Distinct(chain)
    ensures |Codes(chain)| == |chain|
    decreases |chain|
  {
    if chain != [] {
      var n := |chain| - 1;
      DistinctCodes(chain[..n]);
      assert chain == chain[..n] + [chain[n]];
      assert Codes(chain) == Codes(chain[..n]) + {chain[n]};
      assert chain[n] !in chain[..n];
    }
  }

  class TriggerContext {
    var depth: nat
    var visited: set<string>
    var clock: nat
    ghost var chain: seq<string>      // the triggered codes now running, outermost first
    ghost var entered: seq<Entry>     // every workflow ever entered through a trigger

    ghost predicate Valid()
      reads this
    {
      && Distinct(chain) && depth == |chain| == |visited| && visited == Codes(chain)
      && depth <= MAX_GLOBAL_DEPTH
    }

    constructor ()
      ensures Valid() && depth == 0 && chain == [] && entered == []
    {
      depth, visited, clock, chain, entered := 0, {}, 0, [], [];
    }

    /** Entering the context manager: what it raises, or the values its exit puts back. */
    method Enter(code: string, maxDepth: int) returns (r: Result<(nat, set<string>), Exn>)
      requires Valid()
      modifies `depth, `visited, `chain
      ensures Valid()
      ensures r.Ok? <==> |old(chain)| < maxDepth && |old(chain)| < 5 && code !in old(chain)
      ensures r.Ok? ==> r.value == old((depth, visited)) && chain == old(chain) + [code]
      ensures r.Err? ==>
        r.error == if |old(chain)| < maxDepth && |old(chain)| < 5 then Cycle(code)
                   else DepthLimit(|old(chain)|, if maxDepth < 5 then maxDepth else 5)
      ensures r.Err? ==> depth == old(depth) && visited == old(visited) && chain == old(chain)
    {
      var effectiveMax := if maxDepth < MAX_GLOBAL_DEPTH then maxDepth else MAX_GLOBAL_DEPTH;
      if depth >= effectiveMax {
        return Err(DepthLimit(depth, effectiveMax));
      }
      if code in visited {
        return Err(Cycle(code));
      }
      r := Ok((depth, visited));
      depth, visited := depth + 1, visited + {code};
      chain := chain + [code];
    }

    method TriggerWorkflow(w: World, call: Call) returns (out: Result<Reply, Exn>)
      requires Valid()
      modifies this
      ensures Valid() && depth == old(depth) && visited == old(visited) && chain == old(chain)
      ensures var run := old(Triggered(w, chain, call, clock));
        out == run.out && clock == run.clock && entered == old(entered) + run.entered
      decreases Left(chain), 0
    {
      ghost var before, log, moment := chain, entered, clock;
      var tool := call.tool;
      var token := Enter(tool.code, tool.maxDepth);
      if token.Err? {
        return Ok(Refused(tool.code, token.error));
      }
      ghost var here := [Entry(chain, tool.maxDepth)];
      entered := entered + here;
      if call.input == "" {
        out := Err(InvalidRequest);
      } else {
        var result := RunWorkflow(w, tool.workflowId, call.input);
        out := match result
          case Ok(text) => Ok(Text(if text != "" then text else "(workflow completed with empty result)"))
          case Err(e) => if e.IsRuntimeError() then Ok(Refused(tool.code, e)) else Err(e);
        ghost var inner := WorkflowRun(w, before + [tool.code], tool.workflowId, call.input, moment);
        assert entered == log + (here + inner.entered);
      }
      depth, visited := token.value.0, token.value.1;
      chain := before;
    }

    method MakeCalls(w: World, calls: seq<Call>)
      requires Valid()
      modifies this
      ensures Valid() && depth == old(depth) && visited == old(visited) && chain == old(chain)
      ensures var made := old(CallsMade(w, chain, calls, |calls|, clock));
        clock == made.0 && entered == old(entered) + made.1
      decreases Left(chain), 1
    {
      ghost var done: seq<Entry> := [];
      for i := 0 to |calls|
        invariant Valid() && depth == old(depth) && visited == old(visited) && chain == old(chain)
        invariant entered == old(entered) + done
        invariant CallsMade(w, chain, calls, i, old(clock)) == (clock, done)
      {
        ghost var run := Triggered(w, chain, calls[i], clock);
        var reply := TriggerWorkflow(w, calls[i]);
        done := done + run.entered;
      }
    }

    method RunWorkflow(w: World, id: int, input: string) returns (out: Result<string, Exn>)
      requires Valid()
      modifies this
      ensures Valid() && depth == old(depth) && visited == old(visited) && chain == old(chain)
      ensures var run := old(WorkflowRun(w, chain, id, input, clock));
        out == run.out && clock == run.clock && entered == old(entered) + run.entered
      decreases Left(chain), 3
    {
      var found, usable := w.lookup(id, clock), w.sessionUsable(clock);
      clock := clock + 1;
      if found.None? {
        return Err(WorkflowNotFound);
      }
      if !found.value.enabled {
        return Err(Disabled);
      }
      if found.value.steps == [] {
        return Err(NoSteps);
      }
      if !usable {
        return Err(SessionNotFound);
      }
      out := Execute(w, found.value.steps, input);
    }

    method Execute(w: World, steps: seq<int>, input: string) returns (out: Result<string, Exn>)
      requires Valid()
      modifies this
      ensures Valid() && depth == old(depth) && visited == old(visited) && chain == old(chain)
      ensures var run := old(StepsRun(w, chain, steps, |steps|, input, clock));
        out == run.out && clock == run.clock && entered == old(entered) + run.entered
      decreases Left(chain), 2, 1
    {
      var current := input;
      ghost var done: seq<Entry> := [];
      for i := 0 to |steps|
        invariant Valid() && depth == old(depth) && visited == old(visited) && chain == old(chain)
        invariant entered == old(entered) + done
        invariant StepsRun(w, chain, steps, i, input, old(clock)) == Trace(Ok(current), clock, done)
      {
        ghost var run := StepRun(w, chain, steps[i], current, clock);
        out := RunStep(w, steps[i], current);
        done := done + run.entered;
        if out.Err? {
          FailedStepsStop(w, chain, steps, i + 1, |steps|, input, old(clock));
          return;
        }
        current := out.value;
      }
      out := Ok(current);
    }

    /** run_step: the agent's run, with its tool calls on the way. */
    method RunStep(w: World, step: int, input: string) returns (out: Result<string, Exn>)
      requires Valid()
      modifies this
      ensures Valid() && depth == old(depth) && visited == old(visited) && chain == old(chain)
      ensures var run := old(StepRun(w, chain, step, input, clock));
        out == run.out && clock == run.clock && entered == old(entered) + run.entered
      decreases Left(chain), 2, 0
    {
      var agent := w.agent(step, input, clock);
      clock := clock + 1;
      MakeCalls(w, agent.calls);
      out := StepOutcome(step, agent.ending);
    }
  }

  /** No step after the first failing one runs. */
  lemma {:induction false} FailedStepsStop(w: World, chain: seq<string>, steps: seq<int>, m: nat, n: nat,
                                           input: string, clock: nat)
    requires m <= n <= |steps| && StepsRun(w, chain, steps, m, input, clock).out.Err?
    ensures StepsRun(w, chain, steps, n, input, clock) == StepsRun(w, chain, steps, m, input, clock)
    decreases n
  {
    if m < n {
      FailedStepsStop(w, chain, steps, m, n - 1, input, clock);
    }
  }
}
