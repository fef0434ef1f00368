/** What the depth and cycle guard gives along every chain of triggered workflows. */
module TriggerChains {
  import opened Prelude
  import opened WorkflowTriggers

  /** Every tool the world's agents ever call. */
  ghost predicate UsesOnly(w: World, tools: iset<Tool>) {
    forall step: int, input: string, clock: nat, k |
      0 <= k < |w.agent(step, input, clock).calls| :: w.agent(step, input, clock).calls[k].tool in tools
  }

  ghost predicate FromTool(e: Entry, tools: iset<Tool>) {
    e.chain != [] && exists tool :: tool in tools && tool.code == e.chain[|e.chain| - 1] && tool.maxDepth == e.cap
  }

  /** The chain is one step below the given one, or its parent was entered earlier. */
  ghost predicate HasParent(chain: seq<string>, entered: seq<Entry>, k: nat)
    requires k < |entered| && entered[k].chain != []
  {
    |entered[k].chain| == |chain| + 1
    || exists j | 0 <= j < k :: entered[j].chain == entered[k].chain[..|entered[k].chain| - 1]
  }

  /** The chain extends the given one, repeats no code and stays within both limits. */
  ghost predicate WithinLimits(tools: iset<Tool>, chain: seq<string>, e: Entry) {
    && chain < e.chain
    && Distinct(e.chain)
    && |e.chain| <= 5
    && |e.chain| <= e.cap
    && FromTool(e, tools)
  }

  /** What holds of every workflow entered below a chain of active triggers. */
  ghost predicate Guarded(tools: iset<Tool>, chain: seq<string>, entered: seq<Entry>) {
    forall k | 0 <= k < |entered| :: WithinLimits(tools, chain, entered[k]) && HasParent(chain, entered, k)
  }

  lemma GuardedConcat(tools: iset<Tool>, chain: seq<string>, a: seq<Entry>, b: seq<Entry>)
    requires Guarded(tools, chain, a) && Guarded(tools, chain, b)
    ensures Guarded(tools, chain, a + b)
  {
    forall k | 0 <= k < |a + b|
      ensures WithinLimits(tools, chain, (a + b)[k]) && HasParent(chain, a + b, k)
    {
      if k < |a| {
        assert HasParent(chain, a, k);
        if |a[k].chain| != |chain| + 1 {
          var j :| 0 <= j < k && a[j].chain == a[k].chain[..|a[k].chain| - 1];
          assert (a + b)[j] == a[j];
        }
      } else {
        assert HasParent(chain, b, k - |a|);
        if |b[k - |a|].chain| != |chain| + 1 {
          var j :| 0 <= j < k - |a| && b[j].chain == b[k - |a|].chain[..|b[k - |a|].chain| - 1];
          assert (a + b)[|a| + j] == b[j];
        }
      }
    }
  }

  lemma FirstEntry(tools: iset<Tool>, chain: seq<string>, tool: Tool)
    requires Distinct(chain) && MayEnter(chain, tool.code, tool.maxDepth) && tool in tools
    ensures WithinLimits(tools, chain, Entry(chain + [tool.code], tool.maxDepth))
  {
  }

  lemma EntryBelow(tools: iset<Tool>, inner: seq<string>, chain: seq<string>, first: Entry, entered: seq<Entry>, k: nat)
    requires k < |entered| && chain < inner == first.chain
    requires WithinLimits(tools, inner, entered[k]) && HasParent(inner, entered, k)
    ensures WithinLimits(tools, chain, entered[k]) && HasParent(chain, [first] + entered, k + 1)
  {
    var all, e := [first] + entered, entered[k];
    assert all[k + 1] == e;
    if |e.chain| == |inner| + 1 {
      assert e.chain[..|e.chain| - 1] == all[0].chain;
    } else {
      var j :| 0 <= j < k && entered[j].chain == e.chain[..|e.chain| - 1];
      assert all[j + 1] == entered[j];
    }
  }

  /** One level deeper: the entry itself, then everything below it. */
  lemma EntryThenBelow(tools: iset<Tool>, inner: seq<string>, chain: seq<string>, first: Entry, entered: seq<Entry>)
    requires first.chain == inner && |inner| == |chain| + 1 && WithinLimits(tools, chain, first)
    requires Guarded(tools, inner, entered)
    ensures Guarded(tools, chain, [first] + entered)
  {
    var all := [first] + entered;
    forall k | 0 <= k < |all|
      ensures WithinLimits(tools, chain, all[k]) && HasParent(chain, all, k)
    {
      if k > 0 {
        assert all[k] == entered[k - 1];
        EntryBelow(tools, inner, chain, first, entered, k - 1);
      }
    }
  }

  lemma GuardedBelow(tools: iset<Tool>, chain: seq<string>, tool: Tool, entered: seq<Entry>)
    requires Distinct(chain) && MayEnter(chain, tool.code, tool.maxDepth) && tool in tools
    requires Guarded(tools, chain + [tool.code], entered)
    ensures Guarded(tools, chain, [Entry(chain + [tool.code], tool.maxDepth)] + entered)
  {
    FirstEntry(tools, chain, tool);
    EntryThenBelow(tools, chain + [tool.code], chain, Entry(chain + [tool.code], tool.maxDepth), entered);
  }

  lemma {:induction false} TriggersAreGuarded(w: World, tools: iset<Tool>, chain: seq<string>, call: Call, clock: nat)
    requires UsesOnly(w, tools) && Distinct(chain) && call.tool in tools
    ensures Guarded(tools, chain, Triggered(w, chain, call, clock).entered)
    decreases Left(chain), 0
  {
    var tool := call.tool;
    if MayEnter(chain, tool.code, tool.maxDepth) {
      var inner := chain + [tool.code];
      if call.input == "" {
        GuardedBelow(tools, chain, tool, []);
        assert [Entry(inner, tool.maxDepth)] + [] == [Entry(inner, tool.maxDepth)];
      } else {
        RunsAreGuarded(w, tools, inner, tool.workflowId, call.input, clock);
        GuardedBelow(tools, chain, tool, WorkflowRun(w, inner, tool.workflowId, call.input, clock).entered);
      }
    }
  }

  lemma {:induction false} CallsAreGuarded(w: World, tools: iset<Tool>, chain: seq<string>, calls: seq<Call>, n: nat,
                                           clock: nat)
    requires UsesOnly(w, tools) && Distinct(chain) && n <= |calls|
    requires forall k | 0 <= k < |calls| :: calls[k].tool in tools
    ensures Guarded(tools, chain, CallsMade(w, chain, calls, n, clock).1)
    decreases Left(chain), 1, n
  {
    if n > 0 {
      CallsAreGuarded(w, tools, chain, calls, n - 1, clock);
      var before := CallsMade(w, chain, calls, n - 1, clock);
      TriggersAreGuarded(w, tools, chain, calls[n - 1], before.0);
      GuardedConcat(tools, chain, before.1, Triggered(w, chain, calls[n - 1], before.0).entered);
    }
  }

  lemma AgentUsesOnly(w: World, tools: iset<Tool>, step: int, input: string, clock: nat)
    requires UsesOnly(w, tools)
    ensures forall k | 0 <= k < |w.agent(step, input, clock).calls| ::
      w.agent(step, input, clock).calls[k].tool in tools
  {
  }

  lemma {:induction false} StepsAreGuarded(w: World, tools: iset<Tool>, chain: seq<string>, steps: seq<int>, n: nat,
                                           input: string, clock: nat)
    requires UsesOnly(w, tools) && Distinct(chain) && n <= |steps|
    ensures Guarded(tools, chain, StepsRun(w, chain, steps, n, input, clock).entered)
    decreases Left(chain), 2, n
  {
    if n > 0 {
      StepsAreGuarded(w, tools, chain, steps, n - 1, input, clock);
      var before := StepsRun(w, chain, steps, n - 1, input, clock);
      if before.out.Ok? {
        var calls := w.agent(steps[n - 1], before.out.value, before.clock).calls;
        AgentUsesOnly(w, tools, steps[n - 1], before.out.value, before.clock);
        CallsAreGuarded(w, tools, chain, calls, |calls|, before.clock + 1);
        GuardedConcat(tools, chain, before.entered, CallsMade(w, chain, calls, |calls|, before.clock + 1).1);
      }
    }
  }

  /**
   Along every chain the triggered codes are pairwise distinct, their number stays within 5 and within the cap of the
   skill that entered the last of them, and the rest of the chain was entered before.
   */
  lemma {:induction false} RunsAreGuarded(w: World, tools: iset<Tool>, chain: seq<string>, id: int, input: string,
                                          clock: nat)
    requires UsesOnly(w, tools) && Distinct(chain)
    ensures Guarded(tools, chain, WorkflowRun(w, chain, id, input, clock).entered)
    decreases Left(chain), 3
  {
    var found := w.lookup(id, clock);
    if found.Some? {
      var steps := found.value.steps;
      StepsAreGuarded(w, tools, chain, steps, |steps|, input, clock + 1);
    }
  }

  lemma {:induction false} StepsFailInAgents(w: World, chain: seq<string>, steps: seq<int>, n: nat, input: string,
                                             clock: nat)
    requires n <= |steps| && StepsRun(w, chain, steps, n, input, clock).out.Err?
    ensures StepsRun(w, chain, steps, n, input, clock).out.error.StepFailed?
    decreases n
  {
    if n > 0 && StepsRun(w, chain, steps, n - 1, input, clock).out.Err? {
      StepsFailInAgents(w, chain, steps, n - 1, input, clock);
    }
  }

  /**
   A refused or failed nested workflow is a reply like any other. Only an empty input, a workflow that is gone and a
   session of somebody else raise through the tool, and only after the guard let the trigger in.
   */
  lemma WhatEscapes(w: World, chain: seq<string>, call: Call, clock: nat)
    requires Triggered(w, chain, call, clock).out.Err?
    ensures Triggered(w, chain, call, clock).out.error in {InvalidRequest, WorkflowNotFound, SessionNotFound}
    ensures Triggered(w, chain, call, clock).entered != []
  {
    var tool := call.tool;
    if call.input != "" {
      var inner := chain + [tool.code];
      var found := w.lookup(tool.workflowId, clock);
      if found.Some? && StepsRun(w, inner, found.value.steps, |found.value.steps|, call.input, clock + 1).out.Err? {
        StepsFailInAgents(w, inner, found.value.steps, |found.value.steps|, call.input, clock + 1);
      }
    }
  }

  /** What the agent reads: a refusal without any run, or the result, where there is one, of the workflow below. */
  lemma WhatTheToolReplies(w: World, chain: seq<string>, call: Call, clock: nat)
    ensures var (code, cap) := (call.tool.code, call.tool.maxDepth);
      var trace, inner := Triggered(w, chain, call, clock), chain + [code];
      if |chain| >= cap || |chain| >= 5 then
        trace == Trace(Ok(Refused(code, DepthLimit(|chain|, if cap < 5 then cap else 5))), clock, [])
      else if code in chain then trace == Trace(Ok(Refused(code, Cycle(code))), clock, [])
      else if call.input == "" then trace == Trace(Err(InvalidRequest), clock, [Entry(inner, cap)])
      else
        var run := WorkflowRun(w, inner, call.tool.workflowId, call.input, clock);
        && trace.clock == run.clock && trace.entered == [Entry(inner, cap)] + run.entered
        && (run.out.Ok? && run.out.value != "" ==> trace.out == Ok(Text(run.out.value)))
        && (run.out == Ok("") ==> trace.out == Ok(Text("(workflow completed with empty result)")))
        && (run.out.Err? ==>
              trace.out == if run.out.error in {InvalidRequest, WorkflowNotFound, SessionNotFound}
                           then Err(run.out.error) else Ok(Refused(code, run.out.error)))
  {
  }

  /** The refusals of run_workflow, in order; nothing is entered by a run that is refused. */
  lemma RunIsRefused(w: World, chain: seq<string>, id: int, input: string, clock: nat)
    ensures var trace, found := WorkflowRun(w, chain, id, input, clock), w.lookup(id, clock);
      && (found.None? ==> trace == Trace(Err(WorkflowNotFound), clock + 1, []))
      && (found.Some? && !found.value.enabled ==> trace == Trace(Err(Disabled), clock + 1, []))
      && (found.Some? && found.value.enabled && found.value.steps == [] ==> trace == Trace(Err(NoSteps), clock + 1, []))
      && (found.Some? && found.value.enabled && found.value.steps != [] && !w.sessionUsable(clock) ==>
            trace == Trace(Err(SessionNotFound), clock + 1, []))
      && (found.Some? && found.value.enabled && found.value.steps != [] && w.sessionUsable(clock) ==>
            trace.out.Ok? || trace.out.error.StepFailed?)
  {
    var found := w.lookup(id, clock);
    if found.Some? && StepsRun(w, chain, found.value.steps, |found.value.steps|, input, clock + 1).out.Err? {
      StepsFailInAgents(w, chain, found.value.steps, |found.value.steps|, input, clock + 1);
    }
  }

  /** Some agent run of the given step, at some moment, ended like this. */
  ghost predicate AgentEnded(w: World, step: int, ending: Result<string, string>) {
    exists input: string, moment: nat :: w.agent(step, input, moment).ending == ending
  }

  /** A run returns what its last step's agent returned, or fails with the error of the step whose agent failed. */
  lemma {:induction false} LastAgentDecides(w: World, chain: seq<string>, steps: seq<int>, n: nat, input: string,
                                            clock: nat)
    requires 0 < n <= |steps|
    ensures match StepsRun(w, chain, steps, n, input, clock).out
      case Ok(text) => AgentEnded(w, steps[n - 1], Ok(text))
      case Err(e) =>
        e.StepFailed? && exists i | 0 <= i < n :: steps[i] == e.step && AgentEnded(w, steps[i], Err(e.text))
    decreases n
  {
    var before := StepsRun(w, chain, steps, n - 1, input, clock);
    if before.out.Ok? {
      assert AgentEnded(w, steps[n - 1], w.agent(steps[n - 1], before.out.value, before.clock).ending);
    } else {
      LastAgentDecides(w, chain, steps, n - 1, input, clock);
    }
  }

  /** No call is skipped: each one that the guard lets in has entered its workflow. */
  lemma {:induction false} EveryAllowedCallEnters(w: World, chain: seq<string>, calls: seq<Call>, n: nat, clock: nat,
                                                  k: nat)
    requires k < n <= |calls|
    requires |chain| < calls[k].tool.maxDepth && |chain| < 5 && calls[k].tool.code !in chain
    ensures Entry(chain + [calls[k].tool.code], calls[k].tool.maxDepth) in CallsMade(w, chain, calls, n, clock).1
    decreases n
  {
    if k < n - 1 {
      EveryAllowedCallEnters(w, chain, calls, n - 1, clock, k);
    } else {
      WhatTheToolReplies(w, chain, calls[k], CallsMade(w, chain, calls, k, clock).0);
    }
  }

  /** And the calls of every step that is reached are made. */
  lemma CallsOfAReachedStep(w: World, chain: seq<string>, steps: seq<int>, n: nat, input: string, clock: nat, k: nat)
    requires n < |steps| && StepsRun(w, chain, steps, n, input, clock).out.Ok?
    requires var before := StepsRun(w, chain, steps, n, input, clock);
      var calls := w.agent(steps[n], before.out.value, before.clock).calls;
      k < |calls| && |chain| < calls[k].tool.maxDepth && |chain| < 5 && calls[k].tool.code !in chain
    ensures var before := StepsRun(w, chain, steps, n, input, clock);
      var tool := w.agent(steps[n], before.out.value, before.clock).calls[k].tool;
      Entry(chain + [tool.code], tool.maxDepth) in StepsRun(w, chain, steps, n + 1, input, clock).entered
  {
    var before := StepsRun(w, chain, steps, n, input, clock);
    var calls := w.agent(steps[n], before.out.value, before.clock).calls;
    EveryAllowedCallEnters(w, chain, calls, |calls|, before.clock + 1, k);
  }

  // ---------------------------------------------------------------------------------------------
  // Can a workflow be active twice?
  // ---------------------------------------------------------------------------------------------

  /** Every code of an entered chain was itself entered, through a tool that allows nesting. */
  lemma {:induction false} EveryCodeHasATool(tools: iset<Tool>, entered: seq<Entry>, k: nat, p: nat)
    requires Guarded(tools, [], entered) && k < |entered| && p < |entered[k].chain|
    ensures exists tool :: tool in tools && tool.code == entered[k].chain[p] && tool.maxDepth > 0
    decreases k
  {
    var e := entered[k];
    if p == |e.chain| - 1 {
      var tool :| tool in tools && tool.code == e.chain[p] && tool.maxDepth == e.cap;
      assert tool.maxDepth > 0;
    } else {
      assert HasParent([], entered, k);
      var j :| 0 <= j < k && entered[j].chain == e.chain[..|e.chain| - 1];
      EveryCodeHasATool(tools, entered, j, p);
    }
  }

  /** The tools that lead to this workflow are those that go by its code; other workflows have other codes. */
  ghost predicate CodeOf(tools: iset<Tool>, id: int, code: string) {
    forall tool | tool in tools :: tool.workflowId == id <==> tool.code == code
  }

  /** The workflow, started from the API on any input, never runs inside itself. */
  ghost predicate NeverReentered(tools: iset<Tool>, id: int, code: string) {
    forall w: World, input: string, clock: nat | UsesOnly(w, tools) ::
      forall k | 0 <= k < |WorkflowRun(w, [], id, input, clock).entered| ::
        code !in WorkflowRun(w, [], id, input, clock).entered[k].chain
  }

  /** Every workflow has one step, whose agent calls this one tool. */
  function OneCallWorld(tool: Tool): World {
    World((id, clock) => Some(Workflow(true, [0])), clock => true,
          (step, input, clock) => AgentRun([Call(tool, "go")], Ok("done")))
  }

  lemma OneCallEnters(tool: Tool) returns (k: nat)
    requires tool.maxDepth > 0
    ensures UsesOnly(OneCallWorld(tool), iset{tool})
    ensures var entered := WorkflowRun(OneCallWorld(tool), [], tool.workflowId, "go", 0).entered;
      k < |entered| && entered[k].chain == [tool.code]
  {
    var w := OneCallWorld(tool);
    var calls := [Call(tool, "go")];
    var entry := Entry([] + [tool.code], tool.maxDepth);
    assert MayEnter([], tool.code, tool.maxDepth) && entry.chain == [tool.code];
    assert entry in Triggered(w, [], calls[0], 2).entered;
    assert CallsMade(w, [], calls, 0, 2) == (2, []);
    assert entry in CallsMade(w, [], calls, 1, 2).1;
    assert StepsRun(w, [], [0], 0, "go", 1) == Trace(Ok("go"), 1, []);
    assert entry in StepsRun(w, [], [0], 1, "go", 1).entered;
    var entered := WorkflowRun(w, [], tool.workflowId, "go", 0).entered;
    assert entry in entered;
    k :| 0 <= k < |entered| && entered[k] == entry;
  }

  /**
   The workflow started from the API is not in the visited set, so the guard keeps that workflow from running inside
   itself exactly when no tool may trigger it at all.
   */
  lemma NeverReenteredIff(tools: iset<Tool>, id: int, code: string)
    requires CodeOf(tools, id, code)
    ensures NeverReentered(tools, id, code)
       <==> forall tool | tool in tools && tool.workflowId == id :: tool.maxDepth <= 0
  {
    if forall tool | tool in tools && tool.workflowId == id :: tool.maxDepth <= 0 {
      forall w: World, input: string, clock: nat, k |
        UsesOnly(w, tools) && 0 <= k < |WorkflowRun(w, [], id, input, clock).entered|
        ensures code !in WorkflowRun(w, [], id, input, clock).entered[k].chain
      {
        var entered := WorkflowRun(w, [], id, input, clock).entered;
        RunsAreGuarded(w, tools, [], id, input, clock);
        forall p | 0 <= p < |entered[k].chain|
          ensures entered[k].chain[p] != code
        {
          EveryCodeHasATool(tools, entered, k, p);
        }
      }
    } else {
      var tool :| tool in tools && tool.workflowId == id && tool.maxDepth > 0;
      var w := OneCallWorld(tool);
      var k := OneCallEnters(tool);
      assert UsesOnly(w, tools);
      var entered := WorkflowRun(w, [], id, "go", 0).entered;
      assert entered[k].chain == [code];
    }
  }

  // ---------------------------------------------------------------------------------------------
  // How many workflows one run can trigger
  // ---------------------------------------------------------------------------------------------

  function Times(n: nat, x: nat): nat {
    if n == 0 then 0 else Times(n - 1, x) + x
  }

  lemma {:induction false} TimesGrows(m: nat, n: nat, x: nat)
    requires m <= n
    ensures Times(m, x) <= Times(n, x)
    decreases n
  {
    if m < n {
      TimesGrows(m, n - 1, x);
    }
  }

  /** Workflows have at most this many steps, agent runs at most this many tool calls. */
  ghost predicate Within(w: World, steps: nat, calls: nat) {
    && (forall id: int, clock: nat :: w.lookup(id, clock).Some? ==> |w.lookup(id, clock).value.steps| <= steps)
    && (forall step: int, input: string, clock: nat :: |w.agent(step, input, clock).calls| <= calls)
  }

  lemma AgentWithin(w: World, s: nat, c: nat, step: int, input: string, clock: nat)
    requires Within(w, s, c)
    ensures |w.agent(step, input, clock).calls| <= c
  {
  }

  /** What one tool call can add with some levels left: 1 + s*c + (s*c)^2 + ..., a term a level. */
  function PerCall(levels: nat, steps: nat, calls: nat): nat {
    if levels == 0 then 0 else 1 + Times(steps, Times(calls, PerCall(levels - 1, steps, calls)))
  }

  function Ceiling(levels: nat, steps: nat, calls: nat): nat {
    Times(steps, Times(calls, PerCall(levels, steps, calls)))
  }

  lemma {:induction false} TriggerCount(w: World, s: nat, c: nat, chain: seq<string>, call: Call, clock: nat)
    requires Within(w, s, c)
    ensures |Triggered(w, chain, call, clock).entered| <= PerCall(Left(chain), s, c)
    decreases Left(chain), 0
  {
    var tool := call.tool;
    if MayEnter(chain, tool.code, tool.maxDepth) && call.input != "" {
      RunCount(w, s, c, chain + [tool.code], tool.workflowId, call.input, clock);
    }
  }

  lemma {:induction false} CallCount(w: World, s: nat, c: nat, chain: seq<string>, calls: seq<Call>, n: nat, clock: nat)
    requires Within(w, s, c) && n <= |calls|
    ensures |CallsMade(w, chain, calls, n, clock).1| <= Times(n, PerCall(Left(chain), s, c))
    decreases Left(chain), 1, n
  {
    if n > 0 {
      CallCount(w, s, c, chain, calls, n - 1, clock);
      TriggerCount(w, s, c, chain, calls[n - 1], CallsMade(w, chain, calls, n - 1, clock).0);
    }
  }

  lemma {:induction false} StepCount(w: World, s: nat, c: nat, chain: seq<string>, steps: seq<int>, n: nat,
                                     input: string, clock: nat)
    requires Within(w, s, c) && n <= |steps|
    ensures |StepsRun(w, chain, steps, n, input, clock).entered| <= Times(n, Times(c, PerCall(Left(chain), s, c)))
    decreases Left(chain), 2, n
  {
    if n > 0 {
      StepCount(w, s, c, chain, steps, n - 1, input, clock);
      var before := StepsRun(w, chain, steps, n - 1, input, clock);
      if before.out.Ok? {
        var agent := w.agent(steps[n - 1], before.out.value, before.clock);
        AgentWithin(w, s, c, steps[n - 1], before.out.value, before.clock);
        var calls := agent.calls;
        CallCount(w, s, c, chain, calls, |calls|, before.clock + 1);
        TimesGrows(|calls|, c, PerCall(Left(chain), s, c));
      }
    }
  }

  /** One run triggers boundedly many workflows, whatever the agents do between their calls. */
  lemma {:induction false} RunCount(w: World, s: nat, c: nat, chain: seq<string>, id: int, input: string, clock: nat)
    requires Within(w, s, c)
    ensures |WorkflowRun(w, chain, id, input, clock).entered| <= Ceiling(Left(chain), s, c)
    decreases Left(chain), 3
  {
    var found := w.lookup(id, clock);
    if found.Some? {
      var steps := found.value.steps;
      StepCount(w, s, c, chain, steps, |steps|, input, clock + 1);
      TimesGrows(|steps|, s, Times(c, PerCall(Left(chain), s, c)));
    }
  }
}
