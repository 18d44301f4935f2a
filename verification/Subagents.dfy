/** Bounded subagents and teams, against a broker and a clock that may do anything. */
module Subagents {
  import opened Options

  const MAX_SUBAGENT_DEPTH := 3
  const MAX_SUBAGENT_STEPS := 25
  const MAX_SUBAGENT_TOOL_CALLS := 25
  const MAX_SUBAGENT_TOKENS := 200_000
  const MAX_TEAM_MEMBERS := 5
  const CHARS_PER_TOKEN := 4

  const MUTATION_PROPOSAL_TOOLS := {"write_file", "edit_file", "apply_patch", "memory_write", "memory_forget"}

  /** One step; `payload` is its arguments as they serialise. */
  datatype Step = Step(tool: string, payload: string)

  datatype Budget = Budget(maxSteps: int, maxToolCalls: int, maxRuntimeSeconds: int, maxTokens: int)

  datatype Spec = Spec(depth: int, maxDepth: int, budget: Budget, allowed: set<string>, steps: seq<Step>)

  function Min(a: int, b: int): int { if a <= b then a else b }

  /** A caller's budget can only shrink the caps. */
  function Effective(b: Budget): (r: Budget)
    ensures r.maxSteps <= b.maxSteps && r.maxToolCalls <= b.maxToolCalls && r.maxTokens <= b.maxTokens
    ensures r.maxSteps <= MAX_SUBAGENT_STEPS && r.maxToolCalls <= MAX_SUBAGENT_TOOL_CALLS
    ensures r.maxTokens <= MAX_SUBAGENT_TOKENS && r.maxRuntimeSeconds >= 0
  {
    Budget(Min(b.maxSteps, MAX_SUBAGENT_STEPS), Min(b.maxToolCalls, MAX_SUBAGENT_TOOL_CALLS),
           if b.maxRuntimeSeconds > 0 then b.maxRuntimeSeconds else 0, Min(b.maxTokens, MAX_SUBAGENT_TOKENS))
  }

  /** The estimate of one step: a token for every four characters begun, and one more for a whole number of them. */
  function StepTokens(s: Step): (n: nat)
    ensures 4 * (n - 1) <= |s.tool| + |s.payload| < 4 * n
  {
    (|s.tool| + |s.payload|) / CHARS_PER_TOKEN + 1
  }

  function Tokens(steps: seq<Step>): (n: nat)
    ensures n >= |steps|
  {
    if steps == [] then 0 else Tokens(steps[..|steps| - 1]) + StepTokens(steps[|steps| - 1])
  }

  // ----- What the broker and the clock did -----

  datatype CallStatus = Success | ApprovalRequired | OtherStatus

  datatype Reply = Reply(allowed: bool, status: CallStatus)

  /** The reply to the i-th call, and the seconds gone when the i-th step is about to be dispatched. */
  datatype World = World(reply: nat -> Reply, elapsed: nat -> real)

  datatype Reason =
    | DepthExceeded
    | StepBudgetExceeded
    | ToolNotAllowed(tool: string)
    | TimeBudgetExceeded
    | ToolCallBudgetExceeded
    | MutationProposed
    | StepBlocked(tool: string)
    | StepFailed(tool: string)
    | TokenBudgetExceeded
    | MemberBudgetExceeded

  datatype Status = Running | Completed | Failed | Cancelled

  datatype Outcome = Outcome(ok: bool, reason: Option<Reason>, executed: nat, status: Status)

  predicate Delegated(delegable: set<string>, spec: Spec, tool: string) {
    tool in spec.allowed * delegable || tool in MUTATION_PROPOSAL_TOOLS
  }

  /** A tool that both sides allow, or one of the five that only propose a change for the parent to approve. */
  lemma DelegatedExactly(delegable: set<string>, spec: Spec, tool: string)
    ensures Delegated(delegable, spec, tool) <==>
            || (tool in spec.allowed && tool in delegable)
            || tool == "write_file" || tool == "edit_file" || tool == "apply_patch"
            || tool == "memory_write" || tool == "memory_forget"
  {
  }

  /** The call was allowed and succeeded; a mutation that asks for approval is parked instead. */
  predicate Succeeded(w: World, i: nat) { w.reply(i) == Reply(true, Success) }

  /** Why step `i` is the last one, if it is. */
  function StopsAt(spec: Spec, w: World, i: nat): Option<Reason>
    requires i < |spec.steps|
  {
    var b := Effective(spec.budget);
    if w.elapsed(i) > b.maxRuntimeSeconds as real then Some(TimeBudgetExceeded)
    else if i >= b.maxToolCalls then Some(ToolCallBudgetExceeded)
    else AfterCall(spec.steps[i], w.reply(i), Tokens(spec.steps[..i + 1]), b)
  }

  function AfterCall(step: Step, r: Reply, tokens: nat, b: Budget): Option<Reason> {
    if step.tool in MUTATION_PROPOSAL_TOOLS && r.status == ApprovalRequired then Some(MutationProposed)
    else if !r.allowed then Some(StepBlocked(step.tool))
    else if r.status != Success then Some(StepFailed(step.tool))
    else if tokens > b.maxTokens then Some(TokenBudgetExceeded)
    else None
  }

  /** What is refused before anything is dispatched. */
  function RefusedFirst(delegable: set<string>, spec: Spec): Option<Reason> {
    if spec.depth >= Min(spec.maxDepth, MAX_SUBAGENT_DEPTH) then Some(DepthExceeded)
    else if |spec.steps| > Effective(spec.budget).maxSteps then Some(StepBudgetExceeded)
    else FirstDisallowed(delegable, spec, spec.steps)
  }

  function FirstDisallowed(delegable: set<string>, spec: Spec, steps: seq<Step>): Option<Reason> {
    if steps == [] then None
    else if !Delegated(delegable, spec, steps[0].tool) then Some(ToolNotAllowed(steps[0].tool))
    else FirstDisallowed(delegable, spec, steps[1..])
  }

  lemma {:induction false} AllDelegated(delegable: set<string>, spec: Spec, steps: seq<Step>)
    ensures FirstDisallowed(delegable, spec, steps) == None <==>
            forall i :: 0 <= i < |steps| ==> Delegated(delegable, spec, steps[i].tool)
  {
    if steps != [] {
      var rest := steps[1..];
      AllDelegated(delegable, spec, rest);
      assert forall i :: 0 < i < |steps| ==> steps[i] == rest[i - 1];
      assert forall i :: 0 <= i < |rest| ==> rest[i] == steps[i + 1];
    }
  }

  predicate NoStopBefore(spec: Spec, w: World, n: nat)
    requires n <= |spec.steps|
  {
    forall i :: 0 <= i < n ==> StopsAt(spec, w, i) == None
  }

  /** A stop before the call was made; every other stop comes after it. */
  predicate BeforeDispatch(r: Reason) { r.TimeBudgetExceeded? || r.ToolCallBudgetExceeded? }

  function Successes(w: World, n: nat): (count: nat)
    ensures count <= n
  {
    if n == 0 then 0 else Successes(w, n - 1) + if Succeeded(w, n - 1) then 1 else 0
  }

  lemma {:induction false} AllSucceed(spec: Spec, w: World, n: nat)
    requires n <= |spec.steps| && NoStopBefore(spec, w, n)
    ensures Successes(w, n) == n
  {
    if n > 0 {
      AllSucceed(spec, w, n - 1);
      assert StopsAt(spec, w, n - 1) == None;
      assert Succeeded(w, n - 1);
    }
  }

  // ----- The runner -----

  type Id = nat

  datatype Call = Call(spawn: Id, step: Step)

  function Calls(id: Id, steps: seq<Step>): (cs: seq<Call>)
    ensures |cs| == |steps|
    ensures forall i :: 0 <= i < |cs| ==> cs[i] == Call(id, steps[i])
  {
    seq(|steps|, i requires 0 <= i < |steps| => Call(id, steps[i]))
  }

  lemma OneMoreStep(id: Id, steps: seq<Step>, n: nat)
    requires n < |steps|
    ensures Calls(id, steps[..n + 1]) == Calls(id, steps[..n]) + [Call(id, steps[n])]
    ensures Tokens(steps[..n + 1]) == Tokens(steps[..n]) + StepTokens(steps[n])
  {
    assert steps[..n + 1][..n] == steps[..n];
  }

  /** The contract table, the active machine identities, and every call that reached the broker. */
  class Runner {
    const delegable: set<string>
    var contracts: map<Id, Status>
    var active: set<Id>
    var calls: seq<Call>
    var nextId: Id

    constructor (delegable: set<string>)
      ensures this.delegable == delegable && Valid() && contracts == map[] && active == {} && calls == []
    {
      this.delegable := delegable;
      contracts, active, calls, nextId := map[], {}, [], 0;
    }

    /** Identifiers in use were all handed out. */
    ghost predicate Valid()
      reads this
    {
      (forall id :: id in contracts ==> id < nextId) && (forall id :: id in active ==> id < nextId)
    }

    /** The nested `finish`: the contract leaves "running" and the identities started here end. */
    method Finish(id: Id, owned: Option<Id>, status: Status, ok: bool, reason: Option<Reason>, executed: nat)
      returns (outcome: Outcome)
      requires Valid() && id < nextId && status != Running
      modifies this
      ensures Valid() && calls == old(calls) && nextId == old(nextId)
      ensures contracts == old(contracts)[id := status]
      ensures active == old(active) - {id} - (if owned.Some? then {owned.value} else {})
      ensures outcome == Outcome(ok, reason, executed, status)
    {
      contracts := contracts[id := status];
      active := active - {id};
      if owned.Some? {
        active := active - {owned.value};
      }
      outcome := Outcome(ok, reason, executed, status);
    }

    method Run(spec: Spec, parent: Option<Id>, w: World) returns (outcome: Outcome, id: Id, n: nat)
      requires Valid()
      modifies this
      ensures Valid()
      // The contract it opened is settled and no other is touched; the identities are as they were.
      ensures id !in old(contracts) && outcome.status != Running && contracts == old(contracts)[id := outcome.status]
      ensures active == old(active)
      ensures nextId >= old(nextId)
      // It dispatched the first n steps, in order, and nothing else.
      ensures n <= |spec.steps| && calls == old(calls) + Calls(id, spec.steps[..n])
      ensures outcome == OutcomeOf(delegable, spec, w, n) && IsExtent(delegable, spec, w, n)
    {
      var owned: Option<Id> := None;
      if parent.None? {
        owned := Some(nextId);
        active, nextId := active + {nextId}, nextId + 1;
      }
      id := nextId;
      n := 0;
      active, nextId := active + {id}, nextId + 1;
      contracts := contracts[id := Running];
      assert calls == calls + Calls(id, spec.steps[..0]);
      var refused := RefusedFirst(delegable, spec);
      if refused.Some? {
        outcome := Finish(id, owned, Failed, false, refused, 0);
        return;
      }
      n, outcome := Dispatch(id, owned, spec, w);
    }

    /** The dispatch loop. */
    method Dispatch(id: Id, owned: Option<Id>, spec: Spec, w: World) returns (n: nat, outcome: Outcome)
      requires Valid() && id < nextId && RefusedFirst(delegable, spec) == None
      modifies this
      ensures Valid() && nextId == old(nextId)
      ensures outcome.status != Running && contracts == old(contracts)[id := outcome.status]
      ensures active == old(active) - {id} - (if owned.Some? then {owned.value} else {})
      ensures n <= |spec.steps| && calls == old(calls) + Calls(id, spec.steps[..n])
      ensures outcome == OutcomeOf(delegable, spec, w, n) && IsExtent(delegable, spec, w, n)
    {
      var stop, executed;
      n, stop, executed := CallUntilStop(id, spec, w);
      var status :=
        if stop == None then Completed else if stop.value.MutationProposed? then Cancelled else Failed;
      outcome := Finish(id, owned, status, stop == None, stop, executed);
    }

    method CallUntilStop(id: Id, spec: Spec, w: World) returns (n: nat, stop: Option<Reason>, executed: nat)
      modifies this`calls
      ensures n <= |spec.steps| && calls == old(calls) + Calls(id, spec.steps[..n])
      ensures if stop == None then n == |spec.steps| && NoStopBefore(spec, w, n) && executed == n
              else Stopped(spec, w, n, executed, stop.value)
    {
      var b, tokens := Effective(spec.budget), 0;
      n, stop, executed := 0, None, 0;
      while n < |spec.steps| && stop == None
        invariant n <= |spec.steps| && calls == old(calls) + Calls(id, spec.steps[..n])
        invariant stop == None ==> NoStopBefore(spec, w, n) && executed == n && tokens == Tokens(spec.steps[..n])
        invariant stop.Some? ==> Stopped(spec, w, n, executed, stop.value)
        decreases |spec.steps| - n, stop == None
      {
        var step := spec.steps[n];
        if w.elapsed(n) > b.maxRuntimeSeconds as real {
          stop := Some(TimeBudgetExceeded);
        } else if n >= b.maxToolCalls {
          stop := Some(ToolCallBudgetExceeded);
        } else {
          calls := calls + [Call(id, step)];
          OneMoreStep(id, spec.steps, n);
          stop, tokens := Judge(step, w.reply(n), tokens, b);
          if stop == None || stop == Some(TokenBudgetExceeded) {
            executed := executed + 1;
          }
          n := n + 1;
        }
      }
    }

    /** What the runner makes of one reply. */
    method Judge(step: Step, r: Reply, before: nat, b: Budget) returns (stop: Option<Reason>, tokens: nat)
      ensures tokens == before + if r == Reply(true, Success) then StepTokens(step) else 0
      ensures stop == AfterCall(step, r, before + StepTokens(step), b)
    {
      tokens := before;
      if step.tool in MUTATION_PROPOSAL_TOOLS && r.status == ApprovalRequired {
        return Some(MutationProposed), tokens;
      }
      if !r.allowed {
        return Some(StepBlocked(step.tool)), tokens;
      }
      if r.status != Success {
        return Some(StepFailed(step.tool)), tokens;
      }
      tokens := tokens + StepTokens(step);
      stop := if tokens > b.maxTokens then Some(TokenBudgetExceeded) else None;
    }
  }

  /** The loop ended early at `reason`, after n calls. */
  ghost predicate Stopped(spec: Spec, w: World, n: nat, executed: nat, reason: Reason)
    requires n <= |spec.steps|
  {
    if BeforeDispatch(reason) then
      n < |spec.steps| && NoStopBefore(spec, w, n) && StopsAt(spec, w, n) == Some(reason) && executed == n
    else
      n > 0 && NoStopBefore(spec, w, n - 1) && StopsAt(spec, w, n - 1) == Some(reason) &&
      executed == if reason.TokenBudgetExceeded? then n else n - 1
  }

  /**
   * How many steps were dispatched: up to the first stop, which itself was dispatched unless it was stopped before its
   * call.
   */
  ghost predicate IsExtent(delegable: set<string>, spec: Spec, w: World, n: nat) {
    n <= |spec.steps| &&
    if RefusedFirst(delegable, spec).Some? then n == 0
    else
      || (NoStopBefore(spec, w, n) && (n == |spec.steps| || StoppedBefore(spec, w, n)))
      || (n > 0 && NoStopBefore(spec, w, n - 1) && StoppedAfter(spec, w, n - 1))
  }

  predicate StoppedBefore(spec: Spec, w: World, i: nat)
    requires i < |spec.steps|
  {
    StopsAt(spec, w, i).Some? && BeforeDispatch(StopsAt(spec, w, i).value)
  }

  predicate StoppedAfter(spec: Spec, w: World, i: nat)
    requires i < |spec.steps|
  {
    StopsAt(spec, w, i).Some? && !BeforeDispatch(StopsAt(spec, w, i).value)
  }

  /** The answer after n dispatched steps. */
  ghost function OutcomeOf(delegable: set<string>, spec: Spec, w: World, n: nat): Outcome
    requires n <= |spec.steps|
  {
    if RefusedFirst(delegable, spec).Some? then Outcome(false, RefusedFirst(delegable, spec), 0, Failed)
    else if n > 0 && StoppedAfter(spec, w, n - 1) then
      var reason := StopsAt(spec, w, n - 1).value;
      Outcome(false, Some(reason), if reason.TokenBudgetExceeded? then n else n - 1,
              if reason.MutationProposed? then Cancelled else Failed)
    else if n < |spec.steps| && StoppedBefore(spec, w, n) then
      Outcome(false, StopsAt(spec, w, n), n, Failed)
    else Outcome(true, None, n, Completed)
  }

  // ----- What every run promises -----

  /** The step was due before the caller's seconds were over; with none or fewer, at the very start. */
  predicate InTime(spec: Spec, w: World, i: nat) {
    w.elapsed(i) <= 0.0 || w.elapsed(i) <= spec.budget.maxRuntimeSeconds as real
  }

  /** What the steps spell out. */
  function Characters(steps: seq<Step>): nat {
    if steps == [] then 0
    else Characters(steps[..|steps| - 1]) + |steps[|steps| - 1].tool| + |steps[|steps| - 1].payload|
  }

  /** Four characters to a token, but for the last token of each step. */
  lemma {:induction false} TokensCountCharacters(steps: seq<Step>)
    ensures 4 * (Tokens(steps) - |steps|) <= Characters(steps) <= 4 * Tokens(steps) - |steps|
  {
    if steps != [] { TokensCountCharacters(steps[..|steps| - 1]); }
  }

  /**
   * No more calls than the caller's budgets and the caps allow, none outside the delegable tools, none late, and what
   * all but the last spell out below four characters for each token of the budget.
   */
  lemma {:induction false} StaysInBudget(delegable: set<string>, spec: Spec, w: World, n: nat)
    requires IsExtent(delegable, spec, w, n)
    ensures n == 0 || (n <= spec.budget.maxSteps && n <= spec.budget.maxToolCalls)
    ensures n <= MAX_SUBAGENT_STEPS && n <= MAX_SUBAGENT_TOOL_CALLS
    ensures forall i :: 0 <= i < n ==> Delegated(delegable, spec, spec.steps[i].tool)
    ensures forall i :: 0 <= i < n ==> InTime(spec, w, i)
    ensures n > 1 ==> Characters(spec.steps[..n - 1]) < 4 * spec.budget.maxTokens
    ensures n > 1 ==> Characters(spec.steps[..n - 1]) < 4 * MAX_SUBAGENT_TOKENS
  {
    if RefusedFirst(delegable, spec) == None {
      AllDelegated(delegable, spec, spec.steps);
      if n > 0 {
        assert NoStopBefore(spec, w, n - 1);
        assert StopsAt(spec, w, n - 1) == None || StoppedAfter(spec, w, n - 1);
        if n > 1 {
          assert StopsAt(spec, w, n - 2) == None;
          TokensCountCharacters(spec.steps[..n - 1]);
        }
        forall i | 0 <= i < n ensures InTime(spec, w, i) {
          assert i < n - 1 ==> StopsAt(spec, w, i) == None;
        }
      }
    }
  }

  /**
   * The reported count is the number of calls that were allowed and succeeded, a call over the token budget included.
   */
  lemma {:induction false} ReportsItsSuccesses(delegable: set<string>, spec: Spec, w: World, n: nat)
    requires IsExtent(delegable, spec, w, n)
    ensures OutcomeOf(delegable, spec, w, n).executed == Successes(w, n)
  {
    if RefusedFirst(delegable, spec) == None {
      if NoStopBefore(spec, w, n) {
        AllSucceed(spec, w, n);
        if n > 0 { assert StopsAt(spec, w, n - 1) == None; }
      } else {
        AllSucceed(spec, w, n - 1);
      }
    }
  }

  /**
   * It is a success exactly when nothing was refused, every step was allowed and succeeded in time, and all of it
   * fitted the token budget.
   */
  lemma {:induction false} SucceedsExactly(delegable: set<string>, spec: Spec, w: World, n: nat)
    requires IsExtent(delegable, spec, w, n)
    ensures OutcomeOf(delegable, spec, w, n).ok <==> AllGood(delegable, spec, w)
    ensures OutcomeOf(delegable, spec, w, n).ok ==> n == |spec.steps|
  {
    if RefusedFirst(delegable, spec) == None {
      AllDelegated(delegable, spec, spec.steps);
      if NoStopBefore(spec, w, |spec.steps|) {
        TokensFit(spec, w);
        assert AllGood(delegable, spec, w) by {
          forall i | 0 <= i < |spec.steps| ensures StepGood(spec, w, i) { assert StopsAt(spec, w, i) == None; }
        }
        if n > 0 { assert StopsAt(spec, w, n - 1) == None; }
      } else if AllGood(delegable, spec, w) {
        GoodNeverStops(delegable, spec, w);
        assert false;
      }
    } else {
      AllDelegated(delegable, spec, spec.steps);
    }
  }

  predicate StepGood(spec: Spec, w: World, i: nat)
    requires i < |spec.steps|
  {
    Succeeded(w, i) && InTime(spec, w, i)
  }

  ghost predicate AllGood(delegable: set<string>, spec: Spec, w: World) {
    && spec.depth < spec.maxDepth && spec.depth < MAX_SUBAGENT_DEPTH
    && |spec.steps| <= spec.budget.maxSteps && |spec.steps| <= MAX_SUBAGENT_STEPS
    && (spec.steps == [] || |spec.steps| <= spec.budget.maxToolCalls)
    && (spec.steps == [] || (Tokens(spec.steps) <= spec.budget.maxTokens && Tokens(spec.steps) <= MAX_SUBAGENT_TOKENS))
    && (forall i :: 0 <= i < |spec.steps| ==> Delegated(delegable, spec, spec.steps[i].tool))
    && (forall i :: 0 <= i < |spec.steps| ==> StepGood(spec, w, i))
  }

  lemma {:induction false} TokensGrow(steps: seq<Step>, k: nat)
    requires k <= |steps|
    ensures Tokens(steps[..k]) <= Tokens(steps)
    decreases |steps|
  {
    if k == |steps| {
      assert steps[..k] == steps;
    } else {
      var front := steps[..|steps| - 1];
      assert front[..k] == steps[..k];
      TokensGrow(front, k);
    }
  }

  lemma TokensFit(spec: Spec, w: World)
    requires NoStopBefore(spec, w, |spec.steps|)
    ensures spec.steps == [] ||
            (Tokens(spec.steps) <= Effective(spec.budget).maxTokens &&
              |spec.steps| <= Effective(spec.budget).maxToolCalls)
  {
    if spec.steps != [] {
      assert StopsAt(spec, w, |spec.steps| - 1) == None;
      assert spec.steps[..|spec.steps|] == spec.steps;
    }
  }

  lemma GoodNeverStops(delegable: set<string>, spec: Spec, w: World)
    requires AllGood(delegable, spec, w)
    ensures NoStopBefore(spec, w, |spec.steps|)
  {
    forall i | 0 <= i < |spec.steps| ensures StopsAt(spec, w, i) == None {
      assert StepGood(spec, w, i);
      TokensGrow(spec.steps, i + 1);
    }
  }

  /** In characters: what spells out four for each token cannot succeed, and what spells out few enough fits. */
  lemma {:induction false} LongRunsFail(delegable: set<string>, spec: Spec, w: World, n: nat)
    requires IsExtent(delegable, spec, w, n) && spec.steps != []
    requires Characters(spec.steps) >= 4 * spec.budget.maxTokens || Characters(spec.steps) >= 4 * MAX_SUBAGENT_TOKENS
    ensures !OutcomeOf(delegable, spec, w, n).ok
  {
    SucceedsExactly(delegable, spec, w, n);
    TokensCountCharacters(spec.steps);
  }

  lemma {:induction false} ShortRunsFit(delegable: set<string>, spec: Spec, w: World, n: nat)
    requires IsExtent(delegable, spec, w, n) && spec.steps != []
    requires Characters(spec.steps) <= 4 * (Min(spec.budget.maxTokens, MAX_SUBAGENT_TOKENS) - |spec.steps|)
    ensures OutcomeOf(delegable, spec, w, n).reason != Some(TokenBudgetExceeded)
  {
    TokensCountCharacters(spec.steps);
    forall i | 0 <= i < |spec.steps| ensures StopsAt(spec, w, i) != Some(TokenBudgetExceeded) {
      TokensGrow(spec.steps, i + 1);
    }
    FirstDisallowedNames(delegable, spec, spec.steps);
  }

  /** The first tool that may not be used is the one named. */
  lemma {:induction false} FirstDisallowedNames(delegable: set<string>, spec: Spec, steps: seq<Step>)
    ensures var r := FirstDisallowed(delegable, spec, steps);
            r.Some? ==>
            exists i :: FirstDisallowedAt(delegable, spec, steps, i) && r.value == ToolNotAllowed(steps[i].tool)
  {
    if steps != [] && Delegated(delegable, spec, steps[0].tool) {
      FirstDisallowedNames(delegable, spec, steps[1..]);
      if FirstDisallowed(delegable, spec, steps[1..]).Some? {
        var i :| FirstDisallowedAt(delegable, spec, steps[1..], i) &&
          FirstDisallowed(delegable, spec, steps).value == ToolNotAllowed(steps[1..][i].tool);
        forall j | 0 <= j < i + 1 ensures Delegated(delegable, spec, steps[j].tool) {
          if j > 0 { assert steps[1..][j - 1] == steps[j]; }
        }
        assert FirstDisallowedAt(delegable, spec, steps, i + 1);
      }
    } else if steps != [] {
      assert FirstDisallowedAt(delegable, spec, steps, 0);
    }
  }

  ghost predicate FirstDisallowedAt(delegable: set<string>, spec: Spec, steps: seq<Step>, i: int) {
    && 0 <= i < |steps| && !Delegated(delegable, spec, steps[i].tool)
    && forall j :: 0 <= j < i ==> Delegated(delegable, spec, steps[j].tool)
  }

  /** What the reason of a failed run says, in terms of the specification, the broker's replies and the clock. */
  ghost predicate ReasonHolds(delegable: set<string>, spec: Spec, w: World, n: nat, reason: Reason)
    requires n <= |spec.steps|
  {
    match reason
    case DepthExceeded => n == 0 && (spec.depth >= spec.maxDepth || spec.depth >= MAX_SUBAGENT_DEPTH)
    case StepBudgetExceeded => n == 0 && (|spec.steps| > spec.budget.maxSteps || |spec.steps| > MAX_SUBAGENT_STEPS)
    case ToolNotAllowed(tool) =>
      n == 0 && exists i :: FirstDisallowedAt(delegable, spec, spec.steps, i) && tool == spec.steps[i].tool
    case TimeBudgetExceeded => n < |spec.steps| && !InTime(spec, w, n) && Successes(w, n) == n
    case ToolCallBudgetExceeded =>
      && n < |spec.steps| && InTime(spec, w, n) && Successes(w, n) == n
      && (n >= spec.budget.maxToolCalls || n >= MAX_SUBAGENT_TOOL_CALLS)
    case MutationProposed =>
      n > 0 && Successes(w, n - 1) == n - 1 && spec.steps[n - 1].tool in MUTATION_PROPOSAL_TOOLS &&
      w.reply(n - 1).status == ApprovalRequired
    case StepBlocked(tool) =>
      n > 0 && Successes(w, n - 1) == n - 1 && tool == spec.steps[n - 1].tool && !w.reply(n - 1).allowed
    case StepFailed(tool) =>
      n > 0 && Successes(w, n - 1) == n - 1 && tool == spec.steps[n - 1].tool && w.reply(n - 1).allowed &&
      w.reply(n - 1).status != Success
    case TokenBudgetExceeded =>
      n > 0 && Successes(w, n) == n &&
      (Characters(spec.steps[..n]) > 4 * (spec.budget.maxTokens - n) ||
       Characters(spec.steps[..n]) > 4 * (MAX_SUBAGENT_TOKENS - n))
    case MemberBudgetExceeded => false
  }

  /** A run gives a reason exactly when it fails, the reason holds, and only a proposed mutation cancels. */
  lemma {:induction false} ReasonsAreTrue(delegable: set<string>, spec: Spec, w: World, n: nat)
    requires IsExtent(delegable, spec, w, n)
    ensures var o := OutcomeOf(delegable, spec, w, n);
            && (o.ok <==> o.reason == None) && (o.ok <==> o.status == Completed)
            && (o.status == Cancelled <==> o.reason == Some(MutationProposed))
            && (o.reason.Some? ==> ReasonHolds(delegable, spec, w, n, o.reason.value))
  {
    if RefusedFirst(delegable, spec).Some? {
      FirstDisallowedNames(delegable, spec, spec.steps);
    } else if n > 0 && StoppedAfter(spec, w, n - 1) {
      assert NoStopBefore(spec, w, n - 1);
      AllSucceed(spec, w, n - 1);
      TokensCountCharacters(spec.steps[..n]);
    } else {
      AllSucceed(spec, w, n);
    }
  }

  // ----- Teams -----

  datatype TeamStatus = Created | Active | TeamCompleted | TeamCancelled

  ghost predicate NoneRunning(contracts: map<Id, Status>) {
    forall id :: id in contracts ==> contracts[id] != Running
  }

  /** Why the first member that failed did. */
  function FirstFailure(results: seq<Outcome>): Option<Reason> {
    if results == [] then None
    else
      var front := FirstFailure(results[..|results| - 1]);
      if front.Some? then front else results[|results| - 1].reason
  }

  /** The reason given is that of the first member that has one. */
  lemma {:induction false} FirstFailureIsFirst(results: seq<Outcome>)
    ensures FirstFailure(results) == None <==> forall k :: 0 <= k < |results| ==> results[k].reason == None
    ensures FirstFailure(results).Some? ==>
            exists k :: FailsFirst(results, k) && FirstFailure(results) == results[k].reason
  {
    if results != [] {
      var front := results[..|results| - 1];
      FirstFailureIsFirst(front);
      if FirstFailure(front).Some? {
        var k :| FailsFirst(front, k) && FirstFailure(front) == front[k].reason;
        assert FailsFirst(results, k);
      } else if results[|results| - 1].reason.Some? {
        assert forall k :: 0 <= k < |front| ==> results[k] == front[k];
        assert FailsFirst(results, |results| - 1);
      } else {
        forall k | 0 <= k < |results| ensures results[k].reason == None {
          if k < |front| { assert results[k] == front[k]; }
        }
      }
    }
  }

  ghost predicate FailsFirst(results: seq<Outcome>, k: int) {
    0 <= k < |results| && results[k].reason.Some? && forall j :: 0 <= j < k ==> results[j].reason == None
  }

  /** Each result is the outcome of that member's own run. */
  ghost predicate MemberResult(delegable: set<string>, spec: Spec, w: World, result: Outcome) {
    exists n: nat :: IsExtent(delegable, spec, w, n) && result == OutcomeOf(delegable, spec, w, n)
  }

  lemma {:induction false} MemberOk(delegable: set<string>, spec: Spec, w: World, result: Outcome)
    requires MemberResult(delegable, spec, w, result)
    ensures result.ok <==> AllGood(delegable, spec, w)
    ensures result.ok <==> result.reason == None
  {
    var n: nat :| IsExtent(delegable, spec, w, n) && result == OutcomeOf(delegable, spec, w, n);
    SucceedsExactly(delegable, spec, w, n);
  }

  ghost predicate MemberResults(
      delegable: set<string>, members: seq<Spec>, worlds: nat -> World, results: seq<Outcome>)
  {
    |results| == |members| &&
    forall k :: 0 <= k < |members| ==> MemberResult(delegable, members[k], worlds(k), results[k])
  }

  ghost predicate AllMembersGood(delegable: set<string>, members: seq<Spec>, worlds: nat -> World) {
    forall k :: 0 <= k < |members| ==> AllGood(delegable, members[k], worlds(k))
  }

  lemma {:induction false} AllOkMeansAllGood(
      delegable: set<string>, members: seq<Spec>, worlds: nat -> World, results: seq<Outcome>)
    requires MemberResults(delegable, members, worlds, results)
    ensures FirstFailure(results) == None <==> AllMembersGood(delegable, members, worlds)
    decreases |members|
  {
    if members != [] {
      var last := |members| - 1;
      var front, before := members[..last], results[..last];
      assert MemberResults(delegable, front, worlds, before);
      AllOkMeansAllGood(delegable, front, worlds, before);
      MemberOk(delegable, members[last], worlds(last), results[last]);
      MembersSplit(delegable, members, worlds, last);
    }
  }

  lemma MembersSplit(delegable: set<string>, members: seq<Spec>, worlds: nat -> World, last: nat)
    requires |members| == last + 1
    ensures AllMembersGood(delegable, members, worlds) <==>
            AllMembersGood(delegable, members[..last], worlds) && AllGood(delegable, members[last], worlds(last))
  {
    assert forall k :: 0 <= k < last ==> members[..last][k] == members[k];
  }

  class Coordinator {
    const runner: Runner
    var ledgers: map<Id, TeamStatus>
    var nextTeam: Id

    constructor (runner: Runner)
      ensures this.runner == runner && Valid() && ledgers == map[]
    {
      this.runner := runner;
      ledgers, nextTeam := map[], 0;
    }

    ghost predicate Valid()
      reads this
    {
      forall id :: id in ledgers ==> id < nextTeam
    }

    /** Every member in turn, whatever became of the ones before it. */
    method RunMembers(members: seq<Spec>, worlds: nat -> World)
      returns (ok: bool, reason: Option<Reason>, results: seq<Outcome>)
      requires runner.Valid() && NoneRunning(runner.contracts)
      modifies runner
      ensures runner.Valid() && NoneRunning(runner.contracts) && runner.active == old(runner.active)
      ensures old(runner.calls) <= runner.calls
      ensures |runner.calls| - |old(runner.calls)| <= MAX_SUBAGENT_TOOL_CALLS * |members|
      ensures MemberResults(runner.delegable, members, worlds, results)
      ensures reason == FirstFailure(results) && (ok <==> reason == None)
    {
      ok, reason, results := true, None, [];
      for k := 0 to |members|
        invariant runner.Valid() && NoneRunning(runner.contracts) && runner.active == old(runner.active)
        invariant old(runner.calls) <= runner.calls
        invariant |runner.calls| - |old(runner.calls)| <= MAX_SUBAGENT_TOOL_CALLS * k
        invariant MemberResults(runner.delegable, members[..k], worlds, results)
        invariant reason == FirstFailure(results) && (ok <==> reason == None)
      {
        var outcome, _, n := runner.Run(members[k], None, worlds(k));
        StaysInBudget(runner.delegable, members[k], worlds(k), n);
        assert MemberResult(runner.delegable, members[k], worlds(k), outcome);
        MemberOk(runner.delegable, members[k], worlds(k), outcome);
        assert (results + [outcome])[..k] == results;
        results := results + [outcome];
        if !outcome.ok {
          ok := false;
          if reason == None {
            reason := outcome.reason;
          }
        }
      }
      assert members[..|members|] == members;
    }

    /** A team succeeds exactly when it is small enough and every member's run is good. */
    method RunTeam(members: seq<Spec>, worlds: nat -> World)
      returns (ok: bool, reason: Option<Reason>, results: seq<Outcome>, id: Id)
      requires Valid() && runner.Valid() && NoneRunning(runner.contracts)
      modifies this, runner
      ensures Valid() && runner.Valid()
      ensures id !in old(ledgers) && ledgers == old(ledgers)[id := if ok then TeamCompleted else TeamCancelled]
      ensures NoneRunning(runner.contracts) && runner.active == old(runner.active)
      ensures old(runner.calls) <= runner.calls
      ensures |runner.calls| - |old(runner.calls)| <= MAX_SUBAGENT_TOOL_CALLS * MAX_TEAM_MEMBERS
      ensures ok <==> |members| <= MAX_TEAM_MEMBERS && AllMembersGood(runner.delegable, members, worlds)
      ensures |members| > MAX_TEAM_MEMBERS ==>
        reason == Some(MemberBudgetExceeded) && results == [] && runner.calls == old(runner.calls)
      ensures |members| <= MAX_TEAM_MEMBERS ==>
        MemberResults(runner.delegable, members, worlds, results) && reason == FirstFailure(results)
    {
      id := nextTeam;
      ledgers, nextTeam := ledgers[id := Created], nextTeam + 1;
      if |members| > MAX_TEAM_MEMBERS {
        ledgers := ledgers[id := TeamCancelled];
        return false, Some(MemberBudgetExceeded), [], id;
      }
      ledgers := ledgers[id := Active];
      ok, reason, results := RunMembers(members, worlds);
      AllOkMeansAllGood(runner.delegable, members, worlds, results);
      ledgers := ledgers[id := if ok then TeamCompleted else TeamCancelled];
    }
  }
}
