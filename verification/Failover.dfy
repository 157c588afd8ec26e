/** Running a prompt on the model routes in turn, and the cost ledger that records it. */
module Failover {
  import opened Wrappers
  import opened Lists
  import opened ModelRouting

  // ---------------------------------------------------------------- the gateway

  datatype Response = Response(model: string, content: string, inputTokens: int, outputTokens: int, costCents: int)

  datatype Outcome =
    | Completed(response: Response)
    | GatewayError(message: string, retryable: Option<bool>)
    | OtherError(message: string)

  predicate RetryableFailure(outcome: Outcome) {
    || outcome.OtherError?
    || (outcome.GatewayError? && OrElse(outcome.retryable, true))
  }

  /** The n-th call of a gateway has an arbitrary outcome. */
  type Outcomes = nat -> Outcome

  class ModelGateway {
    const outcomes: Outcomes
    var calls: seq<Route>

    constructor (outcomes: Outcomes)
      ensures this.outcomes == outcomes && calls == []
    {
      this.outcomes := outcomes;
      calls := [];
    }

    method Complete(route: Route) returns (outcome: Outcome)
      modifies this
      ensures calls == old(calls) + [route] && outcome == outcomes(|old(calls)|)
    {
      outcome := outcomes(|calls|);
      calls := calls + [route];
    }
  }

  // ---------------------------------------------------------------- the ledger

  datatype Phase = Estimate | Actual

  /** The entry's id is built from its run, phase, route and `sequence`. */
  datatype LedgerEntry = LedgerEntry(
    sequence: nat, runId: string, phase: Phase, provider: string, model: string, usage: Usage, costCents: int,
    reason: string)

  datatype CostSummary = CostSummary(
    estimatedCostCents: int, actualCostCents: int, inputTokens: int, outputTokens: int, entries: nat)

  const NO_COST := CostSummary(0, 0, 0, 0, 0)

  function Plus(a: CostSummary, b: CostSummary): CostSummary {
    CostSummary(a.estimatedCostCents + b.estimatedCostCents, a.actualCostCents + b.actualCostCents,
                a.inputTokens + b.inputTokens, a.outputTokens + b.outputTokens, a.entries + b.entries)
  }

  function Weight(entry: LedgerEntry): CostSummary {
    CostSummary(if entry.phase.Estimate? then entry.costCents else 0,
                if entry.phase.Actual? then entry.costCents else 0,
                entry.usage.inputTokens, entry.usage.outputTokens, 1)
  }

  /** An empty run id stands for every run. */
  predicate Concerns(entry: LedgerEntry, runId: string) {
    runId == "" || entry.runId == runId
  }

  function Summary(entries: seq<LedgerEntry>, runId: string): CostSummary {
    if entries == [] then NO_COST
    else
      var n := |entries| - 1;
      Plus(Summary(entries[..n], runId), if Concerns(entries[n], runId) then Weight(entries[n]) else NO_COST)
  }

  lemma SummaryLast(entries: seq<LedgerEntry>, entry: LedgerEntry, runId: string)
    ensures Summary(entries + [entry], runId)
         == Plus(Summary(entries, runId), if Concerns(entry, runId) then Weight(entry) else NO_COST)
  {
    assert (entries + [entry])[..|entries|] == entries;
  }

  lemma SummaryOfNone(runId: string)
    ensures Summary([], runId) == NO_COST
  {
  }

  lemma PlusAssociates(a: CostSummary, b: CostSummary, c: CostSummary)
    ensures Plus(Plus(a, b), c) == Plus(a, Plus(b, c)) && Plus(a, NO_COST) == a && Plus(NO_COST, c) == c
  {
  }

  class InMemoryModelCostLedger {
    var entries: seq<LedgerEntry>

    constructor ()
      ensures entries == []
    {
      entries := [];
    }

    method Record(runId: string, phase: Phase, route: Route, usage: Usage, costCents: int, reason: string)
      modifies this
      ensures entries == old(entries)
        + [LedgerEntry(|old(entries)| + 1, runId, phase, route.provider, route.model, usage, costCents, reason)]
    {
      entries := entries
        + [LedgerEntry(|entries| + 1, runId, phase, route.provider, route.model, usage, costCents, reason)];
    }

    method Summarize(runId: string) returns (summary: CostSummary)
      ensures summary == Summary(entries, runId)
    {
      summary := NO_COST;
      SummaryOfNone(runId);
      hide Summary;
      for i := 0 to |entries|
        invariant summary == Summary(entries[..i], runId)
      {
        var entry := entries[i];
        PrefixGrows(entries, i);
        SummaryLast(entries[..i], entry, runId);
        if Concerns(entry, runId) {
          if entry.phase.Estimate? {
            summary := summary.(estimatedCostCents := summary.estimatedCostCents + entry.costCents);
          } else {
            summary := summary.(actualCostCents := summary.actualCostCents + entry.costCents);
          }
          summary := summary.(inputTokens := summary.inputTokens + entry.usage.inputTokens,
                              outputTokens := summary.outputTokens + entry.usage.outputTokens,
                              entries := summary.entries + 1);
        }
      }
      assert entries[..|entries|] == entries;
    }
  }

  lemma {:induction false} SummaryAdds(a: seq<LedgerEntry>, b: seq<LedgerEntry>, runId: string)
    ensures Summary(a + b, runId) == Plus(Summary(a, runId), Summary(b, runId))
  {
    hide Plus, Weight, Concerns;
    if b == [] {
      assert a + b == a;
      PlusAssociates(Summary(a, runId), NO_COST, NO_COST);
    } else {
      hide Summary;
      var front, entry := b[..|b| - 1], b[|b| - 1];
      SummaryAdds(a, front, runId);
      LastOfConcat(a, b);
      SummaryLast(a + front, entry, runId);
      SummaryLast(front, entry, runId);
      PlusAssociates(Summary(a, runId), Summary(front, runId),
                     if Concerns(entry, runId) then Weight(entry) else NO_COST);
    }
  }

  // ---------------------------------------------------------------- skipping

  datatype ApprovedRoute = ApprovedRoute(provider: string, model: string, estimatedCostCents: int)

  datatype FailoverInput = FailoverInput(
    runId: string, selection: SelectInput, requireKnownPricing: bool, effectiveBudgetCents: Option<int>,
    approvedOverBudgetRoute: Option<ApprovedRoute>)

  datatype Decision = Decision(
    attempt: nat, primary: bool, provider: string, model: string, estimatedCostCents: int, withinBudget: bool,
    budgetCents: int, remainingBudgetCents: int, reason: string)

  function EffectiveCeiling(route: Route, input: FailoverInput): int {
    OrElse(input.effectiveBudgetCents, route.budget.budgetCents)
  }

  function DecisionMetadata(route: Route, index: nat, input: FailoverInput): Decision {
    var remaining := EffectiveCeiling(route, input) - route.estimatedCostCents;
    Decision(index + 1, index == 0, route.provider, route.model, route.estimatedCostCents, remaining >= 0,
             EffectiveCeiling(route, input), remaining, route.reason)
  }

  datatype SkipReason = UnknownPricing | OverBudget

  function SkipReasonFor(route: Route, decision: Decision, input: FailoverInput): Option<SkipReason> {
    if input.requireKnownPricing && route.benchmark.None? then Some(UnknownPricing)
    else if decision.withinBudget then None
    else
      var approved := input.approvedOverBudgetRoute;
      if && approved.Some? && approved.value.provider == route.provider && approved.value.model == route.model
         && decision.estimatedCostCents <= approved.value.estimatedCostCents
      then None else Some(OverBudget)
  }

  // ---------------------------------------------------------------- the loop

  datatype Status = Succeeded | Failed(message: string, retryable: bool) | Skipped(why: SkipReason)

  datatype Attempt = Attempt(route: Route, decision: Decision, status: Status, actualCostCents: Option<int>)

  datatype FailoverResult = FailoverResult(
    ok: bool, route: Option<Route>, response: Option<Response>, attempts: seq<Attempt>, ledgerSummary: CostSummary)

  /** Everything a run does from some point on. */
  datatype Trace = Trace(attempts: seq<Attempt>, calls: seq<Route>, entries: seq<LedgerEntry>,
                         response: Option<Response>)

  function EstimatedUsage(input: FailoverInput): Usage {
    Usage(OrElse(input.selection.estimatedInputTokens, 0), OrElse(input.selection.estimatedOutputTokens, 0))
  }

  function EstimateEntry(route: Route, input: FailoverInput, sequence: nat): LedgerEntry {
    LedgerEntry(sequence, input.runId, Estimate, route.provider, route.model,
                EstimatedUsage(input), route.estimatedCostCents, route.reason)
  }

  function ActualEntry(route: Route, response: Response, input: FailoverInput, sequence: nat): LedgerEntry {
    LedgerEntry(sequence, input.runId, Actual, route.provider, route.model,
                Usage(response.inputTokens, response.outputTokens), response.costCents, "Model call completed.")
  }

  function Append(a: Trace, b: Trace): Trace {
    Trace(a.attempts + b.attempts, a.calls + b.calls, a.entries + b.entries, b.response)
  }

  /** One route: `index` routes were tried before it, the gateway was called `called` times and the
      ledger holds `recorded` entries. */
  function Step(route: Route, input: FailoverInput, outcomes: Outcomes, index: nat, called: nat,
                recorded: nat): (t: Trace)
    ensures |t.attempts| == 1
  {
    var decision := DecisionMetadata(route, index, input);
    var skip := SkipReasonFor(route, decision, input);
    var estimate := EstimateEntry(route, input, recorded + 1);
    var outcome := outcomes(called);
    if skip.Some? then Trace([Attempt(route, decision, Skipped(skip.value), None)], [], [estimate], None)
    else if outcome.Completed? then
      Trace([Attempt(route, decision, Succeeded, Some(outcome.response.costCents))], [route],
            [estimate, ActualEntry(route, outcome.response, input, recorded + 2)], Some(outcome.response))
    else
      Trace([Attempt(route, decision, Failed(outcome.message, RetryableFailure(outcome)), None)], [route], [estimate],
            None)
  }

  predicate Stops(status: Status) {
    status.Succeeded? || (status.Failed? && !status.retryable)
  }

  function Run(routes: seq<Route>, input: FailoverInput, outcomes: Outcomes, index: nat, called: nat,
               recorded: nat): Trace {
    if routes == [] then Trace([], [], [], None)
    else
      var step := Step(routes[0], input, outcomes, index, called, recorded);
      if Stops(step.attempts[0].status) then step
      else
        Append(step, Run(routes[1..], input, outcomes, index + 1, called + |step.calls|, recorded + |step.entries|))
  }

  lemma RunUnfolds(routes: seq<Route>, i: nat, input: FailoverInput, outcomes: Outcomes, called: nat, recorded: nat)
    requires i < |routes|
    ensures var step := Step(routes[i], input, outcomes, i, called, recorded);
            Run(routes[i..], input, outcomes, i, called, recorded)
            == if Stops(step.attempts[0].status) then step
               else Append(step, Run(routes[i + 1..], input, outcomes, i + 1, called + |step.calls|,
                                     recorded + |step.entries|))
  {
    assert routes[i..][0] == routes[i] && routes[i..][1..] == routes[i + 1..];
  }

  lemma AppendAssociates(a: Trace, b: Trace, c: Trace)
    ensures Append(Append(a, b), c) == Append(a, Append(b, c))
  {
    assert a.attempts + b.attempts + c.attempts == a.attempts + (b.attempts + c.attempts);
    assert a.calls + b.calls + c.calls == a.calls + (b.calls + c.calls);
    assert a.entries + b.entries + c.entries == a.entries + (b.entries + c.entries);
  }

  /** One pass of the loop body. */
  method TryRoute(route: Route, index: nat, input: FailoverInput, gateway: ModelGateway,
                  ledger: InMemoryModelCostLedger)
    returns (attempt: Attempt, response: Option<Response>)
    modifies gateway, ledger
    ensures var step := Step(route, input, gateway.outcomes, index, |old(gateway.calls)|, |old(ledger.entries)|);
            && gateway.calls == old(gateway.calls) + step.calls && ledger.entries == old(ledger.entries) + step.entries
            && step.attempts == [attempt] && step.response == response
  {
    var decision := DecisionMetadata(route, index, input);
    ledger.Record(input.runId, Estimate, route, EstimatedUsage(input), route.estimatedCostCents, route.reason);
    var skip := SkipReasonFor(route, decision, input);
    if skip.Some? {
      return Attempt(route, decision, Skipped(skip.value), None), None;
    }
    var outcome := gateway.Complete(route);
    if outcome.Completed? {
      var usage := Usage(outcome.response.inputTokens, outcome.response.outputTokens);
      ledger.Record(input.runId, Actual, route, usage, outcome.response.costCents, "Model call completed.");
      return Attempt(route, decision, Succeeded, Some(outcome.response.costCents)), Some(outcome.response);
    }
    return Attempt(route, decision, Failed(outcome.message, RetryableFailure(outcome)), None), None;
  }

  /** What the loop knows after `index` routes: `done` is what it did so far, `stopped` that it will
      do no more, and the rest of the run from here completes `t`. */
  ghost predicate Progress(t: Trace, done: Trace, routes: seq<Route>, index: nat, stopped: bool,
                           input: FailoverInput, outcomes: Outcomes, called: nat, recorded: nat) {
    && index <= |routes|
    && (done.response.Some? ==> stopped)
    && t == if stopped then done else Append(done, Run(routes[index..], input, outcomes, index, called, recorded))
  }

  lemma ProgressStarts(routes: seq<Route>, input: FailoverInput, outcomes: Outcomes, called: nat, recorded: nat)
    ensures Progress(Run(routes, input, outcomes, 0, called, recorded), Trace([], [], [], None), routes, 0, false,
                     input, outcomes, called, recorded)
  {
    assert routes[0..] == routes;
  }

  lemma ProgressStep(t: Trace, done: Trace, routes: seq<Route>, index: nat, input: FailoverInput, outcomes: Outcomes,
                     called: nat, recorded: nat)
    requires index < |routes| && Progress(t, done, routes, index, false, input, outcomes, called, recorded)
    ensures var step := Step(routes[index], input, outcomes, index, called, recorded);
            Progress(t, Append(done, step), routes, index + 1, Stops(step.attempts[0].status),
                     input, outcomes, called + |step.calls|, recorded + |step.entries|)
  {
    hide Run, Append, Step;
    var step := Step(routes[index], input, outcomes, index, called, recorded);
    var rest := Run(routes[index + 1..], input, outcomes, index + 1, called + |step.calls|, recorded + |step.entries|);
    RunUnfolds(routes, index, input, outcomes, called, recorded);
    StepEnds(routes[index], input, outcomes, index, called, recorded);
    AppendAssociates(done, step, rest);
    AppendResponse(done, step);
  }

  lemma AppendResponse(a: Trace, b: Trace)
    ensures Append(a, b).response == b.response
  {
  }

  lemma ProgressEnds(t: Trace, done: Trace, routes: seq<Route>, stopped: bool, index: nat, input: FailoverInput,
                     outcomes: Outcomes, called: nat, recorded: nat)
    requires Progress(t, done, routes, index, stopped, input, outcomes, called, recorded)
    requires stopped || index == |routes|
    ensures t == done
  {
    if !stopped {
      assert routes[index..] == [];
    }
  }

  /** The loop over the routes; the first response ends it, and so does a failure not to be retried. */
  method TryRoutes(routes: seq<Route>, input: FailoverInput, gateway: ModelGateway, ledger: InMemoryModelCostLedger)
    returns (attempts: seq<Attempt>, response: Option<Response>)
    modifies gateway, ledger
    ensures var t := Run(routes, input, gateway.outcomes, 0, |old(gateway.calls)|, |old(ledger.entries)|);
            && gateway.calls == old(gateway.calls) + t.calls && ledger.entries == old(ledger.entries) + t.entries
            && attempts == t.attempts && response == t.response
  {
    hide Run, Step, Stops, Progress;
    attempts, response := [], None;
    ghost var outcomes := gateway.outcomes;
    ghost var t := Run(routes, input, outcomes, 0, |gateway.calls|, |ledger.entries|);
    ghost var done := Trace([], [], [], None);
    ProgressStarts(routes, input, outcomes, |gateway.calls|, |ledger.entries|);
    var index := 0;
    var stopped := false;
    while index < |routes| && !stopped
      invariant 0 <= index <= |routes|
      invariant done == Trace(attempts, done.calls, done.entries, response)
      invariant gateway.calls == old(gateway.calls) + done.calls
      invariant ledger.entries == old(ledger.entries) + done.entries
      invariant Progress(t, done, routes, index, stopped, input, outcomes, |gateway.calls|, |ledger.entries|)
      decreases |routes| - index
    {
      ProgressStep(t, done, routes, index, input, outcomes, |gateway.calls|, |ledger.entries|);
      done := Append(done, Step(routes[index], input, outcomes, index, |gateway.calls|, |ledger.entries|));
      var attempt;
      attempt, response := TryRoute(routes[index], index, input, gateway, ledger);
      attempts := attempts + [attempt];
      index := index + 1;
      stopped := Stops(attempt.status);
    }
    ProgressEnds(t, done, routes, stopped, index, input, outcomes, |gateway.calls|, |ledger.entries|);
  }

  method RunModelWithFailover(input: FailoverInput, gateway: ModelGateway, ledger: InMemoryModelCostLedger)
    returns (result: Result<FailoverResult>)
    modifies gateway, ledger
    ensures var routes := BuildModelRouteSequence(input.selection);
            if routes.Err? then
              result == Err(routes.error) && gateway.calls == old(gateway.calls)
                && ledger.entries == old(ledger.entries)
            else
              var t := Run(routes.value, input, gateway.outcomes, 0, |old(gateway.calls)|, |old(ledger.entries)|);
              && gateway.calls == old(gateway.calls) + t.calls && ledger.entries == old(ledger.entries) + t.entries
              && result == Ok(FailoverResult(t.response.Some?, Winner(t), t.response, t.attempts,
                                             Summary(ledger.entries, input.runId)))
  {
    hide BuildModelRouteSequence, Run, Summary;
    var routes :- BuildModelRouteSequence(input.selection);
    var attempts, response := TryRoutes(routes, input, gateway, ledger);
    var route := if response.Some? && attempts != [] then Some(attempts[|attempts| - 1].route) else None;
    var summary := ledger.Summarize(input.runId);
    return Ok(FailoverResult(response.Some?, route, response, attempts, summary));
  }

  function Winner(t: Trace): Option<Route> {
    if t.response.Some? && t.attempts != [] then Some(t.attempts[|t.attempts| - 1].route) else None
  }

  lemma StepEnds(route: Route, input: FailoverInput, outcomes: Outcomes, index: nat, called: nat, recorded: nat)
    ensures var step := Step(route, input, outcomes, index, called, recorded);
            step.attempts[0].route == route && (step.response.Some? ==> Stops(step.attempts[0].status))
  {
  }

  // ---------------------------------------------------------------- exactly the first that succeeds

  /** A route may be called: its price is known if that is required, and its estimate is within the
      ceiling or covered by an approval for that very route. */
  predicate MayCall(route: Route, input: FailoverInput) {
    && (input.requireKnownPricing ==> route.benchmark.Some?)
    && (route.estimatedCostCents <= EffectiveCeiling(route, input) || CoveredByApproval(route, input))
  }

  predicate CoveredByApproval(route: Route, input: FailoverInput) {
    var approved := input.approvedOverBudgetRoute;
    && approved.Some? && approved.value.provider == route.provider && approved.value.model == route.model
    && route.estimatedCostCents <= approved.value.estimatedCostCents
  }

  function MayCallWith(input: FailoverInput): Route -> bool {
    (route: Route) => MayCall(route, input)
  }

  /** Those of the routes that the gateway may be asked for, in order. */
  function Callable(routes: seq<Route>, input: FailoverInput): seq<Route> {
    Select(routes, MayCallWith(input))
  }

  lemma StepFacts(route: Route, input: FailoverInput, outcomes: Outcomes, index: nat, called: nat, recorded: nat)
    ensures var s, outcome := Step(route, input, outcomes, index, called, recorded), outcomes(called);
            && |s.attempts| == 1 && s.attempts[0].route == route && s.attempts[0].decision.attempt == index + 1
            && (s.attempts[0].status.Skipped? <==> !MayCall(route, input))
            && s.calls == (if MayCall(route, input) then [route] else [])
            && (s.response.Some? <==> MayCall(route, input) && outcome.Completed?)
            && (s.response.Some? ==> s.attempts[0].status.Succeeded? && s.response.value == outcome.response)
            && (Stops(s.attempts[0].status) <==> MayCall(route, input) && !RetryableFailure(outcome))
  {
  }

  ghost predicate FailsRetryablyTo(outcomes: Outcomes, called: nat, k: nat) {
    forall j :: called <= j < called + k ==> RetryableFailure(outcomes(j))
  }

  /** The gateway is called on the callable routes `c` in order, up to and including the first that
      does not fail retryably, and that one decides the run. */
  ghost predicate FirstWins(t: Trace, c: seq<Route>, outcomes: Outcomes, called: nat) {
    var n := |t.calls|;
    && n <= |c| && t.calls == c[..n]
    && (n > 0 ==> FailsRetryablyTo(outcomes, called, n - 1))
    && (n < |c| ==> n > 0 && !RetryableFailure(outcomes(called + n - 1)))
    && (t.response.Some? <==> n > 0 && outcomes(called + n - 1).Completed?)
    && (t.response.Some? ==>
         && t.response.value == outcomes(called + n - 1).response
         && t.attempts != [] && t.attempts[|t.attempts| - 1].status.Succeeded?
         && t.attempts[|t.attempts| - 1].route == t.calls[n - 1])
  }

  lemma FirstWinsAppend(step: Trace, rest: Trace, c: seq<Route>, outcomes: Outcomes, called: nat)
    requires |step.attempts| == 1 && |step.calls| <= 1
    requires step.calls != [] ==> RetryableFailure(outcomes(called))
    requires FirstWins(rest, c, outcomes, called + |step.calls|)
    ensures FirstWins(Append(step, rest), step.calls + c, outcomes, called)
  {
    var t := Append(step, rest);
    var n := |rest.calls|;
    assert t.calls == (step.calls + c)[..|step.calls| + n];
    if rest.response.Some? {
      assert t.attempts[|t.attempts| - 1] == rest.attempts[|rest.attempts| - 1];
    }
  }

  lemma {:induction false} FirstSuccessWins(
      routes: seq<Route>, input: FailoverInput, outcomes: Outcomes, index: nat, called: nat, recorded: nat)
    ensures FirstWins(Run(routes, input, outcomes, index, called, recorded), Callable(routes, input), outcomes, called)
  {
    hide Step, MayCall, FirstWins, Append;
    if routes != [] {
      StepFacts(routes[0], input, outcomes, index, called, recorded);
      var step := Step(routes[0], input, outcomes, index, called, recorded);
      var c := Callable(routes[1..], input);
      assert Callable(routes, input) == step.calls + c;
      if !Stops(step.attempts[0].status) {
        FirstSuccessWins(routes[1..], input, outcomes, index + 1, called + |step.calls|, recorded + |step.entries|);
        var rest := Run(routes[1..], input, outcomes, index + 1, called + |step.calls|, recorded + |step.entries|);
        FirstWinsAppend(step, rest, c, outcomes, called);
      } else {
        FirstWinsStop(step, c, outcomes, called);
      }
    } else {
      FirstWinsNone(outcomes, called);
    }
  }

  lemma FirstWinsNone(outcomes: Outcomes, called: nat)
    ensures FirstWins(Trace([], [], [], None), [], outcomes, called)
  {
  }

  lemma FirstWinsStop(step: Trace, c: seq<Route>, outcomes: Outcomes, called: nat)
    requires |step.attempts| == 1 && step.calls == [step.attempts[0].route] && !RetryableFailure(outcomes(called))
    requires step.response.Some? <==> outcomes(called).Completed?
    requires step.response.Some? ==>
               step.attempts[0].status.Succeeded? && step.response.value == outcomes(called).response
    ensures FirstWins(step, step.calls + c, outcomes, called)
  {
  }

  /** The run succeeds exactly when some callable route succeeds and all callable routes before it
      fail retryably. */
  lemma OkExactly(routes: seq<Route>, input: FailoverInput, outcomes: Outcomes, called: nat, recorded: nat)
    ensures Run(routes, input, outcomes, 0, called, recorded).response.Some? <==>
              exists k :: 0 <= k < |Callable(routes, input)|
                && FailsRetryablyTo(outcomes, called, k) && outcomes(called + k).Completed?
  {
    FirstSuccessWins(routes, input, outcomes, 0, called, recorded);
    hide Run, Callable;
    var t := Run(routes, input, outcomes, 0, called, recorded);
    if t.response.Some? {
      assert FailsRetryablyTo(outcomes, called, |t.calls| - 1) && outcomes(called + (|t.calls| - 1)).Completed?;
    }
    forall k | 0 <= k < |Callable(routes, input)| && FailsRetryablyTo(outcomes, called, k)
      && outcomes(called + k).Completed?
      ensures t.response.Some?
    {
      assert k + 1 < |t.calls| ==> RetryableFailure(outcomes(called + k));
      assert 0 < |t.calls| < k + 1 ==> RetryableFailure(outcomes(called + (|t.calls| - 1)));
    }
  }

  /** No call is made over the effective ceiling without an approval that covers the route. */
  lemma EveryCallIsCovered(routes: seq<Route>, input: FailoverInput, outcomes: Outcomes, called: nat, recorded: nat)
    ensures forall route :: route in Run(routes, input, outcomes, 0, called, recorded).calls ==>
              route in routes && MayCall(route, input)
  {
    var t := Run(routes, input, outcomes, 0, called, recorded);
    FirstSuccessWins(routes, input, outcomes, 0, called, recorded);
    SelectMembers(routes, MayCallWith(input));
    forall route | route in t.calls ensures route in Callable(routes, input) {
    }
  }

  // ---------------------------------------------------------------- each route once

  /** The attempts are the first routes, one each. */
  lemma {:induction false} AttemptsFollowRoutes(
      routes: seq<Route>, input: FailoverInput, outcomes: Outcomes, index: nat, called: nat, recorded: nat)
    ensures var a := Run(routes, input, outcomes, index, called, recorded).attempts;
            Follow(a, routes, input, index) && (routes != [] ==> a != [])
  {
    hide Step, MayCall, Follow;
    if routes == [] {
      FollowNone(input, index);
    } else {
      StepFacts(routes[0], input, outcomes, index, called, recorded);
      var step := Step(routes[0], input, outcomes, index, called, recorded);
      var rest := Run(routes[1..], input, outcomes, index + 1, called + |step.calls|, recorded + |step.entries|);
      AttemptsFollowRoutes(routes[1..], input, outcomes, index + 1, called + |step.calls|, recorded + |step.entries|);
      var first := step.attempts[0];
      FollowOne(first, [], routes, input, index);
      FollowOne(first, rest.attempts, routes, input, index);
      assert step.attempts == [first] && [first] + [] == [first];
      var a := Run(routes, input, outcomes, index, called, recorded).attempts;
      assert a == [first] || a == [first] + rest.attempts;
    }
  }

  /** The attempts are on the routes in order, numbered from `index`, and skip exactly those that may
      not be called. */
  ghost predicate Follow(a: seq<Attempt>, routes: seq<Route>, input: FailoverInput, index: nat) {
    && |a| <= |routes|
    && (forall i :: 0 <= i < |a| ==> a[i].route == routes[i] && a[i].decision.attempt == index + i + 1)
    && (forall i :: 0 <= i < |a| ==> (a[i].status.Skipped? <==> !MayCall(routes[i], input)))
  }

  lemma FollowNone(input: FailoverInput, index: nat)
    ensures Follow([], [], input, index)
  {
  }

  lemma FollowOne(first: Attempt, rest: seq<Attempt>, routes: seq<Route>, input: FailoverInput, index: nat)
    requires routes != [] && first.route == routes[0] && first.decision.attempt == index + 1
    requires first.status.Skipped? <==> !MayCall(routes[0], input)
    requires rest == [] || Follow(rest, routes[1..], input, index + 1)
    ensures Follow([first] + rest, routes, input, index)
  {
    hide MayCall;
    var a := [first] + rest;
    forall i | 0 < i < |a|
      ensures a[i].route == routes[i] && a[i].decision.attempt == index + i + 1
      ensures a[i].status.Skipped? <==> !MayCall(routes[i], input)
    {
      assert rest[i - 1].route == routes[1..][i - 1];
    }
  }

  /** A run considers only routable policy models, each at most once, the rightly chosen one first. */
  lemma EachModelAtMostOnce(input: FailoverInput, outcomes: Outcomes, called: nat, recorded: nat)
    requires BuildModelRouteSequence(input.selection).Ok?
    ensures var a := Run(BuildModelRouteSequence(input.selection).value, input, outcomes, 0, called, recorded).attempts;
            && a != [] && RightChoice(input.selection, CandidateOf(input.selection, a[0].route.model))
            && (forall i :: 0 <= i < |a| ==> Allowed(input.selection, a[i].route.model))
            && (forall i, j :: 0 <= i < j < |a| ==> a[i].route.model != a[j].route.model)
  {
    RouteSequenceHolds(input.selection);
    hide RightChoice, Allowed, BuildModelRouteSequence, CandidateOf, RouteFromCandidate;
    var routes := BuildModelRouteSequence(input.selection).value;
    AttemptsFollowRoutes(routes, input, outcomes, 0, called, recorded);
    var models := Map(routes, ModelOfRoute());
    assert forall i :: 0 <= i < |routes| ==> models[i] == routes[i].model && models[i] in models;
  }

  // ---------------------------------------------------------------- money

  function EstimateWeight(route: Route, input: FailoverInput): CostSummary {
    CostSummary(route.estimatedCostCents, 0, EstimatedUsage(input).inputTokens, EstimatedUsage(input).outputTokens, 1)
  }

  /** The ledger's view of some attempts and of the response, if there is one. */
  function Accounted(attempts: seq<Attempt>, response: Option<Response>, input: FailoverInput): CostSummary {
    if attempts != [] then Plus(EstimateWeight(attempts[0].route, input), Accounted(attempts[1..], response, input))
    else if response.None? then NO_COST
    else CostSummary(0, response.value.costCents, response.value.inputTokens, response.value.outputTokens, 1)
  }

  lemma StepAccounts(route: Route, input: FailoverInput, outcomes: Outcomes, index: nat, called: nat, recorded: nat)
    ensures var s := Step(route, input, outcomes, index, called, recorded);
            Summary(s.entries, input.runId) == Accounted(s.attempts, s.response, input)
  {
    var s := Step(route, input, outcomes, index, called, recorded);
    var estimate := EstimateEntry(route, input, recorded + 1);
    OneEntry(estimate, input.runId);
    if s.response.Some? {
      var actual := ActualEntry(route, s.response.value, input, recorded + 2);
      OneEntry(actual, input.runId);
      SummaryAdds([estimate], [actual], input.runId);
      assert s.entries == [estimate] + [actual];
    } else {
      assert s.entries == [estimate];
    }
    assert s.attempts[1..] == [];
  }

  lemma {:induction false} EntriesAccount(
      routes: seq<Route>, input: FailoverInput, outcomes: Outcomes, index: nat, called: nat, recorded: nat)
    ensures var t := Run(routes, input, outcomes, index, called, recorded);
            Summary(t.entries, input.runId) == Accounted(t.attempts, t.response, input)
  {
    hide Step, Summary, Accounted, Append;
    if routes != [] {
      var step := Step(routes[0], input, outcomes, index, called, recorded);
      StepEnds(routes[0], input, outcomes, index, called, recorded);
      StepAccounts(routes[0], input, outcomes, index, called, recorded);
      if !Stops(step.attempts[0].status) {
        EntriesAccount(routes[1..], input, outcomes, index + 1, called + |step.calls|, recorded + |step.entries|);
        var rest := Run(routes[1..], input, outcomes, index + 1, called + |step.calls|, recorded + |step.entries|);
        AccountedAdds(step, rest, input);
      }
    } else {
      NothingAccounted(input);
    }
  }

  lemma NothingAccounted(input: FailoverInput)
    ensures Summary([], input.runId) == Accounted([], None, input)
  {
  }

  lemma AccountedAdds(step: Trace, rest: Trace, input: FailoverInput)
    requires |step.attempts| == 1 && step.response.None?
    requires Summary(step.entries, input.runId) == Accounted(step.attempts, None, input)
    requires Summary(rest.entries, input.runId) == Accounted(rest.attempts, rest.response, input)
    ensures var t := Append(step, rest); Summary(t.entries, input.runId) == Accounted(t.attempts, t.response, input)
  {
    SummaryAdds(step.entries, rest.entries, input.runId);
    hide Summary, Plus, EstimateWeight;
    var t := Append(step, rest);
    assert t.attempts[0] == step.attempts[0] && t.attempts[1..] == rest.attempts && step.attempts[1..] == [];
    PlusAssociates(EstimateWeight(step.attempts[0].route, input), NO_COST,
                   Accounted(rest.attempts, rest.response, input));
  }

  lemma OneEntry(entry: LedgerEntry, runId: string)
    requires entry.runId == runId
    ensures Summary([entry], runId) == Weight(entry)
  {
    assert [entry][..0] == [];
  }

  /** What the ledger reports after a run is what it reported before plus the estimates of the
      considered routes and the cost and tokens of the response, if there is one. */
  lemma LedgerConserved(before: seq<LedgerEntry>, routes: seq<Route>, input: FailoverInput, outcomes: Outcomes,
                        called: nat)
    ensures var t := Run(routes, input, outcomes, 0, called, |before|);
            var prior, after := Summary(before, input.runId), Summary(before + t.entries, input.runId);
            after == Plus(prior, Accounted(t.attempts, t.response, input))
  {
    EntriesAccount(routes, input, outcomes, 0, called, |before|);
    SummaryAdds(before, Run(routes, input, outcomes, 0, called, |before|).entries, input.runId);
  }

  /** The response costs what the route's benchmark says and uses no more tokens than estimated. */
  predicate AsEstimated(route: Route, response: Response, input: FailoverInput) {
    var used := Usage(response.inputTokens, response.outputTokens);
    && Priced(route.benchmark) && NoMore(used, EstimatedUsage(input))
    && response.costCents == CalculateModelUsageCostCents(route.benchmark, used)
  }

  /** The spend bound: such a response costs no more than the effective ceiling, or no more than
      the approved estimate when its route ran over the ceiling on an approval. */
  lemma SpendBound(input: FailoverInput, outcomes: Outcomes, called: nat, recorded: nat)
    requires BuildModelRouteSequence(input.selection).Ok?
    requires var t := Run(BuildModelRouteSequence(input.selection).value, input, outcomes, 0, called, recorded);
             t.response.Some? ==>
               t.attempts != [] && AsEstimated(t.attempts[|t.attempts| - 1].route, t.response.value, input)
    ensures var t := Run(BuildModelRouteSequence(input.selection).value, input, outcomes, 0, called, recorded);
            t.response.Some? ==>
              var route := t.attempts[|t.attempts| - 1].route;
              var spent := Summary(t.entries, input.runId).actualCostCents;
              && 0 <= spent <= route.estimatedCostCents
              && (spent <= EffectiveCeiling(route, input)
                  || (CoveredByApproval(route, input)
                      && spent <= input.approvedOverBudgetRoute.value.estimatedCostCents))
  {
    var routes := BuildModelRouteSequence(input.selection).value;
    var t := Run(routes, input, outcomes, 0, called, recorded);
    if t.response.Some? {
      RouteEstimates(input.selection);
      hide BuildModelRouteSequence, Run, Summary, Callable, Accounted;
      FirstSuccessWins(routes, input, outcomes, 0, called, recorded);
      EveryCallIsCovered(routes, input, outcomes, called, recorded);
      EntriesAccount(routes, input, outcomes, 0, called, recorded);
      AccountedActual(t.attempts, t.response, input);
      var route := t.attempts[|t.attempts| - 1].route;
      assert route in t.calls && route in routes;
      hide CalculateModelUsageCostCents, EstimateModelCostCents;
      CostMonotoneAndRoundedUp(route.benchmark, Usage(t.response.value.inputTokens, t.response.value.outputTokens),
                               EstimatedUsage(input));
    }
  }

  lemma {:induction false} AccountedActual(attempts: seq<Attempt>, response: Option<Response>, input: FailoverInput)
    requires response.Some?
    ensures Accounted(attempts, response, input).actualCostCents == response.value.costCents
  {
    if attempts != [] {
      AccountedActual(attempts[1..], response, input);
    }
  }

  lemma RouteEstimates(selection: SelectInput)
    requires BuildModelRouteSequence(selection).Ok?
    ensures forall route :: route in BuildModelRouteSequence(selection).value ==>
              route.estimatedCostCents == EstimateModelCostCents(
                route.benchmark, OrElse(selection.estimatedInputTokens, 0), OrElse(selection.estimatedOutputTokens, 0))
  {
    RouteSequenceHolds(selection);
    hide BuildModelRouteSequence, RightChoice, Allowed, EstimateModelCostCents;
  }
}
