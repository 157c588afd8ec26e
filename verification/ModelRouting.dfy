/** Pricing, ranking and selection of models, and the order in which they are tried. */
module ModelRouting {
  import opened Wrappers
  import opened Lists
  import opened Sorting
  import Text

  datatype Benchmark = Benchmark(
    model: string, qualityScore: real, speedScore: real,
    inputCostPerMillionTokensCents: real, outputCostPerMillionTokensCents: real, contextWindowTokens: real)

  datatype ProviderModel = ProviderModel(id: string, benchmark: Option<Benchmark>, enabled: Option<bool>,
                                         aliases: seq<string>)

  datatype ProviderStatus = Active | Degraded | Disabled

  datatype Provider = Provider(id: string, status: ProviderStatus, models: seq<ProviderModel>)

  /** The registered providers in registration order. */
  type Registry = seq<Provider>

  datatype RegisteredModel = RegisteredModel(provider: Provider, model: ProviderModel)

  datatype Mode = Auto | Best | Fast | Cheap

  datatype ModelPolicy = ModelPolicy(defaultModel: string, fallbackModels: seq<string>, perRunBudgetCents: int)

  datatype SelectInput = SelectInput(
    policy: ModelPolicy, mode: Option<Mode>, estimatedInputTokens: Option<int>, estimatedOutputTokens: Option<int>,
    benchmarks: Option<seq<Benchmark>>, registry: Option<Registry>)

  datatype Candidate = Candidate(model: string, benchmark: Option<Benchmark>, estimatedCostCents: int, score: real)

  datatype BudgetPreflight = BudgetPreflight(
    withinBudget: bool, budgetCents: int, estimatedCostCents: int, remainingBudgetCents: int,
    estimatedInputTokens: int, estimatedOutputTokens: int)

  datatype Route = Route(
    provider: string, model: string, reason: string, estimatedCostCents: int, budget: BudgetPreflight,
    benchmark: Option<Benchmark>)

  // ---------------------------------------------------------------- pricing

  datatype Usage = Usage(inputTokens: int, outputTokens: int)

  function Ceil(x: real): int {
    -((-x).Floor)
  }

  function RawCost(b: Benchmark, usage: Usage): real {
    PriceOf(usage.inputTokens, b.inputCostPerMillionTokensCents)
    + PriceOf(usage.outputTokens, b.outputCostPerMillionTokensCents)
  }

  function PriceOf(tokens: int, perMillionCents: real): real {
    tokens as real / 1000000.0 * perMillionCents
  }

  function CalculateModelUsageCostCents(benchmark: Option<Benchmark>, usage: Usage): int {
    if benchmark.None? then 0
    else
      var total := RawCost(benchmark.value, usage);
      if total == 0.0 then 0 else if Ceil(total) < 1 then 1 else Ceil(total)
  }

  function EstimateModelCostCents(benchmark: Option<Benchmark>, inputTokens: int, outputTokens: int): int {
    if benchmark.None? then 1 else CalculateModelUsageCostCents(benchmark, Usage(inputTokens, outputTokens))
  }

  predicate Priced(benchmark: Option<Benchmark>) {
    benchmark.Some? ==>
      benchmark.value.inputCostPerMillionTokensCents >= 0.0 && benchmark.value.outputCostPerMillionTokensCents >= 0.0
  }

  predicate NoMore(used: Usage, allowed: Usage) {
    0 <= used.inputTokens <= allowed.inputTokens && 0 <= used.outputTokens <= allowed.outputTokens
  }

  lemma ProductMonotone(x: real, y: real, rate: real)
    requires 0.0 <= x <= y && rate >= 0.0
    ensures 0.0 <= x * rate <= y * rate
  {
    assert x * rate >= 0.0;
    assert (y - x) * rate >= 0.0;
    assert (y - x) * rate == y * rate - x * rate;
  }

  lemma PriceMonotone(a: int, b: int, rate: real)
    requires 0 <= a <= b && rate >= 0.0
    ensures 0.0 <= PriceOf(a, rate) <= PriceOf(b, rate)
  {
    var x, y := a as real / 1000000.0, b as real / 1000000.0;
    assert 0.0 <= x <= y;
    ProductMonotone(x, y, rate);
    assert PriceOf(a, rate) == x * rate && PriceOf(b, rate) == y * rate;
  }

  lemma RawCostMonotone(b: Benchmark, used: Usage, allowed: Usage)
    requires Priced(Some(b)) && NoMore(used, allowed)
    ensures 0.0 <= RawCost(b, used) <= RawCost(b, allowed)
  {
    hide PriceOf;
    PriceMonotone(used.inputTokens, allowed.inputTokens, b.inputCostPerMillionTokensCents);
    PriceMonotone(used.outputTokens, allowed.outputTokens, b.outputCostPerMillionTokensCents);
  }

  /** The cost never falls when more tokens are used, is never below the exact price, and is less
      than a cent above it unless the price is under a cent. */
  lemma CostMonotoneAndRoundedUp(benchmark: Option<Benchmark>, used: Usage, allowed: Usage)
    requires Priced(benchmark) && NoMore(used, allowed)
    ensures 0 <= CalculateModelUsageCostCents(benchmark, used) <= CalculateModelUsageCostCents(benchmark, allowed)
    ensures benchmark.Some? ==>
              var exact, cost := RawCost(benchmark.value, used), CalculateModelUsageCostCents(benchmark, used);
              exact <= cost as real && (cost as real < exact + 1.0) && (cost == 0 <==> exact == 0.0)
    ensures CalculateModelUsageCostCents(benchmark, used)
         <= EstimateModelCostCents(benchmark, allowed.inputTokens, allowed.outputTokens)
  {
    if benchmark.Some? {
      var b := benchmark.value;
      var exact, most := RawCost(b, used), RawCost(b, allowed);
      assert 0.0 <= exact <= most by {
        hide RawCost;
        RawCostMonotone(b, used, allowed);
      }
    }
  }

  // ---------------------------------------------------------------- ranking

  function ParseProvider(model: string): string {
    var provider := Text.Split(model, '/')[0];
    if provider != "" && provider != model then provider else "openai-compatible"
  }

  function FindModel(models: seq<ProviderModel>, modelId: string): Option<ProviderModel> {
    if models == [] then None
    else if models[0].id == modelId || modelId in models[0].aliases then Some(models[0])
    else FindModel(models[1..], modelId)
  }

  function ResolveModel(registry: Registry, modelId: string): Option<RegisteredModel> {
    if registry == [] then None
    else
      var model := FindModel(registry[0].models, modelId);
      if model.Some? then Some(RegisteredModel(registry[0], model.value)) else ResolveModel(registry[1..], modelId)
  }

  function ModelBenchmarks(models: seq<ProviderModel>): seq<Benchmark> {
    if models == [] then []
    else (if models[0].benchmark.Some? then [models[0].benchmark.value] else []) + ModelBenchmarks(models[1..])
  }

  function RegistryBenchmarks(registry: Registry): seq<Benchmark> {
    if registry == [] then [] else ModelBenchmarks(registry[0].models) + RegistryBenchmarks(registry[1..])
  }

  function FindBenchmark(benchmarks: seq<Benchmark>, model: string): Option<Benchmark> {
    if benchmarks == [] then None
    else if benchmarks[0].model == model then Some(benchmarks[0])
    else FindBenchmark(benchmarks[1..], model)
  }

  function ScoreModel(benchmark: Option<Benchmark>, mode: Mode): real {
    match benchmark
    case None => 1.0
    case Some(b) =>
      match mode
      case Best => b.qualityScore * 2.0 + b.contextWindowTokens / 100000.0
      case Fast => b.speedScore * 2.0 + b.qualityScore
      case Cheap =>
        var cost := b.inputCostPerMillionTokensCents + b.outputCostPerMillionTokensCents;
        100000.0 / (if cost < 1.0 then 1.0 else cost) + b.qualityScore / 10.0
      case Auto =>
        b.qualityScore + b.speedScore
        - (b.inputCostPerMillionTokensCents + b.outputCostPerMillionTokensCents) / 1000.0
  }

  predicate Routable(model: string, registry: Option<Registry>) {
    registry.None? ||
    var registered := ResolveModel(registry.value, model);
    registered.Some? && !registered.value.provider.status.Disabled? && registered.value.model.enabled != Some(false)
  }

  function CandidateOf(input: SelectInput, model: string): Candidate {
    var registered := if input.registry.Some? then ResolveModel(input.registry.value, model) else None;
    var benchmarks :=
      OrElse(input.benchmarks, if input.registry.Some? then RegistryBenchmarks(input.registry.value) else []);
    var listed := FindBenchmark(benchmarks, model);
    var benchmark :=
      if listed.Some? then listed else if registered.Some? then registered.value.model.benchmark else None;
    Candidate(model, benchmark,
              EstimateModelCostCents(benchmark, OrElse(input.estimatedInputTokens, 0),
                                     OrElse(input.estimatedOutputTokens, 0)),
              ScoreModel(benchmark, OrElse(input.mode, Auto)))
  }

  /** Higher score first, then lower estimated cost. */
  predicate Before(left: Candidate, right: Candidate) {
    left.score > right.score || (left.score == right.score && left.estimatedCostCents <= right.estimatedCostCents)
  }

  const BEFORE: (Candidate, Candidate) -> bool := (l, r) => Before(l, r)

  function IsRoutable(registry: Option<Registry>): string -> bool {
    model => Routable(model, registry)
  }

  function Scorer(input: SelectInput): string -> Candidate {
    model => CandidateOf(input, model)
  }

  function FilterRoutableModels(models: seq<string>, registry: Option<Registry>): seq<string> {
    if registry.None? then Unique(models) else Select(Unique(models), IsRoutable(registry))
  }

  function RankModelCandidates(input: SelectInput, models: seq<string>): seq<Candidate> {
    Sort(Map(FilterRoutableModels(models, input.registry), Scorer(input)), BEFORE)
  }

  function PolicyCandidateModels(policy: ModelPolicy): seq<string> {
    Unique([policy.defaultModel] + policy.fallbackModels)
  }

  // ---------------------------------------------------------------- selection

  function Affordable(input: SelectInput): Candidate -> bool {
    (candidate: Candidate) => candidate.estimatedCostCents <= input.policy.perRunBudgetCents
  }

  function FindCandidate(candidates: seq<Candidate>, model: string): Option<Candidate> {
    if candidates == [] then None
    else if candidates[0].model == model then Some(candidates[0])
    else FindCandidate(candidates[1..], model)
  }

  function SelectRankedModelCandidate(input: SelectInput, scored: seq<Candidate>): (r: Result<Candidate>)
    ensures r.Ok? <==> scored != []
  {
    if scored == [] then Err("No model candidates were available for routing.")
    else
      var affordable := Select(scored, Affordable(input));
      var pool := if affordable != [] then affordable else scored;
      var preferred :=
        if OrElse(input.mode, Auto).Auto? then FindCandidate(affordable, input.policy.defaultModel) else None;
      SortPermutes(pool, BEFORE);
      Ok(if preferred.Some? then preferred.value else Sort(pool, BEFORE)[0])
  }

  function RouteBudgetPreflight(candidate: Candidate, input: SelectInput): BudgetPreflight {
    var remaining := input.policy.perRunBudgetCents - candidate.estimatedCostCents;
    BudgetPreflight(remaining >= 0, input.policy.perRunBudgetCents, candidate.estimatedCostCents, remaining,
                    OrElse(input.estimatedInputTokens, 0), OrElse(input.estimatedOutputTokens, 0))
  }

  function RouteFromCandidate(candidate: Candidate, input: SelectInput, reason: string): Route {
    Route(ParseProvider(candidate.model), candidate.model, reason, candidate.estimatedCostCents,
          RouteBudgetPreflight(candidate, input), candidate.benchmark)
  }

  function ModeName(mode: Mode): string {
    match mode
    case Auto => "auto"
    case Best => "best"
    case Fast => "fast"
    case Cheap => "cheap"
  }

  function ReasonForSelection(input: SelectInput, model: string, withinBudget: bool): string {
    var mode := OrElse(input.mode, Auto);
    if !withinBudget then
      "Selected " + model + " even though the estimate exceeds budget because no configured model fits."
    else if mode.Auto? && model == input.policy.defaultModel then "Selected default balanced model within budget."
    else "Selected " + model + " for " + ModeName(mode) + " routing within budget."
  }

  function SelectedCandidate(input: SelectInput): Result<Candidate> {
    SelectRankedModelCandidate(input, RankModelCandidates(input, PolicyCandidateModels(input.policy)))
  }

  function SelectModel(input: SelectInput): Result<Route> {
    var scored := RankModelCandidates(input, PolicyCandidateModels(input.policy));
    var selected :- SelectRankedModelCandidate(input, scored);
    Ok(RouteFromCandidate(selected, input,
                          ReasonForSelection(input, selected.model, Select(scored, Affordable(input)) != [])))
  }

  function OtherThan(model: string): string -> bool {
    other => other != model
  }

  function Remaining(input: SelectInput, selected: string): seq<Candidate> {
    RankModelCandidates(input, Select(PolicyCandidateModels(input.policy), OtherThan(selected)))
  }

  function Fallback(input: SelectInput): Candidate -> Route {
    (candidate: Candidate) => RouteFromCandidate(candidate, input,
      "Fallback candidate " + candidate.model + " for " + ModeName(OrElse(input.mode, Auto)) + " routing.")
  }

  function BuildModelRouteSequence(input: SelectInput): Result<seq<Route>> {
    var selected :- SelectModel(input);
    Ok([selected] + Map(Remaining(input, selected.model), Fallback(input)))
  }

  // ---------------------------------------------------------------- what the sequence holds

  lemma BeforeIsPreorder()
    ensures TotalPreorder(BEFORE)
  {
  }

  /** A ranking holds each routable model once, best first. */
  lemma RankingHolds(input: SelectInput, models: seq<string>)
    ensures var ranked := RankModelCandidates(input, models);
            && Sorted(ranked, BEFORE) && NoDuplicates(ranked)
            && (forall c :: c in ranked <==>
                 c == CandidateOf(input, c.model) && c.model in models && Routable(c.model, input.registry))
  {
    var unique := FilterRoutableModels(models, input.registry);
    UniqueMembers(models);
    SelectMembers(Unique(models), IsRoutable(input.registry));
    SelectNoDuplicates(Unique(models), IsRoutable(input.registry));
    var scored := Map(unique, Scorer(input));
    assert NoDuplicates(scored) by {
      forall i, j | 0 <= i < j < |scored| ensures scored[i] != scored[j] {
        assert scored[i].model == unique[i] && scored[j].model == unique[j];
      }
    }
    forall c ensures c in scored <==> c == CandidateOf(input, c.model) && c.model in unique {
      if c == CandidateOf(input, c.model) && c.model in unique {
        var i :| 0 <= i < |unique| && unique[i] == c.model;
        assert scored[i] == c;
      }
    }
    BeforeIsPreorder();
    SortSorts(scored, BEFORE);
    SortMembers(scored, BEFORE);
    SortPermutes(scored, BEFORE);
    PermutedNoDuplicates(scored, Sort(scored, BEFORE));
  }

  predicate PolicyModel(policy: ModelPolicy, model: string) {
    model == policy.defaultModel || model in policy.fallbackModels
  }

  /** The candidates a policy allows: routable policy models. */
  predicate Allowed(input: SelectInput, model: string) {
    PolicyModel(input.policy, model) && Routable(model, input.registry)
  }

  lemma PolicyModels(policy: ModelPolicy)
    ensures forall m :: m in PolicyCandidateModels(policy) <==> PolicyModel(policy, m)
  {
    UniqueMembers([policy.defaultModel] + policy.fallbackModels);
  }

  lemma {:induction false} FindCandidateFinds(candidates: seq<Candidate>, model: string)
    ensures FindCandidate(candidates, model).Some? <==> exists c :: c in candidates && c.model == model
    ensures FindCandidate(candidates, model).Some? ==>
              FindCandidate(candidates, model).value in candidates
                && FindCandidate(candidates, model).value.model == model
  {
    if candidates != [] {
      FindCandidateFinds(candidates[1..], model);
      assert forall c :: c in candidates <==> c == candidates[0] || c in candidates[1..];
    }
  }

  /** The rule for the first model: in automatic mode the default if it is affordable, otherwise
      the best affordable model, otherwise the best of all. */
  ghost predicate RightChoice(input: SelectInput, choice: Candidate) {
    var default := CandidateOf(input, input.policy.defaultModel);
    var affordable := Affordable(input);
    && choice == CandidateOf(input, choice.model) && Allowed(input, choice.model)
    && if OrElse(input.mode, Auto).Auto? && Allowed(input, default.model) && affordable(default) then choice == default
       else if exists m :: Allowed(input, m) && affordable(CandidateOf(input, m)) then
         affordable(choice)
         && forall m :: Allowed(input, m) && affordable(CandidateOf(input, m)) ==> Before(choice, CandidateOf(input, m))
       else forall m :: Allowed(input, m) ==> Before(choice, CandidateOf(input, m))
  }

  lemma FirstIsBest(pool: seq<Candidate>)
    requires pool != []
    ensures |Sort(pool, BEFORE)| == |pool| && Sort(pool, BEFORE)[0] in pool
    ensures forall c :: c in pool ==> Before(Sort(pool, BEFORE)[0], c)
  {
    var sorted := Sort(pool, BEFORE);
    BeforeIsPreorder();
    SortSorts(pool, BEFORE);
    SortMembers(pool, BEFORE);
    SortPermutes(pool, BEFORE);
    assert sorted[0] in sorted;
    forall c | c in pool ensures Before(sorted[0], c) {
      assert c in sorted;
      var i :| 0 <= i < |sorted| && sorted[i] == c;
      assert i > 0 ==> BEFORE(sorted[0], sorted[i]);
    }
  }

  lemma SelectionIsRight(input: SelectInput)
    ensures SelectedCandidate(input).Ok? <==> exists m :: Allowed(input, m)
    ensures SelectedCandidate(input).Ok? ==> RightChoice(input, SelectedCandidate(input).value)
  {
    var scored := RankModelCandidates(input, PolicyCandidateModels(input.policy));
    PolicyModels(input.policy);
    RankingHolds(input, PolicyCandidateModels(input.policy));
    assert forall m :: Allowed(input, m) <==> CandidateOf(input, m) in scored;
    assert forall c :: c in scored ==> c == CandidateOf(input, c.model) && Allowed(input, c.model);
    hide RankModelCandidates, PolicyCandidateModels, CandidateOf, Allowed, ScoreModel;
    if scored != [] {
      assert scored[0] in scored;
      RightFromScored(input, scored);
    }
  }

  lemma RightFromScored(input: SelectInput, scored: seq<Candidate>)
    requires scored != []
    requires forall m :: Allowed(input, m) <==> CandidateOf(input, m) in scored
    requires forall c :: c in scored ==> c == CandidateOf(input, c.model) && Allowed(input, c.model)
    ensures RightChoice(input, SelectRankedModelCandidate(input, scored).value)
  {
    hide Allowed;
    var affordable := Select(scored, Affordable(input));
    SelectMembers(scored, Affordable(input));
    FindCandidateFinds(affordable, input.policy.defaultModel);
    FirstIsBest(scored);
    if affordable != [] {
      assert affordable[0] in affordable;
      FirstIsBest(affordable);
    }
    assert CandidateOf(input, input.policy.defaultModel).model == input.policy.defaultModel;
  }

  function ModelOfRoute(): Route -> string {
    (route: Route) => route.model
  }

  /** The route sequence: every routable policy model exactly once, the rightly chosen one first
      and the others by score, then cost. It exists exactly when some policy model is routable. */
  lemma RouteSequenceHolds(input: SelectInput)
    ensures BuildModelRouteSequence(input).Ok? <==> exists m :: Allowed(input, m)
    ensures BuildModelRouteSequence(input).Ok? ==>
              var routes := BuildModelRouteSequence(input).value;
              && routes != [] && NoDuplicates(Map(routes, ModelOfRoute()))
              && (forall m :: m in Map(routes, ModelOfRoute()) <==> Allowed(input, m))
              && RightChoice(input, CandidateOf(input, routes[0].model))
              && (forall i, j :: 1 <= i < j < |routes| ==>
                   Before(CandidateOf(input, routes[i].model), CandidateOf(input, routes[j].model)))
              && (forall i :: 0 <= i < |routes| ==>
                   routes[i] == RouteFromCandidate(CandidateOf(input, routes[i].model), input, routes[i].reason))
  {
    SelectionIsRight(input);
    if SelectedCandidate(input).Ok? {
      var selected := SelectedCandidate(input).value;
      var models := Select(PolicyCandidateModels(input.policy), OtherThan(selected.model));
      PolicyModels(input.policy);
      SelectMembers(PolicyCandidateModels(input.policy), OtherThan(selected.model));
      RankingHolds(input, models);
      SequenceFrom(input, selected, Remaining(input, selected.model));
    }
  }

  lemma SequenceFrom(input: SelectInput, selected: Candidate, remaining: seq<Candidate>)
    requires SelectedCandidate(input) == Ok(selected) && remaining == Remaining(input, selected.model)
    requires selected == CandidateOf(input, selected.model) && Allowed(input, selected.model)
    requires Sorted(remaining, BEFORE) && NoDuplicates(remaining)
    requires forall c :: c in remaining <==>
               c == CandidateOf(input, c.model) && c.model != selected.model && Allowed(input, c.model)
    ensures BuildModelRouteSequence(input).Ok?
    ensures var routes := BuildModelRouteSequence(input).value;
            && routes != [] && routes[0].model == selected.model && NoDuplicates(Map(routes, ModelOfRoute()))
            && (forall m :: m in Map(routes, ModelOfRoute()) <==> Allowed(input, m))
            && (forall i, j :: 1 <= i < j < |routes| ==>
                 Before(CandidateOf(input, routes[i].model), CandidateOf(input, routes[j].model)))
            && (forall i :: 0 <= i < |routes| ==>
                 routes[i] == RouteFromCandidate(CandidateOf(input, routes[i].model), input, routes[i].reason))
  {
    SequenceShape(input, selected, remaining);
    CandidateModel(input);
    hide Allowed, BuildModelRouteSequence, Remaining, CandidateOf, Before, RouteBudgetPreflight, ParseProvider;
    var routes := BuildModelRouteSequence(input).value;
    forall i | 1 <= i < |routes|
      ensures remaining[i - 1] == CandidateOf(input, routes[i].model) && routes[i].model == remaining[i - 1].model
    {
      assert remaining[i - 1] in remaining;
    }
    NamesOnce(input, selected, remaining, Map(routes, ModelOfRoute()));
    NamesCover(input, selected, remaining, Map(routes, ModelOfRoute()));
    forall i, j | 1 <= i < j < |routes|
      ensures Before(CandidateOf(input, routes[i].model), CandidateOf(input, routes[j].model))
    {
      assert BEFORE(remaining[i - 1], remaining[j - 1]);
    }
  }

  lemma NamesOnce(input: SelectInput, selected: Candidate, remaining: seq<Candidate>, names: seq<string>)
    requires NoDuplicates(remaining)
    requires forall c :: c in remaining ==> c == CandidateOf(input, c.model) && c.model != selected.model
    requires |names| == |remaining| + 1 && names[0] == selected.model
    requires forall i :: 1 <= i < |names| ==> names[i] == remaining[i - 1].model
    ensures NoDuplicates(names)
  {
    hide CandidateOf;
    forall i, j | 0 <= i < j < |names| ensures names[i] != names[j] {
      assert remaining[j - 1] in remaining;
      assert i > 0 ==> remaining[i - 1] in remaining && remaining[i - 1] != remaining[j - 1];
    }
  }

  lemma NamesCover(input: SelectInput, selected: Candidate, remaining: seq<Candidate>, names: seq<string>)
    requires Allowed(input, selected.model)
    requires forall c :: c in remaining <==>
               c == CandidateOf(input, c.model) && c.model != selected.model && Allowed(input, c.model)
    requires |names| == |remaining| + 1 && names[0] == selected.model
    requires forall i :: 1 <= i < |names| ==> names[i] == remaining[i - 1].model
    ensures forall m :: m in names <==> Allowed(input, m)
  {
    CandidateModel(input);
    hide CandidateOf, Allowed;
    forall m ensures m in names <==> Allowed(input, m) {
      if m in names {
        var i :| 0 <= i < |names| && names[i] == m;
        assert i > 0 ==> remaining[i - 1] in remaining;
      }
      if Allowed(input, m) && m != selected.model {
        assert CandidateOf(input, m) in remaining;
        var i :| 0 <= i < |remaining| && remaining[i] == CandidateOf(input, m);
        assert names[i + 1] == m;
      }
    }
  }

  lemma CandidateModel(input: SelectInput)
    ensures forall m :: CandidateOf(input, m).model == m
  {
  }

  lemma SequenceShape(input: SelectInput, selected: Candidate, remaining: seq<Candidate>)
    requires SelectedCandidate(input) == Ok(selected) && remaining == Remaining(input, selected.model)
    ensures BuildModelRouteSequence(input).Ok?
    ensures var routes := BuildModelRouteSequence(input).value;
            && |routes| == |remaining| + 1
            && routes[0] == RouteFromCandidate(selected, input, routes[0].reason)
            && forall i :: 1 <= i < |routes| ==>
                 routes[i] == RouteFromCandidate(remaining[i - 1], input, routes[i].reason)
  {
    SelectedRoute(input, selected);
    var first := SelectModel(input).value;
    hide SelectModel, Remaining, RouteFromCandidate, SelectedCandidate, Fallback;
    assert BuildModelRouteSequence(input).value == [first] + Map(remaining, Fallback(input));
    forall c ensures Fallback(input)(c) == RouteFromCandidate(c, input, Fallback(input)(c).reason) {
      FallbackRoute(input, c);
    }
  }

  lemma FallbackRoute(input: SelectInput, c: Candidate)
    ensures Fallback(input)(c) == RouteFromCandidate(c, input, Fallback(input)(c).reason)
  {
    hide RouteBudgetPreflight, ParseProvider;
  }

  lemma SelectedRoute(input: SelectInput, selected: Candidate)
    requires SelectedCandidate(input) == Ok(selected)
    ensures SelectModel(input).Ok?
    ensures var route := SelectModel(input).value;
            route.model == selected.model && route == RouteFromCandidate(selected, input, route.reason)
  {
    hide SelectRankedModelCandidate, RankModelCandidates, ReasonForSelection, RouteBudgetPreflight, ParseProvider;
  }
}
