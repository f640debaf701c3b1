/** The LLM budget manager, and how far concurrent calls can overshoot its hard limit. Scope keys
    are numbered in the order of time; the global scope is a single number. */
module Budget {
  import opened JsonValues

  datatype Usage = Usage(scope: nat, provider: string, model: string, cost: real)

  function Max(a: real, b: real): real {
    if a < b then b else a
  }

  function OrUnknown(name: string): string {
    if name == "" then "unknown" else name
  }

  /** The cost of the usage events of a scope. */
  function Total(events: seq<Usage>, scope: nat): real {
    if events == [] then 0.0
    else Total(events[..|events| - 1], scope) + if events[|events| - 1].scope == scope then events[|events| - 1].cost else 0.0
  }

  function TotalBy(events: seq<Usage>, scope: nat, name: Usage -> string, value: string): real {
    if events == [] then 0.0
    else
      var e := events[|events| - 1];
      TotalBy(events[..|events| - 1], scope, name, value) + if e.scope == scope && name(e) == value then e.cost else 0.0
  }

  lemma TotalAppend(events: seq<Usage>, e: Usage, scope: nat)
    ensures Total(events + [e], scope) == Total(events, scope) + if e.scope == scope then e.cost else 0.0
  {
    assert (events + [e])[..|events|] == events;
  }

  // ---------- A dict of costs, in insertion order ----------

  type Group = seq<(string, real)>

  /** `group[name] = group.get(name, 0.0) + cost`. */
  function AddTo(group: Group, name: string, cost: real): Group {
    if group == [] then [(name, cost)]
    else if group[0].0 == name then [(name, group[0].1 + cost)] + group[1..]
    else [group[0]] + AddTo(group[1..], name, cost)
  }

  function Sum(group: Group): real {
    if group == [] then 0.0 else group[0].1 + Sum(group[1..])
  }

  function CostOf(group: Group, name: string): real {
    if group == [] then 0.0 else if group[0].0 == name then group[0].1 else CostOf(group[1..], name)
  }

  lemma {:induction false} AddToAdds(group: Group, name: string, cost: real, other: string)
    ensures Sum(AddTo(group, name, cost)) == Sum(group) + cost
    ensures CostOf(AddTo(group, name, cost), other) == CostOf(group, other) + if other == name then cost else 0.0
  {
    var after := AddTo(group, name, cost);
    if group == [] {
      assert after[1..] == [];
    } else if group[0].0 == name {
      assert after[1..] == group[1..];
    } else {
      assert after[1..] == AddTo(group[1..], name, cost);
      AddToAdds(group[1..], name, cost, other);
    }
  }

  /** The dict that `summary` builds. */
  function Grouped(events: seq<Usage>, scope: nat, name: Usage -> string): Group {
    if events == [] then []
    else
      var e := events[|events| - 1];
      var before := Grouped(events[..|events| - 1], scope, name);
      if e.scope == scope then AddTo(before, name(e), e.cost) else before
  }

  /** It holds each name's cost and sums to the cost of the scope. */
  lemma {:induction false} GroupedIs(events: seq<Usage>, scope: nat, name: Usage -> string, value: string)
    ensures Sum(Grouped(events, scope, name)) == Total(events, scope)
    ensures CostOf(Grouped(events, scope, name), value) == TotalBy(events, scope, name, value)
  {
    if events != [] {
      var before, e := events[..|events| - 1], events[|events| - 1];
      GroupedIs(before, scope, name, value);
      AddToAdds(Grouped(before, scope, name), name(e), e.cost, value);
    }
  }

  // ---------- The manager ----------

  datatype Action = Allow | Warn | Fallback

  /** The settings of the manager; `pricing` holds those of the cost estimate. */
  datatype Limits = Limits(enabled: bool, soft: real, hard: real, pricing: Pricing)

  datatype Pricing = Pricing(estimates: bool, prompt: real, completion: real, completionTokens: int)

  function MaxInt(a: int, b: int): int {
    if a < b then b else a
  }

  /** `estimate_prompt_tokens`: about four characters a token. */
  function PromptTokens(text: string): nat {
    if text == "" then 0 else MaxInt(1, |text| / 4)
  }

  /** `estimate_llm_cost_usd` without a completion count. */
  function EstimatedCost(p: Pricing, promptTokens: nat): (cost: real)
    ensures cost >= 0.0
  {
    if !p.estimates then 0.0
    else promptTokens as real / 1000.0 * Max(0.0, p.prompt) + MaxInt(0, p.completionTokens) as real / 1000.0 * Max(0.0, p.completion)
  }

  /** A given estimate counts if it is positive; otherwise the prompt, if there is one, is estimated. */
  function Estimate(p: Pricing, given: real, prompt: Option<string>): (cost: real)
    ensures cost >= 0.0 && (given > 0.0 ==> cost == given)
  {
    if given <= 0.0 && prompt.Some? then EstimatedCost(p, PromptTokens(prompt.value)) else Max(0.0, given)
  }

  function Decide(l: Limits, current: real, estimate: real): Action {
    if !l.enabled then Allow
    else if l.hard > 0.0 && current + estimate >= l.hard then Fallback
    else if l.soft > 0.0 && current + estimate >= l.soft then Warn else Allow
  }

  class LLMBudgetManager {
    const limits: Limits
    var costByScope: map<nat, real>
    var events: seq<Usage>

    /** The stored costs are those of the events; a disabled manager stores nothing. */
    ghost predicate Valid()
      reads this
    {
      && (forall scope | scope in costByScope :: costByScope[scope] == Total(events, scope))
      && (forall scope | scope !in costByScope :: Total(events, scope) == 0.0)
      && (!limits.enabled ==> events == [])
    }

    constructor (limits: Limits)
      ensures Valid() && events == [] && this.limits == limits
    {
      this.limits := limits;
      costByScope, events := map[], [];
    }

    method CheckBudget(scope: nat, given: real, prompt: Option<string>) returns (action: Action)
      requires Valid()
      ensures action == Decide(limits, Total(events, scope), Estimate(limits.pricing, given, prompt))
    {
      if !limits.enabled {
        return Allow;
      }
      var estimate := Max(0.0, given);
      if estimate <= 0.0 && prompt.Some? {
        estimate := EstimatedCost(limits.pricing, PromptTokens(prompt.value));
      }
      var current := if scope in costByScope then costByScope[scope] else 0.0;
      var projected := current + estimate;
      if limits.hard > 0.0 && projected >= limits.hard {
        return Fallback;
      }
      action := if limits.soft > 0.0 && projected >= limits.soft then Warn else Allow;
    }

    method RecordUsage(scope: nat, provider: string, model: string, cost: real)
      requires Valid()
      modifies this
      ensures Valid()
      ensures events == if limits.enabled
                        then old(events) + [Usage(scope, OrUnknown(provider), OrUnknown(model), Max(0.0, cost))]
                        else old(events)
      ensures limits.enabled ==>
                && events[|events| - 1].provider == (if provider == "" then "unknown" else provider)
                && events[|events| - 1].model == (if model == "" then "unknown" else model)
                && events[|events| - 1].cost == (if cost < 0.0 then 0.0 else cost)
    {
      if !limits.enabled {
        return;
      }
      var usage := Usage(scope, OrUnknown(provider), OrUnknown(model), Max(0.0, cost));
      forall s: nat ensures Total(events + [usage], s) == Total(events, s) + if scope == s then usage.cost else 0.0 {
        TotalAppend(events, usage, s);
      }
      costByScope := costByScope[scope := (if scope in costByScope then costByScope[scope] else 0.0) + usage.cost];
      events := events + [usage];
    }

    method Summary(scope: nat) returns (current: real, byProvider: Group, byModel: Group)
      requires Valid()
      ensures current == Total(events, scope) == Sum(byProvider) == Sum(byModel)
      ensures forall p :: CostOf(byProvider, p) == TotalBy(events, scope, (e: Usage) => e.provider, p)
      ensures forall m :: CostOf(byModel, m) == TotalBy(events, scope, (e: Usage) => e.model, m)
    {
      current, byProvider, byModel := 0.0, [], [];
      if !limits.enabled {
        return;
      }
      current := if scope in costByScope then costByScope[scope] else 0.0;
      ghost var provider, model := (e: Usage) => e.provider, (e: Usage) => e.model;
      for i := 0 to |events|
        invariant byProvider == Grouped(events[..i], scope, provider) && byModel == Grouped(events[..i], scope, model)
      {
        assert events[..i + 1][..i] == events[..i];
        if events[i].scope == scope {
          byProvider := AddTo(byProvider, events[i].provider, events[i].cost);
          byModel := AddTo(byModel, events[i].model, events[i].cost);
        }
      }
      assert events[..|events|] == events;
      GroupedIs(events, scope, provider, "");
      GroupedIs(events, scope, model, "");
      forall v: string
        ensures CostOf(byProvider, v) == TotalBy(events, scope, provider, v)
        ensures CostOf(byModel, v) == TotalBy(events, scope, model, v)
      {
        GroupedIs(events, scope, provider, v);
        GroupedIs(events, scope, model, v);
      }
    }
  }

  // ---------- Calls in flight ----------

  /** A call checks the budget when it begins and records its cost when it ends, in whatever scope it
      is then; `inFlight` holds the scopes in which the running calls began. */
  datatype State = State(now: nat, events: seq<Usage>, inFlight: seq<nat>)

  datatype Event =
    | Begin(estimate: real)
    | End(i: nat, provider: string, model: string, cost: real)
    | Rollover(scope: nat)

  /** At most `n` calls run at a time. */
  function Apply(l: Limits, n: nat, s: State, e: Event): State {
    match e
    case Begin(estimate) =>
      if |s.inFlight| < n && Decide(l, Total(s.events, s.now), Max(0.0, estimate)) != Fallback
      then s.(inFlight := s.inFlight + [s.now]) else s
    case End(i, provider, model, cost) =>
      if i < |s.inFlight|
      then State(s.now, s.events + [Usage(s.now, OrUnknown(provider), OrUnknown(model), Max(0.0, cost))],
                 s.inFlight[..i] + s.inFlight[i + 1..])
      else s
    case Rollover(scope) => if scope > s.now then s.(now := scope) else s
  }

  function Execute(l: Limits, n: nat, es: seq<Event>): State {
    if es == [] then State(0, [], []) else Apply(l, n, Execute(l, n, es[..|es| - 1]), es[|es| - 1])
  }

  /** The running calls that began in `scope` or before. */
  function BegunBy(inFlight: seq<nat>, scope: nat): nat {
    if inFlight == [] then 0
    else BegunBy(inFlight[..|inFlight| - 1], scope) + if inFlight[|inFlight| - 1] <= scope then 1 else 0
  }

  lemma {:induction false} BegunByConcat(a: seq<nat>, b: seq<nat>, scope: nat)
    ensures BegunBy(a + b, scope) == BegunBy(a, scope) + BegunBy(b, scope)
  {
    if b == [] {
      assert a + b == a;
    } else {
      assert (a + b)[..|a + b| - 1] == a + b[..|b| - 1];
      BegunByConcat(a, b[..|b| - 1], scope);
    }
  }

  lemma BegunByOne(start: nat, scope: nat)
    ensures BegunBy([start], scope) == if start <= scope then 1 else 0
  {
    assert [start][..0] == [];
  }

  lemma Removed(inFlight: seq<nat>, i: nat, scope: nat)
    requires i < |inFlight|
    ensures BegunBy(inFlight, scope)
            == BegunBy(inFlight[..i] + inFlight[i + 1..], scope) + if inFlight[i] <= scope then 1 else 0
  {
    assert inFlight == inFlight[..i] + [inFlight[i]] + inFlight[i + 1..];
    BegunByConcat(inFlight[..i], inFlight[i + 1..], scope);
    BegunByConcat(inFlight[..i] + [inFlight[i]], inFlight[i + 1..], scope);
    BegunByConcat(inFlight[..i], [inFlight[i]], scope);
    BegunByOne(inFlight[i], scope);
  }

  lemma {:induction false} BegunByBound(inFlight: seq<nat>, scope: nat)
    ensures BegunBy(inFlight, scope) <= |inFlight|
  {
    if inFlight != [] {
      BegunByBound(inFlight[..|inFlight| - 1], scope);
    }
  }

  /** `k` times `c`. */
  function Times(k: nat, c: real): real {
    if k == 0 then 0.0 else Times(k - 1, c) + c
  }

  lemma {:induction false} TimesIs(k: nat, c: real)
    ensures Times(k, c) == k as real * c
  {
    if k > 0 {
      TimesIs(k - 1, c);
      assert k as real * c == (k - 1) as real * c + c;
    }
  }

  lemma {:induction false} TimesGrows(k: nat, m: nat, c: real)
    requires k <= m && c >= 0.0
    ensures 0.0 <= Times(k, c) <= Times(m, c)
  {
    if k > 0 {
      TimesGrows(k - 1, m - 1, c);
    } else if m > 0 {
      TimesGrows(0, m - 1, c);
    }
  }

  /** Each running call that may still record in a scope has its cost reserved there. */
  predicate Within(hard: real, n: nat, c: real, s: State, scope: nat) {
    BegunBy(s.inFlight, scope) <= n && Total(s.events, scope) < hard + Times(n - BegunBy(s.inFlight, scope), c)
  }

  ghost predicate Reserved(hard: real, n: nat, c: real, s: State) {
    && |s.inFlight| <= n
    && (forall i | 0 <= i < |s.inFlight| :: s.inFlight[i] <= s.now)
    && (forall scope | scope > s.now :: Total(s.events, scope) == 0.0)
    && (forall scope: nat :: Within(hard, n, c, s, scope))
  }

  lemma BeginKeepsReserved(l: Limits, n: nat, c: real, s: State, estimate: real)
    requires l.enabled && l.hard > 0.0 && c >= 0.0 && Reserved(l.hard, n, c, s)
    ensures Reserved(l.hard, n, c, Apply(l, n, s, Begin(estimate)))
  {
    var s' := Apply(l, n, s, Begin(estimate));
    if s' != s {
      forall scope: nat ensures Within(l.hard, n, c, s', scope) {
        assert Within(l.hard, n, c, s, scope);
        BegunByConcat(s.inFlight, [s.now], scope);
        BegunByOne(s.now, scope);
        BegunByBound(s'.inFlight, scope);
        TimesGrows(0, n - BegunBy(s'.inFlight, scope), c);
      }
    }
  }

  lemma EndKeepsWithin(hard: real, n: nat, c: real, s: State, i: nat, usage: Usage, s': State, scope: nat)
    requires c >= 0.0 && Within(hard, n, c, s, scope) && i < |s.inFlight|
    requires s.inFlight[i] <= s.now && usage.scope == s.now && usage.cost <= c
    requires s' == State(s.now, s.events + [usage], s.inFlight[..i] + s.inFlight[i + 1..])
    ensures Within(hard, n, c, s', scope) && (scope > s.now ==> Total(s'.events, scope) == Total(s.events, scope))
  {
    TotalAppend(s.events, usage, scope);
    Removed(s.inFlight, i, scope);
  }

  lemma EndKeepsReserved(hard: real, n: nat, c: real, s: State, i: nat, usage: Usage, s': State)
    requires c >= 0.0 && Reserved(hard, n, c, s) && i < |s.inFlight|
    requires usage.scope == s.now && usage.cost <= c
    requires s' == State(s.now, s.events + [usage], s.inFlight[..i] + s.inFlight[i + 1..])
    ensures Reserved(hard, n, c, s')
  {
    forall scope: nat
      ensures Within(hard, n, c, s', scope)
      ensures scope > s.now ==> Total(s'.events, scope) == 0.0
    {
      assert Within(hard, n, c, s, scope);
      EndKeepsWithin(hard, n, c, s, i, usage, s', scope);
    }
  }

  lemma {:induction false} EveryRunReserves(l: Limits, n: nat, c: real, es: seq<Event>)
    requires l.enabled && l.hard > 0.0 && c >= 0.0
    requires forall k | 0 <= k < |es| && es[k].End? :: es[k].cost <= c
    ensures Reserved(l.hard, n, c, Execute(l, n, es))
  {
    if es == [] {
      TimesGrows(0, n, c);
    } else {
      var s, e := Execute(l, n, es[..|es| - 1]), es[|es| - 1];
      EveryRunReserves(l, n, c, es[..|es| - 1]);
      match e
      case Begin(estimate) => BeginKeepsReserved(l, n, c, s, estimate);
      case End(i, provider, model, cost) =>
        if i < |s.inFlight| {
          var usage := Usage(s.now, OrUnknown(provider), OrUnknown(model), Max(0.0, cost));
          EndKeepsReserved(l.hard, n, c, s, i, usage, Apply(l, n, s, e));
        }
      case Rollover(scope) =>
        assert forall k: nat :: Within(l.hard, n, c, s, k) ==> Within(l.hard, n, c, Apply(l, n, s, e), k);
    }
  }

  lemma TotalWithinTimes(l: Limits, n: nat, c: real, es: seq<Event>, scope: nat)
    requires l.enabled && l.hard > 0.0 && c >= 0.0
    requires forall k | 0 <= k < |es| && es[k].End? :: es[k].cost <= c
    ensures Total(Execute(l, n, es).events, scope) < l.hard + Times(n, c)
  {
    var s := Execute(l, n, es);
    EveryRunReserves(l, n, c, es);
    assert Within(l.hard, n, c, s, scope);
    TimesGrows(n - BegunBy(s.inFlight, scope), n, c);
  }

  /** With at most `n` calls in flight, each of cost at most `c`, no scope's total reaches the hard
      limit plus `n * c`, even if calls begin in one scope and end in another. */
  lemma OvershootIsBounded(l: Limits, n: nat, c: real, es: seq<Event>, scope: nat)
    requires l.enabled && l.hard > 0.0 && c >= 0.0
    requires forall k | 0 <= k < |es| && es[k].End? :: es[k].cost <= c
    ensures Total(Execute(l, n, es).events, scope) < l.hard + n as real * c
  {
    TotalWithinTimes(l, n, c, es, scope);
    TimesIs(n, c);
  }

  // ---------- What is answered ----------

  /** About four characters a token, and one at least for any text. */
  lemma PromptTokensIs(text: string)
    ensures PromptTokens(text) == 0 <==> text == ""
    ensures |text| >= 4 ==> 4 * PromptTokens(text) <= |text| < 4 * PromptTokens(text) + 4
    ensures 0 < |text| < 4 ==> PromptTokens(text) == 1
  {
  }

  /** Prices below zero and counts below zero count as zero, and nothing is estimated if it is off. */
  lemma EstimatedCostIs(p: Pricing, tokens: nat, prompt: real, completion: real, count: nat)
    requires prompt == if p.prompt > 0.0 then p.prompt else 0.0
    requires completion == if p.completion > 0.0 then p.completion else 0.0
    requires count == if p.completionTokens > 0 then p.completionTokens else 0
    ensures 1000.0 * EstimatedCost(p, tokens) == if p.estimates then tokens as real * prompt + count as real * completion else 0.0
  {
    Thousandth(tokens as real, prompt);
    Thousandth(count as real, completion);
  }

  lemma Thousandth(n: real, price: real)
    ensures 1000.0 * (n / 1000.0 * price) == n * price
  {
    assert n == 1000.0 * (n / 1000.0);
  }

  /** A call is refused exactly if its estimate reaches a positive hard limit, and warned about exactly
      if it reaches a positive soft limit only. */
  lemma DecideIs(l: Limits, current: real, estimate: real)
    ensures Decide(l, current, estimate) == Fallback <==> l.enabled && 0.0 < l.hard <= current + estimate
    ensures Decide(l, current, estimate) == Warn <==>
      l.enabled && 0.0 < l.soft <= current + estimate && (l.hard <= 0.0 || current + estimate < l.hard)
    ensures Decide(l, current, estimate) == Allow <==>
      !l.enabled || ((l.hard <= 0.0 || current + estimate < l.hard) && (l.soft <= 0.0 || current + estimate < l.soft))
  {
  }

  function Severity(a: Action): nat {
    match a
    case Allow => 0
    case Warn => 1
    case Fallback => 2
  }

  lemma {:induction false} TotalGrows(l: Limits, n: nat, es: seq<Event>, more: seq<Event>, scope: nat)
    ensures Total(Execute(l, n, es).events, scope) <= Total(Execute(l, n, es + more).events, scope)
    decreases |more|
  {
    if more == [] {
      assert es + more == es;
    } else {
      var fewer := more[..|more| - 1];
      TotalGrows(l, n, es, fewer, scope);
      assert (es + more)[..|es + more| - 1] == es + fewer;
      var s := Execute(l, n, es + fewer);
      var e := (es + more)[|es + more| - 1];
      if e.End? && e.i < |s.inFlight| {
        TotalAppend(s.events, Usage(s.now, OrUnknown(e.provider), OrUnknown(e.model), Max(0.0, e.cost)), scope);
      }
    }
  }

  /** Within a scope the answer only gets stricter: what was refused once stays refused for every
      longer run and every larger estimate, and what was warned about is never simply allowed. */
  lemma AnswersTighten(l: Limits, n: nat, es: seq<Event>, more: seq<Event>, scope: nat, estimate: real, larger: real)
    requires estimate <= larger
    ensures Severity(Decide(l, Total(Execute(l, n, es).events, scope), estimate))
            <= Severity(Decide(l, Total(Execute(l, n, es + more).events, scope), larger))
  {
    TotalGrows(l, n, es, more, scope);
  }
}
