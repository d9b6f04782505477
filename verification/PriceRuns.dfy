/** Whole runs of the price worker: what no sequence of passes breaks, and when the stored
    default comes to rest. */
module PriceRuns {
  import opened Wrappers
  import opened CostSchedule
  import opened PriceWorker

  /** One pass of a run: its time, and the deployments whose update fails. */
  datatype Tick = Tick(now: Clock, fails: set<nat>)

  function Run(st: State, rules: Rules, ticks: seq<Tick>): State {
    if ticks == [] then st
    else
      var n := |ticks| - 1;
      Pass(Run(st, rules, ticks[..n]), rules, ticks[n].now, ticks[n].fails)
  }

  /** The worker can update it. */
  predicate Managed(d: Deployment) { d.id != "" && d.dbModel }

  predicate Watched(st: State, rules: Rules, d: Deployment) {
    Managed(d) && (d.name in rules || d.name in st.catalog)
  }

  predicate BothSet(p: Price) { p.input.Some? && p.output.Some? }

  /** Its model has a full default, and it is priced at the default or at one of the rules. */
  predicate Settled(st: State, rules: Rules, d: Deployment) {
    Watched(st, rules, d) ==>
      && d.name in st.catalog && BothSet(st.catalog[d.name])
      && (Pair(Live(d)) == Pair(st.catalog[d.name]) || IsRulePair(RulesOf(rules, d.name), Live(d)))
  }

  ghost predicate AllSettled(st: State, rules: Rules) {
    forall i | 0 <= i < |st.deployments| :: Settled(st, rules, st.deployments[i])
  }

  /** The price a deployment should have now. */
  function Wanted(st: State, rules: Rules, now: Clock, name: string): Price
    requires name in st.catalog
  {
    var active := PickRule(RulesOf(rules, name), now);
    if active.Some? then RulePrice(active.value) else st.catalog[name]
  }

  /** Input and output are the wanted ones, and so is the cache-read price if one is wanted. */
  predicate HasPrice(live: Price, wanted: Price) {
    Pair(live) == Pair(wanted) && (wanted.cacheRead.Some? ==> live.cacheRead == wanted.cacheRead)
  }

  lemma SettledNeverAdopts(st: State, rules: Rules, now: Clock, d: Deployment)
    requires Settled(st, rules, d)
    ensures !Act(st, rules, now, d).Adopt?
    ensures Watched(st, rules, d) && Act(st, rules, now, d).Push? ==>
              Act(st, rules, now, d).update == Wanted(st, rules, now, d.name)
    ensures Watched(st, rules, d) && Act(st, rules, now, d).Leave? ==>
              HasPrice(Live(d), Wanted(st, rules, now, d.name))
    ensures !Watched(st, rules, d) ==> Act(st, rules, now, d).Leave?
  {
  }

  lemma {:induction false} NothingAdopted(st: State, rules: Rules, now: Clock, model: string, n: nat)
    requires n <= |st.deployments|
    requires forall i | 0 <= i < n && st.deployments[i].name == model :: !Act(st, rules, now, st.deployments[i]).Adopt?
    ensures LastAdopted(st, rules, now, model, n).None?
  {
    if n > 0 { NothingAdopted(st, rules, now, model, n - 1); }
  }

  /** After a push that went through, the deployment has the wanted pair and wants nothing more. */
  lemma PushSettles(st: State, rules: Rules, now: Clock, d: Deployment)
    requires Watched(st, rules, d) && Settled(st, rules, d)
    ensures var after := d.(override := Merge(d.override, Wanted(st, rules, now, d.name)));
            && HasPrice(Live(after), Wanted(st, rules, now, d.name))
            && Settled(st, rules, after) && Act(st, rules, now, after).Leave?
  {
  }

  /** Any pass, whatever fails, keeps the invariant and leaves the catalog alone. */
  lemma PassKeeps(st: State, rules: Rules, now: Clock, fails: set<nat>)
    requires AllSettled(st, rules)
    ensures AllSettled(Pass(st, rules, now, fails), rules)
    ensures Pass(st, rules, now, fails).catalog == st.catalog
  {
    var next := Pass(st, rules, now, fails);
    forall i | 0 <= i < |st.deployments| ensures !Act(st, rules, now, st.deployments[i]).Adopt? {
      SettledNeverAdopts(st, rules, now, st.deployments[i]);
    }
    forall m | m in st.catalog ensures LastAdopted(st, rules, now, m, |st.deployments|).None? {
      NothingAdopted(st, rules, now, m, |st.deployments|);
    }
    forall i | 0 <= i < |next.deployments| ensures Settled(next, rules, next.deployments[i]) {
      var d := st.deployments[i];
      SettledNeverAdopts(st, rules, now, d);
      if Watched(st, rules, d) { PushSettles(st, rules, now, d); }
      assert Settled(st, rules, next.deployments[i]);
    }
  }

  /** Over every run of passes at any times with any failures: every deployment stays at the default
      or at a rule's price, and the stored default never moves. */
  lemma {:induction false} RunKeeps(st: State, rules: Rules, ticks: seq<Tick>)
    requires AllSettled(st, rules)
    ensures AllSettled(Run(st, rules, ticks), rules)
    ensures Run(st, rules, ticks).catalog == st.catalog
    ensures |Run(st, rules, ticks).deployments| == |st.deployments|
  {
    if ticks != [] {
      var n := |ticks| - 1;
      RunKeeps(st, rules, ticks[..n]);
      PassKeeps(Run(st, rules, ticks[..n]), rules, ticks[n].now, ticks[n].fails);
    }
  }

  /** A pass without failures that ends a run puts every deployment at the picked rule's price or the
      default, and the same pass again has nothing to do. */
  lemma CleanPassSettles(st: State, rules: Rules, ticks: seq<Tick>, now: Clock)
    requires AllSettled(st, rules)
    ensures var next := Pass(Run(st, rules, ticks), rules, now, {});
            && (forall i | 0 <= i < |next.deployments| && Watched(next, rules, next.deployments[i]) ::
                  next.deployments[i].name in st.catalog
                  && HasPrice(Live(next.deployments[i]), Wanted(st, rules, now, next.deployments[i].name)))
            && (forall i | 0 <= i < |next.deployments| :: Act(next, rules, now, next.deployments[i]).Leave?)
  {
    RunKeeps(st, rules, ticks);
    var mid := Run(st, rules, ticks);
    PassKeeps(mid, rules, now, {});
    var next := Pass(mid, rules, now, {});
    forall i | 0 <= i < |next.deployments|
      ensures Act(next, rules, now, next.deployments[i]).Leave?
      ensures Watched(next, rules, next.deployments[i]) ==>
                next.deployments[i].name in st.catalog
                && HasPrice(Live(next.deployments[i]), Wanted(st, rules, now, next.deployments[i].name))
    {
      var d := mid.deployments[i];
      SettledNeverAdopts(mid, rules, now, d);
      if Watched(mid, rules, d) { PushSettles(mid, rules, now, d); }
    }
  }

  // Outside the invariant: base prices set by hand

  /** A deployment of the model with a full live price that no rule explains. */
  predicate HandPriced(rules: Rules, model: string, d: Deployment) {
    Managed(d) && d.name == model && BothSet(Live(d)) && !IsRulePair(RulesOf(rules, model), Live(d))
  }

  predicate Idle(rules: Rules, model: string, now: Clock) { PickRule(RulesOf(rules, model), now).None? }

  predicate HasDefault(st: State, model: string) {
    model in st.catalog && (st.catalog[model].input.Some? || st.catalog[model].output.Some?)
  }

  lemma HandPricedActs(st: State, rules: Rules, now: Clock, d: Deployment)
    requires HasDefault(st, d.name) && HandPriced(rules, d.name, d) && Idle(rules, d.name, now)
    ensures Act(st, rules, now, d).Adopt? <==> Pair(Live(d)) != Pair(st.catalog[d.name])
    ensures Act(st, rules, now, d).Adopt? ==> Act(st, rules, now, d).price == Live(d)
    ensures Act(st, rules, now, d).Push? ==> Pair(Live(d)) == Pair(Act(st, rules, now, d).update)
  {
  }

  lemma HandPricedStays(st: State, rules: Rules, now: Clock, fails: set<nat>, i: nat)
    requires i < |st.deployments|
    requires var d := st.deployments[i];
             HasDefault(st, d.name) && HandPriced(rules, d.name, d) && Idle(rules, d.name, now)
    ensures var d, after := st.deployments[i], Pass(st, rules, now, fails).deployments[i];
            HandPriced(rules, d.name, after) && Pair(Live(after)) == Pair(Live(d))
  {
  }

  lemma {:induction false} AdoptedIsNew(st: State, rules: Rules, now: Clock, model: string, n: nat)
    requires n <= |st.deployments| && HasDefault(st, model)
    ensures var a := LastAdopted(st, rules, now, model, n);
            a.Some? ==>
              && BothSet(a.value) && Pair(a.value) != Pair(st.catalog[model])
              && exists i | 0 <= i < n :: st.deployments[i].name == model && Managed(st.deployments[i])
                   && Live(st.deployments[i]) == a.value
    ensures LastAdopted(st, rules, now, model, n).None? ==>
              forall i | 0 <= i < n && st.deployments[i].name == model :: !Act(st, rules, now, st.deployments[i]).Adopt?
  {
    if n > 0 { AdoptedIsNew(st, rules, now, model, n - 1); }
  }

  /** The two deployments' hand-set prices differ. */
  ghost predicate Disagree(st: State, rules: Rules, model: string, i: nat, j: nat) {
    && i < |st.deployments| && j < |st.deployments| && HasDefault(st, model)
    && HandPriced(rules, model, st.deployments[i]) && HandPriced(rules, model, st.deployments[j])
    && Pair(Live(st.deployments[i])) != Pair(Live(st.deployments[j]))
  }

  lemma DisagreementMovesDefault(st: State, rules: Rules, model: string, i: nat, j: nat, now: Clock, fails: set<nat>)
    requires Disagree(st, rules, model, i, j) && Idle(rules, model, now)
    ensures Disagree(Pass(st, rules, now, fails), rules, model, i, j)
    ensures Pair(Pass(st, rules, now, fails).catalog[model]) != Pair(st.catalog[model])
  {
    HandPricedStays(st, rules, now, fails, i);
    HandPricedStays(st, rules, now, fails, j);
    HandPricedActs(st, rules, now, st.deployments[i]);
    HandPricedActs(st, rules, now, st.deployments[j]);
    AdoptedIsNew(st, rules, now, model, |st.deployments|);
  }

  ghost predicate AllIdle(rules: Rules, model: string, ticks: seq<Tick>) {
    forall k | 0 <= k < |ticks| :: Idle(rules, model, ticks[k].now)
  }

  /** Two hand-set prices that differ keep the stored default moving: every idle pass of every
      idle run changes it, for ever. */
  lemma {:induction false} DisagreementNeverRests(st: State, rules: Rules, model: string, i: nat, j: nat, ticks: seq<Tick>)
    requires Disagree(st, rules, model, i, j) && AllIdle(rules, model, ticks)
    ensures Disagree(Run(st, rules, ticks), rules, model, i, j)
    ensures ticks != [] ==>
              HasDefault(Run(st, rules, ticks[..|ticks| - 1]), model)
              && Pair(Run(st, rules, ticks).catalog[model]) !=
                 Pair(Run(st, rules, ticks[..|ticks| - 1]).catalog[model])
  {
    if ticks != [] {
      var n := |ticks| - 1;
      DisagreementNeverRests(st, rules, model, i, j, ticks[..n]);
      DisagreementMovesDefault(Run(st, rules, ticks[..n]), rules, model, i, j, ticks[n].now, ticks[n].fails);
    }
  }

  ghost predicate AllHandPriced(st: State, rules: Rules, model: string) {
    HasDefault(st, model) &&
    forall i | 0 <= i < |st.deployments| && st.deployments[i].name == model && Managed(st.deployments[i]) ::
      HandPriced(rules, model, st.deployments[i])
  }

  ghost predicate Agree(st: State, model: string) {
    forall i, j | 0 <= i < |st.deployments| && 0 <= j < |st.deployments|
                  && st.deployments[i].name == model && st.deployments[j].name == model
                  && Managed(st.deployments[i]) && Managed(st.deployments[j]) ::
      Pair(Live(st.deployments[i])) == Pair(Live(st.deployments[j]))
  }

  lemma AgreedFollows(st: State, rules: Rules, model: string, now: Clock, fails: set<nat>, i: nat)
    requires AllHandPriced(st, rules, model) && Agree(st, model) && Idle(rules, model, now)
    requires i < |st.deployments| && st.deployments[i].name == model && Managed(st.deployments[i])
    ensures var next := Pass(st, rules, now, fails);
            HandPriced(rules, model, next.deployments[i])
            && Pair(Live(next.deployments[i])) == Pair(next.catalog[model])
  {
    HandPricedStays(st, rules, now, fails, i);
    HandPricedActs(st, rules, now, st.deployments[i]);
    AdoptedIsNew(st, rules, now, model, |st.deployments|);
    var adopted := LastAdopted(st, rules, now, model, |st.deployments|);
    if adopted.Some? {
      var j :| 0 <= j < |st.deployments| && st.deployments[j].name == model && Managed(st.deployments[j])
               && Live(st.deployments[j]) == adopted.value;
      assert Pair(Live(st.deployments[i])) == Pair(Live(st.deployments[j]));
    }
  }

  lemma AgreementAdopts(st: State, rules: Rules, model: string, now: Clock, fails: set<nat>)
    requires AllHandPriced(st, rules, model) && Agree(st, model) && Idle(rules, model, now)
    ensures var next := Pass(st, rules, now, fails);
            && AllHandPriced(next, rules, model)
            && (forall i | 0 <= i < |next.deployments| && next.deployments[i].name == model && Managed(next.deployments[i]) ::
                  Pair(Live(next.deployments[i])) == Pair(next.catalog[model]))
  {
    var next := Pass(st, rules, now, fails);
    forall i | 0 <= i < |st.deployments| && st.deployments[i].name == model && Managed(st.deployments[i])
      ensures HandPriced(rules, model, next.deployments[i])
      ensures Pair(Live(next.deployments[i])) == Pair(next.catalog[model])
    {
      AgreedFollows(st, rules, model, now, fails, i);
    }
    AdoptedIsNew(st, rules, now, model, |st.deployments|);
  }

  /** With no rule in force and every live price set by hand, the default is at rest after one
      pass exactly when the deployments of the model agree on the price. */
  lemma DefaultRestsIffAgreed(st: State, rules: Rules, model: string, a: Tick, b: Tick)
    requires AllHandPriced(st, rules, model) && Idle(rules, model, a.now) && Idle(rules, model, b.now)
    ensures var one := Run(st, rules, [a]);
            var two := Run(st, rules, [a, b]);
            model in one.catalog && model in two.catalog &&
            (Pair(two.catalog[model]) == Pair(one.catalog[model]) <==> Agree(st, model))
  {
    var one := Pass(st, rules, a.now, a.fails);
    assert [a, b][..1] == [a] && [a][..0] == [];
    assert Run(st, rules, [a]) == one;
    assert Run(st, rules, [a, b]) == Pass(one, rules, b.now, b.fails);
    if Agree(st, model) {
      AgreementAdopts(st, rules, model, a.now, a.fails);
      forall i | 0 <= i < |one.deployments| && one.deployments[i].name == model
        ensures !Act(one, rules, b.now, one.deployments[i]).Adopt?
      {
        if Managed(one.deployments[i]) { HandPricedActs(one, rules, b.now, one.deployments[i]); }
      }
      NothingAdopted(one, rules, b.now, model, |one.deployments|);
    } else {
      var i, j :| 0 <= i < |st.deployments| && 0 <= j < |st.deployments|
                  && st.deployments[i].name == model && st.deployments[j].name == model
                  && Managed(st.deployments[i]) && Managed(st.deployments[j])
                  && Pair(Live(st.deployments[i])) != Pair(Live(st.deployments[j]));
      DisagreementMovesDefault(st, rules, model, i, j, a.now, a.fails);
      DisagreementMovesDefault(one, rules, model, i, j, b.now, b.fails);
    }
  }

  // What a pass does to any deployment, settled or not

  /** A rule in force is applied, whatever the catalog holds. */
  lemma RuleApplied(st: State, rules: Rules, now: Clock, fails: set<nat>, i: nat)
    requires i < |st.deployments| && i !in fails && st.deployments[i].id != "" && st.deployments[i].dbModel
    requires st.deployments[i].name in rules && PickRule(rules[st.deployments[i].name], now).Some?
    ensures i < |Pass(st, rules, now, fails).deployments|
    ensures var rule := PickRule(rules[st.deployments[i].name], now).value;
            var live := Live(Pass(st, rules, now, fails).deployments[i]);
            && live.input == Some(rule.input) && live.output == Some(rule.output)
            && (rule.cacheRead.Some? ==> live.cacheRead == rule.cacheRead)
  {
  }

  predicate NoRule(rules: Rules, name: string, now: Clock) {
    name !in rules || PickRule(rules[name], now).None?
  }

  /** Nothing changes where the worker has no say: no rule and no default, a deployment outside LiteLLM's
      database, or a failed update. */
  lemma LeftAlone(st: State, rules: Rules, now: Clock, fails: set<nat>, i: nat)
    requires i < |st.deployments|
    requires var d := st.deployments[i];
             i in fails || d.id == "" || !d.dbModel || (NoRule(rules, d.name, now) && d.name !in st.catalog)
    ensures i < |Pass(st, rules, now, fails).deployments|
    ensures Pass(st, rules, now, fails).deployments[i] == st.deployments[i]
  {
  }

  /** A full live price that neither a rule of the model nor its default explains: set by hand, to be adopted. */
  predicate Unexplained(rules: Rules, name: string, live: Price, default: Price) {
    && live.input.Some? && live.output.Some? && (live.input != default.input || live.output != default.output)
    && (name in rules ==> forall k | 0 <= k < |rules[name]| ::
          Some(rules[name][k].input) != live.input || Some(rules[name][k].output) != live.output)
  }

  lemma ExplainedIff(rules: Rules, name: string, live: Price)
    requires live.input.Some? && live.output.Some?
    ensures IsRulePair(RulesOf(rules, name), live) <==>
            name in rules && exists k | 0 <= k < |rules[name]| ::
              Some(rules[name][k].input) == live.input && Some(rules[name][k].output) == live.output
  {
    var own := RulesOf(rules, name);
    if IsRulePair(own, live) {
      var k :| 0 <= k < |own| && Pair(RulePrice(own[k])) == Pair(live);
      assert own == rules[name];
    }
    if k :| name in rules && 0 <= k < |rules[name]|
            && Some(rules[name][k].input) == live.input && Some(rules[name][k].output) == live.output {
      assert Pair(RulePrice(own[k])) == Pair(live);
    }
  }

  /** Without a rule in force the default is restored, part by part where it has one; a price set by hand is left,
      and so is everything if the default has neither an input nor an output price. */
  lemma DefaultApplied(st: State, rules: Rules, now: Clock, fails: set<nat>, i: nat)
    requires i < |st.deployments| && i !in fails && st.deployments[i].id != "" && st.deployments[i].dbModel
    requires NoRule(rules, st.deployments[i].name, now) && st.deployments[i].name in st.catalog
    ensures i < |Pass(st, rules, now, fails).deployments|
    ensures var d, after := st.deployments[i], Pass(st, rules, now, fails).deployments[i];
            var default, was, live := st.catalog[d.name], Live(d), Live(after);
            if (default.input.None? && default.output.None?) || Unexplained(rules, d.name, was, default) then after == d
            else
              && live.input == (if default.input.Some? then default.input else was.input)
              && live.output == (if default.output.Some? then default.output else was.output)
              && live.cacheRead == (if default.cacheRead.Some? then default.cacheRead else was.cacheRead)
  {
    var d := st.deployments[i];
    if BothSet(Live(d)) { ExplainedIff(rules, d.name, Live(d)); }
  }

  /** The deployment's price is to become the default of its model. */
  predicate ToAdopt(st: State, rules: Rules, now: Clock, d: Deployment, model: string) {
    && d.name == model && d.id != "" && d.dbModel && NoRule(rules, model, now) && model in st.catalog
    && (st.catalog[model].input.Some? || st.catalog[model].output.Some?)
    && Unexplained(rules, model, Live(d), st.catalog[model])
  }

  lemma ToAdoptIff(st: State, rules: Rules, now: Clock, d: Deployment, model: string)
    requires model in st.catalog
    ensures d.name == model && Act(st, rules, now, d).Adopt? <==> ToAdopt(st, rules, now, d, model)
    ensures ToAdopt(st, rules, now, d, model) ==> Act(st, rules, now, d).price == Live(d)
  {
    if BothSet(Live(d)) { ExplainedIff(rules, model, Live(d)); }
  }

  /** `i` is the last of the first `n` deployments whose price is to be adopted. */
  ghost predicate LastToAdopt(st: State, rules: Rules, now: Clock, model: string, n: nat, i: nat)
    requires n <= |st.deployments|
  {
    i < n && ToAdopt(st, rules, now, st.deployments[i], model)
    && forall j | i < j < n :: !ToAdopt(st, rules, now, st.deployments[j], model)
  }

  lemma LastAdoptedStep(st: State, rules: Rules, now: Clock, model: string, n: nat)
    requires 0 < n <= |st.deployments| && model in st.catalog
    ensures LastAdopted(st, rules, now, model, n) ==
            if ToAdopt(st, rules, now, st.deployments[n - 1], model) then Some(Live(st.deployments[n - 1]))
            else LastAdopted(st, rules, now, model, n - 1)
  {
    ToAdoptIff(st, rules, now, st.deployments[n - 1], model);
  }

  lemma {:induction false} LastAdoptedIs(st: State, rules: Rules, now: Clock, model: string, n: nat)
    requires n <= |st.deployments| && model in st.catalog
    ensures LastAdopted(st, rules, now, model, n).None? <==>
            forall i: nat | i < n :: !ToAdopt(st, rules, now, st.deployments[i], model)
    ensures forall i: nat | LastToAdopt(st, rules, now, model, n, i) ::
              LastAdopted(st, rules, now, model, n) == Some(Live(st.deployments[i]))
  {
    if n > 0 {
      LastAdoptedStep(st, rules, now, model, n);
      LastAdoptedIs(st, rules, now, model, n - 1);
      forall i: nat | LastToAdopt(st, rules, now, model, n, i)
        ensures LastAdopted(st, rules, now, model, n) == Some(Live(st.deployments[i]))
      {
        if i < n - 1 { assert LastToAdopt(st, rules, now, model, n - 1, i); }
      }
    }
  }

  /** The stored default changes exactly if some price is to be adopted, and then to the last such one. */
  lemma CatalogAfter(st: State, rules: Rules, now: Clock, fails: set<nat>, model: string)
    ensures model in Pass(st, rules, now, fails).catalog <==> model in st.catalog
    ensures model in st.catalog ==>
              var was, next := st.catalog[model], Pass(st, rules, now, fails).catalog[model];
              && ((forall i: nat | i < |st.deployments| :: !ToAdopt(st, rules, now, st.deployments[i], model)) ==>
                    next == was)
              && (forall i: nat | LastToAdopt(st, rules, now, model, |st.deployments|, i) ::
                    var live := Live(st.deployments[i]);
                    && next.input == live.input && next.output == live.output
                    && next.cacheRead == if live.cacheRead.Some? then live.cacheRead else was.cacheRead)
  {
    if model in st.catalog { LastAdoptedIs(st, rules, now, model, |st.deployments|); }
  }

  /** A run can be cut anywhere: its second part goes on where the first one ended; and one event is one step. */
  lemma {:induction false} RunGoesOn(st: State, rules: Rules, a: seq<Tick>, b: seq<Tick>, e: Tick)
    ensures Run(st, rules, a + b) == Run(Run(st, rules, a), rules, b)
    ensures Run(st, rules, [e]) == Pass(st, rules, e.now, e.fails)
  {
    assert [e][..0] == [];
    if b == [] {
      assert a + b == a;
    } else {
      RunGoesOn(st, rules, a, b[..|b| - 1], e);
      assert (a + b)[..|a + b| - 1] == a + b[..|b| - 1];
    }
  }
}
