/** The worker's pass over LiteLLM's deployments, and what every run of passes keeps. */
module PriceWorker {
  import opened Wrappers
  import opened CostSchedule

  datatype Price = Price(input: Option<real>, output: Option<real>, cacheRead: Option<real>)

  /** A LiteLLM deployment: the override layer the worker owns and the base price beneath it. */
  datatype Deployment = Deployment(name: string, id: string, dbModel: bool, override: Price, base: Price)

  type Rules = map<string, seq<Rule>>
  type Catalog = map<string, Price>

  function Or<T>(a: Option<T>, b: Option<T>): Option<T> { if a.Some? then a else b }

  /** LiteLLM's update: a null cost leaves the stored one unchanged. */
  function Merge(p: Price, update: Price): Price {
    Price(Or(update.input, p.input), Or(update.output, p.output), Or(update.cacheRead, p.cacheRead))
  }

  function Live(d: Deployment): Price { Merge(d.base, d.override) }

  function Pair(p: Price): (Option<real>, Option<real>) { (p.input, p.output) }

  function RulePrice(r: Rule): Price { Price(Some(r.input), Some(r.output), r.cacheRead) }

  predicate IsRulePair(rules: seq<Rule>, p: Price) {
    exists i | 0 <= i < |rules| :: Pair(RulePrice(rules[i])) == Pair(p)
  }

  // One deployment

  datatype Action = Leave | Adopt(price: Price) | Push(update: Price)

  function Decide(rules: seq<Rule>, active: Option<Rule>, stored: Option<Price>, d: Deployment): Action {
    if active.None? && stored.None? then Leave
    else if d.id == "" || !d.dbModel then Leave
    else
      var target := if active.Some? then RulePrice(active.value) else stored.value;
      var live := Live(d);
      if target.input.None? && target.output.None? then Leave
      else if active.None? && live.input.Some? && live.output.Some?
              && !IsRulePair(rules, live) && Pair(live) != Pair(stored.value) then Adopt(live)
      else if Pair(live) == Pair(target) && (target.cacheRead.None? || live.cacheRead == target.cacheRead) then Leave
      else Push(target)
  }

  datatype State = State(catalog: Catalog, deployments: seq<Deployment>)

  function RulesOf(rules: Rules, name: string): seq<Rule> { if name in rules then rules[name] else [] }

  function StoredOf(catalog: Catalog, name: string): Option<Price> {
    if name in catalog then Some(catalog[name]) else None
  }

  function Act(st: State, rules: Rules, now: Clock, d: Deployment): Action {
    var own := RulesOf(rules, d.name);
    Decide(own, PickRule(own, now), StoredOf(st.catalog, d.name), d)
  }

  function After(st: State, rules: Rules, now: Clock, fails: set<nat>, i: nat): Deployment
    requires i < |st.deployments|
  {
    var d := st.deployments[i];
    var act := Act(st, rules, now, d);
    if act.Push? && i !in fails then d.(override := Merge(d.override, act.update)) else d
  }

  // One pass

  /** The last base price of a model that its first `n` deployments want adopted. */
  function LastAdopted(st: State, rules: Rules, now: Clock, model: string, n: nat): Option<Price>
    requires n <= |st.deployments|
  {
    if n == 0 then None
    else
      var d := st.deployments[n - 1];
      if d.name == model && Act(st, rules, now, d).Adopt? then Some(Act(st, rules, now, d).price)
      else LastAdopted(st, rules, now, model, n - 1)
  }

  function Refreshed(stored: Price, adopted: Option<Price>): Price {
    if adopted.None? then stored
    else Price(adopted.value.input, adopted.value.output, Or(adopted.value.cacheRead, stored.cacheRead))
  }

  function Pass(st: State, rules: Rules, now: Clock, fails: set<nat>): State {
    State(map m | m in st.catalog :: Refreshed(st.catalog[m], LastAdopted(st, rules, now, m, |st.deployments|)),
          seq(|st.deployments|, i requires 0 <= i < |st.deployments| => After(st, rules, now, fails, i)))
  }

  class Worker {
    var catalog: Catalog
    var deployments: seq<Deployment>
    const rules: Rules

    function Snapshot(): State
      reads this
    {
      State(catalog, deployments)
    }

    constructor (rules: Rules, catalog: Catalog, deployments: seq<Deployment>)
      ensures this.rules == rules && Snapshot() == State(catalog, deployments)
    {
      this.rules, this.catalog, this.deployments := rules, catalog, deployments;
    }

    /** Model by model, deployment by deployment; `fails` are the deployments whose update LiteLLM refuses. */
    method ApplyCostSchedule(now: Clock, fails: set<nat>)
      modifies this
      ensures Snapshot() == Pass(old(Snapshot()), rules, now, fails)
    {
      ghost var st := Snapshot();
      var models := rules.Keys + catalog.Keys;
      ghost var all := models;
      var defaults: Catalog := map[];
      while models != {}
        invariant models <= all && catalog == st.catalog && |deployments| == |st.deployments|
        invariant forall i | 0 <= i < |deployments| ::
            deployments[i] == if st.deployments[i].name in all - models then After(st, rules, now, fails, i)
                              else st.deployments[i]
        invariant forall m :: m in defaults <==>
            m in all - models && LastAdopted(st, rules, now, m, |st.deployments|).Some?
        invariant forall m | m in defaults ::
            LastAdopted(st, rules, now, m, |st.deployments|) == Some(defaults[m])
      {
        var model :| model in models;
        ghost var done := all - models;
        models := models - {model};
        var adopted := ApplyToModel(model, now, fails, st, done);
        if adopted.Some? {
          defaults := defaults[model := adopted.value];
        }
        assert all - models == done + {model};
      }
      assert forall i | 0 <= i < |deployments| :: deployments[i] == After(st, rules, now, fails, i) by {
        assert forall i | 0 <= i < |deployments| && st.deployments[i].name !in all ::
            Act(st, rules, now, st.deployments[i]).Leave?;
      }
      catalog := map m | m in catalog ::
        if m in defaults then Refreshed(catalog[m], Some(defaults[m])) else catalog[m];
    }

    method ApplyToModel(model: string, now: Clock, fails: set<nat>, ghost st: State, ghost done: set<string>)
      returns (adopted: Option<Price>)
      requires catalog == st.catalog && |deployments| == |st.deployments| && model !in done
      requires forall i | 0 <= i < |deployments| ::
                 deployments[i] == if st.deployments[i].name in done then After(st, rules, now, fails, i)
                                   else st.deployments[i]
      modifies this`deployments
      ensures |deployments| == |st.deployments|
      ensures forall i | 0 <= i < |deployments| ::
                deployments[i] == if st.deployments[i].name in done + {model} then After(st, rules, now, fails, i)
                                  else st.deployments[i]
      ensures adopted == LastAdopted(st, rules, now, model, |st.deployments|)
    {
      var own := RulesOf(rules, model);
      var active := PickRule(own, now);
      var stored := StoredOf(catalog, model);
      adopted := None;
      for i := 0 to |deployments|
        invariant |deployments| == |st.deployments|
        invariant forall k | 0 <= k < |deployments| ::
            deployments[k] == if st.deployments[k].name in done || (k < i && st.deployments[k].name == model)
                              then After(st, rules, now, fails, k) else st.deployments[k]
        invariant adopted == LastAdopted(st, rules, now, model, i)
      {
        var d := deployments[i];
        if d.name == model {
          assert d == st.deployments[i];
          var act := Decide(own, active, stored, d);
          if act.Adopt? {
            adopted := Some(act.price);
          } else if act.Push? && i !in fails {
            deployments := deployments[i := d.(override := Merge(d.override, act.update))];
          }
        }
      }
    }
  }
}
