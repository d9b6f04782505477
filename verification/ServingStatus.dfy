/** Coarse status of one K8s Deployment, and of a prefill/decode pair. */
module ServingStatus {
  import opened Wrappers

  datatype Status = Pending | Updating | Ready | Unhealthy | Failed | Stopped | Missing

  datatype Condition = Condition(kind: string, status: string, reason: string)

  datatype Observed = Observed(
    ready: int, available: int, conditions: seq<Condition>,
    updated: Option<int>, total: Option<int>, generation: Option<int>, observedGeneration: Option<int>)

  predicate AnyDeadline(cs: seq<Condition>) {
    cs != [] && (cs[0] == Condition("Progressing", "False", "ProgressDeadlineExceeded") || AnyDeadline(cs[1..]))
  }

  predicate AnyReplicaFailure(cs: seq<Condition>) {
    cs != [] && ((cs[0].kind == "ReplicaFailure" && cs[0].status == "True") || AnyReplicaFailure(cs[1..]))
  }

  predicate DeadlineExceeded(o: Observed) { AnyDeadline(o.conditions) }

  predicate ReplicaFailure(o: Observed) { AnyReplicaFailure(o.conditions) }

  function Classify(o: Observed, desired: int): Status {
    if DeadlineExceeded(o) then Failed
    else if ReplicaFailure(o) then Unhealthy
    else if desired == 0 then Stopped
    else if o.generation.Some? && o.observedGeneration.Some? && o.observedGeneration.value < o.generation.value then
      Updating
    else if o.updated.Some? && o.updated.value < desired then Updating
    else if o.updated.Some? && o.total.Some? && o.total.value > o.updated.value then Updating
    else if o.ready >= desired && o.available >= desired then Ready
    else if o.ready == 0 then Pending
    else Updating
  }

  /** None stands for a role whose Deployment is not in the cluster. */
  function DerivePd(prefill: Option<Status>, decode: Option<Status>): Status {
    if prefill.None? || decode.None? then Unhealthy
    else
      var p, d := prefill.value, decode.value;
      if p.Failed? || d.Failed? then Failed
      else if p.Unhealthy? || d.Unhealthy? then Unhealthy
      else if p.Ready? && d.Ready? then Ready
      else if (p.Ready? || p.Updating?) && (d.Ready? || d.Updating?) then Updating
      else if p.Stopped? && d.Stopped? then Stopped
      else Pending
  }

  /** All pods of the wanted generation are up, and none of an older one is left. */
  predicate Serving(o: Observed, desired: int) {
    && !DeadlineExceeded(o) && !ReplicaFailure(o) && desired != 0
    && o.ready >= desired && o.available >= desired
    && !(o.generation.Some? && o.observedGeneration.Some? && o.observedGeneration.value < o.generation.value)
    && (o.updated.Some? ==> o.updated.value >= desired && (o.total.Some? ==> o.total.value <= o.updated.value))
  }

  /** The worse of the two pools decides; Ready is said of a pair only when both pools serve. */
  lemma PdReadyIffBothServe(prefill: Option<Observed>, decode: Option<Observed>, p: int, d: int)
    ensures DerivePd(if prefill.Some? then Some(Classify(prefill.value, p)) else None,
                     if decode.Some? then Some(Classify(decode.value, d)) else None) == Ready
            <==> prefill.Some? && decode.Some? && Serving(prefill.value, p) && Serving(decode.value, d)
  {
  }

  lemma {:induction false} AnyDeadlineIff(cs: seq<Condition>)
    ensures AnyDeadline(cs) <==>
            exists i | 0 <= i < |cs| :: cs[i].kind == "Progressing" && cs[i].status == "False"
                                        && cs[i].reason == "ProgressDeadlineExceeded"
  {
    if cs != [] {
      AnyDeadlineIff(cs[1..]);
      if i :| 0 <= i < |cs| && cs[i] == Condition("Progressing", "False", "ProgressDeadlineExceeded") {
        assert i > 0 ==> cs[1..][i - 1] == cs[i];
      }
    }
  }

  lemma {:induction false} AnyReplicaFailureIff(cs: seq<Condition>)
    ensures AnyReplicaFailure(cs) <==> exists i | 0 <= i < |cs| :: cs[i].kind == "ReplicaFailure" && cs[i].status == "True"
  {
    if cs != [] {
      AnyReplicaFailureIff(cs[1..]);
      if i :| 0 <= i < |cs| && cs[i].kind == "ReplicaFailure" && cs[i].status == "True" {
        assert i > 0 ==> cs[1..][i - 1] == cs[i];
      }
    }
  }

  /** A newer generation or replica set is still rolling out. */
  predicate RollingOut(o: Observed, desired: int) {
    || (o.generation.Some? && o.observedGeneration.Some? && o.observedGeneration.value < o.generation.value)
    || (o.updated.Some? && (o.updated.value < desired || (o.total.Some? && o.total.value > o.updated.value)))
  }

  /** Every status, and exactly when it is given. */
  lemma ClassifyIs(o: Observed, desired: int)
    ensures var s, stuck, broken := Classify(o, desired), DeadlineExceeded(o), ReplicaFailure(o);
            var up := !stuck && !broken && desired != 0;
            && (s == Failed <==> stuck) && (s == Unhealthy <==> !stuck && broken)
            && (s == Stopped <==> !stuck && !broken && desired == 0)
            && (s == Ready <==> Serving(o, desired))
            && (s == Pending <==> up && !RollingOut(o, desired) && o.ready == 0 && !Serving(o, desired))
            && (s == Updating <==>
                  up && (RollingOut(o, desired) || (o.ready != 0 && (o.ready < desired || o.available < desired))))
            && s != Missing
  {
  }

  predicate Moving(s: Status) { s == Ready || s == Updating }

  /** The status of a pair, from those of its pools. */
  lemma DerivePdIs(p: Status, d: Status)
    ensures var s := DerivePd(Some(p), Some(d));
            && (s == Failed <==> p == Failed || d == Failed)
            && (s == Unhealthy <==> p != Failed && d != Failed && (p == Unhealthy || d == Unhealthy))
            && (s == Ready <==> p == Ready && d == Ready)
            && (s == Updating <==> Moving(p) && Moving(d) && !(p == Ready && d == Ready))
            && (s == Stopped <==> p == Stopped && d == Stopped)
            && s != Missing
    ensures DerivePd(None, Some(d)) == DerivePd(Some(p), None) == DerivePd(None, None) == Unhealthy
  {
  }
}
