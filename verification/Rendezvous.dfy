/** Capacity-weighted rendezvous hashing: which deployment a prefix key is pinned to, and how
    little that changes when deployments come, go, fill up or grow. */
module Rendezvous {
  import opened Wrappers

  /** A JSON number, or something that is not one. */
  datatype Num = Absent | Whole(n: int) | Fraction(x: real)

  datatype Deployment = Deployment(
    id: Option<string>, provider: Option<string>, affinityWeight: Num, rpm: Num, tpm: Num)

  predicate Positive(v: Num) { (v.Whole? && v.n > 0) || (v.Fraction? && v.x > 0.0) }

  function ToReal(v: Num): real { if v.Whole? then v.n as real else if v.Fraction? then v.x else 0.0 }

  function Weight(d: Deployment): (w: real)
    ensures w > 0.0
  {
    if Positive(d.affinityWeight) then ToReal(d.affinityWeight)
    else if Positive(d.rpm) then ToReal(d.rpm)
    else if Positive(d.tpm) then ToReal(d.tpm)
    else 1.0
  }

  /** `draw(key, id)` is the hash of the pair as a number strictly between 0 and 1. */
  datatype Hashing = Hashing(draw: (string, string) -> real, ln: real -> real)

  ghost predicate Sound(h: Hashing) {
    && (forall key, id :: 0.0 < h.draw(key, id) < 1.0)
    && (forall x :: 0.0 < x < 1.0 ==> h.ln(x) < 0.0)
    && (forall x, y :: 0.0 < x < y < 1.0 ==> h.ln(x) < h.ln(y))
  }

  function Draw(h: Hashing, key: string, d: Deployment): real
    requires d.id.Some?
  {
    h.draw(key, d.id.value)
  }

  function Score(h: Hashing, key: string, d: Deployment): real
    requires Sound(h) && d.id.Some?
  {
    -Weight(d) / h.ln(Draw(h, key, d))
  }

  /** Index of the pick: the first highest score among the deployments with an id. */
  function Pick(h: Hashing, key: string, ds: seq<Deployment>): (r: Option<nat>)
    requires Sound(h)
    ensures r.Some? ==> r.value < |ds| && ds[r.value].id.Some?
  {
    if ds == [] then None
    else
      var n := |ds| - 1;
      var best := Pick(h, key, ds[..n]);
      if ds[n].id.None? then best
      else if best.None? || Score(h, key, ds[n]) > Score(h, key, ds[best.value]) then Some(n)
      else best
  }

  method SelectDeployment(h: Hashing, key: string, ds: seq<Deployment>) returns (best: Option<Deployment>)
    requires Sound(h)
    ensures best == if Pick(h, key, ds).None? then None else Some(ds[Pick(h, key, ds).value])
  {
    best := None;
    var bestScore: Option<real> := None;
    for i := 0 to |ds|
      invariant var p := Pick(h, key, ds[..i]);
                best == (if p.None? then None else Some(ds[p.value]))
                && bestScore == (if p.None? then None else Some(Score(h, key, ds[p.value])))
    {
      assert ds[..i + 1][..i] == ds[..i];
      var d := ds[i];
      if d.id.None? {
        continue;
      }
      var score := Score(h, key, d);
      if bestScore.None? || score > bestScore.value {
        best, bestScore := Some(d), Some(score);
      }
    }
    assert ds[..|ds|] == ds;
  }

  // Picks among some of the deployments

  /** Among the deployments at the indices in `among`, `i` has the highest score, and is the first that has it. */
  ghost predicate Wins(h: Hashing, key: string, ds: seq<Deployment>, among: set<nat>, i: nat)
    requires Sound(h)
  {
    && i in among && i < |ds| && ds[i].id.Some?
    && forall j | j in among && j < |ds| && ds[j].id.Some? ::
         Score(h, key, ds[j]) <= Score(h, key, ds[i])
         && (j < i ==> Score(h, key, ds[j]) < Score(h, key, ds[i]))
  }

  /** Part of a list, in order: the deployments at an ascending list of indices. */
  ghost predicate Indices(ks: seq<nat>, n: nat) {
    && (forall p | 0 <= p < |ks| :: ks[p] < n)
    && (forall p, q | 0 <= p < q < |ks| :: ks[p] < ks[q])
  }

  ghost function Part(ds: seq<Deployment>, ks: seq<nat>): seq<Deployment>
    requires Indices(ks, |ds|)
  {
    seq(|ks|, p requires 0 <= p < |ks| => ds[ks[p]])
  }

  ghost function Members(ks: seq<nat>): set<nat> { set k | k in ks }

  ghost predicate AllBelow(among: set<nat>, k: nat) { forall j | j in among :: j < k }

  /** One more index, after all others: the winner stays, or the newcomer wins. */
  lemma WinsGrows(h: Hashing, key: string, ds: seq<Deployment>, among: set<nat>, i: nat, k: nat)
    requires Sound(h) && Wins(h, key, ds, among, i) && k < |ds| && AllBelow(among, k)
    ensures if ds[k].id.None? || Score(h, key, ds[k]) <= Score(h, key, ds[i]) then Wins(h, key, ds, among + {k}, i)
            else Wins(h, key, ds, among + {k}, k)
  {
  }

  lemma FirstWins(h: Hashing, key: string, ds: seq<Deployment>, among: set<nat>, k: nat)
    requires Sound(h) && k < |ds| && ds[k].id.Some? && AllBelow(among, k) && forall j | j in among :: ds[j].id.None?
    ensures Wins(h, key, ds, among + {k}, k)
  {
  }

  lemma PartSnoc(ds: seq<Deployment>, ks: seq<nat>)
    requires Indices(ks, |ds|) && ks != []
    ensures Part(ds, ks) == Part(ds, ks[..|ks| - 1]) + [ds[ks[|ks| - 1]]]
    ensures Members(ks) == Members(ks[..|ks| - 1]) + {ks[|ks| - 1]}
    ensures AllBelow(Members(ks[..|ks| - 1]), ks[|ks| - 1])
  {
    assert ks == ks[..|ks| - 1] + [ks[|ks| - 1]];
  }

  lemma {:induction false} PickOfPart(h: Hashing, key: string, ds: seq<Deployment>, ks: seq<nat>)
    requires Sound(h) && Indices(ks, |ds|)
    ensures var p := Pick(h, key, Part(ds, ks));
            if p.Some? then Wins(h, key, ds, Members(ks), ks[p.value])
            else forall j | j in Members(ks) :: ds[j].id.None?
  {
    if ks != [] {
      var n := |ks| - 1;
      var front, k := ks[..n], ks[n];
      PickOfPart(h, key, ds, front);
      PartSnoc(ds, ks);
      assert Part(ds, ks)[..n] == Part(ds, front) && Part(ds, ks)[n] == ds[k];
      var best := Pick(h, key, Part(ds, front));
      if best.Some? {
        WinsGrows(h, key, ds, Members(front), front[best.value], k);
      } else if ds[k].id.Some? {
        FirstWins(h, key, ds, Members(front), k);
      }
    }
  }

  lemma WinnerIsPicked(h: Hashing, key: string, ds: seq<Deployment>, ks: seq<nat>, i: nat)
    requires Sound(h) && Indices(ks, |ds|) && Wins(h, key, ds, Members(ks), i)
    ensures var p := Pick(h, key, Part(ds, ks));
            p.Some? && ks[p.value] == i && Part(ds, ks)[p.value] == ds[i]
  {
    PickOfPart(h, key, ds, ks);
    var p := Pick(h, key, Part(ds, ks));
    assert p.Some? ==> ks[p.value] in Members(ks);
  }

  /** Dropping deployments moves a key only if its own pick was dropped, ties included. */
  lemma DropMovesOnlyItsKeys(h: Hashing, key: string, ds: seq<Deployment>, before: seq<nat>, after: seq<nat>)
    requires Sound(h) && Indices(before, |ds|) && Indices(after, |ds|) && Members(after) <= Members(before)
    ensures var p, q := Pick(h, key, Part(ds, before)), Pick(h, key, Part(ds, after));
            && (p.None? ==> q.None?)
            && (p.Some? && before[p.value] in Members(after) ==>
                  q.Some? && after[q.value] == before[p.value]
                  && Part(ds, after)[q.value] == Part(ds, before)[p.value])
  {
    PickOfPart(h, key, ds, before);
    PickOfPart(h, key, ds, after);
    var p := Pick(h, key, Part(ds, before));
    if p.Some? && before[p.value] in Members(after) {
      assert Wins(h, key, ds, Members(after), before[p.value]);
      WinnerIsPicked(h, key, ds, after, before[p.value]);
    }
  }

  /** Adding one deployment moves a key to it or nowhere. */
  lemma AddMovesOnlyToIt(h: Hashing, key: string, ds: seq<Deployment>, before: seq<nat>, after: seq<nat>, added: nat)
    requires Sound(h) && Indices(before, |ds|) && Indices(after, |ds|)
    requires Members(after) == Members(before) + {added}
    ensures var p, q := Pick(h, key, Part(ds, before)), Pick(h, key, Part(ds, after));
            q.Some? && after[q.value] != added ==>
              p.Some? && Part(ds, before)[p.value] == Part(ds, after)[q.value]
  {
    var q := Pick(h, key, Part(ds, after));
    if q.Some? && after[q.value] != added {
      assert after[q.value] in Members(after);
      DropMovesOnlyItsKeys(h, key, ds, after, before);
    }
  }

  ghost function All(n: nat): seq<nat> { seq(n, i requires 0 <= i < n => i) }

  lemma WholePart(ds: seq<Deployment>)
    ensures Indices(All(|ds|), |ds|) && Part(ds, All(|ds|)) == ds
    ensures forall i: nat :: i in Members(All(|ds|)) <==> i < |ds|
  {
    forall i: nat | i < |ds| ensures i in Members(All(|ds|)) {
      assert All(|ds|)[i] == i;
    }
  }

  /** `i` has the first highest score of the whole list. */
  ghost predicate WinsAll(h: Hashing, key: string, ds: seq<Deployment>, i: nat)
    requires Sound(h)
  {
    && i < |ds| && ds[i].id.Some?
    && forall j: nat | j < |ds| && ds[j].id.Some? ::
         Score(h, key, ds[j]) <= Score(h, key, ds[i])
         && (j < i ==> Score(h, key, ds[j]) < Score(h, key, ds[i]))
  }

  lemma PickWins(h: Hashing, key: string, ds: seq<Deployment>, i: nat)
    requires Sound(h)
    ensures Pick(h, key, ds) == Some(i) <==> WinsAll(h, key, ds, i)
    ensures Pick(h, key, ds).None? <==> forall j: nat | j < |ds| :: ds[j].id.None?
  {
    WholePart(ds);
    PickOfPart(h, key, ds, All(|ds|));
    if WinsAll(h, key, ds, i) {
      assert Wins(h, key, ds, Members(All(|ds|)), i);
      WinnerIsPicked(h, key, ds, All(|ds|), i);
    }
  }

  // Weights

  lemma ScoreOrder(w: real, l: real, m: real)
    requires w > 0.0 && l < 0.0 && m < 0.0
    ensures -w / l < -w / m <==> l < m
  {
  }

  lemma ScoreGrows(w: real, v: real, l: real)
    requires 0.0 < w <= v && l < 0.0
    ensures -w / l <= -v / l
  {
  }

  /** Plain rendezvous: the first highest draw. */
  function PlainPick(h: Hashing, key: string, ds: seq<Deployment>): (r: Option<nat>)
    ensures r.Some? ==> r.value < |ds| && ds[r.value].id.Some?
  {
    if ds == [] then None
    else
      var n := |ds| - 1;
      var best := PlainPick(h, key, ds[..n]);
      if ds[n].id.None? then best
      else if best.None? || Draw(h, key, ds[n]) > Draw(h, key, ds[best.value]) then Some(n)
      else best
  }

  /** Equal weights pick what plain highest-hash rendezvous picks. */
  lemma {:induction false} EqualWeightsArePlain(h: Hashing, key: string, ds: seq<Deployment>, w: real)
    requires Sound(h)
    requires forall i | 0 <= i < |ds| :: Weight(ds[i]) == w
    ensures Pick(h, key, ds) == PlainPick(h, key, ds)
  {
    if ds != [] {
      var n := |ds| - 1;
      EqualWeightsArePlain(h, key, ds[..n], w);
      var best := Pick(h, key, ds[..n]);
      if ds[n].id.Some? && best.Some? {
        var d, b := ds[n], ds[best.value];
        assert Weight(d) == w && Weight(b) == w;
        ScoreOrder(w, h.ln(Draw(h, key, b)), h.ln(Draw(h, key, d)));
      }
    }
  }

  /** Raising one deployment's weight never takes a key from it, and moves keys only to it. */
  lemma RaisedWeightOnlyAttracts(h: Hashing, key: string, ds: seq<Deployment>, j: nat, raised: Deployment)
    requires Sound(h) && j < |ds|
    requires raised.id == ds[j].id && Weight(raised) >= Weight(ds[j])
    ensures var p, q := Pick(h, key, ds), Pick(h, key, ds[j := raised]);
            && (p == Some(j) ==> q == Some(j))
            && (q != Some(j) ==> q == p)
  {
    var es := ds[j := raised];
    if raised.id.Some? {
      ScoreGrows(Weight(ds[j]), Weight(raised), h.ln(Draw(h, key, raised)));
      assert Score(h, key, ds[j]) <= Score(h, key, raised);
    }
    var p, q := Pick(h, key, ds), Pick(h, key, es);
    if p == Some(j) {
      PickWins(h, key, ds, j);
      assert WinsAll(h, key, es, j);
      PickWins(h, key, es, j);
    }
    if q.None? {
      NonePickedEither(h, key, ds, j, raised);
    } else if q != Some(j) {
      PickWins(h, key, es, q.value);
      WinsWithoutTheRaise(h, key, ds, j, raised, q.value);
      PickWins(h, key, ds, q.value);
    }
  }

  lemma WinsWithoutTheRaise(h: Hashing, key: string, ds: seq<Deployment>, j: nat, raised: Deployment, i: nat)
    requires Sound(h) && j < |ds| && raised.id == ds[j].id && i != j
    requires raised.id.Some? ==> Score(h, key, ds[j]) <= Score(h, key, raised)
    requires WinsAll(h, key, ds[j := raised], i)
    ensures WinsAll(h, key, ds, i)
  {
    var es := ds[j := raised];
    forall k: nat | k < |ds| && ds[k].id.Some?
      ensures Score(h, key, ds[k]) <= Score(h, key, ds[i]) && (k < i ==> Score(h, key, ds[k]) < Score(h, key, ds[i]))
    {
      assert es[k].id.Some? && es[i] == ds[i];
    }
  }

  lemma NonePickedEither(h: Hashing, key: string, ds: seq<Deployment>, j: nat, raised: Deployment)
    requires Sound(h) && j < |ds| && raised.id == ds[j].id
    requires Pick(h, key, ds[j := raised]).None?
    ensures Pick(h, key, ds).None?
  {
    PickWins(h, key, ds[j := raised], 0);
    assert forall k: nat | k < |ds| :: ds[j := raised][k].id == ds[k].id;
    PickWins(h, key, ds, 0);
  }

  /** The first of the three capacities that is a positive number, or one. */
  lemma WeightIs(d: Deployment)
    ensures Positive(d.affinityWeight) ==> Weight(d) == ToReal(d.affinityWeight)
    ensures !Positive(d.affinityWeight) && Positive(d.rpm) ==> Weight(d) == ToReal(d.rpm)
    ensures !Positive(d.affinityWeight) && !Positive(d.rpm) && Positive(d.tpm) ==> Weight(d) == ToReal(d.tpm)
    ensures !Positive(d.affinityWeight) && !Positive(d.rpm) && !Positive(d.tpm) ==> Weight(d) == 1.0
  {
  }

  lemma QuotientsCompare(v: real, w: real, l: real, m: real)
    requires v > 0.0 && w > 0.0 && l < 0.0 && m < 0.0
    ensures -v / l > -w / m <==> v * -m > w * -l
  {
    var a, b := -v / l, -w / m;
    assert a * -l == v && b * -m == w;
    ProductsCompare(a, b, -l, -m);
  }

  lemma ProductsCompare(a: real, b: real, p: real, q: real)
    requires p > 0.0 && q > 0.0
    ensures a > b <==> a * p * q > b * q * p
  {
    assert a * p * q == a * (p * q) && b * q * p == b * (p * q);
    assert p * q > 0.0;
    MulPositive(a, b, p * q);
  }

  lemma MulPositive(a: real, b: real, c: real)
    requires c > 0.0
    ensures a > b <==> a * c > b * c
  {
  }

  /** One deployment outscores another exactly if it does so by weight times the other's log distance: no
      division, and hence no hash so high that it counts for nothing. */
  lemma OutscoresIff(h: Hashing, key: string, d: Deployment, e: Deployment)
    requires Sound(h) && d.id.Some? && e.id.Some?
    ensures Score(h, key, d) > Score(h, key, e) <==>
            Weight(d) * -h.ln(h.draw(key, e.id.value)) > Weight(e) * -h.ln(h.draw(key, d.id.value))
  {
    QuotientsCompare(Weight(d), Weight(e), h.ln(Draw(h, key, d)), h.ln(Draw(h, key, e)));
  }
}
