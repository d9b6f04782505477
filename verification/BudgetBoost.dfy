/** Temporary member budgets: boosted, boosted again, cancelled or expired, with LiteLLM calls
    that may fail, and the budget a member is left with. */
module BudgetBoost {
  import opened Wrappers

  datatype Member = Member(team: string, user: string)

  datatype Status = Active | Reverted | Cancelled

  datatype Boost = Boost(member: Member, original: real, boosted: real, expiresAt: int, status: Status)

  /** How LiteLLM answers an update: done, refused, or done with the answer lost on the way. */
  datatype Reply = Done | Refused | Lost

  datatype Outcome = Created | Updated | Ended | BadRequest | NotFound | BadGateway

  /** `own` is the member's dedicated budget, `defaults` a team's default member budget. */
  datatype State = State(
    boosts: seq<Boost>, members: set<Member>, own: map<Member, real>, defaults: map<string, real>)

  function Effective(st: State, m: Member): Option<real> {
    if m in st.members && m in st.own then Some(st.own[m])
    else if m.team in st.defaults then Some(st.defaults[m.team])
    else None
  }

  /** LiteLLM sets a member's own budget; it refuses someone who is not in the team. */
  function SetBudget(st: State, m: Member, amount: real, reply: Reply): State {
    if m in st.members && !reply.Refused? then st.(own := st.own[m := amount]) else st
  }

  predicate Succeeds(st: State, m: Member, reply: Reply) { m in st.members && reply.Done? }

  /** Index of the member's active boost; the number of boosts when there is none. */
  function ActiveIndex(boosts: seq<Boost>, m: Member): (i: nat)
    ensures i <= |boosts|
    ensures i < |boosts| ==> boosts[i].member == m && boosts[i].status.Active?
    ensures forall j | 0 <= j < i :: !(boosts[j].member == m && boosts[j].status.Active?)
  {
    if boosts == [] || (boosts[0].member == m && boosts[0].status.Active?) then 0
    else ActiveIndex(boosts[1..], m) + 1
  }

  predicate HasActive(st: State, m: Member) { ActiveIndex(st.boosts, m) < |st.boosts| }

  // The operations

  predicate BoostRequested(amount: real, expiresAt: int, now: int) { amount > 0.0 && expiresAt > now }

  function Apply(st: State, m: Member, amount: real, expiresAt: int, now: int, reply: Reply): State {
    if !BoostRequested(amount, expiresAt, now) || (!HasActive(st, m) && Effective(st, m).None?) then st
    else
      var i := ActiveIndex(st.boosts, m);
      var next := SetBudget(st, m, amount, reply);
      if !Succeeds(st, m, reply) then next
      else if i < |st.boosts| then
        next.(boosts := st.boosts[i := st.boosts[i].(boosted := amount, expiresAt := expiresAt)])
      else
        next.(boosts := st.boosts + [Boost(m, Effective(st, m).value, amount, expiresAt, Active)])
  }

  function Cancel(st: State, m: Member, reply: Reply): State {
    var i := ActiveIndex(st.boosts, m);
    if i == |st.boosts| then st
    else
      var next := SetBudget(st, m, st.boosts[i].original, reply);
      if Succeeds(st, m, reply) then next.(boosts := st.boosts[i := st.boosts[i].(status := Cancelled)]) else next
  }

  predicate Due(b: Boost, now: int) { b.status.Active? && b.expiresAt <= now }

  function ExpireOne(st: State, now: int, i: nat, reply: Reply): State
    requires i < |st.boosts|
  {
    var b := st.boosts[i];
    if !Due(b, now) then st
    else
      var next := SetBudget(st, b.member, b.original, reply);
      if b.member !in st.members || reply.Done? then
        next.(boosts := st.boosts[i := b.(status := Reverted)])
      else next
  }

  /** The expiry pass over the first `n` rows. */
  function Expire(st: State, now: int, replies: nat -> Reply, n: nat): (next: State)
    requires n <= |st.boosts|
    ensures |next.boosts| == |st.boosts|
  {
    if n == 0 then st else ExpireOne(Expire(st, now, replies, n - 1), now, n - 1, replies(n - 1))
  }

  function CountActive(boosts: seq<Boost>): nat {
    if boosts == [] then 0
    else CountActive(boosts[..|boosts| - 1]) + (if boosts[|boosts| - 1].status.Active? then 1 else 0)
  }

  lemma {:induction false} CountAfterChange(boosts: seq<Boost>, i: nat, b: Boost)
    requires i < |boosts|
    ensures CountActive(boosts[i := b]) ==
            CountActive(boosts) - (if boosts[i].status.Active? then 1 else 0) + (if b.status.Active? then 1 else 0)
  {
    var n := |boosts| - 1;
    if i < n {
      CountAfterChange(boosts[..n], i, b);
      assert boosts[i := b][..n] == boosts[..n][i := b];
    } else {
      assert boosts[i := b][..n] == boosts[..n];
    }
  }

  class Boosts {
    var boosts: seq<Boost>
    var members: set<Member>
    var own: map<Member, real>
    const defaults: map<string, real>

    constructor (members: set<Member>, own: map<Member, real>, defaults: map<string, real>)
      ensures Snapshot() == State([], members, own, defaults)
    {
      this.boosts, this.members, this.own, this.defaults := [], members, own, defaults;
    }

    function Snapshot(): State
      reads this
    {
      State(boosts, members, own, defaults)
    }

    method UpdateTeamMember(m: Member, amount: real, reply: Reply) returns (ok: bool)
      modifies this`own
      ensures Snapshot() == SetBudget(old(Snapshot()), m, amount, reply)
      ensures ok <==> Succeeds(old(Snapshot()), m, reply)
    {
      if m in members && !reply.Refused? {
        own := own[m := amount];
      }
      ok := m in members && reply.Done?;
    }

    method ApplyBoost(m: Member, amount: real, expiresAt: int, now: int, reply: Reply) returns (outcome: Outcome)
      modifies this
      ensures Snapshot() == Apply(old(Snapshot()), m, amount, expiresAt, now, reply)
      ensures outcome.BadRequest? <==>
              amount <= 0.0 || expiresAt <= now
              || (!HasActive(old(Snapshot()), m) && Effective(old(Snapshot()), m).None?)
      ensures outcome.Created? || outcome.Updated? ==> HasActive(Snapshot(), m) && m in own && own[m] == amount
      ensures outcome.BadGateway? <==> !outcome.BadRequest? && !(m in old(members) && reply.Done?)
      ensures outcome.Updated? ==> HasActive(old(Snapshot()), m)
      ensures outcome.Created? ==> !HasActive(old(Snapshot()), m)
    {
      if amount <= 0.0 || expiresAt <= now {
        return BadRequest;
      }
      ghost var before := Snapshot();
      var rollback := boosts;
      var existing := ActiveIndex(boosts, m);
      if existing < |boosts| {
        boosts := boosts[existing := boosts[existing].(boosted := amount, expiresAt := expiresAt)];
        outcome := Updated;
      } else {
        var original := Effective(Snapshot(), m);
        if original.None? {
          return BadRequest;
        }
        boosts := boosts + [Boost(m, original.value, amount, expiresAt, Active)];
        outcome := Created;
      }
      assert HasActive(Snapshot(), m) by {
        assert boosts[existing].member == m && boosts[existing].status.Active?;
      }
      var ok := UpdateTeamMember(m, amount, reply);
      if !ok {
        boosts := rollback;
        outcome := BadGateway;
      }
    }

    method CancelBoost(m: Member, reply: Reply) returns (outcome: Outcome)
      modifies this
      ensures Snapshot() == Cancel(old(Snapshot()), m, reply)
      ensures outcome.NotFound? <==> !HasActive(old(Snapshot()), m)
      ensures outcome.Ended? <==> HasActive(old(Snapshot()), m) && m in old(members) && reply.Done?
    {
      var i := ActiveIndex(boosts, m);
      if i == |boosts| {
        return NotFound;
      }
      var ok := UpdateTeamMember(m, boosts[i].original, reply);
      if !ok {
        return BadGateway;
      }
      boosts := boosts[i := boosts[i].(status := Cancelled)];
      outcome := Ended;
    }

    /** One due row: restored and ended, unless LiteLLM refuses. */
    method RevertOne(i: nat, now: int, reply: Reply) returns (ended: bool)
      requires i < |boosts|
      modifies this
      ensures Snapshot() == ExpireOne(old(Snapshot()), now, i, reply)
      ensures CountActive(boosts) == CountActive(old(boosts)) - (if ended then 1 else 0)
    {
      var b := boosts[i];
      ended := false;
      if !Due(b, now) {
        return;
      }
      var ok := true;
      if b.member in members {
        ok := UpdateTeamMember(b.member, b.original, reply);
      }
      if ok {
        CountAfterChange(boosts, i, b.(status := Reverted));
        boosts := boosts[i := b.(status := Reverted)];
        ended := true;
      }
    }

    method RevertExpired(now: int, replies: nat -> Reply) returns (reverted: nat)
      modifies this
      ensures Snapshot() == Expire(old(Snapshot()), now, replies, |old(boosts)|)
      ensures reverted == CountActive(old(boosts)) - CountActive(boosts)
    {
      reverted := 0;
      ghost var before := Snapshot();
      for i := 0 to |boosts|
        invariant |boosts| == |before.boosts|
        invariant Snapshot() == Expire(before, now, replies, i)
        invariant reverted == CountActive(before.boosts) - CountActive(boosts)
      {
        var ended := RevertOne(i, now, replies(i));
        reverted := reverted + if ended then 1 else 0;
      }
    }
  }

  /** An expiry pass that LiteLLM answers leaves no boost active past its end. */
  lemma {:induction false} CleanTickEndsAll(st: State, now: int, replies: nat -> Reply, n: nat)
    requires n <= |st.boosts| && forall k: nat :: replies(k).Done?
    ensures var next := Expire(st, now, replies, n);
            && (forall i | 0 <= i < n :: !Due(next.boosts[i], now))
            && (forall i | n <= i < |st.boosts| :: next.boosts[i] == st.boosts[i])
  {
    if n > 0 { CleanTickEndsAll(st, now, replies, n - 1); }
  }

  // Runs

  datatype Event =
    | BoostMember(m: Member, amount: real, expiresAt: int, now: int, reply: Reply)
    | CancelMember(m: Member, reply: Reply)
    | Tick(now: int, replies: nat -> Reply)
    | Leave(m: Member)

  function Next(st: State, e: Event): State {
    match e
    case BoostMember(m, amount, expiresAt, now, reply) => Apply(st, m, amount, expiresAt, now, reply)
    case CancelMember(m, reply) => Cancel(st, m, reply)
    case Tick(now, replies) => Expire(st, now, replies, |st.boosts|)
    case Leave(m) => st.(members := st.members - {m})
  }

  function Run(st: State, events: seq<Event>): State {
    if events == [] then st else Next(Run(st, events[..|events| - 1]), events[|events| - 1])
  }

  /** A first boost whose answer got lost: LiteLLM has the new budget, the portal no row. */
  predicate LostFirstBoost(st: State, e: Event) {
    e.BoostMember? && e.reply.Lost? && !HasActive(st, e.m)
  }

  ghost predicate NoLostFirstBoost(st: State, events: seq<Event>) {
    forall k | 0 <= k < |events| :: !LostFirstBoost(Run(st, events[..k]), events[k])
  }

  /** What holds all along, seen from the state `start` before any boost. */
  ghost predicate Faithful(start: State, st: State) {
    && st.members <= start.members && st.defaults == start.defaults
    && (forall i, j | 0 <= i < j < |st.boosts| && st.boosts[i].status.Active? && st.boosts[j].status.Active? ::
          st.boosts[i].member != st.boosts[j].member)
    && (forall i | 0 <= i < |st.boosts| && st.boosts[i].status.Active? ::
          st.boosts[i].member in start.members
          && Effective(start, st.boosts[i].member) == Some(st.boosts[i].original))
    && (forall m | m in st.members && !HasActive(st, m) :: Effective(st, m) == Effective(start, m))
  }

  /** A member's active boost is found at whatever index it stands. */
  lemma ActiveIsFound(boosts: seq<Boost>, m: Member, i: nat)
    requires i < |boosts| && boosts[i].member == m && boosts[i].status.Active?
    ensures ActiveIndex(boosts, m) < |boosts|
  {
  }

  lemma OthersUnaffected(boosts: seq<Boost>, i: nat, b: Boost, m: Member)
    requires i < |boosts| && b.member == boosts[i].member && m != b.member
    ensures ActiveIndex(boosts[i := b], m) < |boosts| <==> ActiveIndex(boosts, m) < |boosts|
  {
    var after := boosts[i := b];
    var k, l := ActiveIndex(boosts, m), ActiveIndex(after, m);
    if k < |boosts| { ActiveIsFound(after, m, k); }
    if l < |boosts| { ActiveIsFound(boosts, m, l); }
  }

  lemma AppendKeepsOthers(boosts: seq<Boost>, b: Boost, m: Member)
    requires m != b.member
    ensures ActiveIndex(boosts + [b], m) < |boosts| + 1 <==> ActiveIndex(boosts, m) < |boosts|
  {
    var k, l := ActiveIndex(boosts, m), ActiveIndex(boosts + [b], m);
    if k < |boosts| { ActiveIsFound(boosts + [b], m, k); }
    if l < |boosts| { ActiveIsFound(boosts, m, l); }
  }

  /** A row of `m` changes, keeping its snapshot, together with m's own budget. */
  lemma RowStep(start: State, st: State, i: nat, b: Boost, own: map<Member, real>)
    requires Faithful(start, st) && i < |st.boosts| && st.boosts[i].status.Active?
    requires b.member == st.boosts[i].member && b.original == st.boosts[i].original
    requires forall m | m != b.member :: (m in own <==> m in st.own) && (m in own ==> own[m] == st.own[m])
    requires !b.status.Active? ==>
               b.member !in st.members || (b.member in own && own[b.member] == b.original)
    ensures Faithful(start, st.(boosts := st.boosts[i := b], own := own))
  {
    var next := st.(boosts := st.boosts[i := b], own := own);
    forall m | m in next.members && !HasActive(next, m) ensures Effective(next, m) == Effective(start, m) {
      if m == b.member {
        if b.status.Active? { ActiveIsFound(next.boosts, m, i); }
      } else {
        OthersUnaffected(st.boosts, i, b, m);
      }
    }
  }

  /** A first boost: the budget from before becomes the snapshot. */
  lemma FirstBoostKeeps(start: State, st: State, b: Boost)
    requires Faithful(start, st) && !HasActive(st, b.member) && b.member in st.members && b.status.Active?
    requires Effective(st, b.member) == Some(b.original)
    ensures Faithful(start, st.(boosts := st.boosts + [b], own := st.own[b.member := b.boosted]))
  {
    var next := st.(boosts := st.boosts + [b], own := st.own[b.member := b.boosted]);
    assert Effective(start, b.member) == Some(b.original);
    assert next.boosts[|st.boosts|] == b;
    ActiveIsFound(next.boosts, b.member, |st.boosts|);
    forall n | n in next.members && !HasActive(next, n) ensures Effective(next, n) == Effective(start, n) {
      AppendKeepsOthers(st.boosts, b, n);
    }
  }

  lemma ApplyKeeps(start: State, st: State, m: Member, amount: real, expiresAt: int, now: int, reply: Reply)
    requires Faithful(start, st) && (reply.Lost? ==> HasActive(st, m))
    ensures Faithful(start, Apply(st, m, amount, expiresAt, now, reply))
  {
    var next := Apply(st, m, amount, expiresAt, now, reply);
    if next != st {
      var i := ActiveIndex(st.boosts, m);
      if i < |st.boosts| {
        RowStep(start, st, i, next.boosts[i], next.own);
        assert next == st.(boosts := st.boosts[i := next.boosts[i]], own := next.own);
      } else {
        FirstBoostKeeps(start, st, Boost(m, Effective(st, m).value, amount, expiresAt, Active));
      }
    }
  }

  lemma CancelKeeps(start: State, st: State, m: Member, reply: Reply)
    requires Faithful(start, st)
    ensures Faithful(start, Cancel(st, m, reply))
  {
    var i := ActiveIndex(st.boosts, m);
    if i < |st.boosts| {
      var next := Cancel(st, m, reply);
      RowStep(start, st, i, next.boosts[i], next.own);
      assert next == st.(boosts := st.boosts[i := next.boosts[i]], own := next.own);
    }
  }

  lemma ExpireOneKeeps(start: State, st: State, now: int, i: nat, reply: Reply)
    requires Faithful(start, st) && i < |st.boosts|
    ensures Faithful(start, ExpireOne(st, now, i, reply))
  {
    var next := ExpireOne(st, now, i, reply);
    if Due(st.boosts[i], now) {
      RowStep(start, st, i, next.boosts[i], next.own);
      assert next == st.(boosts := st.boosts[i := next.boosts[i]], own := next.own);
    }
  }

  lemma {:induction false} ExpireKeeps(start: State, st: State, now: int, replies: nat -> Reply, n: nat)
    requires Faithful(start, st) && n <= |st.boosts|
    ensures Faithful(start, Expire(st, now, replies, n))
  {
    if n > 0 {
      ExpireKeeps(start, st, now, replies, n - 1);
      ExpireOneKeeps(start, Expire(st, now, replies, n - 1), now, n - 1, replies(n - 1));
    }
  }

  lemma LeaveKeeps(start: State, st: State, m: Member)
    requires Faithful(start, st)
    ensures Faithful(start, st.(members := st.members - {m}))
  {
  }

  /** Over every run that loses no answer to a first boost: at most one active boost a member, each with
      the budget from before the first boost as its snapshot, and that budget is back whenever no boost
      is active. */
  lemma {:induction false} RunIsFaithful(start: State, events: seq<Event>)
    requires forall i | 0 <= i < |start.boosts| :: !start.boosts[i].status.Active?
    requires NoLostFirstBoost(start, events)
    ensures Faithful(start, Run(start, events))
  {
    if events != [] {
      var n := |events| - 1;
      var front, e := events[..n], events[n];
      assert forall k | 0 <= k < n :: front[..k] == events[..k];
      RunIsFaithful(start, front);
      var st := Run(start, front);
      match e
      case BoostMember(m, amount, expiresAt, now, reply) => ApplyKeeps(start, st, m, amount, expiresAt, now, reply);
      case CancelMember(m, reply) => CancelKeeps(start, st, m, reply);
      case Tick(now, replies) => ExpireKeeps(start, st, now, replies, |st.boosts|);
      case Leave(m) => LeaveKeeps(start, st, m);
    }
  }

  /** What a lost answer to a first boost does: the promise still holds only if the boost was no boost. */
  lemma LostFirstBoostBreaks(start: State, st: State, e: Event)
    requires Faithful(start, st) && LostFirstBoost(st, e)
    ensures Faithful(start, Next(st, e)) <==>
            !BoostRequested(e.amount, e.expiresAt, e.now) || e.m !in st.members
            || Effective(st, e.m).None? || Effective(st, e.m) == Some(e.amount)
  {
  }

  // What each operation does, branch by branch

  /** The dedicated budget of a member, else the default of the team. */
  lemma EffectiveIs(st: State, m: Member)
    ensures m in st.members && m in st.own ==> Effective(st, m) == Some(st.own[m])
    ensures !(m in st.members && m in st.own) ==>
              Effective(st, m) == if m.team in st.defaults then Some(st.defaults[m.team]) else None
  {
  }

  /** A boost that LiteLLM confirms: a running one gets the new amount and end and keeps its snapshot, a first one
      is recorded with the budget from before; and the budget is the new amount. */
  lemma AppliedBoost(st: State, m: Member, amount: real, expiresAt: int, now: int)
    requires amount > 0.0 && expiresAt > now && m in st.members
    requires HasActive(st, m) || (m in st.own || m.team in st.defaults)
    ensures var next := Apply(st, m, amount, expiresAt, now, Done);
            && next.own == st.own[m := amount] && next.members == st.members && next.defaults == st.defaults
            && (forall i | 0 <= i < |st.boosts| && (st.boosts[i].member != m || !st.boosts[i].status.Active?) ::
                  i < |next.boosts| && next.boosts[i] == st.boosts[i])
            && (HasActive(st, m) ==>
                  var i := ActiveIndex(st.boosts, m);
                  |next.boosts| == |st.boosts|
                  && next.boosts[i] == Boost(m, st.boosts[i].original, amount, expiresAt, Active))
            && (!HasActive(st, m) ==>
                  |next.boosts| == |st.boosts| + 1
                  && next.boosts[|st.boosts|] ==
                     Boost(m, if m in st.own then st.own[m] else st.defaults[m.team], amount, expiresAt, Active))
  {
    forall i | 0 <= i < |st.boosts| && st.boosts[i].member == m && st.boosts[i].status.Active?
      ensures HasActive(st, m)
    {
      ActiveIsFound(st.boosts, m, i);
    }
  }

  /** A request that is refused, by the portal or by LiteLLM, changes nothing. */
  lemma RefusedBoost(st: State, m: Member, amount: real, expiresAt: int, now: int, reply: Reply)
    requires amount <= 0.0 || expiresAt <= now || m !in st.members || reply.Refused?
    ensures Apply(st, m, amount, expiresAt, now, reply) == st
  {
  }

  /** A confirmed cancel gives the snapshot back and ends the one active boost; a refused one changes nothing. */
  lemma CancelledBoost(st: State, m: Member, reply: Reply)
    ensures !HasActive(st, m) || m !in st.members || reply.Refused? ==> Cancel(st, m, reply) == st
    ensures HasActive(st, m) && m in st.members && reply.Done? ==>
              var i, next := ActiveIndex(st.boosts, m), Cancel(st, m, reply);
              && next.own == st.own[m := st.boosts[i].original]
              && next.boosts == st.boosts[i := st.boosts[i].(status := Cancelled)]
              && next.members == st.members
  {
  }

  /** What an expiry pass does to each row, whatever LiteLLM answers: it ends exactly those whose end has come and
      whose member either has left the team or is confirmed to have the old budget back. */
  lemma {:induction false} TickEndsIff(st: State, now: int, replies: nat -> Reply, n: nat, i: nat)
    requires n <= |st.boosts| && i < |st.boosts|
    ensures var b, next := st.boosts[i], Expire(st, now, replies, n);
            && next.boosts[i] ==
               (if i < n && b.status.Active? && b.expiresAt <= now && (b.member !in st.members || replies(i).Done?) then
                  b.(status := Reverted)
                else b)
            && next.members == st.members && next.defaults == st.defaults
  {
    if n > 0 {
      TickEndsIff(st, now, replies, n - 1, i);
      TickEndsIff(st, now, replies, n - 1, n - 1);
    }
  }

  /** The budget of a member who is there and whose boost has ended by the clock goes back, unless it is refused. */
  lemma RestoredByTick(st: State, now: int, i: nat, reply: Reply)
    requires i < |st.boosts| && st.boosts[i].status.Active? && st.boosts[i].expiresAt <= now
    ensures var b := st.boosts[i];
            ExpireOne(st, now, i, reply).own ==
            if b.member in st.members && reply in {Done, Lost} then st.own[b.member := b.original] else st.own
  {
  }

  /** A member still there whose restore is refused keeps the boost, and is tried again. */
  lemma RefusedStaysDue(st: State, now: int, i: nat)
    requires i < |st.boosts| && st.boosts[i].member in st.members
    ensures ExpireOne(st, now, i, Refused) == st
  {
  }

  /** A run can be cut anywhere: its second part goes on where the first one ended; and one event is one step. */
  lemma {:induction false} RunGoesOn(st: State, a: seq<Event>, b: seq<Event>, e: Event)
    ensures Run(st, a + b) == Run(Run(st, a), b)
    ensures Run(st, [e]) == Next(st, e)
  {
    assert [e][..0] == [];
    if b == [] {
      assert a + b == a;
    } else {
      RunGoesOn(st, a, b[..|b| - 1], e);
      assert (a + b)[..|a + b| - 1] == a + b[..|b| - 1];
    }
  }
}
