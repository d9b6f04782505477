/** The deployment reconciler: status transitions and their events, and registration with LiteLLM,
    which for a prefill/decode serving waits for the router. */
module Reconciler {
  import opened Wrappers
  import opened ServingStatus

  datatype Event = StatusChanged(was: Status, now: Status) | Registered(id: string) | RegisterFailed

  /** `routerUp` is the router mark stored with the row: none, "not ready" or "ready". */
  datatype Dep = Dep(
    pd: bool, replicas: int, prefillReplicas: int, decodeReplicas: int,
    status: Status, registered: Option<string>, routerUp: Option<bool>, events: seq<Event>)

  datatype Router = NoStack | Live(sync: string, health: string)

  /** What LiteLLM makes of a registration: done, failed, or done with the answer lost. */
  datatype Reply = Created(id: string) | Refused | Lost

  /** What one pass sees of a serving; a missing K8s Deployment is None. */
  datatype Sight = Sight(
    single: Option<Observed>, prefill: Option<Observed>, decode: Option<Observed>, router: Router, reply: Reply)

  predicate RouterHealthy(r: Router) { r.Live? && r.health == "Healthy" && r.sync == "Synced" }

  function StatusOf(o: Option<Observed>, desired: int): Option<Status> {
    if o.Some? then Some(Classify(o.value, desired)) else None
  }

  function SeenStatus(dep: Dep, s: Sight): Status {
    if !dep.pd then (if s.single.Some? then Classify(s.single.value, dep.replicas) else Missing)
    else if s.prefill.None? && s.decode.None? then Missing
    else DerivePd(StatusOf(s.prefill, dep.prefillReplicas), StatusOf(s.decode, dep.decodeReplicas))
  }

  /** Whether this pass calls `/model/new` for the row. */
  predicate Attempts(dep: Dep, s: Sight) {
    var now := SeenStatus(dep, s);
    && now == Ready && dep.registered.None?
    && (if dep.pd then RouterHealthy(s.router) && (now != dep.status || dep.routerUp == Some(false))
        else now != dep.status)
  }

  function Observe(dep: Dep, s: Sight): Dep {
    var now := SeenStatus(dep, s);
    var mark := if dep.pd && now == Ready && dep.registered.None? then Some(RouterHealthy(s.router)) else dep.routerUp;
    var moved := dep.(status := now, routerUp := mark,
                      events := dep.events + if now != dep.status then [StatusChanged(dep.status, now)] else []);
    if !Attempts(dep, s) then moved
    else if s.reply.Created? then moved.(registered := Some(s.reply.id), events := moved.events + [Registered(s.reply.id)])
    else moved.(events := moved.events + [RegisterFailed])
  }

  // One row over a run

  /** What happens to a row: a pass, an edit through the API (which may change the wanted pods and drop the
      registration), or a manual registration of a Ready serving. */
  datatype Step =
    | Pass(sight: Sight)
    | Edit(unregister: bool, replicas: int, prefillReplicas: int, decodeReplicas: int)
    | Reregister(id: string)

  /** A row, and whether registration was attempted since it turned Ready. */
  datatype Tracked = Tracked(dep: Dep, tried: bool)

  function Next(t: Tracked, step: Step): Tracked {
    match step
    case Pass(s) =>
      var dep := Observe(t.dep, s);
      Tracked(dep, Attempts(t.dep, s) || (t.tried && dep.status == t.dep.status))
    case Edit(unregister, replicas, prefill, decode) =>
      Tracked(t.dep.(status := Updating, registered := if unregister then None else t.dep.registered,
                     replicas := replicas, prefillReplicas := prefill, decodeReplicas := decode), false)
    case Reregister(id) =>
      if t.dep.status == Ready then Tracked(t.dep.(registered := Some(id), events := t.dep.events + [Registered(id)]), true)
      else t
  }

  function Run(t: Tracked, steps: seq<Step>): Tracked {
    if steps == [] then t else Next(Run(t, steps[..|steps| - 1]), steps[|steps| - 1])
  }

  /** Ready, unregistered and not yet tried: then the row says "router not ready". */
  predicate WaitIsMarked(t: Tracked) {
    t.dep.pd && t.dep.status == Ready && t.dep.registered.None? && !t.tried ==> t.dep.routerUp == Some(false)
  }

  lemma NextKeepsMark(t: Tracked, step: Step)
    requires WaitIsMarked(t)
    ensures WaitIsMarked(Next(t, step)) && Next(t, step).dep.pd == t.dep.pd
  {
  }

  /** Over any run: `/model/new` is attempted only with no id held, both pools serving and the router
      Synced and Healthy; and no wait is ever forgotten: the first pass that finds a waiting serving
      Ready with its router up attempts it. */
  lemma {:induction false} RegistrationNotLost(t: Tracked, steps: seq<Step>, s: Sight)
    requires t.dep.pd && WaitIsMarked(t)
    ensures var u := Run(t, steps);
            && u.dep.pd && WaitIsMarked(u)
            && (Attempts(u.dep, s) ==>
                  u.dep.registered.None? && s.prefill.Some? && s.decode.Some?
                  && Serving(s.prefill.value, u.dep.prefillReplicas) && Serving(s.decode.value, u.dep.decodeReplicas)
                  && RouterHealthy(s.router))
            && ((u.dep.registered.None? && SeenStatus(u.dep, s) == Ready && RouterHealthy(s.router)
                 && !(u.dep.status == Ready && u.tried)) ==> Attempts(u.dep, s))
  {
    if steps != [] {
      RegistrationNotLost(t, steps[..|steps| - 1], s);
      NextKeepsMark(Run(t, steps[..|steps| - 1]), steps[|steps| - 1]);
    }
    var u := Run(t, steps);
    PdReadyIffBothServe(s.prefill, s.decode, u.dep.prefillReplicas, u.dep.decodeReplicas);
  }

  /** The status that transition events lead to, when they chain. */
  function Replay(status: Status, events: seq<Event>): Option<Status> {
    if events == [] then Some(status)
    else
      var before := Replay(status, events[..|events| - 1]);
      var e := events[|events| - 1];
      if before.None? || !e.StatusChanged? then before
      else if e.was == before.value then Some(e.now) else None
  }

  lemma {:induction false} ReplayConcat(status: Status, a: seq<Event>, b: seq<Event>)
    requires Replay(status, a).Some?
    ensures Replay(status, a + b) == Replay(Replay(status, a).value, b)
  {
    if b == [] {
      assert a + b == a;
    } else {
      var n := |b| - 1;
      ReplayConcat(status, a, b[..n]);
      assert (a + b)[..|a + b| - 1] == a + b[..n];
    }
  }

  function Transition(was: Status, now: Status): seq<Event> {
    if now != was then [StatusChanged(was, now)] else []
  }

  function Attempt(dep: Dep, s: Sight): seq<Event> {
    if !Attempts(dep, s) then [] else if s.reply.Created? then [Registered(s.reply.id)] else [RegisterFailed]
  }

  lemma Recorded(dep: Dep, s: Sight)
    ensures Observe(dep, s).events == dep.events + (Transition(dep.status, Observe(dep, s).status) + Attempt(dep, s))
  {
  }

  lemma TransitionReplays(was: Status, now: Status)
    ensures Replay(was, Transition(was, now)) == Some(now)
  {
    var e := Transition(was, now);
    if e != [] { assert e[..0] == []; }
  }

  lemma QuietReplays(status: Status, events: seq<Event>)
    requires |events| <= 1 && forall i | 0 <= i < |events| :: !events[i].StatusChanged?
    ensures Replay(status, events) == Some(status)
  {
    if events != [] { assert events[..0] == []; }
  }

  lemma ObserveReplays(dep: Dep, s: Sight)
    ensures var next := Observe(dep, s);
            dep.events <= next.events && Replay(dep.status, next.events[|dep.events|..]) == Some(next.status)
  {
    var now := Observe(dep, s).status;
    Recorded(dep, s);
    TransitionReplays(dep.status, now);
    QuietReplays(now, Attempt(dep, s));
    ReplayConcat(dep.status, Transition(dep.status, now), Attempt(dep, s));
  }

  ghost predicate NoEdit(steps: seq<Step>) { forall k | 0 <= k < |steps| :: !steps[k].Edit? }

  lemma NextReplays(t: Tracked, step: Step)
    requires !step.Edit?
    ensures var next := Next(t, step).dep;
            t.dep.events <= next.events && Replay(t.dep.status, next.events[|t.dep.events|..]) == Some(next.status)
  {
    match step
    case Pass(s) => ObserveReplays(t.dep, s);
    case Reregister(id) =>
      var next := Next(t, step).dep;
      QuietReplays(t.dep.status, if t.dep.status == Ready then [Registered(id)] else []);
      assert next.events[|t.dep.events|..] == if t.dep.status == Ready then [Registered(id)] else [];
  }

  lemma ReplayThrough(status: Status, a: seq<Event>, b: seq<Event>, c: seq<Event>, mid: Status)
    requires a <= b <= c && Replay(status, b[|a|..]) == Some(mid)
    ensures Replay(status, c[|a|..]) == Replay(mid, c[|b|..])
  {
    ReplayConcat(status, b[|a|..], c[|b|..]);
    assert c[|a|..] == b[|a|..] + c[|b|..];
  }

  /** Between edits, the transition events recorded since then chain and replay to the current status. */
  lemma {:induction false} EventsReplay(t: Tracked, steps: seq<Step>)
    requires NoEdit(steps)
    ensures var u := Run(t, steps);
            t.dep.events <= u.dep.events
            && Replay(t.dep.status, u.dep.events[|t.dep.events|..]) == Some(u.dep.status)
  {
    if steps == [] {
      assert t.dep.events[|t.dep.events|..] == [];
    } else {
      var n := |steps| - 1;
      EventsReplay(t, steps[..n]);
      var mid := Run(t, steps[..n]);
      NextReplays(mid, steps[n]);
      ReplayThrough(t.dep.status, t.dep.events, mid.dep.events, Next(mid, steps[n]).dep.events, mid.dep.status);
    }
  }

  // A pass over all rows, its commit, and LiteLLM's side

  /** How the pass fares at a row: seen; not readable, so skipped; or the pass ends there uncommitted. */
  datatype Fate = Seen(sight: Sight) | Skipped | Aborts

  /** LiteLLM's entries, each by the row it was created for. They survive a rollback. */
  datatype World = World(rows: seq<Dep>, entries: seq<nat>)

  function Visited(dep: Dep, fate: Fate): Dep {
    if fate.Seen? then Observe(dep, fate.sight) else dep
  }

  /** The visit of this row makes LiteLLM create an entry. */
  predicate Creates(dep: Dep, fate: Fate) {
    fate.Seen? && Attempts(dep, fate.sight) && !fate.sight.reply.Refused?
  }

  /** The numbers below `n` that pass, in order. */
  function Marked(p: nat -> bool, n: nat): seq<nat> {
    if n == 0 then [] else Marked(p, n - 1) + (if p(n - 1) then [n - 1] else [])
  }

  function CreatesAt(w: World, fates: seq<Fate>): nat -> bool {
    (i: nat) => i < |w.rows| && i < |fates| && Creates(w.rows[i], fates[i])
  }

  /** The uncommitted work of a pass over the first `n` rows. */
  function Work(w: World, fates: seq<Fate>, n: nat): World
    requires n <= |w.rows| == |fates|
  {
    World(seq(|w.rows|, i requires 0 <= i < |w.rows| => if i < n then Visited(w.rows[i], fates[i]) else w.rows[i]),
          w.entries + Marked(CreatesAt(w, fates), n))
  }

  function FirstAbort(fates: seq<Fate>): (n: nat)
    ensures n <= |fates|
    ensures n < |fates| ==> fates[n].Aborts?
    ensures forall j | 0 <= j < n :: !fates[j].Aborts?
  {
    if fates == [] || fates[0].Aborts? then 0 else FirstAbort(fates[1..]) + 1
  }

  /** The pass gets past its last row and the commit goes through. */
  predicate Commits(fates: seq<Fate>, commits: bool) { FirstAbort(fates) == |fates| && commits }

  function ReconcilePass(w: World, fates: seq<Fate>, commits: bool): World
    requires |fates| == |w.rows|
  {
    var done := Work(w, fates, FirstAbort(fates));
    if Commits(fates, commits) then done else World(w.rows, done.entries)
  }

  method Register(dep: Dep, reply: Reply) returns (row: Dep, created: bool)
    ensures row == if reply.Created? then dep.(registered := Some(reply.id), events := dep.events + [Registered(reply.id)])
                   else dep.(events := dep.events + [RegisterFailed])
    ensures created <==> !reply.Refused?
  {
    row, created := dep, !reply.Refused?;
    if reply.Created? {
      row := row.(registered := Some(reply.id));
      row := row.(events := row.events + [Registered(reply.id)]);
    } else {
      row := row.(events := row.events + [RegisterFailed]);
    }
  }

  method ReconcilePd(dep: Dep, s: Sight) returns (row: Dep, created: bool)
    requires dep.pd
    ensures row == Observe(dep, s) && (created <==> Attempts(dep, s) && !s.reply.Refused?)
  {
    var now := Missing;
    if s.prefill.Some? || s.decode.Some? {
      now := DerivePd(StatusOf(s.prefill, dep.prefillReplicas), StatusOf(s.decode, dep.decodeReplicas));
    }
    row, created := dep, false;
    var wantsRegistration := now == Ready && dep.registered.None?;
    var routerUp := false;
    if wantsRegistration {
      routerUp := RouterHealthy(s.router);
      row := row.(routerUp := Some(routerUp));
    }
    var transitioned := now != dep.status;
    if transitioned {
      row := row.(status := now, events := row.events + [StatusChanged(dep.status, now)]);
    }
    assert transitioned || row.events == dep.events + [];
    var wasWaiting := dep.routerUp == Some(false);
    if wantsRegistration && routerUp && (transitioned || wasWaiting) {
      row, created := Register(row, s.reply);
    }
  }

  method ReconcileSingle(dep: Dep, s: Sight) returns (row: Dep, created: bool)
    requires !dep.pd
    ensures row == Observe(dep, s) && (created <==> Attempts(dep, s) && !s.reply.Refused?)
  {
    row, created := dep, false;
    if s.single.None? {
      if dep.status != Missing {
        row := row.(status := Missing, events := row.events + [StatusChanged(dep.status, Missing)]);
      }
      assert dep.events + [] == dep.events;
      return;
    }
    var now := Classify(s.single.value, dep.replicas);
    if now != dep.status {
      row := row.(status := now, events := row.events + [StatusChanged(dep.status, now)]);
      if now == Ready && dep.registered.None? {
        row, created := Register(row, s.reply);
      }
    }
    assert dep.events + [] == dep.events;
  }

  /** One row of a pass, and whether LiteLLM made an entry for it. */
  method Visit(dep: Dep, fate: Fate) returns (row: Dep, created: bool)
    ensures row == Visited(dep, fate) && (created <==> Creates(dep, fate))
  {
    row, created := dep, false;
    if fate.Seen? {
      if dep.pd {
        row, created := ReconcilePd(dep, fate.sight);
      } else {
        row, created := ReconcileSingle(dep, fate.sight);
      }
    }
  }

  /** One more row worked on. */
  lemma WorkStep(w: World, fates: seq<Fate>, i: nat)
    requires i < |w.rows| == |fates|
    ensures Work(w, fates, i).rows[i] == w.rows[i]
    ensures var done, next := Work(w, fates, i), Work(w, fates, i + 1);
            && next.rows == done.rows[i := Visited(w.rows[i], fates[i])]
            && next.entries == done.entries + if Creates(w.rows[i], fates[i]) then [i] else []
  {
  }

  class Reconciliation {
    var rows: seq<Dep>
    var entries: seq<nat>

    constructor (rows: seq<Dep>)
      ensures Snapshot() == World(rows, [])
    {
      this.rows, this.entries := rows, [];
    }

    function Snapshot(): World
      reads this
    {
      World(rows, entries)
    }

    /** Rows are worked on in a session of their own, which only the end of the pass commits. */
    method ReconcileOnce(fates: seq<Fate>, commits: bool)
      requires |fates| == |rows|
      modifies this
      ensures Snapshot() == ReconcilePass(old(Snapshot()), fates, commits)
    {
      ghost var w := Snapshot();
      var session := rows;
      var i := 0;
      while i < |fates| && !fates[i].Aborts?
        invariant 0 <= i <= |fates| && rows == w.rows && |session| == |rows|
        invariant forall j | 0 <= j < i :: !fates[j].Aborts?
        invariant World(session, entries) == Work(w, fates, i)
      {
        WorkStep(w, fates, i);
        var row, created := Visit(session[i], fates[i]);
        entries := entries + if created then [i] else [];
        session := session[i := row];
        i := i + 1;
      }
      assert FirstAbort(fates) == i;
      if i < |fates| || !commits {
        return;
      }
      rows := session;
    }
  }

  function Entries(entries: seq<nat>, row: nat): nat {
    if entries == [] then 0
    else Entries(entries[..|entries| - 1], row) + (if entries[|entries| - 1] == row then 1 else 0)
  }

  /** LiteLLM has exactly the entries the rows hold an id for. */
  ghost predicate InStep(w: World) {
    forall i | 0 <= i < |w.rows| :: Entries(w.entries, i) == if w.rows[i].registered.Some? then 1 else 0
  }

  lemma {:induction false} EntriesConcat(a: seq<nat>, b: seq<nat>, row: nat)
    ensures Entries(a + b, row) == Entries(a, row) + Entries(b, row)
  {
    if b == [] {
      assert a + b == a;
    } else {
      EntriesConcat(a, b[..|b| - 1], row);
      assert (a + b)[..|a + b| - 1] == a + b[..|b| - 1];
    }
  }

  lemma {:induction false} EntriesMarked(p: nat -> bool, n: nat, row: nat)
    ensures Entries(Marked(p, n), row) == if row < n && p(row) then 1 else 0
  {
    if n > 0 {
      EntriesMarked(p, n - 1, row);
      EntriesConcat(Marked(p, n - 1), [n - 1], row);
      assert Entries([n - 1], row) == if n - 1 == row then 1 else 0 by { assert [n - 1][..0] == []; }
      assert Marked(p, n - 1) + [] == Marked(p, n - 1);
    }
  }

  /** Row `i` is reached by the pass, and LiteLLM creates an entry for it. */
  predicate CreatesInPass(w: World, fates: seq<Fate>, i: nat)
    requires i < |w.rows| == |fates|
  {
    i < FirstAbort(fates) && Creates(w.rows[i], fates[i])
  }

  lemma EntriesAfterPass(w: World, fates: seq<Fate>, commits: bool, i: nat)
    requires i < |w.rows| == |fates|
    ensures Entries(ReconcilePass(w, fates, commits).entries, i) ==
            Entries(w.entries, i) + (if CreatesInPass(w, fates, i) then 1 else 0)
  {
    var n, p := FirstAbort(fates), CreatesAt(w, fates);
    EntriesConcat(w.entries, Marked(p, n), i);
    EntriesMarked(p, n, i);
  }

  lemma VisitedRegistration(dep: Dep, fate: Fate)
    ensures Creates(dep, fate) ==> dep.registered.None?
    ensures Creates(dep, fate) ==> (Visited(dep, fate).registered.Some? <==> fate.sight.reply.Created?)
    ensures !Creates(dep, fate) ==> Visited(dep, fate).registered == dep.registered
  {
  }

  /** A pass registers nothing twice and forgets nothing exactly when it commits and no answer of LiteLLM is
      lost, or else creates nothing. */
  lemma PassKeepsStep(w: World, fates: seq<Fate>, commits: bool)
    requires |fates| == |w.rows| && InStep(w)
    ensures InStep(ReconcilePass(w, fates, commits)) <==>
            forall i: nat | i < |w.rows| && CreatesInPass(w, fates, i) ::
              Commits(fates, commits) && fates[i].sight.reply.Created?
  {
    var next := ReconcilePass(w, fates, commits);
    forall i: nat | i < |w.rows|
      ensures Entries(next.entries, i) == (if next.rows[i].registered.Some? then 1 else 0)
              <==> (CreatesInPass(w, fates, i) ==> Commits(fates, commits) && fates[i].sight.reply.Created?)
    {
      EntriesAfterPass(w, fates, commits, i);
      VisitedRegistration(w.rows[i], fates[i]);
    }
  }

  // Runs of whole passes

  datatype Tick = Tick(fates: seq<Fate>, commits: bool)

  function Passes(w: World, run: seq<Tick>): (r: World)
    requires forall k | 0 <= k < |run| :: |run[k].fates| == |w.rows|
    ensures |r.rows| == |w.rows|
  {
    if run == [] then w
    else ReconcilePass(Passes(w, run[..|run| - 1]), run[|run| - 1].fates, run[|run| - 1].commits)
  }

  predicate Clean(tick: Tick) {
    Commits(tick.fates, tick.commits)
    && forall i | 0 <= i < |tick.fates| && tick.fates[i].Seen? :: !tick.fates[i].sight.reply.Lost?
  }

  /** Over every run whose passes all commit and lose no answer, LiteLLM has one entry for each row that
      holds an id and none for the others. */
  lemma {:induction false} CommittedRunsKeepStep(w: World, run: seq<Tick>)
    requires InStep(w) && forall k | 0 <= k < |run| :: |run[k].fates| == |w.rows| && Clean(run[k])
    ensures InStep(Passes(w, run))
  {
    if run != [] {
      var n := |run| - 1;
      assert forall k | 0 <= k < n :: run[..n][k] == run[k];
      CommittedRunsKeepStep(w, run[..n]);
      assert Clean(run[n]);
      PassKeepsStep(Passes(w, run[..n]), run[n].fates, run[n].commits);
    }
  }

  // What one pass does to a row, in terms of what it sees

  /** An aggregated serving is registered exactly if its Deployment is there and serves, it was not Ready before,
      no id was held and LiteLLM created the entry; a failed or lost answer to the attempt is recorded last. */
  lemma SingleRegistersIff(dep: Dep, s: Sight)
    requires !dep.pd
    ensures var next := Observe(dep, s);
            var tries := s.single.Some? && Serving(s.single.value, dep.replicas) && dep.status != Ready && dep.registered.None?;
            && (next.registered != dep.registered <==> tries && s.reply.Created?)
            && (tries && s.reply.Created? ==>
                  next.registered == Some(s.reply.id) && next.events != []
                  && next.events[|next.events| - 1] == Registered(s.reply.id))
            && (tries && !s.reply.Created? ==>
                  next.events != [] && next.events[|next.events| - 1] == RegisterFailed)
            && (Attempts(dep, s) <==> tries)
  {
    if s.single.Some? { ReadyIffServing(s.single.value, dep.replicas); }
  }

  lemma ReadyIffServing(o: Observed, desired: int)
    ensures Classify(o, desired) == Ready <==> Serving(o, desired)
  {
  }

  predicate BothServe(dep: Dep, s: Sight) {
    && s.prefill.Some? && s.decode.Some?
    && Serving(s.prefill.value, dep.prefillReplicas) && Serving(s.decode.value, dep.decodeReplicas)
  }

  /** The same for a prefill/decode pair, whose router has to be up: it is tried as it turns Ready, or once the
      router comes up while it waits. A pair that serves unregistered is marked with the router's state. */
  lemma PairRegistersIff(dep: Dep, s: Sight)
    requires dep.pd
    ensures var next := Observe(dep, s);
            var up := s.router.Live? && s.router.health == "Healthy" && s.router.sync == "Synced";
            var tries := BothServe(dep, s) && dep.registered.None? && up
                         && (dep.status != Ready || dep.routerUp == Some(false));
            && (next.registered != dep.registered <==> tries && s.reply.Created?)
            && (tries && s.reply.Created? ==>
                  next.registered == Some(s.reply.id) && next.events != []
                  && next.events[|next.events| - 1] == Registered(s.reply.id))
            && (tries && !s.reply.Created? ==>
                  next.events != [] && next.events[|next.events| - 1] == RegisterFailed)
            && (Attempts(dep, s) <==> tries)
            && next.routerUp == (if BothServe(dep, s) && dep.registered.None? then Some(up) else dep.routerUp)
  {
    PdReadyIffBothServe(s.prefill, s.decode, dep.prefillReplicas, dep.decodeReplicas);
  }

  /** The status is what is seen, and each change of it is recorded, with nothing else but the attempt. */
  lemma StatusSeen(dep: Dep, s: Sight)
    ensures var next := Observe(dep, s);
            && (!dep.pd && s.single.None? ==> next.status == Missing)
            && (!dep.pd && s.single.Some? ==> next.status == Classify(s.single.value, dep.replicas))
            && (dep.pd && s.prefill.None? && s.decode.None? ==> next.status == Missing)
            && (dep.pd && (s.prefill.Some? != s.decode.Some?) ==> next.status == Unhealthy)
            && (next.status != dep.status ==>
                  |next.events| > |dep.events| && next.events[|dep.events|] == StatusChanged(dep.status, next.status))
            && |next.events| == |dep.events| + (if next.status != dep.status then 1 else 0)
                                + (if Attempts(dep, s) then 1 else 0)
            && next.replicas == dep.replicas && next.prefillReplicas == dep.prefillReplicas
            && next.decodeReplicas == dep.decodeReplicas && next.pd == dep.pd
  {
  }

  /** A row that is Ready without an id has been tried since it turned Ready. */
  predicate ReadyIsTried(t: Tracked) {
    !t.dep.pd && (t.dep.status == Ready && t.dep.registered.None? ==> t.tried)
  }

  lemma NextKeepsTried(t: Tracked, step: Step)
    requires ReadyIsTried(t)
    ensures ReadyIsTried(Next(t, step))
  {
  }

  /** Over any run: an aggregated serving that is seen to serve while it is not Ready and holds no id is attempted
      in that very pass, and none that is Ready without an id was missed. */
  lemma {:induction false} SingleAttemptedAtOnce(t: Tracked, steps: seq<Step>, s: Sight)
    requires ReadyIsTried(t)
    ensures var u := Run(t, steps);
            && ReadyIsTried(u)
            && (s.single.Some? && Serving(s.single.value, u.dep.replicas) && u.dep.status != Ready && u.dep.registered.None?
                ==> Attempts(u.dep, s) && Next(u, Pass(s)).dep.status == Ready && Next(u, Pass(s)).tried)
  {
    if steps != [] {
      SingleAttemptedAtOnce(t, steps[..|steps| - 1], s);
      NextKeepsTried(Run(t, steps[..|steps| - 1]), steps[|steps| - 1]);
    }
    var u := Run(t, steps);
    if s.single.Some? { ReadyIffServing(s.single.value, u.dep.replicas); }
  }

  /** A run can be cut anywhere: its second part goes on where the first one ended; and one event is one step. */
  lemma {:induction false} RunGoesOn(st: Tracked, a: seq<Step>, b: seq<Step>, e: Step)
    ensures Run(st, a + b) == Run(Run(st, a), b)
    ensures Run(st, [e]) == Next(st, e)
  {
    assert [e][..0] == [];
    if b == [] {
      assert a + b == a;
    } else {
      RunGoesOn(st, a, b[..|b| - 1], e);
      assert (a + b)[..|a + b| - 1] == a + b[..|b| - 1];
    }
  }

  /** A pass that gets through and commits leaves each row as observed, or as it was if it could not be read; any
      other leaves every row. Either way LiteLLM has one more entry for each row it was asked about before the end
      of the pass and did not refuse, and no other. */
  lemma PassDoes(w: World, fates: seq<Fate>, commits: bool, i: nat)
    requires i < |w.rows| == |fates|
    ensures var next, through := ReconcilePass(w, fates, commits), forall j | 0 <= j < |fates| :: !fates[j].Aborts?;
            && |next.rows| == |w.rows|
            && (commits && through ==>
                  next.rows[i] == match fates[i] case Seen(s) => Observe(w.rows[i], s) case _ => w.rows[i])
            && (!commits || !through ==> next.rows == w.rows)
            && Entries(next.entries, i) == Entries(w.entries, i) +
               (if (forall j | 0 <= j <= i :: !fates[j].Aborts?) && fates[i].Seen? && Attempts(w.rows[i], fates[i].sight)
                   && !fates[i].sight.reply.Refused? then 1 else 0)
  {
    EntriesAfterPass(w, fates, commits, i);
  }

  /** A run of passes can be cut anywhere, and a run of one is that pass. */
  lemma {:induction false} PassesGoOn(w: World, a: seq<Tick>, b: seq<Tick>, tick: Tick)
    requires |tick.fates| == |w.rows|
    requires forall k | 0 <= k < |a| :: |a[k].fates| == |w.rows|
    requires forall k | 0 <= k < |b| :: |b[k].fates| == |w.rows|
    ensures Passes(w, a + b) == Passes(Passes(w, a), b)
    ensures Passes(w, [tick]) == ReconcilePass(w, tick.fates, tick.commits)
  {
    assert [tick][..0] == [];
    if b == [] {
      assert a + b == a;
    } else {
      PassesGoOn(w, a, b[..|b| - 1], tick);
      assert (a + b)[..|a + b| - 1] == a + b[..|b| - 1];
    }
  }

  /** An edit is followed up: the next pass judges the row by the pods the edit asks for, and if the edit dropped the
      id, an aggregated serving that serves again is registered again; else the id stays. */
  lemma EditFollowedUp(t: Tracked, drop: bool, n: int, p: int, d: int, s: Sight)
    ensures var next := Next(Next(t, Edit(drop, n, p, d)), Pass(s)).dep;
            && (t.dep.pd ==> (next.status == Ready <==>
                  s.prefill.Some? && s.decode.Some? && Serving(s.prefill.value, p) && Serving(s.decode.value, d)))
            && (!t.dep.pd ==> (next.status == Ready <==> s.single.Some? && Serving(s.single.value, n)))
            && (!drop && t.dep.registered.Some? ==> next.registered == t.dep.registered)
            && (drop && !t.dep.pd ==>
                  next.registered == if next.status == Ready && s.reply.Created? then Some(s.reply.id) else None)
  {
    PdReadyIffBothServe(s.prefill, s.decode, p, d);
    if s.single.Some? { ReadyIffServing(s.single.value, n); }
  }

  /** An id given by hand to a Ready serving stays through every later pass; one that is not Ready takes none. */
  lemma ManualIdStays(t: Tracked, id: string, s: Sight)
    ensures var next := Next(t, Reregister(id));
            if t.dep.status == Ready
            then Next(next, Pass(s)).dep.registered == Some(id) && Registered(id) in next.dep.events
            else next == t
  {
  }
}
