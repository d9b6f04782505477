/** Benchmark runs, their K8s Jobs and their throwaway servings: driven by a worker that may fail
    anywhere, cancelled at any time. */
module BenchmarkRuns {
  import opened Wrappers

  datatype Status = Provisioning | Pending | Running | Succeeded | Failed | Cancelled

  predicate Terminal(s: Status) { s.Succeeded? || s.Failed? || s.Cancelled? }

  function Rank(s: Status): nat {
    if s.Provisioning? then 3 else if s.Pending? then 2 else if s.Running? then 1 else 0
  }

  /** An empty `serving` or `job` stands for a name the run does not have. */
  datatype Row = Row(status: Status, ephemeral: bool, serving: string, job: string, tornDown: bool)

  /** The committed rows, and what exists in the cluster. */
  datatype World = World(rows: seq<Row>, servings: set<string>, jobs: set<string>)

  // How the cluster answers

  datatype ServingSight = ReadyPods(n: int) | NotFound | ReadFails

  datatype CreateReply = Accepted | Rejected | AnswerLost

  datatype JobSight = Gone | Unreadable | NotConfigured
                    | Counts(active: int, succeeded: int, failed: int, logsReadable: bool)

  /** Deleted; refused; or refused as far as the caller knows. */
  datatype DeleteReply = Deleted | Kept | GoneAnyway | Unconfigured

  datatype Fate = Fate(
    serving: ServingSight, create: CreateReply, overdue: bool, job: JobSight,
    teardown: DeleteReply, sweep: DeleteReply)

  datatype Progress = Progress(w: World, aborted: bool)

  function SetRow(w: World, i: nat, row: Row): World
    requires i < |w.rows|
  {
    w.(rows := w.rows[i := row])
  }

  function Teardown(w: World, i: nat, reply: DeleteReply): World
    requires i < |w.rows|
  {
    var row := w.rows[i];
    if row.serving == "" then SetRow(w, i, row.(tornDown := true))
    else if reply.Deleted? then SetRow(w, i, row.(tornDown := true)).(servings := w.servings - {row.serving})
    else if reply.GoneAnyway? then w.(servings := w.servings - {row.serving})
    else w
  }

  predicate SeenReady(f: Fate) { f.serving.ReadyPods? && f.serving.n >= 1 }

  /** What a driver makes of a row: its next status, whether a Job came into being, and whether
      an exception ends the pass there. */
  datatype Verdict = Verdict(status: Status, creates: bool, aborts: bool)

  function DriveProvisioning(row: Row, jobThere: bool, f: Fate): Verdict {
    if row.serving == "" then Verdict(Failed, false, false)
    else if f.serving.ReadFails? then Verdict(row.status, false, true)
    else if SeenReady(f) then
      // The API answers 409 when the Job is already there.
      if jobThere || f.create.Rejected? then Verdict(row.status, false, true)
      else Verdict(Pending, true, f.create.AnswerLost?)
    else Verdict(if f.overdue then Failed else row.status, false, false)
  }

  function DriveJob(row: Row, f: Fate): Verdict {
    if row.job == "" then Verdict(row.status, false, false)
    else match f.job
      case NotConfigured => Verdict(row.status, false, true)
      case Unreadable => Verdict(row.status, false, false)
      case Gone => Verdict(Failed, false, false)
      case Counts(active, succeeded, failed, logsReadable) =>
        if succeeded > 0 || failed > 0 then Verdict(if succeeded > 0 then Succeeded else Failed, false, !logsReadable)
        else if row.status.Pending? && (active != 0 || succeeded != 0 || failed != 0) then Verdict(Running, false, false)
        else Verdict(row.status, false, false)
  }

  function Judge(row: Row, jobThere: bool, f: Fate): Verdict {
    if Terminal(row.status) then Verdict(row.status, false, false)
    else if row.status.Provisioning? then DriveProvisioning(row, jobThere, f)
    else DriveJob(row, f)
  }

  predicate Doomed(row: Row) { row.ephemeral && !row.tornDown && Terminal(row.status) }

  /** Apply a verdict, and tear a run's serving down as soon as the run has ended. */
  function Carry(w: World, i: nat, v: Verdict, teardown: DeleteReply): (r: Progress)
    requires i < |w.rows|
    ensures |r.w.rows| == |w.rows|
  {
    var row := w.rows[i].(status := v.status);
    var jobs := if v.creates then w.jobs + {row.job} else w.jobs;
    if v.aborts then Progress(w.(jobs := jobs), true)
    else
      var next := SetRow(w, i, row).(jobs := jobs);
      Progress(if Doomed(row) && !Terminal(w.rows[i].status) then Teardown(next, i, teardown) else next, false)
  }

  function Drive(w: World, i: nat, f: Fate): (r: Progress)
    requires i < |w.rows|
    ensures |r.w.rows| == |w.rows|
  {
    Carry(w, i, Judge(w.rows[i], w.rows[i].job in w.jobs, f), f.teardown)
  }

  /** The first half of a pass, over the first `n` rows; it stops where it aborts. */
  function DriveAll(w: World, fates: seq<Fate>, n: nat): (r: Progress)
    requires n <= |w.rows| == |fates|
    ensures |r.w.rows| == |w.rows|
  {
    if n == 0 then Progress(w, false)
    else
      var before := DriveAll(w, fates, n - 1);
      if before.aborted then before else Drive(before.w, n - 1, fates[n - 1])
  }

  function Sweep(w: World, fates: seq<Fate>, n: nat): (r: World)
    requires n <= |w.rows| == |fates|
    ensures |r.rows| == |w.rows|
  {
    if n == 0 then w
    else
      var before := Sweep(w, fates, n - 1);
      if Doomed(before.rows[n - 1]) then Teardown(before, n - 1, fates[n - 1].sweep) else before
  }

  /** A pass commits its rows at the very end, if it gets there and the commit goes through; what it did to
      the cluster stays done. */
  function Pass(w: World, fates: seq<Fate>, commits: bool): World
    requires |fates| == |w.rows|
  {
    var driven := DriveAll(w, fates, |w.rows|);
    if driven.aborted then driven.w.(rows := w.rows)
    else
      var swept := Sweep(driven.w, fates, |w.rows|);
      if commits then swept else swept.(rows := w.rows)
  }

  function Cancel(w: World, i: nat, jobReply: DeleteReply, servingReply: DeleteReply): World
    requires i < |w.rows|
  {
    var row := w.rows[i];
    if Terminal(row.status) || (row.job != "" && jobReply.Unconfigured?) then w
    else
      var jobs := if row.job != "" && !jobReply.Kept? then w.jobs - {row.job} else w.jobs;
      var named := row.ephemeral && row.serving != "" && !row.tornDown;
      var gone := named && (servingReply.Deleted? || servingReply.GoneAnyway?);
      World(w.rows[i := row.(status := Cancelled, tornDown := row.tornDown || (named && servingReply.Deleted?))],
            if gone then w.servings - {row.serving} else w.servings, jobs)
  }

  class Benchmarks {
    var rows: seq<Row>
    var servings: set<string>
    var jobs: set<string>

    constructor ()
      ensures Snapshot() == World([], {}, {})
    {
      rows, servings, jobs := [], {}, {};
    }

    function Snapshot(): World
      reads this
    {
      World(rows, servings, jobs)
    }

    method TeardownServing(session: seq<Row>, i: nat, reply: DeleteReply) returns (after: seq<Row>)
      requires i < |session|
      modifies this`servings
      ensures World(after, servings, jobs) == Teardown(World(session, old(servings), jobs), i, reply)
    {
      after := session;
      if session[i].serving == "" {
        after := session[i := session[i].(tornDown := true)];
        return;
      }
      if reply.Deleted? || reply.GoneAnyway? {
        servings := servings - {session[i].serving};
      }
      if reply.Deleted? {
        after := session[i := session[i].(tornDown := true)];
      }
    }

    method DriveOne(session: seq<Row>, i: nat, f: Fate) returns (after: seq<Row>, aborted: bool)
      requires i < |session|
      modifies this`servings, this`jobs
      ensures Progress(World(after, servings, jobs), aborted) == Drive(World(session, old(servings), old(jobs)), i, f)
    {
      after, aborted := session, false;
      var row := session[i];
      if Terminal(row.status) {
        return;
      }
      if row.status.Provisioning? {
        if row.serving == "" {
          row := row.(status := Failed);
        } else if f.serving.ReadFails? {
          aborted := true;
        } else if SeenReady(f) {
          if row.job in jobs || f.create.Rejected? {
            aborted := true;
          } else {
            jobs := jobs + {row.job};
            row := row.(status := Pending);
            aborted := f.create.AnswerLost?;
          }
        } else if f.overdue {
          row := row.(status := Failed);
        }
      } else if row.job != "" {
        match f.job
        case NotConfigured => aborted := true;
        case Unreadable =>
        case Gone => row := row.(status := Failed);
        case Counts(active, succeeded, failed, logsReadable) =>
          if row.status.Pending? && (active != 0 || succeeded != 0 || failed != 0) {
            row := row.(status := Running);
          }
          if succeeded > 0 || failed > 0 {
            row := row.(status := if succeeded > 0 then Succeeded else Failed);
            aborted := !logsReadable;
          }
      }
      if aborted {
        return;
      }
      after := session[i := row];
      if Doomed(row) {
        after := TeardownServing(after, i, f.teardown);
      }
    }

    method ReconcileOnce(fates: seq<Fate>, commits: bool)
      requires |fates| == |rows|
      modifies this
      ensures Snapshot() == Pass(old(Snapshot()), fates, commits)
    {
      ghost var w := Snapshot();
      var session := rows;
      var aborted := false;
      for i := 0 to |rows|
        invariant rows == w.rows && |session| == |rows| && !aborted
        invariant Progress(World(session, servings, jobs), false) == DriveAll(w, fates, i)
      {
        session, aborted := DriveOne(session, i, fates[i]);
        if aborted {
          AbortStays(w, fates, i + 1);
          return;
        }
      }
      ghost var driven := World(session, servings, jobs);
      for i := 0 to |rows|
        invariant rows == w.rows && |session| == |rows|
        invariant World(session, servings, jobs) == Sweep(driven, fates, i)
      {
        if Doomed(session[i]) {
          session := TeardownServing(session, i, fates[i].sweep);
        }
      }
      if commits {
        rows := session;
      }
    }

    method CancelRun(i: nat, jobReply: DeleteReply, servingReply: DeleteReply)
      requires i < |rows|
      modifies this
      ensures Snapshot() == Cancel(old(Snapshot()), i, jobReply, servingReply)
    {
      var row := rows[i];
      if Terminal(row.status) {
        return;
      }
      if row.job != "" {
        if jobReply.Unconfigured? {
          return;
        }
        if !jobReply.Kept? {
          jobs := jobs - {row.job};
        }
      }
      if row.ephemeral && row.serving != "" && !row.tornDown {
        if servingReply.Deleted? || servingReply.GoneAnyway? {
          servings := servings - {row.serving};
        }
        if servingReply.Deleted? {
          row := row.(tornDown := true);
        }
      }
      rows := rows[i := row.(status := Cancelled)];
    }
  }

  lemma {:induction false} AbortStays(w: World, fates: seq<Fate>, n: nat)
    requires n <= |w.rows| == |fates| && DriveAll(w, fates, n).aborted
    ensures DriveAll(w, fates, |w.rows|) == DriveAll(w, fates, n)
    decreases |w.rows| - n
  {
    if n < |w.rows| { AbortStays(w, fates, n + 1); }
  }

  // Runs

  /** A throwaway serving and its row come into being together. Job names are made from the runs' own ids. */
  datatype Event =
    | CreateProvisioned(serving: string, job: string)
    | CreateWithJob(ephemeral: bool, job: string)
    | WorkerPass(fates: seq<Fate>, commits: bool)
    | CancelRun(i: nat, jobReply: DeleteReply, servingReply: DeleteReply)

  predicate IsNewJob(w: World, job: string) {
    job != "" && job !in w.jobs && forall i | 0 <= i < |w.rows| :: w.rows[i].job != job
  }

  predicate Applicable(w: World, e: Event) {
    match e
    case CreateProvisioned(serving, job) => serving != "" && serving !in w.servings && IsNewJob(w, job)
    case CreateWithJob(_, job) => IsNewJob(w, job)
    case WorkerPass(fates, _) => |fates| == |w.rows|
    case CancelRun(i, _, _) => i < |w.rows|
  }

  function Next(w: World, e: Event): World
    requires Applicable(w, e)
  {
    match e
    case CreateProvisioned(serving, job) =>
      World(w.rows + [Row(Provisioning, true, serving, job, false)], w.servings + {serving}, w.jobs)
    case CreateWithJob(ephemeral, job) =>
      World(w.rows + [Row(Pending, ephemeral, "", job, ephemeral)], w.servings, w.jobs + {job})
    case WorkerPass(fates, commits) => Pass(w, fates, commits)
    case CancelRun(i, jobReply, servingReply) => Cancel(w, i, jobReply, servingReply)
  }

  /** A run of worlds, each the next of the one before. */
  ghost predicate History(ws: seq<World>, events: seq<Event>) {
    && |ws| == |events| + 1
    && forall k | 0 <= k < |events| :: Applicable(ws[k], events[k]) && ws[k + 1] == Next(ws[k], events[k])
  }

  /** Every serving in the cluster is named by a row that still means to tear it down. */
  ghost predicate Accounted(w: World) {
    "" !in w.servings && forall s | s in w.servings :: Named(w.rows, s)
  }

  ghost predicate Named(rows: seq<Row>, s: string) {
    exists i | 0 <= i < |rows| :: rows[i].ephemeral && rows[i].serving == s && !rows[i].tornDown
  }

  /** A row may only move on: its rank never rises and a terminal status is final; its names stay. */
  predicate MovesOn(a: Row, b: Row) {
    && Rank(b.status) <= Rank(a.status) && (Terminal(a.status) ==> b.status == a.status)
    && b.serving == a.serving && b.job == a.job && b.ephemeral == a.ephemeral
    && (a.tornDown ==> b.tornDown)
  }

  ghost predicate Advances(v: World, w: World) {
    |v.rows| <= |w.rows| && forall i | 0 <= i < |v.rows| :: MovesOn(v.rows[i], w.rows[i])
  }

  /** A change at row `i` only, that takes away its serving if it is torn down and maybe otherwise. */
  ghost predicate LocalStep(v: World, w: World, i: nat) {
    && i < |v.rows| == |w.rows| && MovesOn(v.rows[i], w.rows[i])
    && (forall j | 0 <= j < |v.rows| && j != i :: w.rows[j] == v.rows[j])
    && v.servings - {v.rows[i].serving} <= w.servings <= v.servings
    && (w.rows[i].tornDown != v.rows[i].tornDown ==> v.rows[i].serving !in w.servings)
  }

  lemma LocalKeeps(v: World, w: World, i: nat)
    requires Accounted(v) && LocalStep(v, w, i)
    ensures Accounted(w) && Advances(v, w)
  {
  }

  lemma DriveIsLocal(w: World, i: nat, f: Fate)
    requires i < |w.rows| && "" !in w.servings
    ensures LocalStep(w, Drive(w, i, f).w, i)
  {
  }

  lemma AdvancesTransitive(u: World, v: World, w: World)
    requires Advances(u, v) && Advances(v, w)
    ensures Advances(u, w)
  {
  }

  lemma DriveKeeps(u: World, w: World, i: nat, f: Fate)
    requires i < |w.rows| && Accounted(w) && Advances(u, w)
    ensures var r := Drive(w, i, f).w;
            Accounted(r) && Advances(u, r) && r.servings <= w.servings
  {
    DriveIsLocal(w, i, f);
    LocalKeeps(w, Drive(w, i, f).w, i);
    AdvancesTransitive(u, w, Drive(w, i, f).w);
  }

  /** One more row driven, or none after an abort. */
  lemma DriveStep(w: World, fates: seq<Fate>, n: nat, before: World) returns (after: World)
    requires n < |w.rows| == |fates| && before == DriveAll(w, fates, n).w
    requires Accounted(before) && Advances(w, before)
    ensures after == DriveAll(w, fates, n + 1).w
    ensures Accounted(after) && Advances(w, after) && after.servings <= before.servings
  {
    after := DriveAll(w, fates, n + 1).w;
    if !DriveAll(w, fates, n).aborted { DriveKeeps(w, before, n, fates[n]); }
  }

  /** The world after driving the first rows keeps what was accounted for. */
  lemma {:induction false} DriveAllWorld(w: World, fates: seq<Fate>, n: nat) returns (r: World)
    requires n <= |w.rows| == |fates| && Accounted(w)
    ensures r == DriveAll(w, fates, n).w
    ensures Accounted(r) && Advances(w, r) && r.servings <= w.servings
  {
    if n == 0 {
      r := w;
      assert Advances(w, w);
    } else {
      var before := DriveAllWorld(w, fates, n - 1);
      r := DriveStep(w, fates, n - 1, before);
    }
  }

  lemma {:induction false} SweepKeeps(w: World, fates: seq<Fate>, n: nat)
    requires n <= |w.rows| == |fates| && Accounted(w)
    ensures Accounted(Sweep(w, fates, n)) && Advances(w, Sweep(w, fates, n))
    ensures Sweep(w, fates, n).servings <= w.servings
  {
    if n > 0 {
      SweepKeeps(w, fates, n - 1);
      var before, after := Sweep(w, fates, n - 1), Sweep(w, fates, n);
      if Doomed(before.rows[n - 1]) {
        LocalKeeps(before, after, n - 1);
        AdvancesTransitive(w, before, after);
      }
    }
  }

  lemma PassKeeps(w: World, fates: seq<Fate>, commits: bool)
    requires |fates| == |w.rows| && Accounted(w)
    ensures Accounted(Pass(w, fates, commits)) && Advances(w, Pass(w, fates, commits))
  {
    var driven := DriveAll(w, fates, |w.rows|);
    var reached := DriveAllWorld(w, fates, |w.rows|);
    if !driven.aborted {
      SweepKeeps(driven.w, fates, |w.rows|);
      AdvancesTransitive(w, driven.w, Sweep(driven.w, fates, |w.rows|));
    }
    UncommittedKeeps(w, Pass(w, fates, commits));
  }

  /** Servings that go while no row changes leave the rest accounted for. */
  lemma UncommittedKeeps(w: World, next: World)
    requires Accounted(w) && next.servings <= w.servings
    ensures next.rows == w.rows ==> Accounted(next) && Advances(w, next)
  {
    if next.rows == w.rows {
      assert forall s | s in next.servings :: Named(next.rows, s);
    }
  }

  lemma NextKeeps(w: World, e: Event)
    requires Accounted(w) && Applicable(w, e)
    ensures Accounted(Next(w, e)) && Advances(w, Next(w, e))
  {
    var next := Next(w, e);
    match e {
      case CreateProvisioned(serving, job) =>
        forall s | s in next.servings ensures Named(next.rows, s) { AppendNames(w, next, s, serving); }
      case CreateWithJob(_, _) =>
        forall s | s in next.servings ensures Named(next.rows, s) { AppendNames(w, next, s, ""); }
      case WorkerPass(fates, commits) => PassKeeps(w, fates, commits);
      case CancelRun(i, _, _) =>
        LocalKeeps(w, next, i);
    }
  }

  lemma AppendNames(w: World, next: World, s: string, added: string)
    requires |next.rows| == |w.rows| + 1 && next.rows[..|w.rows|] == w.rows
    requires s == added ==> next.rows[|w.rows|].ephemeral && next.rows[|w.rows|].serving == s && !next.rows[|w.rows|].tornDown
    requires s != added ==> Named(w.rows, s)
    ensures Named(next.rows, s)
  {
  }

  /** Over every history: no serving is ever left in the cluster without a row that will still tear it
      down, no run's rank rises, and a terminal run stays as it ended. */
  lemma {:induction false} HistoryKeeps(ws: seq<World>, events: seq<Event>, k: nat, l: nat)
    requires History(ws, events) && Accounted(ws[0]) && k <= l < |ws|
    ensures Accounted(ws[l]) && Advances(ws[k], ws[l])
    decreases l
  {
    if l == k {
      if l > 0 {
        HistoryKeeps(ws, events, k - 1, l - 1);
        NextKeeps(ws[l - 1], events[l - 1]);
      }
    } else {
      HistoryKeeps(ws, events, k, l - 1);
      NextKeeps(ws[l - 1], events[l - 1]);
      AdvancesTransitive(ws[k], ws[l - 1], ws[l]);
    }
  }

  /** The sweep of a pass that commits finds every run that ended with its serving still there: if
      the cluster deletes it, it is gone. */
  lemma {:induction false} SweepReaches(w: World, fates: seq<Fate>, n: nat, i: nat)
    requires n <= |w.rows| == |fates| && i < |w.rows| && "" !in w.servings
    ensures Sweep(w, fates, n).servings <= w.servings
    ensures i >= n ==> Sweep(w, fates, n).rows[i] == w.rows[i]
    ensures i < n && Doomed(w.rows[i]) && fates[i].sweep.Deleted? ==>
              Sweep(w, fates, n).rows[i].tornDown && w.rows[i].serving !in Sweep(w, fates, n).servings
  {
    if n > 0 { SweepReaches(w, fates, n - 1, i); }
  }

  /** A pass creates a Job only for a provisioning run whose serving it saw ready. */
  lemma {:induction false} JobsOnlyForReady(w: World, fates: seq<Fate>, n: nat, job: string)
    requires n <= |w.rows| == |fates|
    requires job in DriveAll(w, fates, n).w.jobs && job !in w.jobs
    ensures exists i | 0 <= i < n :: w.rows[i].status.Provisioning? && w.rows[i].job == job && SeenReady(fates[i])
  {
    if n > 0 {
      var before := DriveAll(w, fates, n - 1);
      DriveAllLeavesRest(w, fates, n - 1, n - 1);
      if job in before.w.jobs {
        JobsOnlyForReady(w, fates, n - 1, job);
      }
    }
  }

  lemma {:induction false} DriveAllLeavesRest(w: World, fates: seq<Fate>, n: nat, i: nat)
    requires n <= i < |w.rows| == |fates|
    ensures DriveAll(w, fates, n).w.rows[i] == w.rows[i]
  {
    if n > 0 { DriveAllLeavesRest(w, fates, n - 1, i); }
  }

  /** In a pass that does not abort, a row is what its own turn made of it. */
  lemma {:induction false} DriveAllRow(w: World, fates: seq<Fate>, n: nat, i: nat)
    requires i < n <= |w.rows| == |fates| && !DriveAll(w, fates, n).aborted
    ensures var mid := DriveAll(w, fates, i);
            && !mid.aborted && mid.w.rows[i] == w.rows[i]
            && !Drive(mid.w, i, fates[i]).aborted
            && DriveAll(w, fates, n).w.rows[i] == Drive(mid.w, i, fates[i]).w.rows[i]
  {
    if i == n - 1 {
      DriveAllLeavesRest(w, fates, i, i);
    } else {
      DriveAllRow(w, fates, n - 1, i);
      DriveTouchesOne(DriveAll(w, fates, n - 1).w, n - 1, fates[n - 1], i);
    }
  }

  lemma DriveTouchesOne(w: World, i: nat, f: Fate, j: nat)
    requires i < |w.rows| && j < |w.rows| && i != j
    ensures Drive(w, i, f).w.rows[j] == w.rows[j]
  {
  }

  lemma {:induction false} SweepKeepsStatus(w: World, fates: seq<Fate>, n: nat, i: nat)
    requires n <= |w.rows| == |fates| && i < |w.rows|
    ensures Sweep(w, fates, n).rows[i].status == w.rows[i].status
    ensures Sweep(w, fates, n).rows[i].job == w.rows[i].job && Sweep(w, fates, n).rows[i].serving == w.rows[i].serving
  {
    if n > 0 { SweepKeepsStatus(w, fates, n - 1, i); }
  }

  predicate HasJob(row: Row) { (row.status.Pending? || row.status.Running?) && row.job != "" }

  predicate EndsAs(job: JobSight, was: Status, now: Status) {
    && (now == Running <==>
          !Terminal(now) && (was == Running || (job.Counts? && (job.active != 0 || job.succeeded != 0 || job.failed != 0))))
    && (now == Succeeded <==> job.Counts? && job.succeeded > 0)
    && (now == Failed <==> job.Gone? || (job.Counts? && job.succeeded <= 0 && job.failed > 0))
    && !now.Cancelled? && !now.Provisioning?
  }

  lemma JudgedByJob(row: Row, there: bool, f: Fate)
    requires HasJob(row) && !Judge(row, there, f).aborts
    ensures EndsAs(f.job, row.status, Judge(row, there, f).status)
  {
  }

  lemma DriveJudges(w: World, i: nat, f: Fate) returns (there: bool)
    requires i < |w.rows| && !Drive(w, i, f).aborted
    ensures Drive(w, i, f).w.rows[i].status == Judge(w.rows[i], there, f).status && !Judge(w.rows[i], there, f).aborts
  {
    there := w.rows[i].job in w.jobs;
  }

  /** A pass that commits leaves a run with a Job as its Job was seen: succeeded if any pod was, failed if
      only failures were seen or the Job is gone, and else running once it was seen to. */
  lemma PassOutcome(w: World, fates: seq<Fate>, i: nat)
    requires i < |w.rows| == |fates| && HasJob(w.rows[i])
    requires !DriveAll(w, fates, |w.rows|).aborted
    ensures EndsAs(fates[i].job, w.rows[i].status, Pass(w, fates, true).rows[i].status)
  {
    DriveAllRow(w, fates, |w.rows|, i);
    var there := DriveJudges(DriveAll(w, fates, i).w, i, fates[i]);
    JudgedByJob(w.rows[i], there, fates[i]);
    SweepKeepsStatus(DriveAll(w, fates, |w.rows|).w, fates, |w.rows|, i);
  }

  /** Cancelling ends a run for good: with a cluster that deletes, neither its Job nor its serving is left. */
  lemma CancelLeavesNothing(w: World, i: nat)
    requires i < |w.rows| && !Terminal(w.rows[i].status) && Accounted(w)
    requires w.rows[i].tornDown ==> w.rows[i].serving !in w.servings
    requires w.rows[i].serving in w.servings ==> w.rows[i].ephemeral
    ensures var row, next := w.rows[i], Cancel(w, i, Deleted, Deleted);
            && next.rows[i].status == Cancelled && (row.job != "" ==> row.job !in next.jobs)
            && row.serving !in next.servings
            && (forall j | 0 <= j < |w.rows| && j != i :: next.rows[j] == w.rows[j])
            && next.servings == w.servings - {row.serving} && next.jobs == w.jobs - (if row.job == "" then {} else {row.job})
  {
  }

  // When a pass commits, and what one that does not leaves behind

  /** No two runs have the same Job name. */
  ghost predicate JobsApart(rows: seq<Row>) {
    && (forall i | 0 <= i < |rows| :: rows[i].job != "")
    && forall i, j | 0 <= i < j < |rows| :: rows[i].job != rows[j].job
  }

  lemma NextKeepsApart(w: World, e: Event)
    requires Accounted(w) && JobsApart(w.rows) && Applicable(w, e)
    ensures JobsApart(Next(w, e).rows)
  {
    NextKeeps(w, e);
    var next := Next(w, e);
    forall i | 0 <= i < |w.rows| ensures next.rows[i].job == w.rows[i].job {
      assert MovesOn(w.rows[i], next.rows[i]);
    }
  }

  lemma {:induction false} HistoryKeepsApart(ws: seq<World>, events: seq<Event>, k: nat)
    requires History(ws, events) && Accounted(ws[0]) && JobsApart(ws[0].rows) && k < |ws|
    ensures JobsApart(ws[k].rows)
  {
    if k > 0 {
      HistoryKeepsApart(ws, events, k - 1);
      HistoryKeeps(ws, events, 0, k - 1);
      NextKeepsApart(ws[k - 1], events[k - 1]);
    }
  }

  /** By itself, row `i` would end the pass. */
  predicate Blocks(w: World, fates: seq<Fate>, i: nat)
    requires i < |w.rows| == |fates|
  {
    Judge(w.rows[i], w.rows[i].job in w.jobs, fates[i]).aborts
  }

  /** The pass gets to row `i` and creates its Job. */
  ghost predicate JobCreated(w: World, fates: seq<Fate>, i: nat)
    requires i < |w.rows| == |fates|
  {
    (forall j | 0 <= j < i :: !Blocks(w, fates, j)) && Judge(w.rows[i], w.rows[i].job in w.jobs, fates[i]).creates
  }

  lemma {:induction false} JobsStay(w: World, fates: seq<Fate>, n: nat)
    requires n <= |w.rows| == |fates|
    ensures w.jobs <= DriveAll(w, fates, n).w.jobs
  {
    if n > 0 { JobsStay(w, fates, n - 1); }
  }

  /** A row that blocks ends the pass, there or earlier. */
  lemma BlockedAborts(w: World, fates: seq<Fate>, i: nat)
    requires i < |w.rows| == |fates| && Blocks(w, fates, i)
    ensures DriveAll(w, fates, |w.rows|).aborted
  {
    BlockedByThen(w, fates, i);
    AbortStays(w, fates, i + 1);
  }

  /** A Job that is there can only make a row end the pass that would not without it. */
  lemma ThereAborts(row: Row, there: bool, now: bool, f: Fate)
    requires Judge(row, there, f).aborts && (there ==> now)
    ensures Judge(row, now, f).aborts
  {
  }

  lemma BlockedByThen(w: World, fates: seq<Fate>, i: nat)
    requires i < |w.rows| == |fates| && Blocks(w, fates, i)
    ensures DriveAll(w, fates, i + 1).aborted
  {
    var mid := DriveAll(w, fates, i).w;
    DriveAllLeavesRest(w, fates, i, i);
    JobsStay(w, fates, i);
    ThereAborts(w.rows[i], w.rows[i].job in w.jobs, w.rows[i].job in mid.jobs, fates[i]);
  }

  /** Until its turn, nobody creates a row's Job. */
  lemma JobNotYet(w: World, fates: seq<Fate>, n: nat, i: nat)
    requires n <= i < |w.rows| == |fates| && JobsApart(w.rows)
    ensures w.rows[i].job in DriveAll(w, fates, n).w.jobs <==> w.rows[i].job in w.jobs
  {
    JobsStay(w, fates, n);
    if w.rows[i].job in DriveAll(w, fates, n).w.jobs && w.rows[i].job !in w.jobs {
      JobsOnlyForReady(w, fates, n, w.rows[i].job);
    }
  }

  lemma AbortStep(w: World, fates: seq<Fate>, n: nat)
    requires n < |w.rows| == |fates| && JobsApart(w.rows)
    ensures DriveAll(w, fates, n + 1).aborted <==> DriveAll(w, fates, n).aborted || Blocks(w, fates, n)
  {
    DriveAllLeavesRest(w, fates, n, n);
    JobNotYet(w, fates, n, n);
    if Blocks(w, fates, n) { BlockedByThen(w, fates, n); }
  }

  /** Driving the first rows aborts exactly if one of them, by itself, ends the pass. */
  lemma {:induction false} AbortsIff(w: World, fates: seq<Fate>, n: nat)
    requires n <= |w.rows| == |fates| && JobsApart(w.rows)
    ensures DriveAll(w, fates, n).aborted <==> exists i | 0 <= i < n :: Blocks(w, fates, i)
  {
    if n > 0 {
      AbortsIff(w, fates, n - 1);
      AbortStep(w, fates, n - 1);
    }
  }

  predicate Commits(w: World, fates: seq<Fate>, commits: bool)
    requires |fates| == |w.rows|
  {
    commits && !DriveAll(w, fates, |w.rows|).aborted
  }

  /** A pass commits exactly if its commit goes through and no row ends it; else no row changes. */
  lemma CommitsIff(w: World, fates: seq<Fate>, commits: bool)
    requires |fates| == |w.rows| && JobsApart(w.rows)
    ensures Commits(w, fates, commits) <==> commits && forall i | 0 <= i < |w.rows| :: !Blocks(w, fates, i)
    ensures !Commits(w, fates, commits) ==> Pass(w, fates, commits).rows == w.rows
  {
    AbortsIff(w, fates, |w.rows|);
  }

  /** A provisioning run whose Job is already there. */
  predicate Stranded(w: World, i: nat)
    requires i < |w.rows|
  {
    w.rows[i].status.Provisioning? && w.rows[i].serving != "" && w.rows[i].job in w.jobs
  }

  lemma JobAt(w: World, fates: seq<Fate>, i: nat)
    requires i < |w.rows| == |fates| && JobsApart(w.rows)
    ensures w.rows[i].job in DriveAll(w, fates, i + 1).w.jobs <==> w.rows[i].job in w.jobs || JobCreated(w, fates, i)
  {
    AbortsIff(w, fates, i);
    DriveAllLeavesRest(w, fates, i, i);
    JobNotYet(w, fates, i, i);
  }

  lemma DriveAddsOwnJob(w: World, i: nat, f: Fate)
    requires i < |w.rows|
    ensures w.jobs <= Drive(w, i, f).w.jobs <= w.jobs + {w.rows[i].job}
  {
  }

  lemma {:induction false} JobAppearsIff(w: World, fates: seq<Fate>, n: nat, i: nat)
    requires i < n <= |w.rows| == |fates| && JobsApart(w.rows)
    ensures w.rows[i].job in DriveAll(w, fates, n).w.jobs <==> w.rows[i].job in w.jobs || JobCreated(w, fates, i)
  {
    if i == n - 1 {
      JobAt(w, fates, i);
    } else {
      JobAppearsIff(w, fates, n - 1, i);
      DriveAllLeavesRest(w, fates, n - 1, n - 1);
      DriveAddsOwnJob(DriveAll(w, fates, n - 1).w, n - 1, fates[n - 1]);
    }
  }

  lemma {:induction false} SweepKeepsJobs(w: World, fates: seq<Fate>, n: nat)
    requires n <= |w.rows| == |fates|
    ensures Sweep(w, fates, n).jobs == w.jobs
  {
    if n > 0 { SweepKeepsJobs(w, fates, n - 1); }
  }

  /** A pass strands a run exactly if it creates the run's Job and then does not commit. */
  lemma StrandsIff(w: World, fates: seq<Fate>, commits: bool, i: nat)
    requires i < |w.rows| == |fates| && JobsApart(w.rows) && !Stranded(w, i)
    ensures i < |Pass(w, fates, commits).rows|
    ensures Stranded(Pass(w, fates, commits), i) <==> JobCreated(w, fates, i) && !Commits(w, fates, commits)
  {
    var driven := DriveAll(w, fates, |w.rows|);
    JobAppearsIff(w, fates, |w.rows|, i);
    SweepKeepsJobs(driven.w, fates, |w.rows|);
    if Commits(w, fates, commits) {
      CommittedMoves(w, fates, i);
    }
  }

  lemma CommittedMoves(w: World, fates: seq<Fate>, i: nat)
    requires i < |w.rows| == |fates| && JobsApart(w.rows) && Commits(w, fates, true)
    ensures var next := Pass(w, fates, true).rows[i];
            && next.job == w.rows[i].job
            && (JobCreated(w, fates, i) ==> !next.status.Provisioning?)
            && (next.status.Provisioning? ==> w.rows[i].status.Provisioning? && next.serving == w.rows[i].serving)
  {
    var mid := DriveAll(w, fates, i);
    DriveAllRow(w, fates, |w.rows|, i);
    JobNotYet(w, fates, i, i);
    DriveMoves(mid.w, i, fates[i]);
    SweepKeepsStatus(DriveAll(w, fates, |w.rows|).w, fates, |w.rows|, i);
  }

  lemma DriveMoves(w: World, i: nat, f: Fate)
    requires i < |w.rows| && !Drive(w, i, f).aborted
    ensures var row, next := w.rows[i], Drive(w, i, f).w.rows[i];
            && next.job == row.job && next.serving == row.serving
            && (Judge(row, row.job in w.jobs, f).creates ==> !next.status.Provisioning?)
            && (next.status.Provisioning? ==> row.status.Provisioning?)
  {
  }

  /** A stranded run blocks the worker: every pass that sees its serving ready ends there or earlier, and commits
      nothing. */
  lemma StrandedJobBlocks(w: World, fates: seq<Fate>, commits: bool, i: nat)
    requires i < |w.rows| == |fates| && Stranded(w, i) && SeenReady(fates[i])
    ensures Pass(w, fates, commits).rows == w.rows && Stranded(Pass(w, fates, commits), i)
  {
    BlockedAborts(w, fates, i);
    JobsStay(w, fates, |w.rows|);
  }

  /** And it does so for good: no number of such passes changes a row. */
  lemma {:induction false} StrandedForGood(ws: seq<World>, events: seq<Event>, k: nat, i: nat)
    requires History(ws, events) && k < |ws| && i < |ws[0].rows| && Stranded(ws[0], i)
    requires forall m | 0 <= m < |events| ::
               events[m].WorkerPass? && |events[m].fates| == |ws[0].rows| && SeenReady(events[m].fates[i])
    ensures ws[k].rows == ws[0].rows && Stranded(ws[k], i)
  {
    if k > 0 {
      StrandedForGood(ws, events, k - 1, i);
      StrandedJobBlocks(ws[k - 1], events[k - 1].fates, events[k - 1].commits, i);
    }
  }

  const QUIET := Fate(ReadyPods(1), Accepted, false, Unreadable, Deleted, Deleted)

  /** It does come to that: two runs, and a pass that creates the first one's Job before the second serving
      cannot be read. */
  lemma StrandedIsReached()
    ensures exists ws: seq<World>, events ::
              |ws| == 4 && History(ws, events) && ws[0] == World([], {}, {}) && |ws[3].rows| > 0 && Stranded(ws[3], 0)
  {
    var w0 := World([], {}, {});
    var e0, e1 := CreateProvisioned("s", "j"), CreateProvisioned("t", "k");
    var fates := [QUIET, QUIET.(serving := ReadFails)];
    var w1 := Next(w0, e0);
    assert IsNewJob(w1, "k") && "t" !in w1.servings;
    var w2 := Next(w1, e1);
    var w3 := Next(w2, WorkerPass(fates, true));
    assert w2.rows == [Row(Provisioning, true, "s", "j", false), Row(Provisioning, true, "t", "k", false)];
    assert JobsApart(w2.rows);
    StrandsIff(w2, fates, true, 0);
    AbortsIff(w2, fates, 2);
    assert Blocks(w2, fates, 1);
    assert JobCreated(w2, fates, 0);
    assert History([w0, w1, w2, w3], [e0, e1, WorkerPass(fates, true)]);
  }

  // What a pass that commits and a cancel do, branch by branch

  lemma DriveCreates(w: World, i: nat, f: Fate)
    requires i < |w.rows| && Judge(w.rows[i], w.rows[i].job in w.jobs, f).creates
    ensures w.rows[i].job in Drive(w, i, f).w.jobs
  {
  }

  lemma {:induction false} JobsGrow(w: World, fates: seq<Fate>, m: nat, n: nat)
    requires m <= n <= |w.rows| == |fates|
    ensures DriveAll(w, fates, m).w.jobs <= DriveAll(w, fates, n).w.jobs
    decreases n
  {
    if m < n { JobsGrow(w, fates, m, n - 1); }
  }

  lemma ProvisioningJudged(row: Row, there: bool, f: Fate)
    requires row.status == Provisioning && !Judge(row, there, f).aborts
    ensures var v, ready := Judge(row, there, f), f.serving.ReadyPods? && f.serving.n >= 1;
            && (v.status == Failed <==> row.serving == "" || (!ready && f.overdue))
            && (v.status == Pending <==> row.serving != "" && ready) && (v.creates <==> v.status == Pending)
            && (v.status == Provisioning <==> row.serving != "" && !ready && !f.overdue)
  {
  }

  /** A provisioning run, after a pass that commits: it has its Job and waits for it if its serving was seen ready,
      it has failed if it has no serving or is overdue, and else it is still provisioning. */
  lemma ProvisioningOutcome(w: World, fates: seq<Fate>, i: nat)
    requires i < |w.rows| == |fates| && w.rows[i].status == Provisioning && Commits(w, fates, true)
    ensures var row, f, next := w.rows[i], fates[i], Pass(w, fates, true);
            var ready, now := f.serving.ReadyPods? && f.serving.n >= 1, next.rows[i].status;
            && (now == Failed <==> row.serving == "" || (!ready && f.overdue))
            && (now == Pending <==> row.serving != "" && ready)
            && (now == Provisioning <==> row.serving != "" && !ready && !f.overdue)
            && (now == Pending ==> row.job in next.jobs)
  {
    var mid, driven := DriveAll(w, fates, i).w, DriveAll(w, fates, |w.rows|).w;
    DriveAllRow(w, fates, |w.rows|, i);
    var there := DriveJudges(mid, i, fates[i]);
    ProvisioningJudged(w.rows[i], mid.rows[i].job in mid.jobs, fates[i]);
    ProvisioningJudged(w.rows[i], there, fates[i]);
    if Judge(w.rows[i], mid.rows[i].job in mid.jobs, fates[i]).creates { DriveCreates(mid, i, fates[i]); }
    JobsGrow(w, fates, i + 1, |w.rows|);
    SweepKeepsStatus(driven, fates, |w.rows|, i);
    SweepKeepsJobs(driven, fates, |w.rows|);
  }

  /** A serving is gone from the cluster only on behalf of a run that ended and was not torn down before. */
  ghost predicate GoneForEnded(w: World, next: World) {
    forall s | s in w.servings && s !in next.servings :: EndedWith(w.rows, next.rows, s)
  }

  ghost predicate EndedWith(was: seq<Row>, rows: seq<Row>, s: string) {
    exists i | 0 <= i < |was| && i < |rows| ::
      rows[i].ephemeral && rows[i].serving == s && Terminal(rows[i].status) && !was[i].tornDown
  }

  lemma EndedStays(u: World, v: World, w: World, s: string)
    requires EndedWith(u.rows, v.rows, s) && Advances(v, w)
    ensures EndedWith(u.rows, w.rows, s)
  {
    var i :| 0 <= i < |u.rows| && i < |v.rows| && v.rows[i].ephemeral && v.rows[i].serving == s
             && Terminal(v.rows[i].status) && !u.rows[i].tornDown;
    assert MovesOn(v.rows[i], w.rows[i]);
  }

  lemma EndedSince(u: World, v: World, w: World, s: string)
    requires Advances(u, v) && |u.rows| == |v.rows| && EndedWith(v.rows, w.rows, s)
    ensures EndedWith(u.rows, w.rows, s)
  {
    var i :| 0 <= i < |v.rows| && i < |w.rows| && w.rows[i].ephemeral && w.rows[i].serving == s
             && Terminal(w.rows[i].status) && !v.rows[i].tornDown;
    assert MovesOn(u.rows[i], v.rows[i]);
  }

  lemma GoneThen(u: World, v: World, w: World)
    requires GoneForEnded(u, v) && GoneForEnded(v, w) && Advances(u, v) && Advances(v, w) && |u.rows| == |v.rows|
    ensures GoneForEnded(u, w) && Advances(u, w)
  {
    AdvancesTransitive(u, v, w);
    forall s | s in u.servings && s !in w.servings ensures EndedWith(u.rows, w.rows, s) {
      if s !in v.servings { EndedStays(u, v, w, s); } else { EndedSince(u, v, w, s); }
    }
  }

  lemma DriveGone(w: World, i: nat, f: Fate)
    requires i < |w.rows| && Accounted(w) && !Drive(w, i, f).aborted
    ensures GoneForEnded(w, Drive(w, i, f).w) && Accounted(Drive(w, i, f).w) && Advances(w, Drive(w, i, f).w)
  {
    var next := Drive(w, i, f).w;
    DriveIsLocal(w, i, f);
    LocalKeeps(w, next, i);
    forall s | s in w.servings && s !in next.servings ensures EndedWith(w.rows, next.rows, s) {
      assert next.rows[i].serving == s && next.rows[i].ephemeral && Terminal(next.rows[i].status);
    }
  }

  lemma {:induction false} DriveAllGone(w: World, fates: seq<Fate>, n: nat) returns (r: World)
    requires n <= |w.rows| == |fates| && Accounted(w) && !DriveAll(w, fates, n).aborted
    ensures r == DriveAll(w, fates, n).w && GoneForEnded(w, r) && Accounted(r) && Advances(w, r)
  {
    if n == 0 {
      r := w;
    } else {
      var before := DriveAllGone(w, fates, n - 1);
      r := Drive(before, n - 1, fates[n - 1]).w;
      DriveGone(before, n - 1, fates[n - 1]);
      GoneThen(w, before, r);
    }
  }

  lemma {:induction false} SweepGone(w: World, fates: seq<Fate>, n: nat) returns (r: World)
    requires n <= |w.rows| == |fates| && Accounted(w)
    ensures r == Sweep(w, fates, n) && GoneForEnded(w, r) && Accounted(r) && Advances(w, r)
  {
    if n == 0 {
      r := w;
    } else {
      var before := SweepGone(w, fates, n - 1);
      r := Sweep(w, fates, n);
      if Doomed(before.rows[n - 1]) {
        TeardownGone(before, n - 1, fates[n - 1].sweep);
        GoneThen(w, before, r);
      }
    }
  }

  lemma TeardownGone(w: World, i: nat, reply: DeleteReply)
    requires i < |w.rows| && Accounted(w) && Doomed(w.rows[i])
    ensures var next := Teardown(w, i, reply);
            GoneForEnded(w, next) && Accounted(next) && Advances(w, next)
  {
    var next := Teardown(w, i, reply);
    LocalKeeps(w, next, i);
    forall s | s in w.servings && s !in next.servings ensures EndedWith(w.rows, next.rows, s) {
      assert next.rows[i].serving == s;
    }
  }

  /** A pass that commits takes no serving away from a run that goes on. */
  lemma PassSparesRunning(w: World, fates: seq<Fate>)
    requires |fates| == |w.rows| && Accounted(w) && Commits(w, fates, true)
    ensures GoneForEnded(w, Pass(w, fates, true))
  {
    var driven := DriveAllGone(w, fates, |w.rows|);
    var swept := SweepGone(driven, fates, |w.rows|);
    SweepKeeps(driven, fates, |w.rows|);
    GoneThen(w, driven, swept);
  }

  /** A teardown is noted exactly if the cluster says so or there is nothing to delete. */
  lemma TeardownIs(w: World, i: nat, reply: DeleteReply)
    requires i < |w.rows|
    ensures var row, next := w.rows[i], Teardown(w, i, reply);
            && next.rows == w.rows[i := row.(tornDown := row.tornDown || row.serving == "" || reply.Deleted?)]
            && next.jobs == w.jobs
            && next.servings == (if row.serving != "" && (reply.Deleted? || reply.GoneAnyway?) then w.servings - {row.serving}
                                 else w.servings)
  {
  }

  /** The serving of a run that ends is deleted in the very turn that ends it. */
  lemma EndedIsTornDown(w: World, i: nat, f: Fate)
    requires i < |w.rows| && w.rows[i].ephemeral && !w.rows[i].tornDown && !Terminal(w.rows[i].status)
    requires !Drive(w, i, f).aborted && Terminal(Drive(w, i, f).w.rows[i].status) && f.teardown.Deleted?
    ensures Drive(w, i, f).w.rows[i].tornDown && (w.rows[i].serving != "" ==> w.rows[i].serving !in Drive(w, i, f).w.servings)
  {
  }

  /** A cancel under every answer: an ended run stays, and so does everything if the cluster is not configured;
      else the run is cancelled, whether or not its Job and its serving could be deleted, and is noted as torn down
      exactly if the deletion of its serving was confirmed. */
  lemma CancelDoes(w: World, i: nat, jobReply: DeleteReply, servingReply: DeleteReply)
    requires i < |w.rows|
    ensures var row, next := w.rows[i], Cancel(w, i, jobReply, servingReply);
            var holds := row.ephemeral && row.serving != "" && !row.tornDown;
            if row.status in {Succeeded, Failed, Cancelled} || (row.job != "" && jobReply.Unconfigured?) then next == w
            else
              && next.rows == w.rows[i := row.(status := Cancelled, tornDown := row.tornDown || (holds && servingReply.Deleted?))]
              && next.jobs == (if row.job == "" || jobReply.Kept? then w.jobs else w.jobs - {row.job})
              && next.servings == (if holds && servingReply in {Deleted, GoneAnyway} then w.servings - {row.serving}
                                   else w.servings)
  {
  }

  /** A run just created with its Job, after a pass that commits, is as its Job was seen; one that provisions has its
      serving in the cluster, and fails or gets its Job as the serving was seen. No earlier run has changed before. */
  lemma CreatedRunFollows(w: World, e: Event, fates: seq<Fate>)
    requires Applicable(w, e) && (e.CreateProvisioned? || e.CreateWithJob?) && |fates| == |w.rows| + 1
    requires Commits(Next(w, e), fates, true)
    ensures var made, i := Next(w, e), |w.rows|;
            var f, now := fates[i], Pass(made, fates, true).rows[i].status;
            var ready := f.serving.ReadyPods? && f.serving.n >= 1;
            && made.rows[..i] == w.rows
            && (e.CreateWithJob? ==> e.job in made.jobs && EndsAs(f.job, Pending, now))
            && (e.CreateProvisioned? ==>
                  && e.serving in made.servings && e.job !in made.jobs && !now.Running?
                  && (now == Failed <==> !ready && f.overdue) && (now == Pending <==> ready))
  {
    var made, i := Next(w, e), |w.rows|;
    if e.CreateWithJob? {
      PassOutcome(made, fates, i);
    } else {
      ProvisioningOutcome(made, fates, i);
    }
  }

  /** Which answers end a pass at a row: an unreadable serving, a Job that is there already or cannot be confirmed, a
      cluster that is not configured, and a finished Job whose logs cannot be read. Nothing ends it at an ended run,
      and the pass does nothing about one but sweep it. */
  lemma AbortsWhen(w: World, i: nat, f: Fate)
    requires i < |w.rows|
    ensures var row, ready := w.rows[i], f.serving.ReadyPods? && f.serving.n >= 1;
            && (Drive(w, i, f).aborted <==>
                  || (row.status == Provisioning && row.serving != ""
                      && (f.serving.ReadFails? || (ready && (row.job in w.jobs || !f.create.Accepted?))))
                  || (row.status in {Pending, Running} && row.job != ""
                      && (f.job.NotConfigured?
                          || (f.job.Counts? && (f.job.succeeded > 0 || f.job.failed > 0) && !f.job.logsReadable))))
            && (row.status in {Succeeded, Failed, Cancelled} ==> Drive(w, i, f).w == w)
  {
    assert w.rows[i := w.rows[i]] == w.rows;
  }
}
