/** One membership, stored four times over and a fifth time for admins, and the operations that
    change it: join approval, assignment, role change and expiry. */
module Membership {
  import opened Wrappers

  datatype RoleEntry = RoleEntry(user: string, role: string)

  datatype Team = Team(members: seq<string>, admins: seq<string>, roles: seq<RoleEntry>)

  datatype Link = Link(user: string, team: string)

  datatype Term = Term(expiresAt: int, active: bool)

  /** `teams`, `rows` and `lists` are LiteLLM's tables: the team rows, the membership rows and each
      user's list of teams. `terms` are the portal's own expiry rows. */
  datatype State = State(
    teams: map<string, Team>, rows: set<Link>, lists: map<string, seq<string>>, terms: map<Link, Term>)

  // Array columns

  ghost predicate Distinct(s: seq<string>) { forall i, j | 0 <= i < j < |s| :: s[i] != s[j] }

  lemma DistinctSnoc(s: seq<string>, x: string)
    ensures Distinct(s + [x]) <==> Distinct(s) && x !in s
  {
    forall i, j | 0 <= i < j < |s| ensures (s + [x])[i] == s[i] && (s + [x])[j] == s[j] {}
    forall i | 0 <= i < |s| ensures (s + [x])[i] == s[i] && (s + [x])[|s|] == x {}
  }

  /** `array_append` guarded by `NOT (x = ANY(xs))` */
  function Append(s: seq<string>, x: string): (r: seq<string>)
    ensures forall y :: y in r <==> y in s || y == x
    ensures Distinct(s) ==> Distinct(r)
  {
    if x in s then s else s + [x]
  }

  /** `array_remove` */
  function Remove(s: seq<string>, x: string): (r: seq<string>)
    ensures forall y :: y in r <==> y in s && y != x
    ensures Distinct(s) ==> Distinct(r)
  {
    if s == [] then []
    else
      var front := Remove(s[..|s| - 1], x);
      var last := s[|s| - 1];
      DistinctSnoc(s[..|s| - 1], last);
      DistinctSnoc(front, last);
      assert s == s[..|s| - 1] + [last];
      if last == x then front else front + [last]
  }

  lemma DistinctHead(s: seq<string>)
    requires s != []
    ensures Distinct(s) <==> Distinct(s[1..]) && s[0] !in s[1..]
    ensures forall y :: y in s <==> y == s[0] || y in s[1..]
  {
  }

  /** Python's `list.remove`: the first occurrence only. */
  function RemoveFirst(s: seq<string>, x: string): (r: seq<string>)
    requires x in s
    ensures Distinct(s) ==> Distinct(r) && forall y :: y in r <==> y in s && y != x
  {
    if s[0] == x then
      DistinctHead(s);
      s[1..]
    else
      DistinctHead(s);
      var r := [s[0]] + RemoveFirst(s[1..], x);
      assert r[1..] == RemoveFirst(s[1..], x);
      DistinctHead(r);
      r
  }

  function UsersOf(roles: seq<RoleEntry>): seq<string> {
    if roles == [] then [] else UsersOf(roles[..|roles| - 1]) + [roles[|roles| - 1].user]
  }

  function AddRole(roles: seq<RoleEntry>, user: string, role: string): (r: seq<RoleEntry>)
    ensures UsersOf(r) == Append(UsersOf(roles), user)
  {
    if user in UsersOf(roles) then roles else
      var r := roles + [RoleEntry(user, role)];
      assert r[..|roles|] == roles;
      r
  }

  function DropRoles(roles: seq<RoleEntry>, user: string): (r: seq<RoleEntry>)
    ensures UsersOf(r) == Remove(UsersOf(roles), user)
  {
    if roles == [] then []
    else
      var n := |roles| - 1;
      var front := DropRoles(roles[..n], user);
      assert UsersOf(roles)[..n] == UsersOf(roles[..n]) by { UsersOfLength(roles); UsersOfLength(roles[..n]); }
      UsersOfLength(roles);
      if roles[n].user == user then front
      else
        assert (front + [roles[n]])[..|front|] == front;
        front + [roles[n]]
  }

  lemma {:induction false} UsersOfLength(roles: seq<RoleEntry>)
    ensures |UsersOf(roles)| == |roles|
    ensures roles != [] ==> UsersOf(roles)[|roles| - 1] == roles[|roles| - 1].user
  {
    if roles != [] { UsersOfLength(roles[..|roles| - 1]); }
  }

  // The copies

  predicate InMembers(st: State, user: string, team: string) { team in st.teams && user in st.teams[team].members }

  predicate InRoles(st: State, user: string, team: string) {
    team in st.teams && user in UsersOf(st.teams[team].roles)
  }

  predicate InRows(st: State, user: string, team: string) { Link(user, team) in st.rows }

  predicate InList(st: State, user: string, team: string) { user in st.lists && team in st.lists[user] }

  ghost predicate CopiesAgree(st: State, user: string, team: string) {
    && (InMembers(st, user, team) <==> InRows(st, user, team))
    && (InRoles(st, user, team) <==> InRows(st, user, team))
    && (InList(st, user, team) <==> InRows(st, user, team))
  }

  ghost predicate TidyTeam(t: Team) {
    && Distinct(t.members) && Distinct(t.admins) && Distinct(UsersOf(t.roles))
    && forall u | u in t.admins :: u in t.members
  }

  /** Every copy says the same, without duplicates, and every admin is a member. */
  ghost predicate InStep(st: State) {
    && (forall t | t in st.teams :: TidyTeam(st.teams[t]))
    && (forall u | u in st.lists :: Distinct(st.lists[u]))
    && (forall u, t :: CopiesAgree(st, u, t))
  }

  // The operations

  function EnrolTeam(teams: map<string, Team>, user: string, team: string, role: string): map<string, Team> {
    if team in teams then
      var t := teams[team];
      teams[team := t.(members := Append(t.members, user), roles := AddRole(t.roles, user, role))]
    else teams
  }

  /** What approval and assignment share: all copies get the member. `term` is the configured
      membership duration. */
  function Enrol(st: State, user: string, team: string, role: string, now: int, term: Option<int>): State {
    State(EnrolTeam(st.teams, user, team, role),
          st.rows + {Link(user, team)},
          if user in st.lists then st.lists[user := Append(st.lists[user], team)] else st.lists,
          if term.Some? then st.terms[Link(user, team) := Term(now + term.value, true)] else st.terms)
  }

  datatype Outcome = Done | Unchanged | NotFound | Forbidden | BadRequest

  function Assignable(st: State, known: bool, user: string, team: string): Outcome {
    if !known || team !in st.teams then NotFound
    else if user in st.teams[team].members || user in st.teams[team].admins then BadRequest
    else Done
  }

  function Assign(st: State, known: bool, user: string, team: string, role: string, now: int, term: Option<int>): State {
    if !Assignable(st, known, user, team).Done? then st
    else
      var next := Enrol(st, user, team, role, now, term);
      var t := next.teams[team];
      next.(teams := if role == "admin" then next.teams[team := t.(admins := Append(t.admins, user))] else next.teams)
  }

  function RoleChange(st: State, actor: string, superUser: bool, user: string, team: string, role: string): Outcome {
    if role != "admin" && role != "member" then BadRequest
    else if team !in st.teams then NotFound
    else
      var t := st.teams[team];
      if !superUser && actor !in t.admins then Forbidden
      else if user !in t.members && user !in t.admins && !InRows(st, user, team) then NotFound
      else if role == "admin" then (if user in t.admins then Unchanged else Done)
      else if user !in t.admins then Unchanged
      else if !superUser && Remove(t.admins, user) == [] then BadRequest
      else Done
  }

  function ChangeRole(st: State, actor: string, superUser: bool, user: string, team: string, role: string): State {
    if !RoleChange(st, actor, superUser, user, team, role).Done? then st
    else
      var t := st.teams[team];
      st.(teams := st.teams[team :=
        if role == "admin" then t.(admins := t.admins + [user])
        else t.(admins := RemoveFirst(t.admins, user), members := Append(t.members, user))])
  }

  /** One expired membership leaves LiteLLM's tables. */
  function Expel(st: State, l: Link): State {
    State(if l.team in st.teams then
            var t := st.teams[l.team];
            st.teams[l.team := Team(Remove(t.members, l.user), Remove(t.admins, l.user), DropRoles(t.roles, l.user))]
          else st.teams,
          st.rows - {l},
          if l.user in st.lists then st.lists[l.user := Remove(st.lists[l.user], l.team)] else st.lists,
          st.terms)
  }

  function MarkExpired(terms: map<Link, Term>, l: Link): map<Link, Term> {
    if l in terms then terms[l := terms[l].(active := false)] else terms
  }

  function ExpelAll(st: State, ls: seq<Link>): State {
    if ls == [] then st
    else
      var l := ls[|ls| - 1];
      var before := ExpelAll(st, ls[..|ls| - 1]);
      Expel(before, l).(terms := MarkExpired(before.terms, l))
  }

  /** Where a pass over `n` rows first fails: at which row's statements on LiteLLM's side, and at which row's mark
      on the portal's. The number of rows stands for the commit, anything above it for no failure. */
  datatype Faults = Faults(lite: nat, portal: nat)

  function Min(a: nat, b: nat): nat { if a <= b then a else b }

  /** A failed statement spoils its whole transaction. */
  predicate LiteCommits(f: Faults, n: nat) { f.lite > n }

  /** A mark is tried only once LiteLLM's statements of the row went through, and the portal commits last. */
  predicate MarksCommit(f: Faults, n: nat) {
    f.lite != n && f.portal != n && f.portal >= Min(f.lite, n)
  }

  /** The expiry pass over the selected rows: two transactions, of which either may come to nothing. */
  function Expire(st: State, ls: seq<Link>, f: Faults): State {
    var done := ExpelAll(st, ls[..Min(f.lite, |ls|)]);
    (if LiteCommits(f, |ls|) then done else st).(terms := if MarksCommit(f, |ls|) then done.terms else st.terms)
  }

  type Lite = (map<string, Team>, set<Link>, map<string, seq<string>>)

  /** A pass under way: both transactions, which of them is spoiled, and the counts. */
  datatype Session = Session(
    lite: Lite, marks: map<Link, Term>, liteBroken: bool, marksBroken: bool, processed: nat, errors: nat)

  function ExpelLite(lite: Lite, l: Link): Lite {
    LitePart(Expel(State(lite.0, lite.1, lite.2, map[]), l))
  }

  function LitePart(st: State): Lite { (st.teams, st.rows, st.lists) }

  function Tried(s: Session, l: Link, i: nat, f: Faults): Session {
    if s.liteBroken || i == f.lite then s.(liteBroken := true, errors := s.errors + 1)
    else
      var lite := ExpelLite(s.lite, l);
      if s.marksBroken || i == f.portal then s.(lite := lite, marksBroken := true, errors := s.errors + 1)
      else s.(lite := lite, marks := MarkExpired(s.marks, l), processed := s.processed + 1)
  }

  /** Before row `i`: each transaction holds the rows it got through. */
  function SessionAt(st: State, ls: seq<Link>, f: Faults, i: nat): Session
    requires i <= |ls|
  {
    var done := Min(Min(f.lite, f.portal), i);
    Session(LitePart(ExpelAll(st, ls[..Min(f.lite, i)])), ExpelAll(st, ls[..done]).terms,
            f.lite < i, f.portal < Min(i, f.lite), done, i - done)
  }

  lemma ExpelOneMore(st: State, ls: seq<Link>, i: nat)
    requires i < |ls|
    ensures LitePart(ExpelAll(st, ls[..i + 1])) == ExpelLite(LitePart(ExpelAll(st, ls[..i])), ls[i])
    ensures ExpelAll(st, ls[..i + 1]).terms == MarkExpired(ExpelAll(st, ls[..i]).terms, ls[i])
  {
    assert ls[..i + 1][..i] == ls[..i];
  }

  lemma SessionStep(st: State, ls: seq<Link>, f: Faults, i: nat)
    requires i < |ls|
    ensures Tried(SessionAt(st, ls, f, i), ls[i], i, f) == SessionAt(st, ls, f, i + 1)
  {
    ExpelOneMore(st, ls, i);
  }

  // Join requests

  datatype RequestStatus = Pending | Approved | Rejected

  datatype Request = Request(user: string, team: string, status: RequestStatus)

  /** Only a pending request is approved, by an admin of its team or a super user. */
  function Approvable(requests: map<string, Request>, id: string, st: State, actor: string, superUser: bool): Outcome {
    if id !in requests then NotFound
    else if requests[id].status != Pending then BadRequest
    else
      var team := requests[id].team;
      if superUser || (team in st.teams && actor in st.teams[team].admins) then Done else Forbidden
  }

  /** The user is in the team by every copy that there is, and no other membership has changed anywhere. */
  ghost predicate JoinsOnly(st: State, next: State, user: string, team: string) {
    && InRows(next, user, team)
    && (InMembers(next, user, team) <==> team in st.teams) && (InRoles(next, user, team) <==> team in st.teams)
    && (InList(next, user, team) <==> user in st.lists)
    && forall u, t | u != user || t != team ::
         (InMembers(next, u, t) <==> InMembers(st, u, t)) && (InRoles(next, u, t) <==> InRoles(st, u, t))
         && (InRows(next, u, t) <==> InRows(st, u, t)) && (InList(next, u, t) <==> InList(st, u, t))
  }

  class Memberships {
    var teams: map<string, Team>
    var rows: set<Link>
    var lists: map<string, seq<string>>
    var terms: map<Link, Term>
    var requests: map<string, Request>

    constructor (teams: map<string, Team>, rows: set<Link>, lists: map<string, seq<string>>)
      ensures Snapshot() == State(teams, rows, lists, map[]) && requests == map[]
    {
      this.teams, this.rows, this.lists, this.terms, this.requests := teams, rows, lists, map[], map[];
    }

    function Snapshot(): State
      reads this
    {
      State(teams, rows, lists, terms)
    }

    method AddToTeam(user: string, team: string, role: string)
      modifies this`teams
      ensures teams == EnrolTeam(old(teams), user, team, role)
    {
      if team in teams {
        var t := teams[team];
        t := t.(members := Append(t.members, user));
        t := t.(roles := AddRole(t.roles, user, role));
        teams := teams[team := t];
      }
    }

    method AddToCopies(user: string, team: string, role: string, now: int, term: Option<int>)
      modifies this
      ensures Snapshot() == Enrol(old(Snapshot()), user, team, role, now, term) && requests == old(requests)
    {
      AddToTeam(user, team, role);
      rows := rows + {Link(user, team)};
      if term.Some? {
        terms := terms[Link(user, team) := Term(now + term.value, true)];
      }
      if user in lists {
        lists := lists[user := Append(lists[user], team)];
      }
    }

    method ApproveJoin(id: string, actor: string, superUser: bool, now: int, term: Option<int>)
      returns (outcome: Outcome)
      modifies this
      ensures outcome == Approvable(old(requests), id, old(Snapshot()), actor, superUser)
      ensures outcome.Done? ==>
                && requests == old(requests)[id := old(requests)[id].(status := Approved)]
                && Snapshot() == Enrol(old(Snapshot()), requests[id].user, requests[id].team, "user", now, term)
                && JoinsOnly(old(Snapshot()), Snapshot(), requests[id].user, requests[id].team)
      ensures !outcome.Done? ==> requests == old(requests) && Snapshot() == old(Snapshot())
    {
      if id !in requests {
        return NotFound;
      }
      var request := requests[id];
      if request.status != Pending {
        return BadRequest;
      }
      if !superUser {
        var admins := if request.team in teams then teams[request.team].admins else [];
        if actor !in admins {
          return Forbidden;
        }
      }
      ghost var st := Snapshot();
      AddToCopies(request.user, request.team, "user", now, term);
      EnrolJoins(st, request.user, request.team, "user", now, term);
      requests := requests[id := request.(status := Approved)];
      outcome := Done;
    }

    method AssignUser(known: bool, user: string, team: string, role: string, now: int, term: Option<int>)
      returns (outcome: Outcome)
      modifies this
      ensures outcome == Assignable(old(Snapshot()), known, user, team)
      ensures Snapshot() == Assign(old(Snapshot()), known, user, team, role, now, term)
    {
      if !known {
        return NotFound;
      }
      if team !in teams {
        return NotFound;
      }
      if user in teams[team].members || user in teams[team].admins {
        return BadRequest;
      }
      AddToCopies(user, team, role, now, term);
      if role == "admin" {
        teams := teams[team := teams[team].(admins := Append(teams[team].admins, user))];
      }
      outcome := Done;
    }

    method ChangeMemberRole(actor: string, superUser: bool, user: string, team: string, role: string)
      returns (outcome: Outcome)
      modifies this
      ensures outcome == RoleChange(old(Snapshot()), actor, superUser, user, team, role)
      ensures Snapshot() == ChangeRole(old(Snapshot()), actor, superUser, user, team, role)
    {
      if role != "admin" && role != "member" {
        return BadRequest;
      }
      if team !in teams {
        return NotFound;
      }
      var allMembers, allAdmins := teams[team].members, teams[team].admins;
      if !superUser && actor !in allAdmins {
        return Forbidden;
      }
      if user !in allMembers && user !in allAdmins && Link(user, team) !in rows {
        return NotFound;
      }
      if role == "admin" {
        if user in allAdmins {
          return Unchanged;
        }
        allAdmins := allAdmins + [user];
      } else {
        if user !in allAdmins {
          return Unchanged;
        }
        if !superUser && Remove(allAdmins, user) == [] {
          return BadRequest;
        }
        allAdmins := RemoveFirst(allAdmins, user);
        if user !in allMembers {
          allMembers := allMembers + [user];
        }
      }
      teams := teams[team := teams[team].(members := allMembers, admins := allAdmins)];
      outcome := Done;
    }

    method ExpireMemberships(expired: seq<Link>, f: Faults) returns (processed: nat, errors: nat)
      modifies this
      ensures Snapshot() == Expire(old(Snapshot()), expired, f)
      ensures processed == Min(Min(f.lite, f.portal), |expired|) && processed + errors == |expired|
    {
      ghost var st := Snapshot();
      var session := Session((teams, rows, lists), terms, false, false, 0, 0);
      assert expired[..0] == [];
      for i := 0 to |expired|
        invariant Snapshot() == st && session == SessionAt(st, expired, f, i)
      {
        SessionStep(st, expired, f, i);
        session := TryRow(session, expired[i], i, f);
      }
      processed, errors := session.processed, session.errors;
      assert f.lite > |expired| ==> expired[..|expired|] == expired[..Min(f.lite, |expired|)];
      if f.lite == |expired| {
        return;
      }
      if !session.liteBroken {
        teams, rows, lists := session.lite.0, session.lite.1, session.lite.2;
      }
      if f.portal != |expired| && !session.marksBroken {
        terms := session.marks;
      }
    }

    method TryRow(session: Session, l: Link, i: nat, f: Faults) returns (next: Session)
      ensures next == Tried(session, l, i, f)
    {
      next := session;
      if next.liteBroken || i == f.lite {
        return next.(liteBroken := true, errors := next.errors + 1);
      }
      var lite := ExpelFrom(next.lite.0, next.lite.1, next.lite.2, l);
      next := next.(lite := lite);
      if next.marksBroken || i == f.portal {
        return next.(marksBroken := true, errors := next.errors + 1);
      }
      next := next.(marks := MarkExpired(next.marks, l), processed := next.processed + 1);
    }

    /** LiteLLM's statements for one membership. */
    method ExpelFrom(teams: map<string, Team>, rows: set<Link>, lists: map<string, seq<string>>, l: Link)
      returns (lite: (map<string, Team>, set<Link>, map<string, seq<string>>))
      ensures lite == ExpelLite((teams, rows, lists), l)
    {
      var teams', lists' := teams, lists;
      if l.team in teams {
        var t := teams[l.team];
        t := t.(members := Remove(t.members, l.user));
        t := t.(roles := DropRoles(t.roles, l.user));
        t := t.(admins := Remove(t.admins, l.user));
        teams' := teams[l.team := t];
      }
      if l.user in lists {
        lists' := lists[l.user := Remove(lists[l.user], l.team)];
      }
      lite := (teams', rows - {l}, lists');
    }
  }

  // What every operation keeps

  lemma EnrolOthers(st: State, user: string, team: string, role: string, now: int, term: Option<int>, u: string, t: string)
    requires u != user || t != team
    ensures var next := Enrol(st, user, team, role, now, term);
            && (InMembers(next, u, t) <==> InMembers(st, u, t)) && (InRoles(next, u, t) <==> InRoles(st, u, t))
            && (InRows(next, u, t) <==> InRows(st, u, t)) && (InList(next, u, t) <==> InList(st, u, t))
  {
  }

  lemma EnrolSelf(st: State, user: string, team: string, role: string, now: int, term: Option<int>)
    ensures var next := Enrol(st, user, team, role, now, term);
            && InRows(next, user, team)
            && (InMembers(next, user, team) <==> team in st.teams) && (InRoles(next, user, team) <==> team in st.teams)
            && (InList(next, user, team) <==> user in st.lists)
  {
  }

  lemma EnrolJoins(st: State, user: string, team: string, role: string, now: int, term: Option<int>)
    ensures JoinsOnly(st, Enrol(st, user, team, role, now, term), user, team)
  {
    EnrolSelf(st, user, team, role, now, term);
    forall u, t | u != user || t != team
      ensures var next := Enrol(st, user, team, role, now, term);
              && (InMembers(next, u, t) <==> InMembers(st, u, t)) && (InRoles(next, u, t) <==> InRoles(st, u, t))
              && (InRows(next, u, t) <==> InRows(st, u, t)) && (InList(next, u, t) <==> InList(st, u, t))
    {
      EnrolOthers(st, user, team, role, now, term, u, t);
    }
  }

  lemma EnrolTidy(st: State, user: string, team: string, role: string, now: int, term: Option<int>)
    requires InStep(st)
    ensures var next := Enrol(st, user, team, role, now, term);
            && (forall t | t in next.teams :: TidyTeam(next.teams[t]))
            && (forall u | u in next.lists :: Distinct(next.lists[u]))
  {
  }

  /** Approval keeps the copies in step exactly when the team exists and the user has a LiteLLM row. */
  lemma ApprovalKeepsStep(st: State, user: string, team: string, role: string, now: int, term: Option<int>)
    requires InStep(st)
    ensures InStep(Enrol(st, user, team, role, now, term)) <==> team in st.teams && user in st.lists
  {
    var next := Enrol(st, user, team, role, now, term);
    EnrolTidy(st, user, team, role, now, term);
    forall u, t ensures CopiesAgree(next, u, t) <==> (u == user && t == team ==> team in st.teams && user in st.lists) {
      EnrolCopies(st, user, team, role, now, term, u, t);
    }
    assert CopiesAgree(next, user, team) <==> team in st.teams && user in st.lists;
  }

  lemma EnrolCopies(st: State, user: string, team: string, role: string, now: int, term: Option<int>, u: string, t: string)
    requires CopiesAgree(st, u, t)
    ensures CopiesAgree(Enrol(st, user, team, role, now, term), u, t) <==>
            (u == user && t == team ==> team in st.teams && user in st.lists)
  {
    if u == user && t == team {
      EnrolSelf(st, user, team, role, now, term);
    } else {
      EnrolOthers(st, user, team, role, now, term, u, t);
    }
  }

  /** Assignment checks the team itself, so only the user's LiteLLM row is left to chance. */
  lemma AssignmentKeepsStep(st: State, known: bool, user: string, team: string, role: string, now: int, term: Option<int>)
    requires InStep(st)
    ensures InStep(Assign(st, known, user, team, role, now, term)) <==>
            !Assignable(st, known, user, team).Done? || user in st.lists
  {
    if Assignable(st, known, user, team).Done? {
      var next := Assign(st, known, user, team, role, now, term);
      ApprovalKeepsStep(st, user, team, role, now, term);
      EnrolSelf(st, user, team, role, now, term);
      if user !in st.lists {
        assert InRows(next, user, team) && !InList(next, user, team) && !CopiesAgree(next, user, team);
      } else if role == "admin" {
        PromotionKeepsStep(Enrol(st, user, team, role, now, term), user, team);
      }
    }
  }

  /** Making a member an admin touches no other copy. */
  lemma PromotionKeepsStep(st: State, user: string, team: string)
    requires InStep(st) && InMembers(st, user, team)
    ensures var t := st.teams[team];
            InStep(st.(teams := st.teams[team := t.(admins := Append(t.admins, user))]))
  {
    var t := st.teams[team];
    var next := st.(teams := st.teams[team := t.(admins := Append(t.admins, user))]);
    assert TidyTeam(t);
    forall u, s ensures CopiesAgree(next, u, s) {
      assert CopiesAgree(st, u, s);
    }
  }

  lemma RoleChangeKeepsStep(st: State, actor: string, superUser: bool, user: string, team: string, role: string)
    requires InStep(st)
    ensures InStep(ChangeRole(st, actor, superUser, user, team, role))
  {
    var next := ChangeRole(st, actor, superUser, user, team, role);
    if next != st {
      var t, t' := st.teams[team], next.teams[team];
      assert CopiesAgree(st, user, team) && TidyTeam(t);
      assert t'.members == t.members && t'.roles == t.roles;
      forall u, s ensures CopiesAgree(next, u, s) {
        assert CopiesAgree(st, u, s);
      }
    }
  }

  lemma ExpelKeepsStep(st: State, l: Link, terms: map<Link, Term>)
    requires InStep(st)
    ensures InStep(Expel(st, l).(terms := terms))
    ensures !InRows(Expel(st, l), l.user, l.team)
  {
    var next := Expel(st, l).(terms := terms);
    forall u, t ensures CopiesAgree(next, u, t) {
      assert CopiesAgree(st, u, t);
    }
  }

  lemma {:induction false} ExpelAllKeepsStep(st: State, ls: seq<Link>)
    requires InStep(st)
    ensures InStep(ExpelAll(st, ls))
    ensures forall l | l in ls :: !InRows(ExpelAll(st, ls), l.user, l.team)
    ensures ExpelAll(st, ls).teams.Keys == st.teams.Keys && ExpelAll(st, ls).lists.Keys == st.lists.Keys
  {
    if ls != [] {
      var n := |ls| - 1;
      ExpelAllKeepsStep(st, ls[..n]);
      var before := ExpelAll(st, ls[..n]);
      ExpelKeepsStep(before, ls[n], MarkExpired(before.terms, ls[n]));
    }
  }

  lemma ExpirePart(st: State, ls: seq<Link>, f: Faults)
    requires InStep(st)
    ensures var done := ExpelAll(st, ls[..Min(f.lite, |ls|)]);
            InStep(done) && done.teams.Keys == st.teams.Keys && done.lists.Keys == st.lists.Keys
    ensures LiteCommits(f, |ls|) ==> ls[..Min(f.lite, |ls|)] == ls
  {
    ExpelAllKeepsStep(st, ls[..Min(f.lite, |ls|)]);
  }

  lemma TermsDoNotCount(st: State, terms: map<Link, Term>)
    requires InStep(st)
    ensures InStep(st.(terms := terms))
  {
    forall u, t ensures CopiesAgree(st.(terms := terms), u, t) {
      assert CopiesAgree(st, u, t);
    }
  }

  /** Expiry keeps the copies in step whatever fails; and when LiteLLM's side does not, the members are gone from
      every copy. */
  lemma ExpiryKeepsStep(st: State, ls: seq<Link>, f: Faults)
    requires InStep(st)
    ensures InStep(Expire(st, ls, f))
    ensures f.lite > |ls| ==> forall l | l in ls :: !InRows(Expire(st, ls, f), l.user, l.team)
  {
    var done := ExpelAll(st, ls[..Min(f.lite, |ls|)]);
    ExpirePart(st, ls, f);
    if LiteCommits(f, |ls|) { ExpelAllKeepsStep(st, ls); }
    TermsDoNotCount(if LiteCommits(f, |ls|) then done else st, Expire(st, ls, f).terms);
  }

  /** Enrolled, yet no longer due: no pass will select it again. */
  predicate Stranded(st: State, l: Link) { l in st.rows && l in st.terms && !st.terms[l].active }

  lemma {:induction false} ExpelledAreGone(st: State, ls: seq<Link>, l: Link)
    ensures l in ExpelAll(st, ls).rows <==> l in st.rows && l !in ls
  {
    if ls != [] { ExpelledAreGone(st, ls[..|ls| - 1], l); }
  }

  lemma {:induction false} MarkedByExpel(st: State, ls: seq<Link>, l: Link)
    requires l in st.terms
    ensures l in ExpelAll(st, ls).terms
    ensures ExpelAll(st, ls).terms[l] == if l in ls then st.terms[l].(active := false) else st.terms[l]
  {
    if ls != [] { MarkedByExpel(st, ls[..|ls| - 1], l); }
  }

  /** Of a selected membership: it is stranded exactly if one of LiteLLM's statements fails at a later row, and
      the portal's marks up to there go through and are committed. */
  lemma FailedExpiryStrands(st: State, ls: seq<Link>, f: Faults, l: Link)
    requires l in ls && l in st.rows && l in st.terms && st.terms[l].active
    ensures Stranded(Expire(st, ls, f), l) <==>
            f.lite < |ls| && l in ls[..f.lite] && f.portal >= f.lite && f.portal != |ls|
  {
    var front := ls[..Min(f.lite, |ls|)];
    MarkedByExpel(st, front, l);
    ExpelledAreGone(st, front, l);
    assert LiteCommits(f, |ls|) ==> front == ls;
  }

  lemma {:induction false} OthersStay(st: State, ls: seq<Link>, l: Link)
    requires l !in ls
    ensures l in ExpelAll(st, ls).rows <==> l in st.rows
    ensures l in ExpelAll(st, ls).terms <==> l in st.terms
    ensures l in st.terms ==> ExpelAll(st, ls).terms[l] == st.terms[l]
  {
    if ls != [] { OthersStay(st, ls[..|ls| - 1], l); }
  }

  /** What the pass selects: active terms only. */
  ghost predicate Selects(st: State, ls: seq<Link>) {
    forall l | l in ls :: l in st.terms && st.terms[l].active
  }

  lemma StrandedStays(st: State, ls: seq<Link>, f: Faults, l: Link)
    requires Stranded(st, l) && Selects(st, ls)
    ensures Stranded(Expire(st, ls, f), l)
  {
    OthersStay(st, ls[..Min(f.lite, |ls|)], l);
  }

  // Runs

  datatype Event =
    | Approve(user: string, team: string, now: int, term: Option<int>)
    | AssignTo(known: bool, user: string, team: string, role: string, now: int, term: Option<int>)
    | SetRole(actor: string, superUser: bool, user: string, team: string, role: string)
    | ExpirePass(expired: seq<Link>, faults: Faults)

  function Next(st: State, e: Event): State {
    match e
    case Approve(user, team, now, term) => Enrol(st, user, team, "user", now, term)
    case AssignTo(known, user, team, role, now, term) => Assign(st, known, user, team, role, now, term)
    case SetRole(actor, superUser, user, team, role) => ChangeRole(st, actor, superUser, user, team, role)
    case ExpirePass(expired, faults) => Expire(st, expired, faults)
  }

  function Run(st: State, events: seq<Event>): State {
    if events == [] then st else Next(Run(st, events[..|events| - 1]), events[|events| - 1])
  }

  /** The event is about a team and a user that LiteLLM knows. */
  predicate AboutExisting(st: State, e: Event) {
    match e
    case Approve(user, team, _, _) => team in st.teams && user in st.lists
    case AssignTo(_, user, _, _, _, _) => user in st.lists
    case SetRole(_, _, _, _, _) => true
    case ExpirePass(_, _) => true
  }

  /** The copies are in step, and the teams and users are those from before. */
  ghost predicate Follows(st: State, next: State) {
    InStep(next) && next.teams.Keys == st.teams.Keys && next.lists.Keys == st.lists.Keys
  }

  lemma EnrolFollows(st: State, user: string, team: string, role: string, now: int, term: Option<int>)
    requires InStep(st) && team in st.teams && user in st.lists
    ensures Follows(st, Enrol(st, user, team, role, now, term))
  {
    ApprovalKeepsStep(st, user, team, role, now, term);
  }

  lemma AssignFollows(st: State, known: bool, user: string, team: string, role: string, now: int, term: Option<int>)
    requires InStep(st) && user in st.lists
    ensures Follows(st, Assign(st, known, user, team, role, now, term))
  {
    AssignmentKeepsStep(st, known, user, team, role, now, term);
  }

  lemma RoleChangeFollows(st: State, actor: string, superUser: bool, user: string, team: string, role: string)
    requires InStep(st)
    ensures Follows(st, ChangeRole(st, actor, superUser, user, team, role))
  {
    RoleChangeKeepsStep(st, actor, superUser, user, team, role);
  }

  lemma ExpiryFollows(st: State, ls: seq<Link>, f: Faults)
    requires InStep(st)
    ensures Follows(st, Expire(st, ls, f))
  {
    ExpiryKeepsStep(st, ls, f);
    ExpirePart(st, ls, f);
  }

  lemma NextFollows(st: State, e: Event)
    requires InStep(st) && AboutExisting(st, e)
    ensures Follows(st, Next(st, e))
  {
    match e
    case Approve(user, team, now, term) => EnrolFollows(st, user, team, "user", now, term);
    case AssignTo(known, user, team, role, now, term) => AssignFollows(st, known, user, team, role, now, term);
    case SetRole(actor, superUser, user, team, role) => RoleChangeFollows(st, actor, superUser, user, team, role);
    case ExpirePass(expired, faults) => ExpiryFollows(st, expired, faults);
  }

  /** Every interleaving of the four operations, about users and teams that exist, keeps the copies in step. */
  lemma {:induction false} RunsKeepStep(st: State, events: seq<Event>)
    requires InStep(st)
    requires forall k | 0 <= k < |events| :: AboutExisting(st, events[k])
    ensures InStep(Run(st, events))
    ensures Run(st, events).teams.Keys == st.teams.Keys && Run(st, events).lists.Keys == st.lists.Keys
  {
    if events != [] {
      var n := |events| - 1;
      assert forall k | 0 <= k < n :: events[..n][k] == events[k];
      RunsKeepStep(st, events[..n]);
      assert AboutExisting(st, events[n]);
      NextFollows(Run(st, events[..n]), events[n]);
    }
  }

  /** A stranded member stays enrolled through every run of passes: only a new approval or assignment makes the
      membership due again. */
  lemma {:induction false} StrandedForGood(st: State, events: seq<Event>, l: Link)
    requires Stranded(st, l)
    requires forall k | 0 <= k < |events| ::
               events[k].ExpirePass? && Selects(Run(st, events[..k]), events[k].expired)
    ensures Stranded(Run(st, events), l)
  {
    if events != [] {
      var n := |events| - 1;
      assert forall k | 0 <= k < n :: events[..n][..k] == events[..k];
      StrandedForGood(st, events[..n], l);
      StrandedStays(Run(st, events[..n]), events[n].expired, events[n].faults, l);
    }
  }

  // What each operation does, beyond keeping the copies in step

  /** A team after a role change: the user is an admin exactly if promoted, and a member if not; nothing else about
      the team or outside it has changed. */
  ghost predicate RoleChanged(st: State, next: State, user: string, team: string, promoted: bool) {
    && team in st.teams && next.teams.Keys == st.teams.Keys
    && next.rows == st.rows && next.lists == st.lists && next.terms == st.terms
    && (forall t | t in st.teams && t != team :: next.teams[t] == st.teams[t])
    && (var was, now := st.teams[team], next.teams[team];
        && now.roles == was.roles
        && (user in now.admins <==> promoted)
        && (forall u | u != user :: (u in now.admins <==> u in was.admins) && (u in now.members <==> u in was.members))
        && (user in now.members <==> !promoted || user in was.members))
  }

  /** A role change that is done makes or unmakes exactly this admin; any other outcome changes nothing. */
  lemma RoleChangeDoes(st: State, actor: string, superUser: bool, user: string, team: string, role: string)
    requires InStep(st)
    ensures var outcome, next := RoleChange(st, actor, superUser, user, team, role),
                                 ChangeRole(st, actor, superUser, user, team, role);
            && (outcome.Done? ==> RoleChanged(st, next, user, team, role == "admin"))
            && (!outcome.Done? ==> next == st)
  {
    if RoleChange(st, actor, superUser, user, team, role).Done? {
      assert TidyTeam(st.teams[team]);
    }
  }

  /** Whoever is demoted stays, or becomes, a member, whatever state the copies were in. */
  lemma DemotedIsMember(st: State, actor: string, superUser: bool, user: string, team: string)
    requires RoleChange(st, actor, superUser, user, team, "member").Done?
    ensures user in ChangeRole(st, actor, superUser, user, team, "member").teams[team].members
  {
  }

  /** Who is told what: bad roles, unknown teams and users, and strangers are refused; so is a demotion that would
      leave a team without an admin, unless by a super user; what is so already stays. */
  lemma RoleChangeOutcome(st: State, actor: string, superUser: bool, user: string, team: string, role: string)
    ensures var outcome := RoleChange(st, actor, superUser, user, team, role);
            var named := role == "admin" || role == "member";
            var known := named && team in st.teams;
            var allowed := known && (superUser || actor in st.teams[team].admins);
            var there := allowed && (user in st.teams[team].members || user in st.teams[team].admins
                                     || Link(user, team) in st.rows);
            && (outcome == NotFound <==> named && (team !in st.teams || (allowed && !there)))
            && (outcome == Forbidden <==> known && !allowed)
            && (outcome == Unchanged <==> there && (role == "admin" <==> user in st.teams[team].admins))
            && (outcome == BadRequest <==>
                  !named || (there && role == "member" && user in st.teams[team].admins && !superUser
                             && forall a | a in st.teams[team].admins :: a == user))
  {
    if team in st.teams {
      RemovedIsEmpty(st.teams[team].admins, user);
    }
  }

  lemma RemovedIsEmpty(s: seq<string>, x: string)
    ensures Remove(s, x) == [] <==> forall y | y in s :: y == x
  {
    if Remove(s, x) != [] { assert Remove(s, x)[0] in Remove(s, x); }
    if y :| y in s && y != x { assert y in Remove(s, x); }
  }

  /** Assignment is refused for unknown users and teams and for those already in the team. */
  lemma AssignOutcome(st: State, known: bool, user: string, team: string)
    ensures var outcome := Assignable(st, known, user, team);
            && (outcome == NotFound <==> !known || team !in st.teams)
            && (outcome == BadRequest <==>
                  known && team in st.teams && (user in st.teams[team].members || user in st.teams[team].admins))
            && (outcome == Done <==>
                  known && team in st.teams && user !in st.teams[team].members && user !in st.teams[team].admins)
  {
  }

  /** The role that a member list notes for a user. */
  ghost predicate NotedAs(roles: seq<RoleEntry>, user: string, role: string) { RoleEntry(user, role) in roles }

  lemma {:induction false} UserNoted(roles: seq<RoleEntry>, user: string)
    ensures user in UsersOf(roles) <==> exists role :: NotedAs(roles, user, role)
  {
    if roles != [] {
      var n := |roles| - 1;
      UserNoted(roles[..n], user);
      assert roles == roles[..n] + [roles[n]];
      if roles[n].user == user { assert NotedAs(roles, user, roles[n].role); }
      if role :| NotedAs(roles[..n], user, role) { assert NotedAs(roles, user, role); }
      if role :| NotedAs(roles, user, role) {
        assert RoleEntry(user, role) in roles[..n] || roles[n] == RoleEntry(user, role);
        assert RoleEntry(user, role) in roles[..n] ==> NotedAs(roles[..n], user, role);
      }
    }
  }

  /** Enrolment notes a newcomer under the given role, touches no other note and no admin list, and dates the
      membership from now if terms are configured. */
  lemma EnrolNotes(st: State, user: string, team: string, role: string, now: int, term: Option<int>)
    ensures var next := Enrol(st, user, team, role, now, term);
            && next.terms == (if term.Some? then st.terms[Link(user, team) := Term(now + term.value, true)] else st.terms)
            && (forall t | t in st.teams :: t in next.teams && next.teams[t].admins == st.teams[t].admins)
            && (team in st.teams ==>
                  next.teams[team].roles ==
                  if exists r :: NotedAs(st.teams[team].roles, user, r) then st.teams[team].roles
                  else st.teams[team].roles + [RoleEntry(user, role)])
  {
    if team in st.teams { UserNoted(st.teams[team].roles, user); }
  }

  /** An assignment that is done enrols the user, and makes an admin exactly of one assigned as such. */
  lemma AssignDoes(st: State, known: bool, user: string, team: string, role: string, now: int, term: Option<int>)
    ensures var outcome, next := Assignable(st, known, user, team), Assign(st, known, user, team, role, now, term);
            && (outcome.Done? ==>
                  && JoinsOnly(st, next, user, team)
                  && next.terms == Enrol(st, user, team, role, now, term).terms
                  && next.teams[team].roles == Enrol(st, user, team, role, now, term).teams[team].roles
                  && (forall t | t in st.teams && t != team :: t in next.teams && next.teams[t].admins == st.teams[t].admins)
                  && next.teams[team].admins ==
                     if role == "admin" then st.teams[team].admins + [user] else st.teams[team].admins)
            && (!outcome.Done? ==> next == st)
  {
    if Assignable(st, known, user, team).Done? {
      EnrolJoins(st, user, team, role, now, term);
      AdminTouchesNoCopy(Enrol(st, user, team, role, now, term), st, user, team);
    }
  }

  lemma AdminTouchesNoCopy(mid: State, st: State, user: string, team: string)
    requires JoinsOnly(st, mid, user, team) && team in mid.teams
    ensures var t := mid.teams[team];
            JoinsOnly(st, mid.(teams := mid.teams[team := t.(admins := Append(t.admins, user))]), user, team)
  {
    var t := mid.teams[team];
    var next := mid.(teams := mid.teams[team := t.(admins := Append(t.admins, user))]);
    forall u, s ensures (InMembers(next, u, s) <==> InMembers(mid, u, s)) && (InRoles(next, u, s) <==> InRoles(mid, u, s)) {}
  }

  /** Approval is refused for unknown and decided requests and to strangers. */
  lemma ApprovalOutcome(requests: map<string, Request>, id: string, st: State, actor: string, superUser: bool)
    ensures var outcome := Approvable(requests, id, st, actor, superUser);
            && (outcome == NotFound <==> id !in requests)
            && (outcome == BadRequest <==> id in requests && !requests[id].status.Pending?)
            && (outcome == Done <==>
                  && id in requests && requests[id].status.Pending?
                  && (superUser || (requests[id].team in st.teams && actor in st.teams[requests[id].team].admins)))
            && outcome != Unchanged
  {
  }

  /** Expulsion takes exactly the listed memberships from every copy and from the admins. */
  lemma {:induction false} ExpelsOnly(st: State, ls: seq<Link>, u: string, t: string)
    ensures var next, gone := ExpelAll(st, ls), Link(u, t) in ls;
            && (InMembers(next, u, t) <==> InMembers(st, u, t) && !gone)
            && (InRoles(next, u, t) <==> InRoles(st, u, t) && !gone)
            && (InRows(next, u, t) <==> InRows(st, u, t) && !gone)
            && (InList(next, u, t) <==> InList(st, u, t) && !gone)
            && (t in st.teams <==> t in next.teams)
            && (t in st.teams ==> (u in next.teams[t].admins <==> u in st.teams[t].admins && !gone))
  {
    if ls != [] {
      var n := |ls| - 1;
      ExpelsOnly(st, ls[..n], u, t);
      assert ls == ls[..n] + [ls[n]];
      ExpelTakes(ExpelAll(st, ls[..n]), ls[n], u, t);
    }
  }

  lemma ExpelTakes(st: State, l: Link, u: string, t: string)
    ensures var next, gone := Expel(st, l), l == Link(u, t);
            && (InMembers(next, u, t) <==> InMembers(st, u, t) && !gone)
            && (InRoles(next, u, t) <==> InRoles(st, u, t) && !gone)
            && (InRows(next, u, t) <==> InRows(st, u, t) && !gone)
            && (InList(next, u, t) <==> InList(st, u, t) && !gone)
            && (t in st.teams <==> t in next.teams)
            && (t in st.teams ==> (u in next.teams[t].admins <==> u in st.teams[t].admins && !gone))
  {
  }

  /** A run can be cut anywhere: its second part goes on where the first one ended; and one event is one step. */
  lemma {:induction false} RunGoesOn(st: State, a: seq<Event>, b: seq<Event>, e: Event)
    ensures Run(st, a + b) == Run(Run(st, a), b)
    ensures Run(st, [e]) == Next(st, e)
  {
    assert [e][..0] == [];
    if b == [] {
      assert a + b == a;
    } else {
      RunGoesOn(st, a, b[..|b| - 1], e);
      assert (a + b)[..|a + b| - 1] == a + b[..|b| - 1];
    }
  }

  /** What an expiry pass leaves: if no statement nor the commit fails on LiteLLM's side, the selected memberships are
      gone and no others, else LiteLLM's tables are as before; and a term is marked exactly if its row's statements
      went through on both sides and the portal commits. */
  lemma ExpiryOutcome(st: State, ls: seq<Link>, f: Faults, l: Link)
    requires l in st.terms
    ensures var next := Expire(st, ls, f);
            && (f.lite <= |ls| ==> next.teams == st.teams && next.rows == st.rows && next.lists == st.lists)
            && (f.lite > |ls| ==>
                  && (InMembers(next, l.user, l.team) <==> InMembers(st, l.user, l.team) && l !in ls)
                  && (InRows(next, l.user, l.team) <==> InRows(st, l.user, l.team) && l !in ls)
                  && (InList(next, l.user, l.team) <==> InList(st, l.user, l.team) && l !in ls))
            && l in next.terms && next.terms[l] ==
               (if l in ls && (f.lite > |ls| || (f.lite < |ls| && l in ls[..f.lite]))
                   && f.portal != |ls| && (f.portal > |ls| || f.portal >= f.lite)
                then st.terms[l].(active := false) else st.terms[l])
  {
    var front := ls[..Min(f.lite, |ls|)];
    assert f.lite >= |ls| ==> front == ls;
    ExpelsOnly(st, front, l.user, l.team);
    MarkedByExpel(st, front, l);
  }
}
