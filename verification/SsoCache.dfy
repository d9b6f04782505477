/** The gateway's cache from a user's SSO token to the LiteLLM key, under requests that start,
    wait on the backend and finish in any order. */
module SsoCache {
  import opened Wrappers

  datatype Entry = Entry(key: string, until: real)

  type Cache = map<string, Entry>

  datatype Settings = Settings(ttl: real, maxEntries: int)

  /** The backend's answer; an expiry of zero counts as none. */
  datatype Reply = Denied | Granted(key: string, expiresAt: Option<real>)

  datatype Request = Request(token: string, team: Option<string>, started: real)

  /** The text whose digest keys the cache. */
  function Joined(token: string, team: Option<string>): string {
    token + "|" + (if team.Some? then team.value else "")
  }

  ghost predicate Injective(digest: string -> string) {
    forall a, b :: digest(a) == digest(b) ==> a == b
  }

  predicate Bounded(expiresAt: Option<real>) { expiresAt.Some? && expiresAt.value != 0.0 }

  function Min(a: real, b: real): real { if a <= b then a else b }

  // The cache

  function Find(cache: Cache, ck: string, now: real): Option<string> {
    if ck in cache && cache[ck].until > now then Some(cache[ck].key) else None
  }

  function Prune(cache: Cache, now: real, maxEntries: int): Cache {
    if |cache| < maxEntries then cache
    else
      var alive := map k | k in cache && cache[k].until > now :: cache[k];
      if |alive| >= maxEntries then map[] else alive
  }

  function Lifetime(s: Settings, expiresAt: Option<real>, wall: real): real {
    if Bounded(expiresAt) then Min(s.ttl, expiresAt.value - wall) else s.ttl
  }

  /** The cache once the answer to a request that began at `started` is in. */
  function Keep(s: Settings, cache: Cache, ck: string, started: real, wall: real, reply: Reply): Cache {
    if reply.Denied? || reply.key == "" || Lifetime(s, reply.expiresAt, wall) <= 0.0 then cache
    else Prune(cache, started, s.maxEntries)[ck := Entry(reply.key, started + Lifetime(s, reply.expiresAt, wall))]
  }

  class Gateway {
    const settings: Settings
    const digest: string -> string
    var cache: Cache

    constructor (settings: Settings, digest: string -> string)
      ensures this.settings == settings && this.digest == digest && cache == map[]
    {
      this.settings, this.digest, this.cache := settings, digest, map[];
    }

    /** The request's first half: a hit ends it. */
    method Begin(token: string, team: Option<string>, now: real) returns (hit: Option<string>)
      ensures hit == Find(cache, digest(Joined(token, team)), now)
      ensures hit.Some? ==>
                var ck := digest(Joined(token, team));
                ck in cache && now < cache[ck].until && hit.value == cache[ck].key
    {
      var ck := digest(Joined(token, team));
      if ck in cache && cache[ck].until > now {
        return Some(cache[ck].key);
      }
      hit := None;
    }

    method PruneCache(now: real)
      modifies this
      ensures cache == Prune(old(cache), now, settings.maxEntries)
    {
      if |cache| < settings.maxEntries {
        return;
      }
      var expired := set k | k in cache && cache[k].until <= now;
      ghost var before := cache;
      while expired != {}
        invariant forall k | k in before && before[k].until > now :: k in cache
        invariant forall k | k in cache :: k in before && cache[k] == before[k]
        invariant forall k :: k in expired <==> k in cache && cache[k].until <= now
        decreases expired
      {
        var k :| k in expired;
        cache := cache - {k};
        expired := expired - {k};
      }
      assert cache == map k | k in before && before[k].until > now :: before[k];
      if |cache| >= settings.maxEntries {
        cache := map[];
      }
    }

    /** The second half, once the backend has answered. */
    method Finish(request: Request, wall: real, reply: Reply) returns (key: Option<string>)
      modifies this
      ensures cache == Keep(settings, old(cache), digest(Joined(request.token, request.team)), request.started, wall, reply)
      ensures key == if reply.Denied? || reply.key == "" then None else Some(reply.key)
    {
      if reply.Denied? || reply.key == "" {
        return None;
      }
      var ttl := settings.ttl;
      if Bounded(reply.expiresAt) {
        ttl := Min(ttl, reply.expiresAt.value - wall);
      }
      if ttl > 0.0 {
        PruneCache(request.started);
        cache := cache[digest(Joined(request.token, request.team)) := Entry(reply.key, request.started + ttl)];
      }
      key := Some(reply.key);
    }
  }

  // Runs

  /** A request that begins, or the answer to the i-th request that had to ask the backend. */
  datatype Event = Ask(token: string, team: Option<string>, at: real) | Answer(i: nat, at: real, reply: Reply)

  datatype Grant = Grant(request: Request, answeredAt: real, key: string, expiresAt: Option<real>)

  datatype Served = Served(token: string, team: Option<string>, key: string, at: real)

  /** `grants` and `served` record what the backend granted and what the cache handed out. */
  datatype World = World(cache: Cache, waiting: seq<Request>, grants: seq<Grant>, served: seq<Served>, clock: real)

  /** `offset` is what the wall clock shows beyond the monotonic one. */
  datatype Env = Env(settings: Settings, digest: string -> string, offset: real)

  predicate Applicable(w: World, e: Event) {
    e.at >= w.clock && (e.Answer? ==> e.i < |w.waiting|)
  }

  function Next(env: Env, w: World, e: Event): World
    requires Applicable(w, e)
  {
    match e
    case Ask(token, team, at) =>
      var hit := Find(w.cache, env.digest(Joined(token, team)), at);
      if hit.Some? then w.(served := w.served + [Served(token, team, hit.value, at)], clock := at)
      else w.(waiting := w.waiting + [Request(token, team, at)], clock := at)
    case Answer(i, at, reply) =>
      var r := w.waiting[i];
      w.(cache := Keep(env.settings, w.cache, env.digest(Joined(r.token, r.team)), r.started, at + env.offset, reply),
         grants := if reply.Granted? then w.grants + [Grant(r, at, reply.key, reply.expiresAt)] else w.grants,
         clock := at)
  }

  ghost predicate History(env: Env, ws: seq<World>, events: seq<Event>) {
    && |ws| == |events| + 1
    && ws[0].cache == map[] && ws[0].waiting == [] && ws[0].grants == [] && ws[0].served == []
    && forall k | 0 <= k < |events| :: Applicable(ws[k], events[k]) && ws[k + 1] == Next(env, ws[k], events[k])
  }

  /** The grant stands behind a cache entry: same digest text and key, and the entry outlives neither
      the time to live nor the token. */
  predicate Backs(env: Env, g: Grant, ck: string, entry: Entry) {
    && env.digest(Joined(g.request.token, g.request.team)) == ck && g.key == entry.key
    && entry.until <= g.request.started + env.settings.ttl
    && (Bounded(g.expiresAt) ==> entry.until + env.offset <= g.expiresAt.value)
  }

  /** The grant justifies handing its key out for this request at this time. */
  predicate Justifies(env: Env, g: Grant, s: Served) {
    && Joined(g.request.token, g.request.team) == Joined(s.token, s.team) && g.key == s.key
    && s.at < g.request.started + env.settings.ttl
    && (Bounded(g.expiresAt) ==> s.at + env.offset < g.expiresAt.value)
  }

  ghost predicate Backed(env: Env, w: World, ck: string) {
    ck in w.cache && exists k | 0 <= k < |w.grants| :: Backs(env, w.grants[k], ck, w.cache[ck])
  }

  ghost predicate Justified(env: Env, w: World, s: Served) {
    exists k | 0 <= k < |w.grants| :: Justifies(env, w.grants[k], s)
  }

  ghost predicate Good(env: Env, w: World) {
    && |w.cache| <= (if env.settings.maxEntries >= 1 then env.settings.maxEntries else 1)
    && (forall i | 0 <= i < |w.waiting| :: w.waiting[i].started <= w.clock)
    && (forall ck | ck in w.cache :: Backed(env, w, ck))
    && (forall j | 0 <= j < |w.served| :: Justified(env, w, w.served[j]))
  }

  lemma PruneShrinks(cache: Cache, now: real, maxEntries: int)
    ensures var p := Prune(cache, now, maxEntries);
            |p| < maxEntries || p == map[]
    ensures var p := Prune(cache, now, maxEntries);
            forall k | k in p :: k in cache && p[k] == cache[k]
  {
  }

  lemma AskKeeps(env: Env, w: World, e: Event)
    requires Injective(env.digest) && Good(env, w) && Applicable(w, e) && e.Ask?
    ensures Good(env, Next(env, w, e))
  {
    var next := Next(env, w, e);
    var ck := env.digest(Joined(e.token, e.team));
    if Find(w.cache, ck, e.at).Some? {
      assert Backed(env, w, ck);
      var k :| 0 <= k < |w.grants| && Backs(env, w.grants[k], ck, w.cache[ck]);
      assert Justifies(env, next.grants[k], next.served[|w.served|]);
    }
    forall j | 0 <= j < |next.served| ensures Justified(env, next, next.served[j]) {
      if j < |w.served| { assert Justified(env, w, w.served[j]); }
    }
    forall c | c in next.cache ensures Backed(env, next, c) { assert Backed(env, w, c); }
  }

  lemma MoreGrantsBack(env: Env, w: World, next: World)
    requires w.grants <= next.grants
    ensures forall s :: Justified(env, w, s) ==> Justified(env, next, s)
    ensures forall ck | Backed(env, w, ck) && ck in next.cache && next.cache[ck] == w.cache[ck] :: Backed(env, next, ck)
  {
  }

  /** The entries after an answer: the one just granted, and some of those before. */
  lemma KeptIsBacked(env: Env, w: World, e: Event, c: string)
    requires Good(env, w) && Applicable(w, e) && e.Answer? && c in Next(env, w, e).cache
    requires w.grants <= Next(env, w, e).grants
    ensures Backed(env, Next(env, w, e), c)
  {
    var next, r := Next(env, w, e), w.waiting[e.i];
    MoreGrantsBack(env, w, next);
    PruneShrinks(w.cache, r.started, env.settings.maxEntries);
    if next.cache != w.cache && c == env.digest(Joined(r.token, r.team)) {
      assert Backs(env, next.grants[|w.grants|], c, next.cache[c]);
    } else {
      assert Backed(env, w, c) && next.cache[c] == w.cache[c];
    }
  }

  lemma AnswerKeeps(env: Env, w: World, e: Event)
    requires Good(env, w) && Applicable(w, e) && e.Answer?
    ensures Good(env, Next(env, w, e))
  {
    var next := Next(env, w, e);
    MoreGrantsBack(env, w, next);
    forall c | c in next.cache ensures Backed(env, next, c) { KeptIsBacked(env, w, e, c); }
    PruneShrinks(w.cache, w.waiting[e.i].started, env.settings.maxEntries);
  }

  /** Over every interleaving: the cache stays within its bound (of at least one entry), and every key it
      hands out was granted for the same digest text, less than the time to live ago counted from the
      request that fetched it, and before the token's own expiry, however long the backend took. */
  lemma {:induction false} CacheIsFaithful(env: Env, ws: seq<World>, events: seq<Event>, k: nat)
    requires Injective(env.digest) && History(env, ws, events) && k < |ws|
    ensures Good(env, ws[k])
  {
    if k > 0 {
      CacheIsFaithful(env, ws, events, k - 1);
      if events[k - 1].Ask? {
        AskKeeps(env, ws[k - 1], events[k - 1]);
      } else {
        AnswerKeeps(env, ws[k - 1], events[k - 1]);
      }
    }
  }

  /** A key whose digest text matches was granted for the same token and the same team, as long as the
      tokens hold no separator. */
  lemma JoinedTellsApart(a: string, s: Option<string>, b: string, t: Option<string>)
    requires '|' !in a && '|' !in b
    ensures Joined(a, s) == Joined(b, t) <==>
            a == b && (if s.Some? then s.value else "") == (if t.Some? then t.value else "")
  {
    var x, y := Joined(a, s), Joined(b, t);
    BarFollows(a, if s.Some? then s.value else "");
    BarFollows(b, if t.Some? then t.value else "");
    assert x[..|a|] == a && y[..|b|] == b;
    assert x[|a| + 1..] == (if s.Some? then s.value else "") && y[|b| + 1..] == (if t.Some? then t.value else "");
  }

  function FirstBar(s: string): nat {
    if s == "" || s[0] == '|' then 0 else FirstBar(s[1..]) + 1
  }

  lemma {:induction false} BarFollows(a: string, rest: string)
    requires '|' !in a
    ensures FirstBar(a + "|" + rest) == |a|
  {
    if a != "" {
      BarFollows(a[1..], rest);
      assert (a + "|" + rest)[1..] == a[1..] + "|" + rest;
    }
  }

  ghost predicate Plain(token: string) { '|' !in token }

  /** No token in play holds a separator. */
  ghost predicate AllPlain(w: World) {
    && (forall i | 0 <= i < |w.waiting| :: Plain(w.waiting[i].token))
    && (forall i | 0 <= i < |w.grants| :: Plain(w.grants[i].request.token))
    && (forall i | 0 <= i < |w.served| :: Plain(w.served[i].token))
  }

  lemma {:induction false} StaysPlain(env: Env, ws: seq<World>, events: seq<Event>, k: nat)
    requires History(env, ws, events) && k < |ws|
    requires forall i | 0 <= i < |events| && events[i].Ask? :: Plain(events[i].token)
    ensures AllPlain(ws[k])
  {
    if k > 0 { StaysPlain(env, ws, events, k - 1); }
  }

  /** Whoever is served a key from the cache asked with the token it was granted for, and for the same team. */
  lemma ServedToItsOwner(env: Env, ws: seq<World>, events: seq<Event>, k: nat, s: Served)
    requires Injective(env.digest) && History(env, ws, events) && k < |ws| && s in ws[k].served
    requires forall i | 0 <= i < |events| && events[i].Ask? :: Plain(events[i].token)
    ensures exists g :: g in ws[k].grants && Justifies(env, g, s) && g.request.token == s.token
                        && Joined("", g.request.team) == Joined("", s.team)
  {
    CacheIsFaithful(env, ws, events, k);
    StaysPlain(env, ws, events, k);
    var i :| 0 <= i < |ws[k].grants| && Justifies(env, ws[k].grants[i], s);
    var g := ws[k].grants[i];
    JoinedTellsApart(g.request.token, g.request.team, s.token, s.team);
    assert g in ws[k].grants;
  }

  function TeamText(team: Option<string>): string { if team.Some? then team.value else "" }

  /** Another pair of token and team has the same entry. */
  ghost predicate SharesEntry(token: string, team: Option<string>) {
    exists a, s :: (a != token || TeamText(s) != TeamText(team)) && Joined(a, s) == Joined(token, team)
  }

  lemma OnlyBar(b: string, t: string, i: nat)
    requires '|' !in b && '|' !in t && i < |b| + 1 + |t|
    ensures (b + "|" + t)[i] == '|' <==> i == |b|
  {
    if i < |b| {
      assert (b + "|" + t)[i] == b[i] && b[i] in b;
    } else if i > |b| {
      assert (b + "|" + t)[i] == t[i - |b| - 1] && t[i - |b| - 1] in t;
    }
  }

  lemma PlainSharesNothing(b: string, t: Option<string>, a: string, s: Option<string>)
    requires '|' !in b && '|' !in TeamText(t) && Joined(a, s) == Joined(b, t)
    ensures a == b && TeamText(s) == TeamText(t)
  {
    var x := Joined(a, s);
    assert x[|a|] == '|';
    OnlyBar(b, TeamText(t), |a|);
    assert x[..|a|] == a && x[..|b|] == b && x[|a| + 1..] == TeamText(s) && x[|b| + 1..] == TeamText(t);
  }

  lemma BarShares(b: string, t: Option<string>)
    requires '|' in b || '|' in TeamText(t)
    ensures SharesEntry(b, t)
  {
    var team := TeamText(t);
    if '|' in b {
      var i :| 0 <= i < |b| && b[i] == '|';
      assert b == b[..i] + "|" + b[i + 1..];
      var s := Some(b[i + 1..] + "|" + team);
      assert Joined(b[..i], s) == b[..i] + "|" + b[i + 1..] + "|" + team == Joined(b, t);
    } else {
      var i :| 0 <= i < |team| && team[i] == '|';
      assert team == team[..i] + "|" + team[i + 1..];
      var a := b + "|" + team[..i];
      assert Joined(a, Some(team[i + 1..])) == b + "|" + (team[..i] + "|" + team[i + 1..]) == Joined(b, t);
    }
  }

  /** A pair shares its entry with another exactly if its token or its team holds a separator. */
  lemma SharesEntryIff(b: string, t: Option<string>)
    ensures SharesEntry(b, t) <==> '|' in b || '|' in TeamText(t)
  {
    if '|' in b || '|' in TeamText(t) {
      BarShares(b, t);
    } else if a, s :| (a != b || TeamText(s) != TeamText(t)) && Joined(a, s) == Joined(b, t) {
      PlainSharesNothing(b, t, a, s);
    }
  }

  lemma SeparatorInToken()
    ensures SharesEntry("a|b", None)
  {
    assert "a|b"[1] == '|';
    SharesEntryIff("a|b", None);
  }

  /** The names whose entries have not run out. */
  function Alive(cache: Cache, now: real): set<string> { set k | k in cache && cache[k].until > now }

  /** Pruning drops an entry only from a full cache, one that has not run out only if such entries alone fill it,
      and changes none. */
  lemma PruneIs(cache: Cache, now: real, maxEntries: int)
    ensures var p := Prune(cache, now, maxEntries);
            && (forall k :: k in p <==>
                  k in cache && (|cache| < maxEntries || (cache[k].until > now && |Alive(cache, now)| < maxEntries)))
            && (forall k | k in p :: p[k] == cache[k])
  {
    var alive := map k | k in cache && cache[k].until > now :: cache[k];
    assert alive.Keys == Alive(cache, now);
  }

  /** How long a key is kept: the time to live, cut at the token's own expiry if it has one. */
  lemma LifetimeIs(s: Settings, expiresAt: Option<real>, wall: real)
    ensures var own := expiresAt.Some? && expiresAt.value != 0.0;
            Lifetime(s, expiresAt, wall) ==
            if own && expiresAt.value - wall < s.ttl then expiresAt.value - wall else s.ttl
  {
  }

  /** A request finds what an earlier answer left: the key just granted until its lifetime is over, and under
      other names what was there before, unless live entries alone filled the cache and it was emptied. */
  lemma FoundAfterKeep(s: Settings, cache: Cache, ck: string, started: real, wall: real, reply: Reply, name: string, now: real)
    requires started <= now
    ensures var life := Lifetime(s, if reply.Granted? then reply.expiresAt else None, wall);
            var kept := reply.Granted? && reply.key != "" && life > 0.0;
            Find(Keep(s, cache, ck, started, wall, reply), name, now) ==
            if kept && name == ck then (if now < started + life then Some(reply.key) else None)
            else if kept && |cache| >= s.maxEntries && |Alive(cache, started)| >= s.maxEntries then None
            else if name in cache && now < cache[name].until then Some(cache[name].key)
            else None
  {
    PruneIs(cache, started, s.maxEntries);
  }

  /** With a bound of zero the cache still takes one entry. */
  lemma ZeroBoundKeepsOne(s: Settings, cache: Cache, ck: string, started: real, wall: real, reply: Reply)
    requires s.maxEntries <= 0 && s.ttl > 0.0 && reply.Granted? && reply.key != "" && !Bounded(reply.expiresAt)
    ensures |Keep(s, cache, ck, started, wall, reply)| == 1
  {
  }

  /** From asking to being served: a token that the cache does not know waits, in its turn, for the backend; the key
      it is granted serves the next request for it within the lifetime, and no later one. */
  lemma GrantedIsServed(env: Env, w: World, token: string, team: Option<string>, t0: real, t1: real, t2: real,
                        key: string, expiresAt: Option<real>)
    requires w.clock <= t0 <= t1 <= t2 && key != "" && Lifetime(env.settings, expiresAt, t1 + env.offset) > 0.0
    requires Find(w.cache, env.digest(Joined(token, team)), t0).None?
    ensures var asked := Next(env, w, Ask(token, team, t0));
            var answered := Next(env, asked, Answer(|w.waiting|, t1, Granted(key, expiresAt)));
            var again := Next(env, answered, Ask(token, team, t2));
            && asked.waiting == w.waiting + [Request(token, team, t0)] && asked.served == w.served && asked.clock == t0
            && answered.clock == t1 && again.clock == t2
            && (t2 < t0 + Lifetime(env.settings, expiresAt, t1 + env.offset) ==>
                  again.served == w.served + [Served(token, team, key, t2)] && again.waiting == asked.waiting)
            && (t2 >= t0 + Lifetime(env.settings, expiresAt, t1 + env.offset) ==>
                  again.served == w.served && again.waiting == asked.waiting + [Request(token, team, t2)])
  {
    var asked := Next(env, w, Ask(token, team, t0));
    assert asked.waiting[|w.waiting|] == Request(token, team, t0);
  }
}
