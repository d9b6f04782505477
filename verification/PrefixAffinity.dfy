/** The routing hook: the cacheable prefix of a conversation and its key, the memoised token gate,
    and the deployment a request is pinned to. */
module PrefixAffinity {
  import opened Wrappers
  import opened Rendezvous

  // Prefixes

  datatype Block = Block(marked: bool, text: string) | Bare(text: string)

  datatype Content = Text(text: string) | Blocks(blocks: seq<Block>)

  /** `marked`: the message itself carries a cache marker. A non-dict entry is never marked. */
  datatype Message = Message(role: string, marked: bool, content: Content) | NotADict(text: string)

  datatype Strategy = CacheControl | LeadingSlice | Unknown

  datatype Config = Config(
    strategy: Strategy, sliceLength: int, minTokens: int, models: seq<string>, providers: seq<string>)

  function FirstMarked(blocks: seq<Block>): (k: nat)
    ensures k <= |blocks|
    ensures k < |blocks| ==> blocks[k].Block? && blocks[k].marked
  {
    if blocks == [] || (blocks[0].Block? && blocks[0].marked) then 0 else FirstMarked(blocks[1..]) + 1
  }

  /** The message up to its first marker, when it has one. */
  function CutAtMarker(m: Message): Option<Message> {
    if m.NotADict? then None
    else if m.marked then Some(m)
    else if m.content.Blocks? && FirstMarked(m.content.blocks) < |m.content.blocks| then
      Some(m.(content := Blocks(m.content.blocks[..FirstMarked(m.content.blocks) + 1])))
    else None
  }

  /** Messages up to and including the first marker; nothing when there is none. */
  function PrefixToMarker(ms: seq<Message>): seq<Message> {
    PrefixFrom(ms, 0)
  }

  function PrefixFrom(ms: seq<Message>, i: nat): seq<Message>
    requires i <= |ms|
    decreases |ms| - i
  {
    if i == |ms| then []
    else
      var cut := CutAtMarker(ms[i]);
      if cut.Some? then ms[..i] + [cut.value] else PrefixFrom(ms, i + 1)
  }

  predicate HasMarker(ms: seq<Message>) { exists i | 0 <= i < |ms| :: CutAtMarker(ms[i]).Some? }

  /** Python's `ms[:n]`. */
  function Slice(ms: seq<Message>, n: int): seq<Message> {
    if n >= 0 then ms[..if n <= |ms| then n else |ms|]
    else ms[..if |ms| + n >= 0 then |ms| + n else 0]
  }

  function CacheablePrefix(ms: seq<Message>, config: Config): seq<Message> {
    match config.strategy
    case CacheControl => PrefixToMarker(ms)
    case LeadingSlice => Slice(ms, config.sliceLength)
    case Unknown => []
  }

  lemma {:induction false} PrefixFromGrows(ms: seq<Message>, more: seq<Message>, i: nat)
    requires i <= |ms|
    requires exists k | i <= k < |ms| :: CutAtMarker(ms[k]).Some?
    ensures PrefixFrom(ms + more, i) == PrefixFrom(ms, i) != []
    decreases |ms| - i
  {
    assert (ms + more)[i] == ms[i] && (ms + more)[..i] == ms[..i];
    if CutAtMarker(ms[i]).None? {
      PrefixFromGrows(ms, more, i + 1);
    }
  }

  /** Once a conversation holds a marker, no further message changes its prefix. */
  lemma MarkerPrefixIsStable(ms: seq<Message>, more: seq<Message>)
    requires HasMarker(ms)
    ensures PrefixToMarker(ms + more) == PrefixToMarker(ms) != []
  {
    PrefixFromGrows(ms, more, 0);
  }

  /** When exactly a leading slice survives appending. A negative slice length never settles. */
  lemma SliceIsStable(ms: seq<Message>, more: seq<Message>, n: int)
    ensures Slice(ms + more, n) == Slice(ms, n) <==> more == [] || 0 <= n <= |ms| || |ms| + |more| + n <= 0
  {
  }

  // Keys and the token gate

  /** The library calls: the digest of a serialised prefix, and LiteLLM's token counter. */
  datatype Library = Library(digest: seq<Message> -> string, tokens: (string, seq<Message>) -> int)

  ghost predicate Injective(lib: Library) {
    forall p, q :: lib.digest(p) == lib.digest(q) ==> p == q
  }

  predicate Gate(lib: Library, config: Config, model: string, prefix: seq<Message>) {
    lib.tokens(model, prefix) >= config.minTokens
  }

  /** The key without the memo. */
  function PrefixKey(lib: Library, config: Config, model: string, ms: Option<seq<Message>>): Option<string> {
    if ms.None? || ms.value == [] then None
    else
      var prefix := CacheablePrefix(ms.value, config);
      if prefix == [] || !Gate(lib, config, model, prefix) then None else Some(lib.digest(prefix))
  }

  const MEMO_MAX: nat := 4096

  // Candidates

  /** The router's counters: requests this minute per deployment, its own and the group's. */
  datatype Counters = Unreadable | Counters(own: map<string, int>, group: map<string, int>)

  function Max(a: int, b: int): int { if a >= b then a else b }

  function Count(m: map<string, int>, id: string): int { if id in m then m[id] else 0 }

  predicate InScope(config: Config, d: Deployment) {
    config.providers == [] || (d.provider.Some? && d.provider.value in config.providers)
  }

  /** At its request limit; only an integer limit counts. */
  predicate Saturated(counters: Counters, d: Deployment) {
    counters.Counters? && d.rpm.Whole? &&
    var id := if d.id.Some? then d.id.value else "";
    d.rpm.n <= Max(Count(counters.own, id), Count(counters.group, id))
  }

  function Filter(ds: seq<Deployment>, keep: Deployment -> bool): (r: seq<Deployment>)
    ensures forall d :: d in r <==> d in ds && keep(d)
  {
    if ds == [] then []
    else
      var n := |ds| - 1;
      Filter(ds[..n], keep) + (if keep(ds[n]) then [ds[n]] else [])
  }

  function Candidates(config: Config, model: string, healthy: seq<Deployment>): seq<Deployment> {
    if config.models != [] && model !in config.models then []
    else Filter(healthy, d => InScope(config, d))
  }

  function Unsaturated(counters: Counters, ds: seq<Deployment>): seq<Deployment> {
    Filter(ds, d => !Saturated(counters, d))
  }

  method DropSaturated(counters: Counters, ds: seq<Deployment>) returns (survivors: seq<Deployment>)
    ensures survivors == Unsaturated(counters, ds)
  {
    if counters.Unreadable? {
      EverythingKept(ds, d => !Saturated(counters, d));
      return ds;
    }
    survivors := [];
    for i := 0 to |ds|
      invariant survivors == Unsaturated(counters, ds[..i])
    {
      assert ds[..i + 1][..i] == ds[..i];
      var d := ds[i];
      if d.rpm.Whole? {
        var id := if d.id.Some? then d.id.value else "";
        if d.rpm.n <= Max(Count(counters.own, id), Count(counters.group, id)) {
          continue;
        }
      }
      survivors := survivors + [d];
    }
    assert ds[..|ds|] == ds;
  }

  lemma {:induction false} EverythingKept(ds: seq<Deployment>, keep: Deployment -> bool)
    requires forall d | d in ds :: keep(d)
    ensures Filter(ds, keep) == ds
  {
    if ds != [] {
      var n := |ds| - 1;
      EverythingKept(ds[..n], keep);
      assert ds == ds[..n] + [ds[n]];
    }
  }

  function FindId(ds: seq<Deployment>, id: string): (i: nat)
    ensures i <= |ds|
    ensures i < |ds| ==> ds[i].id == Some(id)
    ensures forall j | 0 <= j < i :: ds[j].id != Some(id)
  {
    if ds == [] || ds[0].id == Some(id) then 0 else FindId(ds[1..], id) + 1
  }

  // The hook

  datatype Decision = Untouched | Sticky(d: Deployment) | Hashed(d: Deployment)

  /** What the hook decides, given the key of the request and the cached sticky deployment. */
  function Decide(h: Hashing, config: Config, counters: Counters, model: string, healthy: seq<Deployment>,
                  key: Option<string>, cached: Option<string>): Decision
    requires Sound(h)
  {
    if |healthy| <= 1 || Candidates(config, model, healthy) == [] || key.None? then Untouched
    else
      var usable := Unsaturated(counters, Candidates(config, model, healthy));
      if cached.Some? && FindId(usable, cached.value) < |usable| then
        Sticky(usable[FindId(usable, cached.value)])
      else
        var pick := Pick(h, key.value, usable);
        if pick.Some? then Hashed(usable[pick.value]) else Untouched
  }

  function Routed(decision: Decision, healthy: seq<Deployment>): seq<Deployment> {
    match decision
    case Untouched => healthy
    case Sticky(d) => [d]
    case Hashed(d) => [d]
  }

  class Affinity {
    const lib: Library
    const hashing: Hashing
    const config: Config
    var memo: map<(string, string), bool>

    constructor (lib: Library, hashing: Hashing, config: Config)
      requires Injective(lib) && Sound(hashing)
      ensures this.lib == lib && this.hashing == hashing && this.config == config
      ensures Exact()
    {
      this.lib, this.hashing, this.config := lib, hashing, config;
      memo := map[];
    }

    /** The memo is within its bound and holds nothing but true gate results. */
    ghost predicate Exact()
      reads this
    {
      && Injective(lib) && Sound(hashing) && |memo| <= MEMO_MAX
      && forall model, prefix :: (model, lib.digest(prefix)) in memo ==>
           memo[(model, lib.digest(prefix))] == Gate(lib, config, model, prefix)
    }

    /** With the memo or without it, the key is the same. */
    method ComputePrefixKey(model: string, ms: Option<seq<Message>>) returns (key: Option<string>)
      requires Exact()
      modifies this
      ensures Exact()
      ensures key == PrefixKey(lib, config, model, ms)
    {
      if ms.None? || ms.value == [] {
        return None;
      }
      var prefix := CacheablePrefix(ms.value, config);
      if prefix == [] {
        return None;
      }
      var digest := lib.digest(prefix);
      var gate: bool;
      if (model, digest) in memo {
        gate := memo[(model, digest)];
      } else {
        gate := lib.tokens(model, prefix) >= config.minTokens;
        if |memo| >= MEMO_MAX {
          memo := map[];
        }
        memo := memo[(model, digest) := gate];
      }
      key := if gate then Some(digest) else None;
    }

    method FilterDeployments(model: string, healthy: seq<Deployment>, ms: Option<seq<Message>>,
                             counters: Counters, cached: Option<string>)
      returns (routed: seq<Deployment>)
      requires Exact()
      modifies this
      ensures Exact()
      ensures routed == Routed(Decide(hashing, config, counters, model, healthy,
                                      PrefixKey(lib, config, model, ms), cached), healthy)
    {
      if ms.None? || |healthy| <= 1 {
        return healthy;
      }
      var candidates := Candidates(config, model, healthy);
      if candidates == [] {
        return healthy;
      }
      var key := ComputePrefixKey(model, ms);
      if key.None? {
        return healthy;
      }
      candidates := DropSaturated(counters, candidates);
      if candidates == [] {
        return healthy;
      }
      if cached.Some? {
        for i := 0 to |candidates|
          invariant forall j | 0 <= j < i :: candidates[j].id != Some(cached.value)
        {
          if candidates[i].id == Some(cached.value) {
            assert FindId(candidates, cached.value) == i;
            return [candidates[i]];
          }
        }
      }
      var chosen := SelectDeployment(hashing, key.value, candidates);
      if chosen.Some? {
        return [chosen.value];
      }
      routed := healthy;
    }
  }

  /** A pin is a healthy deployment in scope, below its limit whenever the counters can be read,
      and it is the sticky one whenever that one is still usable. */
  lemma PinIsUsable(h: Hashing, config: Config, counters: Counters, model: string, healthy: seq<Deployment>,
                    key: Option<string>, cached: Option<string>)
    requires Sound(h)
    ensures var decision := Decide(h, config, counters, model, healthy, key, cached);
            !decision.Untouched? ==>
              && decision.d in healthy && decision.d.id.Some?
              && (config.models == [] || model in config.models)
              && InScope(config, decision.d) && !Saturated(counters, decision.d)
              && (decision.Sticky? <==> cached.Some? && exists d ::
                    d in Unsaturated(counters, Candidates(config, model, healthy)) && d.id == cached)
              && (decision.Sticky? ==> decision.d.id == cached)
  {
  }

  // Minimal disruption through the whole hook

  predicate Usable(config: Config, counters: Counters, d: Deployment) {
    InScope(config, d) && !Saturated(counters, d)
  }

  function IsUsable(config: Config, counters: Counters): Deployment -> bool {
    d => Usable(config, counters, d)
  }

  /** The indices of a list whose deployments pass. */
  ghost function Passing(ds: seq<Deployment>, keep: Deployment -> bool): (ks: seq<nat>)
    ensures Indices(ks, |ds|)
    ensures forall i: nat :: i in ks <==> i < |ds| && keep(ds[i])
  {
    if ds == [] then []
    else
      var n := |ds| - 1;
      Passing(ds[..n], keep) + (if keep(ds[n]) then [n] else [])
  }

  lemma PartGrows(ds: seq<Deployment>, front: seq<nat>)
    requires ds != [] && Indices(front, |ds| - 1)
    ensures Part(ds, front) == Part(ds[..|ds| - 1], front)
    ensures Indices(front + [|ds| - 1], |ds|) && Part(ds, front + [|ds| - 1]) == Part(ds, front) + [ds[|ds| - 1]]
  {
  }

  lemma {:induction false} FilterIsPart(ds: seq<Deployment>, keep: Deployment -> bool)
    ensures Filter(ds, keep) == Part(ds, Passing(ds, keep))
  {
    if ds != [] {
      var n := |ds| - 1;
      FilterIsPart(ds[..n], keep);
      PartGrows(ds, Passing(ds[..n], keep));
    }
  }

  lemma {:induction false} FilterTwice(ds: seq<Deployment>, f: Deployment -> bool, g: Deployment -> bool)
    ensures Filter(Filter(ds, f), g) == Filter(ds, d => f(d) && g(d))
  {
    if ds != [] {
      var n := |ds| - 1;
      FilterTwice(ds[..n], f, g);
      var front := Filter(ds[..n], f);
      if f(ds[n]) {
        assert (front + [ds[n]])[..|front|] == front;
      } else {
        assert Filter(ds, f) == front;
      }
    }
  }

  lemma {:induction false} FilterSame(ds: seq<Deployment>, f: Deployment -> bool, g: Deployment -> bool)
    requires forall d :: f(d) == g(d)
    ensures Filter(ds, f) == Filter(ds, g)
  {
    if ds != [] { FilterSame(ds[..|ds| - 1], f, g); }
  }

  lemma UsableIsFilter(config: Config, counters: Counters, model: string, ds: seq<Deployment>)
    requires config.models == [] || model in config.models
    ensures Unsaturated(counters, Candidates(config, model, ds)) == Filter(ds, IsUsable(config, counters))
  {
    var f, g := (d: Deployment) => InScope(config, d), (d: Deployment) => !Saturated(counters, d);
    FilterTwice(ds, f, g);
    FilterSame(ds, d => f(d) && g(d), IsUsable(config, counters));
  }

  lemma ComposedIndices(ds: seq<Deployment>, left: seq<nat>, ks: seq<nat>) returns (through: seq<nat>)
    requires Indices(left, |ds|) && Indices(ks, |left|)
    ensures |through| == |ks| && Indices(through, |ds|) && Part(ds, through) == Part(Part(ds, left), ks)
    ensures forall q | 0 <= q < |ks| :: through[q] == left[ks[q]]
  {
    through := seq(|ks|, q requires 0 <= q < |ks| => left[ks[q]]);
    assert Part(ds, through) == Part(Part(ds, left), ks);
  }

  /** Filtering a part of a list is again a part of the list. */
  lemma FilterOfPart(ds: seq<Deployment>, left: seq<nat>, keep: Deployment -> bool) returns (through: seq<nat>)
    requires Indices(left, |ds|)
    ensures Indices(through, |ds|) && Part(ds, through) == Filter(Part(ds, left), keep)
    ensures forall j :: j in Members(through) <==> j in left && keep(ds[j])
  {
    var now := Part(ds, left);
    var ks := Passing(now, keep);
    FilterIsPart(now, keep);
    through := ComposedIndices(ds, left, ks);
    forall j | j in left && keep(ds[j]) ensures j in Members(through) {
      var p :| 0 <= p < |left| && left[p] == j;
      assert now[p] == ds[j] && p in ks;
      var q :| 0 <= q < |ks| && ks[q] == p;
      assert through[q] == j;
    }
    forall j | j in Members(through) ensures j in left && keep(ds[j]) {
      var q :| 0 <= q < |through| && through[q] == j;
      assert ks[q] in ks && now[ks[q]] == ds[j];
    }
  }

  /** The deployments of a list that the hook may pin to, by index. */
  ghost function UsableIndices(config: Config, counters: Counters, ds: seq<Deployment>): (ks: seq<nat>)
    ensures Indices(ks, |ds|)
    ensures forall i: nat :: i in Members(ks) <==> i < |ds| && Usable(config, counters, ds[i])
  {
    var ks := Passing(ds, IsUsable(config, counters));
    assert forall i: nat :: i in Members(ks) <==> i in ks;
    ks
  }

  /** `i` is where the pick among the usable deployments stands in the list. */
  ghost predicate PinnedAt(h: Hashing, config: Config, counters: Counters, key: string, ds: seq<Deployment>, i: nat)
    requires Sound(h)
  {
    var ks := UsableIndices(config, counters, ds);
    var p := Pick(h, key, Part(ds, ks));
    p.Some? && ks[p.value] == i
  }

  lemma HashedIsPinned(h: Hashing, config: Config, counters: Counters, model: string, key: string, ds: seq<Deployment>)
    requires Sound(h) && |ds| > 1 && (config.models == [] || model in config.models)
    ensures var decision := Decide(h, config, counters, model, ds, Some(key), None);
            if decision.Hashed? then exists i | 0 <= i < |ds| :: PinnedAt(h, config, counters, key, ds, i) && ds[i] == decision.d
            else forall i: nat :: !PinnedAt(h, config, counters, key, ds, i)
  {
    UsableIsFilter(config, counters, model, ds);
    FilterIsPart(ds, IsUsable(config, counters));
    var ks := UsableIndices(config, counters, ds);
    var usable := Unsaturated(counters, Candidates(config, model, ds));
    assert usable == Part(ds, ks);
    var p := Pick(h, key, usable);
    if p.Some? {
      assert Candidates(config, model, ds) != [] by { assert usable[p.value] in usable; }
      DecideHashes(h, config, counters, model, ds, key, usable[p.value]);
      assert PinnedAt(h, config, counters, key, ds, ks[p.value]);
    }
  }

  /** A hashed pin stays as long as it is healthy and usable, whatever else is removed from the
      list or fills up, provided there still is a choice. */
  lemma PinSurvivesOthersLeaving(h: Hashing, config: Config, model: string, key: string, ds: seq<Deployment>,
                                 before: Counters, after: Counters, left: seq<nat>, i: nat)
    requires Sound(h) && Indices(left, |ds|) && |left| > 1 && (config.models == [] || model in config.models)
    requires PinnedAt(h, config, before, key, ds, i)
    requires i in left && Usable(config, after, ds[i])
    requires forall j | j in left && Usable(config, after, ds[j]) :: Usable(config, before, ds[j])
    ensures Decide(h, config, after, model, Part(ds, left), Some(key), None) == Hashed(ds[i])
  {
    var now := Part(ds, left);
    var through := FilterOfPart(ds, left, IsUsable(config, after));
    StillPicked(h, config, key, ds, before, through, i);
    UsableIsFilter(config, after, model, now);
    SomeCandidate(config, model, ds, left, i);
    DecideHashes(h, config, after, model, now, key, ds[i]);
  }

  lemma DecideHashes(h: Hashing, config: Config, counters: Counters, model: string, healthy: seq<Deployment>,
                     key: string, d: Deployment)
    requires Sound(h) && |healthy| > 1 && Candidates(config, model, healthy) != []
    requires var usable := Unsaturated(counters, Candidates(config, model, healthy));
             Pick(h, key, usable).Some? && usable[Pick(h, key, usable).value] == d
    ensures Decide(h, config, counters, model, healthy, Some(key), None) == Hashed(d)
  {
  }

  lemma StillPicked(h: Hashing, config: Config, key: string, ds: seq<Deployment>,
                    before: Counters, through: seq<nat>, i: nat)
    requires Sound(h) && Indices(through, |ds|) && PinnedAt(h, config, before, key, ds, i)
    requires i in Members(through) && forall j | j in Members(through) :: j < |ds| && Usable(config, before, ds[j])
    ensures var q := Pick(h, key, Part(ds, through));
            q.Some? && Part(ds, through)[q.value] == ds[i]
  {
    DropMovesOnlyItsKeys(h, key, ds, UsableIndices(config, before, ds), through);
  }

  lemma SomeCandidate(config: Config, model: string, ds: seq<Deployment>, left: seq<nat>, i: nat)
    requires Indices(left, |ds|) && i in left && InScope(config, ds[i])
    requires config.models == [] || model in config.models
    ensures Candidates(config, model, Part(ds, left)) != []
  {
    var p :| 0 <= p < |left| && left[p] == i;
    var now := Part(ds, left);
    assert now[p] == ds[i] && now[p] in Filter(now, d => InScope(config, d));
  }

  // What the prefix, the key and the decision are, branch by branch

  /** The first marked block of a message. */
  predicate FirstMarkAt(m: Message, k: nat) {
    && m.Message? && m.content.Blocks? && k < |m.content.blocks|
    && m.content.blocks[k].Block? && m.content.blocks[k].marked
    && forall j | 0 <= j < k :: !(m.content.blocks[j].Block? && m.content.blocks[j].marked)
  }

  /** The message carries a marker, on itself or on one of its blocks. */
  ghost predicate CarriesMarker(m: Message) {
    m.Message? && (m.marked || exists k: nat :: FirstMarkAt(m, k))
  }

  lemma {:induction false} FirstMarkedIs(blocks: seq<Block>)
    ensures forall j | 0 <= j < FirstMarked(blocks) :: !(blocks[j].Block? && blocks[j].marked)
  {
    if blocks != [] && !(blocks[0].Block? && blocks[0].marked) {
      FirstMarkedIs(blocks[1..]);
      forall j | 0 < j < FirstMarked(blocks) ensures !(blocks[j].Block? && blocks[j].marked) {
        assert blocks[j] == blocks[1..][j - 1];
      }
    }
  }

  lemma CutIs(m: Message)
    ensures CutAtMarker(m).Some? <==> CarriesMarker(m)
    ensures m.Message? && m.marked ==> CutAtMarker(m) == Some(m)
    ensures forall k: nat | FirstMarkAt(m, k) && !m.marked ::
              CutAtMarker(m) == Some(m.(content := Blocks(m.content.blocks[..k + 1])))
  {
    if m.Message? && m.content.Blocks? {
      FirstMarkedIs(m.content.blocks);
      var first := FirstMarked(m.content.blocks);
      if first < |m.content.blocks| { assert FirstMarkAt(m, first); }
      forall k: nat | FirstMarkAt(m, k) ensures k == first {}
    }
  }

  lemma {:induction false} PrefixFromIs(ms: seq<Message>, from: nat, i: nat)
    requires from <= i < |ms| && CutAtMarker(ms[i]).Some? && forall j | from <= j < i :: CutAtMarker(ms[j]).None?
    ensures PrefixFrom(ms, from) == ms[..i] + [CutAtMarker(ms[i]).value]
    decreases i - from
  {
    if from < i { PrefixFromIs(ms, from + 1, i); }
  }

  lemma {:induction false} PrefixFromEmpty(ms: seq<Message>, from: nat)
    requires from <= |ms| && forall j | from <= j < |ms| :: CutAtMarker(ms[j]).None?
    ensures PrefixFrom(ms, from) == []
    decreases |ms| - from
  {
    if from < |ms| { PrefixFromEmpty(ms, from + 1); }
  }

  /** The prefix holds the conversation up to its first marker: every message before, and the marked one whole or,
      if the marker is on a block, cut behind the first such block. */
  lemma PrefixHolds(ms: seq<Message>, i: nat)
    requires i < |ms| && CarriesMarker(ms[i]) && forall j | 0 <= j < i :: !CarriesMarker(ms[j])
    ensures var p, m := PrefixToMarker(ms), ms[i];
            && |p| == i + 1 && (forall j | 0 <= j < i :: p[j] == ms[j])
            && (m.marked ==> p[i] == m)
            && (!m.marked ==> forall k: nat | FirstMarkAt(m, k) ::
                  p[i] == Message(m.role, m.marked, Blocks(m.content.blocks[..k + 1])))
  {
    forall j | 0 <= j <= i ensures CutAtMarker(ms[j]).Some? <==> CarriesMarker(ms[j]) { CutIs(ms[j]); }
    PrefixFromIs(ms, 0, i);
    CutIs(ms[i]);
  }

  lemma NoMarkerNoPrefix(ms: seq<Message>)
    requires forall j | 0 <= j < |ms| :: !CarriesMarker(ms[j])
    ensures PrefixToMarker(ms) == []
  {
    forall j | 0 <= j < |ms| ensures CutAtMarker(ms[j]).None? { CutIs(ms[j]); }
    PrefixFromEmpty(ms, 0);
  }

  /** The leading slice, by index: the first `n` messages, or all but the last `-n`. */
  lemma SliceHolds(ms: seq<Message>, n: int)
    ensures var p := Slice(ms, n);
            && |p| == (if n >= |ms| then |ms| else if n >= 0 then n else if -n >= |ms| then 0 else |ms| + n)
            && forall j | 0 <= j < |p| :: p[j] == ms[j]
  {
  }

  /** There is a key exactly if the configured strategy finds a prefix of enough tokens; and two conversations of
      one model share a key exactly if they share that prefix. */
  lemma KeyIff(lib: Library, config: Config, model: string, ms: Option<seq<Message>>, other: Option<seq<Message>>)
    requires Injective(lib)
    ensures PrefixKey(lib, config, model, ms).Some? <==>
            && ms.Some? && !config.strategy.Unknown?
            && (var p := if config.strategy.CacheControl? then PrefixToMarker(ms.value)
                         else Slice(ms.value, config.sliceLength);
                p != [] && lib.tokens(model, p) >= config.minTokens)
    ensures PrefixKey(lib, config, model, ms).Some? && PrefixKey(lib, config, model, other).Some? ==>
              (PrefixKey(lib, config, model, ms) == PrefixKey(lib, config, model, other)
               <==> if config.strategy.CacheControl? then PrefixToMarker(ms.value) == PrefixToMarker(other.value)
                    else Slice(ms.value, config.sliceLength) == Slice(other.value, config.sliceLength))
  {
  }

  /** A deployment is full when either counter has reached its integer limit, and only if the counters can be read. */
  lemma SaturatedIff(counters: Counters, d: Deployment)
    ensures Saturated(counters, d) <==>
            && counters.Counters? && d.rpm.Whole?
            && (var id := if d.id.Some? then d.id.value else "";
                || (id in counters.own && counters.own[id] >= d.rpm.n)
                || (id in counters.group && counters.group[id] >= d.rpm.n)
                || (d.rpm.n <= 0 && (id !in counters.own || id !in counters.group)))
  {
  }

  /** A request is left to the router exactly if there is no choice, the model is out of scope, there is no key, or
      no deployment with an id is in scope and below its limit. */
  lemma UntouchedIff(h: Hashing, config: Config, counters: Counters, model: string, healthy: seq<Deployment>,
                     key: Option<string>, cached: Option<string>)
    requires Sound(h)
    ensures Decide(h, config, counters, model, healthy, key, cached).Untouched? <==>
            || |healthy| <= 1 || key.None? || (config.models != [] && model !in config.models)
            || forall d | d in healthy && d.id.Some? ::
                 Saturated(counters, d)
                 || (config.providers != [] && !(d.provider.Some? && d.provider.value in config.providers))
  {
    var usable := Unsaturated(counters, Candidates(config, model, healthy));
    if key.Some? { PickWins(h, key.value, usable, 0); }
    forall d | d in usable ensures d in healthy {}
    if d :| d in usable && d.id.Some? {
      var i :| 0 <= i < |usable| && usable[i] == d;
    }
    if cached.Some? && FindId(usable, cached.value) < |usable| {
      assert usable[FindId(usable, cached.value)] in usable;
    }
  }
}
