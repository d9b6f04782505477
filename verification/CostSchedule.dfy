/** Time-of-day prices: weekly rule windows, the rule in force, and the worker that pushes its
    price to LiteLLM and keeps the catalog default in step with the live base price. */
module CostSchedule {
  import opened Wrappers

  datatype Rule = Rule(
    days: seq<int>, start: int, end: int,
    input: real, output: real, cacheRead: Option<real>,
    priority: int, enabled: bool)

  /** Local wall-clock time: ISO weekday 1..7 and hour 0..23. */
  datatype Clock = Clock(dow: int, hour: int)

  predicate ValidRule(r: Rule) {
    && r.days != [] && (forall i | 0 <= i < |r.days| :: 1 <= r.days[i] <= 7)
    && 0 <= r.start <= 23 && 1 <= r.end <= 24 && r.start != r.end
    && r.input >= 0.0 && r.output >= 0.0
    && (r.cacheRead.Some? ==> r.cacheRead.value >= 0.0)
  }

  predicate ValidClock(now: Clock) { 1 <= now.dow <= 7 && 0 <= now.hour <= 23 }

  // Windows

  predicate RuleMatches(r: Rule, now: Clock) {
    var yesterday := (now.dow - 1 - 1) % 7 + 1;
    if r.end > r.start then now.dow in r.days && r.start <= now.hour < r.end
    else (now.dow in r.days && now.hour >= r.start) || (yesterday in r.days && now.hour < r.end)
  }

  function HourOfWeek(now: Clock): int { (now.dow - 1) * 24 + now.hour }

  function ClockAt(t: int): Clock { Clock(t / 24 + 1, t % 24) }

  function WindowLength(r: Rule): int {
    if r.end > r.start then r.end - r.start else 24 - r.start + r.end
  }

  /** Hours from `base` forward to `t`, around the week. */
  function Ahead(base: int, t: int): int { (t - base) % 168 }

  lemma AheadIs(base: int, t: int)
    requires 0 <= base < 168 && 0 <= t < 168
    ensures Ahead(base, t) == if t < base then t - base + 168 else t - base
  {
  }

  function Opening(r: Rule, d: int): int { (d - 1) * 24 + r.start }

  /** Hour `t` of the week lies in the window that opens on day `d`. */
  predicate InWindow(r: Rule, d: int, t: int) { Ahead(Opening(r, d), t) < WindowLength(r) }

  predicate InSomeWindow(r: Rule, days: set<int>, t: int) {
    exists d | d in days :: InWindow(r, d, t)
  }

  function DaySet(r: Rule): set<int> { set d | d in r.days }

  lemma WindowOfDay(r: Rule, d: int, now: Clock)
    requires ValidRule(r) && ValidClock(now) && 1 <= d <= 7
    ensures InWindow(r, d, HourOfWeek(now)) <==>
            if r.end > r.start then now.dow == d && r.start <= now.hour < r.end
            else (now.dow == d && now.hour >= r.start) || ((now.dow - 1 - 1) % 7 + 1 == d && now.hour < r.end)
  {
    AheadIs(Opening(r, d), HourOfWeek(now));
    assert (now.dow - 1 - 1) % 7 + 1 == if now.dow == 1 then 7 else now.dow - 1;
  }

  /** A rule is in force exactly when some listed day's start lies less than a window back. */
  lemma MatchesWindow(r: Rule, now: Clock)
    requires ValidRule(r) && ValidClock(now)
    ensures RuleMatches(r, now) <==> InSomeWindow(r, DaySet(r), HourOfWeek(now))
  {
    var yesterday := (now.dow - 1 - 1) % 7 + 1;
    assert 1 <= yesterday <= 7;
    WindowOfDay(r, now.dow, now);
    WindowOfDay(r, yesterday, now);
    assert now.dow in r.days ==> now.dow in DaySet(r);
    assert yesterday in r.days ==> yesterday in DaySet(r);
    if d :| d in DaySet(r) && InWindow(r, d, HourOfWeek(now)) {
      WindowOfDay(r, d, now);
    }
  }

  function Covered(r: Rule, days: set<int>): set<int> {
    set t | 0 <= t < 168 && InSomeWindow(r, days, t)
  }

  function Arc(base: int, length: int): set<int> {
    set t | 0 <= t < 168 && Ahead(base, t) < length
  }

  lemma {:induction false} ArcSize(base: int, length: int)
    requires 0 <= base < 168 && 0 <= length <= 168
    ensures |Arc(base, length)| == length
  {
    if length == 0 {
      assert forall t :: t !in Arc(base, length);
    } else {
      ArcSize(base, length - 1);
      var last := if base + length - 1 < 168 then base + length - 1 else base + length - 1 - 168;
      forall t | 0 <= t < 168 ensures Ahead(base, t) == length - 1 <==> t == last {
        AheadIs(base, t);
      }
      assert Arc(base, length) == Arc(base, length - 1) + {last};
    }
  }

  lemma WindowsApart(r: Rule, d: int, e: int, t: int)
    requires ValidRule(r) && 1 <= d <= 7 && 1 <= e <= 7 && d != e && 0 <= t < 168
    requires InWindow(r, e, t)
    ensures !InWindow(r, d, t)
  {
    AheadIs(Opening(r, d), t);
    AheadIs(Opening(r, e), t);
  }

  /** One more day adds its own window, and no hour of it was covered before. */
  lemma CoveredGrows(r: Rule, rest: set<int>, d: int)
    requires ValidRule(r) && 1 <= d <= 7 && d !in rest && forall e | e in rest :: 1 <= e <= 7
    ensures var arc := Arc(Opening(r, d), WindowLength(r));
            Covered(r, rest + {d}) == Covered(r, rest) + arc && Covered(r, rest) !! arc
  {
    var arc := Arc(Opening(r, d), WindowLength(r));
    forall t | 0 <= t < 168
      ensures InSomeWindow(r, rest + {d}, t) <==> InSomeWindow(r, rest, t) || InWindow(r, d, t)
      ensures InSomeWindow(r, rest, t) ==> !InWindow(r, d, t)
    {
      if InSomeWindow(r, rest, t) {
        var e :| e in rest && InWindow(r, e, t);
        assert e in rest + {d};
        WindowsApart(r, d, e, t);
      }
      assert d in rest + {d};
    }
  }

  lemma CoveredStep(r: Rule, rest: set<int>, d: int)
    requires ValidRule(r) && 1 <= d <= 7 && d !in rest && forall e | e in rest :: 1 <= e <= 7
    ensures |Covered(r, rest + {d})| == |Covered(r, rest)| + WindowLength(r)
  {
    CoveredGrows(r, rest, d);
    ArcSize(Opening(r, d), WindowLength(r));
  }

  lemma OneMoreTimes(n: int, length: int)
    ensures (n + 1) * length == n * length + length
  {
  }

  lemma NothingCovered(r: Rule)
    ensures Covered(r, {}) == {}
  {
    assert forall t :: !InSomeWindow(r, {}, t);
  }

  lemma EmptyOrInhabited(days: set<int>)
    ensures days == {} || exists d :: d in days
  {
    if forall d :: d !in days { assert days <= {}; }
  }

  lemma SomeDay(days: set<int>) returns (d: int)
    requires days != {}
    ensures d in days
  {
    EmptyOrInhabited(days);
    d :| d in days;
  }

  lemma {:induction false} CoveredSize(r: Rule, days: set<int>)
    requires ValidRule(r) && forall d | d in days :: 1 <= d <= 7
    ensures |Covered(r, days)| == |days| * WindowLength(r)
    decreases |days|
  {
    if days == {} {
      NothingCovered(r);
    } else {
      var d := SomeDay(days);
      var rest := days - {d};
      CoveredSize(r, rest);
      CoveredStep(r, rest, d);
      OneMoreTimes(|rest|, WindowLength(r));
      assert rest + {d} == days;
    }
  }

  /** A rule is in force for |days| windows of the week, no hour counted twice. */
  lemma WeeklyHours(r: Rule)
    requires ValidRule(r)
    ensures var hours := set t | 0 <= t < 168 && RuleMatches(r, ClockAt(t));
            |hours| == |DaySet(r)| * WindowLength(r)
  {
    var hours := set t | 0 <= t < 168 && RuleMatches(r, ClockAt(t));
    forall t | 0 <= t < 168 ensures t in hours <==> t in Covered(r, DaySet(r)) {
      assert HourOfWeek(ClockAt(t)) == t;
      MatchesWindow(r, ClockAt(t));
    }
    assert hours == Covered(r, DaySet(r));
    CoveredSize(r, DaySet(r));
  }

  // The rule in force

  predicate IsActive(r: Rule, now: Clock) { r.enabled && RuleMatches(r, now) }

  /** Stable sort by falling priority, first element. */
  function PickRule(rules: seq<Rule>, now: Clock): (r: Option<Rule>)
    ensures r.Some? ==> r.value in rules && IsActive(r.value, now)
  {
    if rules == [] then None
    else
      var last := rules[|rules| - 1];
      var best := PickRule(rules[..|rules| - 1], now);
      if IsActive(last, now) && (best.None? || last.priority > best.value.priority) then Some(last) else best
  }

  /** Rule `i` is on and its window open, none outranks it, and none before it is its equal. */
  ghost predicate Leads(rules: seq<Rule>, now: Clock, i: int) {
    && 0 <= i < |rules| && rules[i].enabled && RuleMatches(rules[i], now)
    && forall j | 0 <= j < |rules| && rules[j].enabled && RuleMatches(rules[j], now) ::
         rules[j].priority <= rules[i].priority && (j < i ==> rules[j].priority < rules[i].priority)
  }

  /** One more rule at the end, and the leader stays. */
  lemma LeadsStays(rules: seq<Rule>, last: Rule, now: Clock, i: int)
    requires Leads(rules, now, i) && (IsActive(last, now) ==> last.priority <= rules[i].priority)
    ensures Leads(rules + [last], now, i)
  {
    assert forall j | 0 <= j < |rules| :: (rules + [last])[j] == rules[j];
  }

  lemma LastLeads(rules: seq<Rule>, last: Rule, now: Clock)
    requires IsActive(last, now)
    requires forall j | 0 <= j < |rules| && IsActive(rules[j], now) :: rules[j].priority < last.priority
    ensures Leads(rules + [last], now, |rules|)
  {
    assert forall j | 0 <= j < |rules| :: (rules + [last])[j] == rules[j];
  }

  lemma {:induction false} PickedNone(rules: seq<Rule>, now: Clock)
    ensures PickRule(rules, now).None? <==> forall j | 0 <= j < |rules| :: !IsActive(rules[j], now)
  {
    if rules != [] {
      var n := |rules| - 1;
      PickedNone(rules[..n], now);
      assert forall j | 0 <= j < n :: rules[..n][j] == rules[j];
    }
  }

  lemma {:induction false} PickedLeads(rules: seq<Rule>, now: Clock) returns (i: int)
    requires PickRule(rules, now).Some?
    ensures Leads(rules, now, i) && rules[i] == PickRule(rules, now).value
  {
    var n := |rules| - 1;
    var front, last := rules[..n], rules[n];
    assert rules == front + [last];
    if PickRule(front, now).None? {
      PickedNone(front, now);
      LastLeads(front, last, now);
      i := n;
    } else {
      i := PickedLeads(front, now);
      if IsActive(last, now) && last.priority > front[i].priority {
        LastLeads(front, last, now);
        i := n;
      } else {
        LeadsStays(front, last, now, i);
      }
    }
  }

  /** The first of the highest-priority rules that are on and whose window is open is picked, and none only when
      there is none. */
  lemma PickIsFirstHighest(rules: seq<Rule>, now: Clock)
    ensures PickRule(rules, now).None? <==> forall j | 0 <= j < |rules| && rules[j].enabled :: !RuleMatches(rules[j], now)
    ensures PickRule(rules, now).Some? ==> exists i :: Leads(rules, now, i) && rules[i] == PickRule(rules, now).value
  {
    PickedNone(rules, now);
    if PickRule(rules, now).Some? {
      var i := PickedLeads(rules, now);
    }
  }
}
