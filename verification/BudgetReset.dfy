/** The hourly job that zeroes the members' spend when their budget's period is over. */
module BudgetReset {
  import opened Wrappers
  import Text

  /** Rows per UPDATE. */
  const CHUNK_SIZE: nat := 5000

  /** Times are whole seconds since the start of year 1. */
  type Time = int

  /** The last second of year 9999: later datetimes do not exist. */
  const LAST_TIME: Time := 315537897599

  const MAX_DAYS: nat := 999999999

  const HOUR: nat := 3600

  const DAY: nat := 24 * HOUR

  // Durations

  datatype Duration = Unparseable | TooLong | Lasting(seconds: nat)

  /** Digits and one unit, blanks and case aside; a month is thirty days. */
  function ParseDuration(text: string): Duration { ReadDuration(Text.Lower(Text.Strip(text))) }

  function ReadDuration(t: string): Duration {
    if |t| < 2 || !Text.AllDigits(t[..|t| - 1]) || t[|t| - 1] !in "dhm" then Unparseable
    else Counted(Text.ReadNat(t[..|t| - 1]), t[|t| - 1])
  }

  function Counted(n: nat, unit: char): Duration {
    var days := if unit == 'h' then n / 24 else if unit == 'd' then n else 30 * n;
    if days > MAX_DAYS then TooLong else Lasting(if unit == 'h' then n * HOUR else days * DAY)
  }

  lemma {:induction false} LowerKeepsDigits(s: string)
    requires Text.AllDigits(s)
    ensures Text.Lower(s) == s
  {
    if s != "" {
      Text.AllDigitsAt(s);
      Text.AllDigitsAt(s[1..]);
      LowerKeepsDigits(s[1..]);
    }
  }

  lemma {:induction false} LowerAppends(s: string, c: char)
    ensures Text.Lower(s + [c]) == Text.Lower(s) + [Text.LowerChar(c)]
  {
    if s == "" {
      assert s + [c] == [c] && [c][1..] == "" && Text.Lower([c][1..]) == "";
    } else {
      assert (s + [c])[1..] == s[1..] + [c];
      LowerAppends(s[1..], c);
    }
  }

  lemma Untouched(t: string)
    requires t != "" && !Text.IsSpace(t[0]) && !Text.IsSpace(t[|t| - 1])
    ensures Text.Strip(t) == t
  {
  }

  lemma NormalDuration(n: nat, unit: char)
    requires unit in "dhmDHM"
    ensures Text.Lower(Text.Strip(Text.NatText(n) + [unit])) == Text.NatText(n) + [Text.LowerChar(unit)]
  {
    var digits := Text.NatText(n);
    var t := digits + [unit];
    Text.AllDigitsAt(digits);
    assert t[0] == digits[0] && Text.IsDigit(t[0]);
    Untouched(t);
    LowerAppends(digits, unit);
    LowerKeepsDigits(digits);
  }

  lemma ReadDurationText(n: nat, unit: char)
    requires unit in "dhm"
    ensures ReadDuration(Text.NatText(n) + [unit]) == Counted(n, unit)
  {
    var t := Text.NatText(n) + [unit];
    Text.ReadNatText(n);
    assert t[..|t| - 1] == Text.NatText(n) && t[|t| - 1] == unit;
  }

  /** A number of days, hours or months, written out in either case, is read back. */
  lemma DurationReadBack(n: nat, unit: char)
    requires unit in "dhmDHM"
    ensures ParseDuration(Text.NatText(n) + [unit]) ==
            (var days := if unit in "dD" then n else if unit in "mM" then 30 * n else n / 24;
             if days > MAX_DAYS then TooLong
             else Lasting(if unit in "hH" then n * HOUR else days * DAY))
  {
    NormalDuration(n, unit);
    ReadDurationText(n, Text.LowerChar(unit));
  }

  // The tables

  type Member = (string, string)

  datatype Row = Row(budget: Option<string>, spend: real)

  datatype Budget = Budget(resetAt: Option<Time>, duration: Option<string>)

  datatype State = State(rows: map<Member, Row>, budgets: map<string, Budget>)

  predicate LinkedTo(r: Row, ids: set<string>) { r.budget.Some? && r.budget.value in ids }

  /** The members of these budgets who have spent something. */
  function Spenders(rows: map<Member, Row>, ids: set<string>): set<Member> {
    set m | m in rows && LinkedTo(rows[m], ids) && rows[m].spend != 0.0
  }

  function Cleared(r: Row): Row { r.(spend := 0.0) }

  /** The budgets the job selects: their time has come, they renew, and some member is on them. */
  function Due(s: State, now: Time): set<string> {
    set b | b in s.budgets && s.budgets[b].resetAt.Some? && s.budgets[b].resetAt.value <= now
            && s.budgets[b].duration.Some? && HasMember(s.rows, b)
  }

  predicate HasMember(rows: map<Member, Row>, b: string) {
    exists m :: m in rows && rows[m].budget == Some(b)
  }

  function DurationOf(s: State, b: string): Duration
    requires b in s.budgets
  {
    match s.budgets[b].duration
    case None => Unparseable
    case Some(text) => ParseDuration(text)
  }

  /** Those whose members' spend is cleared. */
  function Clearing(s: State, now: Time): set<string> {
    set b | b in Due(s, now) && DurationOf(s, b).Lasting?
  }

  /** Those whose next time can also be written down. */
  function Rolling(s: State, now: Time): set<string> {
    set b | b in Clearing(s, now) && now + DurationOf(s, b).seconds <= LAST_TIME
  }

  function RolledBudget(s: State, b: string, now: Time): Budget
    requires b in s.budgets && DurationOf(s, b).Lasting?
  {
    s.budgets[b].(resetAt := Some(now + DurationOf(s, b).seconds))
  }

  /** What a pass may have done to the rows when the budgets `handled` were gone through and those of
      `done` went well: the others' clearing can have stopped after any chunk. */
  ghost predicate RowsStep(was: map<Member, Row>, now: map<Member, Row>, handled: set<string>, done: set<string>) {
    && now.Keys == was.Keys
    && forall m | m in was ::
         if LinkedTo(was[m], done) then now[m] == Cleared(was[m])
         else if LinkedTo(was[m], handled) then now[m] == was[m] || now[m] == Cleared(was[m])
         else now[m] == was[m]
  }

  ghost predicate BudgetsStep(s: State, budgets: map<string, Budget>, now: Time, done: set<string>)
    requires done <= Rolling(s, now)
  {
    && budgets.Keys == s.budgets.Keys
    && forall b | b in s.budgets :: budgets[b] == if b in done then RolledBudget(s, b, now) else s.budgets[b]
  }

  ghost predicate PassStep(s: State, s': State, now: Time, done: set<string>) {
    && done <= Rolling(s, now)
    && RowsStep(s.rows, s'.rows, Clearing(s, now), done)
    && BudgetsStep(s, s'.budgets, now, done)
  }

  /** A pass in which no statement fails. */
  ghost predicate QuietPass(s: State, s': State, now: Time) {
    && RowsStep(s.rows, s'.rows, {}, Clearing(s, now))
    && BudgetsStep(s, s'.budgets, now, Rolling(s, now))
  }

  datatype Attempt = Skipped | Failed | Reset(count: nat)

  ghost predicate AllQuiet(raises: string -> nat -> bool) { forall b :: Never(raises(b)) }

  ghost predicate Never(raises: nat -> bool) { forall k :: !raises(k) }

  ghost predicate AttemptStep(s: State, s': State, now: Time, b: string, r: Attempt)
    requires b in s.budgets
  {
    var d := DurationOf(s, b);
    && (r.Reset? ==> d.Lasting? && now + d.seconds <= LAST_TIME && r.count == |Spenders(s.rows, {b})|)
    && RowsStep(s.rows, s'.rows, if d.Lasting? then {b} else {}, if r.Reset? then {b} else {})
    && s'.budgets == if r.Reset? then s.budgets[b := RolledBudget(s, b, now)] else s.budgets
  }

  ghost predicate QuietAttempt(s: State, s': State, now: Time, b: string, r: Attempt)
    requires b in s.budgets
  {
    var d := DurationOf(s, b);
    && (r.Reset? <==> d.Lasting? && now + d.seconds <= LAST_TIME)
    && RowsStep(s.rows, s'.rows, {}, if d.Lasting? then {b} else {})
  }

  function Readable(s: State, ids: set<string>): set<string>
    requires ids <= s.budgets.Keys
  {
    set b | b in ids && !DurationOf(s, b).Unparseable?
  }

  /** A pass with the budgets of `todo` still before it. */
  ghost predicate MidPass(s: State, s': State, now: Time, todo: set<string>, done: set<string>) {
    && todo <= Due(s, now) && done <= Rolling(s, now) && done !! todo
    && RowsStep(s.rows, s'.rows, Clearing(s, now) - todo, done)
    && BudgetsStep(s, s'.budgets, now, done)
  }

  ghost predicate QuietMid(s: State, s': State, now: Time, todo: set<string>, done: set<string>) {
    && done == Rolling(s, now) - todo
    && RowsStep(s.rows, s'.rows, {}, Clearing(s, now) - todo)
  }

  /** A budget not yet gone through is as it was selected, members included. */
  lemma AsSelected(s: State, mid: State, now: Time, todo: set<string>, done: set<string>, b: string)
    requires MidPass(s, mid, now, todo, done) && b in todo
    ensures b in mid.budgets && mid.budgets[b] == s.budgets[b] && DurationOf(mid, b) == DurationOf(s, b)
    ensures Spenders(mid.rows, {b}) == Spenders(s.rows, {b})
  {
  }

  lemma RowsThen(was: map<Member, Row>, mid: map<Member, Row>, now: map<Member, Row>, handled: set<string>,
                 done: set<string>, b: string, clears: bool, ok: bool)
    requires RowsStep(was, mid, handled, done) && b !in handled && b !in done && (ok ==> clears)
    requires RowsStep(mid, now, if clears then {b} else {}, if ok then {b} else {})
    ensures RowsStep(was, now, if clears then handled + {b} else handled, if ok then done + {b} else done)
  {
  }

  lemma ClearingThen(s: State, now: Time, todo: set<string>, b: string)
    requires b in todo && todo <= Due(s, now)
    ensures Clearing(s, now) - (todo - {b}) ==
            if DurationOf(s, b).Lasting? then Clearing(s, now) - todo + {b} else Clearing(s, now) - todo
  {
  }

  lemma BudgetRolls(s: State, budgets: map<string, Budget>, now: Time, done: set<string>, b: string)
    requires done <= Rolling(s, now) && BudgetsStep(s, budgets, now, done) && b in Rolling(s, now) && b !in done
    ensures BudgetsStep(s, budgets[b := RolledBudget(s, b, now)], now, done + {b})
  {
  }

  lemma BudgetsThen(s: State, mid: State, s': State, now: Time, done: set<string>, b: string, r: Attempt)
    requires done <= Rolling(s, now) && BudgetsStep(s, mid.budgets, now, done) && b !in done
    requires b in Due(s, now) && b in mid.budgets && mid.budgets[b] == s.budgets[b]
    requires AttemptStep(mid, s', now, b, r)
    ensures var after := if r.Reset? then done + {b} else done;
            after <= Rolling(s, now) && BudgetsStep(s, s'.budgets, now, after)
  {
    assert DurationOf(mid, b) == DurationOf(s, b);
    if r.Reset? { BudgetRolls(s, mid.budgets, now, done, b); }
  }

  lemma MidThen(s: State, mid: State, s': State, now: Time, todo: set<string>, done: set<string>, b: string, r: Attempt)
    requires MidPass(s, mid, now, todo, done) && b in todo && b in mid.budgets && mid.budgets[b] == s.budgets[b]
    requires AttemptStep(mid, s', now, b, r)
    ensures MidPass(s, s', now, todo - {b}, if r.Reset? then done + {b} else done)
  {
    assert DurationOf(mid, b) == DurationOf(s, b);
    ClearingThen(s, now, todo, b);
    BudgetsThen(s, mid, s', now, done, b, r);
    RowsThen(s.rows, mid.rows, s'.rows, Clearing(s, now) - todo, done, b, DurationOf(s, b).Lasting?, r.Reset?);
  }

  lemma QuietThen(s: State, mid: State, s': State, now: Time, todo: set<string>, done: set<string>, b: string, r: Attempt)
    requires MidPass(s, mid, now, todo, done) && b in todo && b in mid.budgets && mid.budgets[b] == s.budgets[b]
    requires QuietMid(s, mid, now, todo, done) && QuietAttempt(mid, s', now, b, r)
    ensures QuietMid(s, s', now, todo - {b}, if r.Reset? then done + {b} else done)
  {
    assert DurationOf(mid, b) == DurationOf(s, b);
  }

  lemma PassStarts(s: State, now: Time)
    ensures MidPass(s, s, now, Due(s, now), {}) && QuietMid(s, s, now, Due(s, now), {})
    ensures Spenders(s.rows, {}) == {}
  {
  }

  lemma PassEnds(s: State, s': State, now: Time, done: set<string>)
    requires MidPass(s, s', now, {}, done)
    ensures PassStep(s, s', now, done)
    ensures QuietMid(s, s', now, {}, done) ==> QuietPass(s, s', now) && done == Rolling(s, now)
    ensures Readable(s, {}) == {}
  {
  }

  ghost predicate Tallied(s: State, now: Time, todo: set<string>, done: set<string>, processed: nat, errors: nat, reset: nat)
    requires todo <= s.budgets.Keys
  {
    && processed == |done| && reset == |Spenders(s.rows, done)|
    && processed + errors + |Readable(s, todo)| == |Readable(s, Due(s, now))|
  }

  lemma TalliedThen(s: State, now: Time, todo: set<string>, done: set<string>, b: string, r: Attempt,
                    processed: nat, errors: nat, reset: nat)
    requires todo <= s.budgets.Keys && b in todo && b !in done
    requires r.Skipped? <==> DurationOf(s, b).Unparseable?
    requires r.Reset? ==> r.count == |Spenders(s.rows, {b})|
    requires Tallied(s, now, todo, done, processed, errors, reset)
    ensures Tallied(s, now, todo - {b}, if r.Reset? then done + {b} else done,
                    if r.Reset? then processed + 1 else processed, if r.Failed? then errors + 1 else errors,
                    if r.Reset? then reset + r.count else reset)
  {
    MoreSpenders(s, done, b);
    OneLessReadable(s, todo, b);
  }

  lemma OneLessReadable(s: State, todo: set<string>, b: string)
    requires todo <= s.budgets.Keys && b in todo
    ensures |Readable(s, todo)| == |Readable(s, todo - {b})| + if DurationOf(s, b).Unparseable? then 0 else 1
  {
    if DurationOf(s, b).Unparseable? {
      assert Readable(s, todo) == Readable(s, todo - {b});
    } else {
      assert Readable(s, todo) == Readable(s, todo - {b}) + {b};
    }
  }

  lemma MoreSpenders(s: State, done: set<string>, b: string)
    requires b !in done
    ensures |Spenders(s.rows, done + {b})| == |Spenders(s.rows, done)| + |Spenders(s.rows, {b})|
  {
    assert Spenders(s.rows, done + {b}) == Spenders(s.rows, done) + Spenders(s.rows, {b});
    assert Spenders(s.rows, done) !! Spenders(s.rows, {b});
  }

  lemma AllCleared(was: map<Member, Row>, now: map<Member, Row>, b: string)
    requires RowsStep(was, now, {b}, {}) && Spenders(now, {b}) == {}
    ensures RowsStep(was, now, {}, {b})
  {
    forall m | m in was && LinkedTo(was[m], {b}) ensures now[m] == Cleared(was[m]) {
      assert m !in Spenders(now, {b});
    }
  }

  lemma {:induction false} SubsetOfSize<T>(s: set<T>, n: nat)
    requires n <= |s|
    ensures exists t :: t <= s && |t| == n
  {
    if n == |s| {
      assert s <= s;
    } else {
      var x :| x in s;
      SubsetOfSize(s - {x}, n);
      var t :| t <= s - {x} && |t| == n;
      assert t <= s;
    }
  }

  lemma SubsetSize<T>(t: set<T>, s: set<T>)
    requires t <= s
    ensures |s - t| == |s| - |t|
    ensures |t| == |s| ==> t == s
  {
  }

  class Tables {
    var rows: map<Member, Row>
    var budgets: map<string, Budget>

    function Contents(): State
      reads this
    {
      State(rows, budgets)
    }

    /** One UPDATE: at most `limit` of the budget's spenders, whichever the scan comes upon first. */
    method ClearChunk(b: string, limit: nat) returns (affected: nat)
      modifies this`rows
      ensures RowsStep(old(rows), rows, {b}, {})
      ensures Spenders(rows, {b}) <= Spenders(old(rows), {b})
      ensures |Spenders(rows, {b})| + affected == |Spenders(old(rows), {b})|
      ensures affected == if limit < |Spenders(old(rows), {b})| then limit else |Spenders(old(rows), {b})|
    {
      var found := Spenders(rows, {b});
      affected := if limit < |found| then limit else |found|;
      SubsetOfSize(found, affected);
      var chosen :| chosen <= found && |chosen| == affected;
      rows := map m | m in rows :: if m in chosen then Cleared(rows[m]) else rows[m];
      assert Spenders(rows, {b}) == found - chosen;
      SubsetSize(chosen, found);
    }

    /** One budget: its spenders cleared chunk by chunk, then its next time written. Statement `k` raises if
        `raises(k)`; what was committed before stays. */
    method ResetOne(b: string, now: Time, delta: nat, raises: nat -> bool) returns (total: Option<nat>)
      requires b in budgets
      modifies this
      ensures RowsStep(old(rows), rows, {b}, if total.Some? then {b} else {})
      ensures total.Some? ==>
                && now + delta <= LAST_TIME && total.value == |Spenders(old(rows), {b})|
                && budgets == old(budgets)[b := old(budgets)[b].(resetAt := Some(now + delta))]
      ensures total.None? ==> budgets == old(budgets)
      ensures (forall k :: !raises(k)) ==>
                && (total.Some? <==> now + delta <= LAST_TIME)
                && RowsStep(old(rows), rows, {}, {b})
    {
      var n, k := 0, 0;
      while true
        invariant budgets == old(budgets) && RowsStep(old(rows), rows, {b}, {})
        invariant n + |Spenders(rows, {b})| == |Spenders(old(rows), {b})|
        decreases |Spenders(rows, {b})|
      {
        if raises(k) { return None; }
        var affected := ClearChunk(b, CHUNK_SIZE);
        n, k := n + affected, k + 1;
        if affected < CHUNK_SIZE { break; }
      }
      AllCleared(old(rows), rows, b);
      if raises(k) || now + delta > LAST_TIME { return None; }
      budgets := budgets[b := budgets[b].(resetAt := Some(now + delta))];
      total := Some(n);
    }

    /** One selected budget: skipped, failed, or reset with the number of members cleared. */
    method TryOne(b: string, now: Time, raises: nat -> bool) returns (r: Attempt)
      requires b in budgets
      modifies this
      ensures r.Skipped? <==> DurationOf(old(Contents()), b).Unparseable?
      ensures AttemptStep(old(Contents()), Contents(), now, b, r)
      ensures Never(raises) ==> QuietAttempt(old(Contents()), Contents(), now, b, r)
    {
      match DurationOf(Contents(), b) {
        case Unparseable => r := Skipped;
        case TooLong => r := Failed;
        case Lasting(delta) =>
          var total := ResetOne(b, now, delta, raises);
          r := if total.Some? then Reset(total.value) else Failed;
      }
    }

    /** One pass over the due budgets, in whatever order they were selected. */
    method ResetPass(now: Time, raises: string -> nat -> bool)
      returns (processed: nat, errors: nat, reset: nat, ghost done: set<string>)
      modifies this
      ensures PassStep(old(Contents()), Contents(), now, done)
      ensures AllQuiet(raises) ==> QuietPass(old(Contents()), Contents(), now) && done == Rolling(old(Contents()), now)
      ensures processed == |done| && reset == |Spenders(old(rows), done)|
      ensures processed + errors == |Readable(old(Contents()), Due(old(Contents()), now))|
    {
      ghost var was := Contents();
      var todo := Due(Contents(), now);
      processed, errors, reset, done := 0, 0, 0, {};
      PassStarts(was, now);
      while todo != {}
        invariant MidPass(was, Contents(), now, todo, done)
        invariant AllQuiet(raises) ==> QuietMid(was, Contents(), now, todo, done)
        invariant Tallied(was, now, todo, done, processed, errors, reset)
        decreases |todo|
      {
        var b :| b in todo;
        ghost var before := Contents();
        AsSelected(was, before, now, todo, done, b);
        var r := TryOne(b, now, raises(b));
        if AllQuiet(raises) {
          QuietThen(was, before, Contents(), now, todo, done, b, r);
        }
        MidThen(was, before, Contents(), now, todo, done, b, r);
        TalliedThen(was, now, todo, done, b, r, processed, errors, reset);
        processed := if r.Reset? then processed + 1 else processed;
        errors := if r.Failed? then errors + 1 else errors;
        reset := if r.Reset? then reset + r.count else reset;
        done := if r.Reset? then done + {b} else done;
        todo := todo - {b};
      }
      PassEnds(was, Contents(), now, done);
    }
  }

  // Over several passes

  predicate RestsAfter(d: Duration, now: Time) {
    d.Lasting? && d.seconds > 0 && now + d.seconds <= LAST_TIME
  }

  /** After a pass without failures a budget is off the list exactly if its duration can be read, is not
      zero and ends before the calendar does. */
  lemma StillDueIff(s: State, s': State, now: Time, b: string)
    requires QuietPass(s, s', now) && b in Due(s, now)
    ensures b !in Due(s', now) <==> RestsAfter(DurationOf(s, b), now)
  {
  }

  lemma DueStays(s: State, s': State, now: Time)
    requires QuietPass(s, s', now)
    ensures Due(s', now) <= Due(s, now)
    ensures forall b | b in Due(s', now) :: DurationOf(s', b) == DurationOf(s, b)
  {
  }

  /** If all durations that can be read rest, a second pass at the same time does nothing, failures or not. */
  lemma SecondPassIsIdle(s: State, s': State, s'': State, now: Time, done: set<string>)
    requires QuietPass(s, s', now) && PassStep(s', s'', now, done)
    requires forall b | b in Due(s, now) && !DurationOf(s, b).Unparseable? :: RestsAfter(DurationOf(s, b), now)
    ensures s'' == s' && done == {}
  {
    DueStays(s, s', now);
    forall b | b in Due(s', now) ensures DurationOf(s', b).Unparseable? { StillDueIff(s, s', now, b); }
    assert Clearing(s', now) == {} && done == {};
    assert s''.rows == s'.rows && s''.budgets == s'.budgets;
  }

  /** Whatever failed in a pass, the next one without failures brings every spend that was due to zero. */
  lemma RetryCompletes(s: State, s': State, s'': State, now: Time, later: Time, done: set<string>, m: Member)
    requires PassStep(s, s', now, done) && now <= later && QuietPass(s', s'', later)
    requires m in s.rows && LinkedTo(s.rows[m], Clearing(s, now))
    ensures m in s''.rows && s''.rows[m] == Cleared(s.rows[m])
  {
  }

  /** A period that ends beyond the calendar is never written: its budget stays due, and every later pass
      clears its members' spend again. */
  lemma BeyondCalendarStaysDue(s: State, s': State, now: Time, later: Time, done: set<string>, b: string)
    requires PassStep(s, s', now, done) && now <= later
    requires b in Clearing(s, now) && b !in Rolling(s, now)
    ensures b in Clearing(s', later) && b !in Rolling(s', later)
  {
  }

  // Written out

  /** A text is a duration exactly if, stripped and in lower case, it is digits and one of the three units. */
  lemma ReadableIff(text: string)
    ensures !ParseDuration(text).Unparseable? <==>
            var t := Text.Lower(Text.Strip(text));
            |t| >= 2 && t[|t| - 1] in {'d', 'h', 'm'} && forall i | 0 <= i < |t| - 1 :: '0' <= t[i] <= '9'
  {
    var t := Text.Lower(Text.Strip(text));
    if |t| >= 2 {
      Text.AllDigitsAt(t[..|t| - 1]);
      assert forall i | 0 <= i < |t| - 1 :: t[..|t| - 1][i] == t[i];
    }
  }

  /** The budget's time has come, it renews after a readable time, and some member is on it. */
  ghost predicate Renews(s: State, now: Time, b: string, delta: nat) {
    && b in s.budgets && s.budgets[b].resetAt.Some? && s.budgets[b].resetAt.value <= now
    && s.budgets[b].duration.Some? && ParseDuration(s.budgets[b].duration.value) == Lasting(delta)
    && exists m :: m in s.rows && s.rows[m].budget == Some(b)
  }

  lemma RenewsIff(s: State, now: Time, b: string)
    ensures b in Clearing(s, now) <==> b in s.budgets && DurationOf(s, b).Lasting? && Renews(s, now, b, DurationOf(s, b).seconds)
    ensures forall delta | Renews(s, now, b, delta) :: DurationOf(s, b) == Lasting(delta)
    ensures b in Rolling(s, now) <==> b in Clearing(s, now) && now + DurationOf(s, b).seconds <= LAST_TIME
  {
    if b in Clearing(s, now) {
      assert HasMember(s.rows, b);
    }
  }

  /** A pass without failures: exactly the rows on renewing budgets are at zero, with their budget kept, and exactly
      those of them whose next time can be written down have it. */
  lemma QuietPassDoes(s: State, s': State, now: Time)
    requires QuietPass(s, s', now)
    ensures s'.rows.Keys == s.rows.Keys && s'.budgets.Keys == s.budgets.Keys
    ensures forall m | m in s.rows ::
              s'.rows[m] ==
              if s.rows[m].budget.Some? && exists delta :: Renews(s, now, s.rows[m].budget.value, delta)
              then Row(s.rows[m].budget, 0.0) else s.rows[m]
    ensures forall b, delta | Renews(s, now, b, delta) ::
              s'.budgets[b] == if now + delta <= LAST_TIME then Budget(Some(now + delta), s.budgets[b].duration) else s.budgets[b]
    ensures forall b | b in s.budgets && !exists delta :: Renews(s, now, b, delta) :: s'.budgets[b] == s.budgets[b]
  {
    forall b ensures b in Clearing(s, now) <==> exists delta :: Renews(s, now, b, delta) {
      RenewsIff(s, now, b);
    }
    forall b, delta | Renews(s, now, b, delta) ensures DurationOf(s, b) == Lasting(delta) && b in Clearing(s, now) {
      RenewsIff(s, now, b);
    }
  }
}
