/** The other way round: a live container's command line read back into a recipe draft. */
module RecipeImport {
  import opened Wrappers
  import opened Text
  import opened ServingEngines

  // Numbers

  function SkipDigits(s: string, i: nat): (r: nat)
    requires i <= |s|
    ensures i <= r <= |s|
    decreases |s| - i
  {
    if i < |s| && IsDigit(s[i]) then SkipDigits(s, i + 1) else i
  }

  function SkipSign(s: string, i: nat, signs: string): (r: nat)
    requires i <= |s|
    ensures i <= r <= |s|
  {
    if i < |s| && s[i] in signs then i + 1 else i
  }

  /** `-?\d+` */
  predicate IsIntText(t: string) {
    var i := SkipSign(t, 0, "-");
    i < |t| && SkipDigits(t, i) == |t|
  }

  /** `-?\d+(\.\d+)?([eE][-+]?\d+)?` */
  predicate IsNumberText(t: string) {
    var sign := SkipSign(t, 0, "-");
    var whole := SkipDigits(t, sign);
    var point := SkipSign(t, whole, ".");
    var fraction := if point > whole && SkipDigits(t, point) > point then SkipDigits(t, point) else whole;
    var e := SkipSign(t, fraction, "eE");
    var digits := SkipSign(t, e, "-+");
    var end := if e > fraction && SkipDigits(t, digits) > digits then SkipDigits(t, digits) else fraction;
    whole > sign && end == |t|
  }

  predicate IsInt(s: string) { IsIntText(Chomp(s)) }

  predicate IsNumber(s: string) { IsNumberText(Chomp(s)) }

  function ReadInt(t: string): int
    requires IsIntText(t)
  {
    AllDigitsSkipped(t, SkipSign(t, 0, "-"));
    AllDigitsAt(t);
    AllDigitsAt(t[1..]);
    if t[0] == '-' then
      var n: int := ReadNat(t[1..]);
      -n
    else
      ReadNat(t)
  }

  /** `_coerce` */
  function Coerce(s: string): Value {
    if IsInt(s) then Int(ReadInt(Chomp(s)))
    else if IsNumber(s) then Float(Chomp(s))
    else Str(s)
  }

  lemma IntIsNumber(s: string)
    requires IsInt(s)
    ensures IsNumber(s)
  {
  }

  lemma CoerceInt(n: int)
    ensures Coerce(IntText(n)) == Int(n)
    ensures IntText(n)[0] == '-' ==> IsNumber(IntText(n))
    ensures IntText(n)[0] == '-' <==> n < 0
  {
    var t := IntText(n);
    var digits := NatText(if n < 0 then -n else n);
    ReadNatText(if n < 0 then -n else n);
    AllDigitsAt(digits);
    assert IsDigit(t[|t| - 1]) by { assert t[|t| - 1] == digits[|digits| - 1]; }
    assert Chomp(t) == t;
    assert IsDigit(digits[0]);
    assert n < 0 ==> t[1..] == digits;
    AllDigitsSkipped(t, SkipSign(t, 0, "-"));
    assert IsInt(t);
    IntIsNumber(t);
  }

  // The flag parser

  datatype Warning =
    | FlagNormalized(was: string, now: string)
    | FlagUnparsed(token: string)
    | DuplicateFlag(flag: string)
    | ShortFlag(text: string)
    | EngineFromDefault(image: string)
    | CommandUnrecognized(tokens: seq<string>)
    | ShellTruncated(segments: seq<string>)
    | InlineEnvDropped(token: string)
    | ShellWrapper(launch: string)
    | ModelPathMissing
    | PositionalDropped(tokens: seq<string>)
    | PdDetected
    | PortChanged(port: string)
    | MultiContainer(count: nat)
    | InitContainers(names: seq<string>)
    | AffinityDropped
    | ImageMissing
    | PodSpec(text: string)

  datatype Parsed = Parsed(
    args: map<string, Value>, extra: seq<string>, positionals: seq<string>, warnings: seq<Warning>)

  predicate Dashed(token: string) { HasPrefix(token, "-") }

  predicate TakenAsValue(token: string) { !Dashed(token) || IsNumber(token) }

  function Dashes(s: string): string {
    if s == "" then "" else [if s[0] == '_' then '-' else s[0]] + Dashes(s[1..])
  }

  /** `key.strip().lower().replace("_", "-")` */
  function Normalize(key: string): string { Dashes(Lower(Strip(key))) }

  function EqualsAt(s: string): (r: nat)
    ensures r <= |s|
  {
    if s == "" || s[0] == '=' then 0 else EqualsAt(s[1..]) + 1
  }

  lemma NoEquals(s: string)
    requires '=' !in s
    ensures EqualsAt(s) == |s|
  {
  }

  lemma {:induction false} AllDigitsSkipped(s: string, i: nat)
    requires i <= |s|
    ensures SkipDigits(s, i) == |s| <==> forall j | i <= j < |s| :: IsDigit(s[j])
    decreases |s| - i
  {
    if i < |s| && IsDigit(s[i]) { AllDigitsSkipped(s, i + 1); }
  }

  function Note(st: Parsed, w: Warning): Parsed { st.(warnings := st.warnings + [w]) }

  function Put(st: Parsed, key: string, v: Value): Parsed {
    (if key in st.args then Note(st, DuplicateFlag(key)) else st).(args := st.args[key := v])
  }

  function Normalized(key: string, norm: string, st: Parsed): Parsed {
    if norm != key then Note(st, FlagNormalized(key, norm)) else st
  }

  /** The value that a long flag is given, and how many tokens that takes. */
  function Given(ts: seq<string>, body: string, eq: nat): (r: (Value, nat))
    requires ts != [] && eq <= |body|
    ensures 1 <= r.1 <= |ts|
  {
    if eq < |body| then (Coerce(body[eq + 1..]), 1)
    else if |ts| > 1 && TakenAsValue(ts[1]) then (Coerce(ts[1]), 2)
    else (Bool(true), 1)
  }

  /** A long flag is stored under its normalised key, or kept as it stands. */
  function Stored(token: string, key: string, norm: string, given: (Value, nat), st: Parsed): (Parsed, nat) {
    var st := Normalized(key, norm, st);
    if !IsArgKey(norm) then (Note(st, FlagUnparsed(token)).(extra := st.extra + [token]), 1)
    else (Put(st, norm, given.0), given.1)
  }

  function LongStep(ts: seq<string>, st: Parsed): (r: (Parsed, nat))
    requires ts != [] && HasPrefix(ts[0], "--")
    ensures 1 <= r.1 <= |ts|
  {
    var body := ts[0][2..];
    var eq := EqualsAt(body);
    Stored(ts[0], body[..eq], Normalize(body[..eq]), Given(ts, body, eq), st)
  }

  function ShortStep(ts: seq<string>, st: Parsed): (r: (Parsed, nat))
    requires ts != []
    ensures 1 <= r.1 <= |ts|
  {
    if |ts| > 1 && !Dashed(ts[1]) then
      var text := ts[0] + " " + ts[1];
      (Note(st, ShortFlag(text)).(extra := st.extra + [text]), 2)
    else
      (Note(st, ShortFlag(ts[0])).(extra := st.extra + [ts[0]]), 1)
  }

  /** One turn of the parser's loop: the new state and how many tokens it used up. */
  function Step(ts: seq<string>, st: Parsed): (r: (Parsed, nat))
    requires ts != []
    ensures 1 <= r.1 <= |ts|
  {
    if ts[0] == "--" then (st.(positionals := st.positionals + ts[1..]), |ts|)
    else if HasPrefix(ts[0], "--") then LongStep(ts, st)
    else if Dashed(ts[0]) && !IsNumber(ts[0]) then ShortStep(ts, st)
    else (st.(positionals := st.positionals + [ts[0]]), 1)
  }

  function ParseFrom(ts: seq<string>, st: Parsed): Parsed
    decreases |ts|
  {
    if ts == [] then st else
      var (next, used) := Step(ts, st);
      ParseFrom(ts[used..], next)
  }

  method ReadValue(tokens: seq<string>, i: nat, body: string, eq: nat) returns (value: Value, next: nat)
    requires i < |tokens| && eq <= |body|
    ensures (value, next - i) == Given(tokens[i..], body, eq)
  {
    assert i + 1 < |tokens| ==> tokens[i..][1] == tokens[i + 1];
    value, next := Bool(true), i + 1;
    if eq < |body| {
      value := Coerce(body[eq + 1..]);
    } else if i + 1 < |tokens| && TakenAsValue(tokens[i + 1]) {
      value := Coerce(tokens[i + 1]);
      next := i + 2;
    }
  }

  /** The branch of the loop that reads `--key=value`, `--key value` or a bare `--key`. */
  method LongFlag(tokens: seq<string>, i: nat, args: map<string, Value>, extra: seq<string>,
                  warnings: seq<Warning>, ghost positionals: seq<string>)
    returns (args': map<string, Value>, extra': seq<string>, noted: seq<Warning>, next: nat)
    requires i < |tokens| && HasPrefix(tokens[i], "--")
    ensures (Parsed(args', extra', positionals, noted), next - i) ==
            LongStep(tokens[i..], Parsed(args, extra, positionals, warnings))
  {
    args', extra', noted, next := args, extra, warnings, i + 1;
    var body := tokens[i][2..];
    var eq := EqualsAt(body);
    var key := body[..eq];
    var norm := Normalize(key);
    if norm != key {
      noted := noted + [FlagNormalized(key, norm)];
    }
    if !IsArgKey(norm) {
      noted := noted + [FlagUnparsed(tokens[i])];
      extra' := extra + [tokens[i]];
      return;
    }
    var value;
    value, next := ReadValue(tokens, i, body, eq);
    if norm in args {
      noted := noted + [DuplicateFlag(norm)];
    }
    args' := args[norm := value];
  }

  /** The branch that keeps a short option as it stands, with what follows it. */
  method ShortOption(tokens: seq<string>, i: nat, ghost args: map<string, Value>, extra: seq<string>,
                     warnings: seq<Warning>, ghost positionals: seq<string>)
    returns (extra': seq<string>, noted: seq<Warning>, next: nat)
    requires i < |tokens|
    ensures (Parsed(args, extra', positionals, noted), next - i) ==
            ShortStep(tokens[i..], Parsed(args, extra, positionals, warnings))
  {
    ghost var ts := tokens[i..];
    assert ts[0] == tokens[i] && (i + 1 < |tokens| ==> ts[1] == tokens[i + 1]);
    if i + 1 < |tokens| && !Dashed(tokens[i + 1]) {
      extra' := extra + [tokens[i] + " " + tokens[i + 1]];
      next := i + 2;
    } else {
      extra' := extra + [tokens[i]];
      next := i + 1;
    }
    noted := warnings + [ShortFlag(extra'[|extra'| - 1])];
  }

  /** One turn of the loop, for a token that does not end the flags. */
  method OneToken(tokens: seq<string>, i: nat, args: map<string, Value>, extra: seq<string>,
                  positionals: seq<string>, warnings: seq<Warning>)
    returns (args': map<string, Value>, extra': seq<string>, positionals': seq<string>, noted: seq<Warning>, next: nat)
    requires i < |tokens| && tokens[i] != "--"
    ensures i < next <= |tokens|
    ensures (Parsed(args', extra', positionals', noted), next - i) ==
            Step(tokens[i..], Parsed(args, extra, positionals, warnings))
  {
    var tok := tokens[i];
    assert tokens[i..][0] == tok;
    args', extra', positionals', noted := args, extra, positionals, warnings;
    if HasPrefix(tok, "--") {
      args', extra', noted, next := LongFlag(tokens, i, args, extra, warnings, positionals);
    } else if Dashed(tok) && !IsNumber(tok) {
      extra', noted, next := ShortOption(tokens, i, args, extra, warnings, positionals);
    } else {
      positionals' := positionals + [tok];
      next := i + 1;
    }
  }

  lemma ParseFromStep(tokens: seq<string>, i: nat, st: Parsed, next: Parsed, used: nat)
    requires i < |tokens| && (next, used) == Step(tokens[i..], st)
    ensures i + used <= |tokens| && ParseFrom(tokens[i..], st) == ParseFrom(tokens[i + used..], next)
  {
    assert tokens[i..][used..] == tokens[i + used..];
  }

  lemma ParseFromEnd(tokens: seq<string>, i: nat, st: Parsed)
    requires i < |tokens| && tokens[i] == "--"
    ensures ParseFrom(tokens[i..], st) == st.(positionals := st.positionals + tokens[i + 1..])
  {
    assert tokens[i..][0] == "--" && tokens[i..][1..] == tokens[i + 1..];
  }

  method ParseFlags(tokens: seq<string>, warnings: seq<Warning>)
    returns (args: map<string, Value>, extra: seq<string>, positionals: seq<string>, noted: seq<Warning>)
    ensures Parsed(args, extra, positionals, noted) == ParseFrom(tokens, Parsed(map[], [], [], warnings))
  {
    args, extra, positionals, noted := map[], [], [], warnings;
    var i := 0;
    ghost var goal := ParseFrom(tokens, Parsed(map[], [], [], warnings));
    assert tokens[0..] == tokens;
    while i < |tokens|
      invariant 0 <= i <= |tokens|
      invariant goal == ParseFrom(tokens[i..], Parsed(args, extra, positionals, noted))
    {
      ghost var at, st := i, Parsed(args, extra, positionals, noted);
      if tokens[i] == "--" {
        ParseFromEnd(tokens, i, st);
        positionals := positionals + tokens[i + 1..];
        return;
      }
      args, extra, positionals, noted, i := OneToken(tokens, i, args, extra, positionals, noted);
      ParseFromStep(tokens, at, st, Parsed(args, extra, positionals, noted), i - at);
    }
  }

  // Round trip of the flags

  /** The values that come back as they were. */
  predicate Survives(v: Value) {
    match v
    case Null => false
    case Bool(b) => b
    case Int(_) => true
    case Float(t) => IsNumber(t) && !IsInt(t) && Chomp(t) == t
    case Str(s) => !Dashed(s) && !IsNumber(s)
  }

  function Kept(args: map<string, Value>): map<string, Value> {
    map k | k in args && IsKept(args[k]) :: args[k]
  }

  function KeptOf(ks: seq<string>, args: map<string, Value>): map<string, Value>
    requires forall k | k in ks :: k in args
  {
    map k | k in ks && IsKept(args[k]) :: args[k]
  }

  lemma {:induction false} KeyCharsFixed(k: string)
    requires KeyChars(k)
    ensures Lower(k) == k && Dashes(k) == k
  {
    if k != "" {
      KeyCharsFixed(k[1..]);
      assert k == [k[0]] + k[1..];
    }
  }

  lemma NormalizeCore(k: string)
    requires IsCleanKey(k)
    ensures Dashes(Lower(k)) == k && StripLeft(k) == k && StripRight(k) == k && Chomp(k) == k
  {
    KeyCharsFixed(k);
    KeyCharsAt(k);
    assert IsKeyChar(k[0]) && IsKeyChar(k[|k| - 1]);
  }

  lemma StripNewline(k: string)
    requires IsCleanKey(k)
    ensures Strip(k + "\n") == k && !IsCleanKey(k + "\n")
  {
    NormalizeCore(k);
    var line := k + "\n";
    assert line[0] == k[0] && IsKeyChar(k[0]) && StripLeft(line) == line;
    assert line[|line| - 1] == '\n' && line[..|line| - 1] == k;
    if IsCleanKey(line) { KeyCharsAt(line); }
  }

  lemma NormalizeClean(k: string)
    requires IsCleanKey(k)
    ensures Normalize(k) == k && Chomp(k) == k
  {
    NormalizeCore(k);
  }

  lemma NormalizeUnclean(k: string)
    requires IsArgKey(k) && Chomp(k) != k
    ensures Normalize(k) == Chomp(k) && !IsCleanKey(k)
  {
    assert k == Chomp(k) + "\n";
    StripNewline(Chomp(k));
    NormalizeCore(Chomp(k));
  }

  lemma NormalizeKey(k: string)
    requires IsArgKey(k)
    ensures Normalize(k) == Chomp(k)
    ensures Normalize(k) == k <==> IsCleanKey(k)
    ensures IsArgKey(Normalize(k)) && EqualsAt(k) == |k|
  {
    KeyHasNoEquals(k);
    NoEquals(k);
    NormalizeClean(Chomp(k));
    if Chomp(k) != k { NormalizeUnclean(k); }
  }

  lemma FlagToken(k: string, rest: seq<string>, st: Parsed)
    requires IsCleanKey(k)
    ensures var ts := ["--" + k] + rest;
            ParseFrom(ts, st) ==
            if rest != [] && TakenAsValue(rest[0]) then ParseFrom(rest[1..], Put(st, k, Coerce(rest[0])))
            else ParseFrom(rest, Put(st, k, Bool(true)))
  {
    var ts := ["--" + k] + rest;
    NormalizeCore(k);
    NormalizeKey(k);
    assert ts[0][2..] == k && k[..|k|] == k && ts[0] != "--" by { assert ts[0][2] == k[0]; }
    assert ts[1..] == rest;
    assert rest != [] ==> ts[1] == rest[0] && ts[2..] == rest[1..];
  }

  /** What follows an item is nothing or another flag. */
  ghost predicate StartsWithFlag(ts: seq<string>) { ts != [] ==> HasPrefix(ts[0], "--") }

  lemma FlagNotTaken(token: string)
    requires HasPrefix(token, "--")
    ensures !TakenAsValue(token)
  {
  }

  lemma ParseItem(k: string, v: Value, tail: seq<string>, st: Parsed)
    requires IsCleanKey(k) && IsKept(v) && Survives(v) && k !in st.args
    requires StartsWithFlag(tail)
    ensures ParseFrom(Item(k, v) + tail, st) == ParseFrom(tail, st.(args := st.args[k := v]))
  {
    if v == Bool(true) {
      FlagToken(k, tail, st);
      if tail != [] { FlagNotTaken(tail[0]); }
    } else {
      var text := ValueText(v);
      assert Item(k, v) + tail == ["--" + k] + ([text] + tail);
      FlagToken(k, [text] + tail, st);
      assert ([text] + tail)[1..] == tail;
      SurvivorComesBack(v);
    }
  }

  lemma SurvivorComesBack(v: Value)
    requires v != Bool(true)
    ensures Survives(v) ==> TakenAsValue(ValueText(v)) && Coerce(ValueText(v)) == v
    ensures IsKept(v) && TakenAsValue(ValueText(v)) && Coerce(ValueText(v)) == v ==> Survives(v)
  {
    match v
    case Int(n) => CoerceInt(n);
    case Str(s) => if IsInt(s) { IntIsNumber(s); }
    case Float(t) => assert Coerce(t) == v ==> Chomp(t) == t;
    case Null =>
    case Bool(b) =>
  }

  lemma {:induction false} RenderStartsWithFlag(ks: seq<string>, args: map<string, Value>)
    requires forall k | k in ks :: k in args
    ensures StartsWithFlag(RenderKeys(ks, args))
  {
    if ks != [] {
      RenderStartsWithFlag(ks[1..], args);
      if IsKept(args[ks[0]]) {
        assert RenderKeys(ks, args)[0] == "--" + ks[0];
      } else {
        assert RenderKeys(ks, args) == RenderKeys(ks[1..], args);
      }
    }
  }

  ghost predicate Distinct(ks: seq<string>) {
    forall i, j | 0 <= i < j < |ks| :: ks[i] != ks[j]
  }

  ghost predicate Comes(k: string, v: Value) { IsKept(v) ==> IsCleanKey(k) && Survives(v) }

  lemma KeptOfStep(ks: seq<string>, args: map<string, Value>, base: map<string, Value>)
    requires forall k | k in ks :: k in args
    requires ks != [] && Distinct(ks)
    ensures var next := if IsKept(args[ks[0]]) then base[ks[0] := args[ks[0]]] else base;
            next + KeptOf(ks[1..], args) == base + KeptOf(ks, args)
  {
  }

  /** Good items parse back one by one. */
  lemma {:induction false} ParseRendered(ks: seq<string>, args: map<string, Value>, st: Parsed)
    requires forall k | k in ks :: k in args && k !in st.args && Comes(k, args[k])
    requires Distinct(ks)
    ensures ParseFrom(RenderKeys(ks, args), st) == st.(args := st.args + KeptOf(ks, args))
  {
    if ks == [] {
      assert st.args + KeptOf(ks, args) == st.args;
    } else {
      var k, v := ks[0], args[ks[0]];
      var tail := RenderKeys(ks[1..], args);
      KeptOfStep(ks, args, st.args);
      var next := if IsKept(v) then st.(args := st.args[k := v]) else st;
      assert ParseFrom(RenderKeys(ks, args), st) == ParseFrom(tail, next) by {
        if IsKept(v) {
          RenderStartsWithFlag(ks[1..], args);
          ParseItem(k, v, tail, st);
        } else {
          assert RenderKeys(ks, args) == tail;
        }
      }
      ParseRendered(ks[1..], args, next);
    }
  }

  /** Warnings are never taken back, and the value of `k` changes only with a warning. */
  ghost predicate Persists(st: Parsed, next: Parsed, k: string) {
    && st.warnings <= next.warnings
    && (k in st.args ==> k in next.args)
    && (k in st.args && next.warnings == st.warnings ==> next.args[k] == st.args[k])
  }

  lemma StoredPersists(token: string, key: string, norm: string, given: (Value, nat), st: Parsed, k: string)
    ensures Persists(st, Stored(token, key, norm, given, st).0, k)
  {
  }

  lemma LongStepPersists(ts: seq<string>, st: Parsed, k: string)
    requires ts != [] && HasPrefix(ts[0], "--")
    ensures Persists(st, LongStep(ts, st).0, k)
  {
    var body := ts[0][2..];
    var eq := EqualsAt(body);
    StoredPersists(ts[0], body[..eq], Normalize(body[..eq]), Given(ts, body, eq), st, k);
  }

  lemma {:induction false} ParsePersists(ts: seq<string>, st: Parsed, k: string)
    ensures Persists(st, ParseFrom(ts, st), k)
    decreases |ts|
  {
    if ts != [] {
      var (next, used) := Step(ts, st);
      assert Persists(st, next, k) by {
        if ts[0] != "--" && HasPrefix(ts[0], "--") { LongStepPersists(ts, st, k); }
      }
      ParsePersists(ts[used..], next, k);
    }
  }

  lemma UncleanKeyWarns(ts: seq<string>, k: string, st: Parsed)
    requires IsArgKey(k) && !IsCleanKey(k)
    requires ts != [] && ts[0] == "--" + k
    ensures ParseFrom(ts, st).warnings != []
  {
    NormalizeKey(k);
    assert ts[0][2..] == k && k[..|k|] == k;
    assert ts[0] != "--" by { assert ts[0][2] == k[0]; }
    var (next, used) := Step(ts, st);
    assert FlagNormalized(k, Normalize(k)) in Normalized(k, Normalize(k), st).warnings;
    assert FlagNormalized(k, Normalize(k)) in next.warnings;
    ParsePersists(ts[used..], next, k);
  }

  lemma SpoiledItem(k: string, v: Value, tail: seq<string>, st: Parsed)
    requires IsArgKey(k) && !v.Null? && !Comes(k, v)
    requires st.warnings == []
    ensures var r := ParseFrom(Item(k, v) + tail, st);
            r.warnings != [] || (k in r.args && r.args[k] != v)
  {
    if IsCleanKey(k) {
      var text := ValueText(v);
      assert Item(k, v) + tail == ["--" + k] + ([text] + tail);
      FlagToken(k, [text] + tail, st);
      assert ([text] + tail)[1..] == tail;
      SurvivorComesBack(v);
      if TakenAsValue(text) {
        ParsePersists(tail, Put(st, k, Coerce(text)), k);
      } else {
        ParsePersists([text] + tail, Put(st, k, Bool(true)), k);
      }
    } else {
      UncleanKeyWarns(Item(k, v) + tail, k, st);
    }
  }

  /** One bad item is enough: a warning, or its value is not what it was. */
  lemma {:induction false} ParseSpoiled(ks: seq<string>, args: map<string, Value>, st: Parsed)
    requires forall k | k in ks :: k in args && k !in st.args && IsArgKey(k) && !args[k].Null?
    requires exists k :: k in ks && !Comes(k, args[k])
    requires Distinct(ks)
    requires st.warnings == []
    ensures var r := ParseFrom(RenderKeys(ks, args), st);
            r.warnings != [] || exists k :: k in ks && IsKept(args[k]) && k in r.args && r.args[k] != args[k]
  {
    var k, v := ks[0], args[ks[0]];
    assert k in ks && k !in ks[1..];
    var tail := RenderKeys(ks[1..], args);
    if !Comes(k, v) {
      SpoiledItem(k, v, tail, st);
    } else {
      var next := if IsKept(v) then st.(args := st.args[k := v]) else st;
      assert ParseFrom(RenderKeys(ks, args), st) == ParseFrom(tail, next) by {
        if IsKept(v) {
          RenderStartsWithFlag(ks[1..], args);
          ParseItem(k, v, tail, st);
        } else {
          assert RenderKeys(ks, args) == tail;
        }
      }
      ParseSpoiled(ks[1..], args, next);
    }
  }

  lemma KeptOfSorted(args: map<string, Value>)
    ensures Distinct(Sorted(args.Keys))
    ensures forall k | k in Sorted(args.Keys) :: k in args
    ensures map[] + KeptOf(Sorted(args.Keys), args) == Kept(args)
  {
  }

  lemma CleanFlagsComeBack(args: map<string, Value>)
    requires forall k | k in args :: Comes(k, args[k])
    ensures ParseFrom(Render(args), Parsed(map[], [], [], [])) == Parsed(Kept(args), [], [], [])
  {
    KeptOfSorted(args);
    ParseRendered(Sorted(args.Keys), args, Parsed(map[], [], [], []));
  }

  lemma SpoiledFlagsDoNot(args: map<string, Value>, k: string)
    requires forall j | j in args :: IsArgKey(j) && !args[j].Null?
    requires k in args && !Comes(k, args[k])
    ensures ParseFrom(Render(args), Parsed(map[], [], [], [])) != Parsed(Kept(args), [], [], [])
  {
    var ks := Sorted(args.Keys);
    assert k in ks;
    ParseSpoiled(ks, args, Parsed(map[], [], [], []));
    var r := ParseFrom(RenderKeys(ks, args), Parsed(map[], [], [], []));
    if r.warnings == [] {
      var j :| j in ks && IsKept(args[j]) && j in r.args && r.args[j] != args[j];
      assert Kept(args)[j] == args[j];
    }
  }

  /** Rendering and parsing undo each other exactly when every rendered key is free of a final
      newline and every rendered value survives; what is not rendered is dropped, no more. */
  lemma FlagsRoundTrip(args: map<string, Value>)
    requires ValidShape(args)
    ensures ParseFrom(Render(args), Parsed(map[], [], [], [])) == Parsed(Kept(args), [], [], [])
            <==> forall k | k in args :: Comes(k, args[k])
  {
    if k :| k in args && !Comes(k, args[k]) {
      SpoiledFlagsDoNot(args, k);
    } else {
      CleanFlagsComeBack(args);
    }
  }

  // What each form of a token becomes

  /** A value stored under its key: said about are a key that was not spelled as stored and one given before. */
  function Stores(st: Parsed, spelled: string, key: string, v: Value): Parsed {
    Parsed(st.args[key := v], st.extra, st.positionals,
           st.warnings + (if spelled != key then [FlagNormalized(spelled, key)] else [])
           + (if key in st.args then [DuplicateFlag(key)] else []))
  }

  lemma StoredStores(token: string, spelled: string, key: string, given: (Value, nat), st: Parsed)
    requires IsArgKey(key)
    ensures Stored(token, spelled, key, given, st) == (Stores(st, spelled, key, given.0), given.1)
  {
    var mid := Normalized(spelled, key, st);
    assert spelled == key ==> st.warnings + [] == mid.warnings;
    assert key !in st.args ==> mid.warnings + [] == mid.warnings;
  }

  lemma {:induction false} EqualsFound(spelled: string, rest: string)
    requires '=' !in spelled && (rest == "" || rest[0] == '=')
    ensures EqualsAt(spelled + rest) == |spelled|
  {
    if spelled == "" {
      assert spelled + rest == rest;
    } else {
      EqualsFound(spelled[1..], rest);
      assert (spelled + rest)[1..] == spelled[1..] + rest;
    }
  }

  /** `--key=value`, whatever the value looks like. */
  lemma InlineStores(spelled: string, v: string, rest: seq<string>, st: Parsed)
    requires '=' !in spelled && IsArgKey(Normalize(spelled))
    ensures ParseFrom(["--" + spelled + "=" + v] + rest, st) ==
            ParseFrom(rest, Stores(st, spelled, Normalize(spelled), Coerce(v)))
  {
    var ts := ["--" + spelled + "=" + v] + rest;
    var body := ts[0][2..];
    assert body == spelled + ("=" + v);
    EqualsFound(spelled, "=" + v);
    assert body[..|spelled|] == spelled && body[|spelled| + 1..] == v && body != "";
    assert Given(ts, body, |spelled|) == (Coerce(v), 1) && ts[1..] == rest;
    StoredStores(ts[0], spelled, Normalize(spelled), (Coerce(v), 1), st);
    assert ts[0] != "--" by { assert ts[0][2..] != ""; }
  }

  /** `--key value`, or a bare `--key` where no value follows: a token with a dash is one only if it is a number. */
  lemma SpacedStores(spelled: string, rest: seq<string>, st: Parsed)
    requires '=' !in spelled && IsArgKey(Normalize(spelled))
    ensures ParseFrom(["--" + spelled] + rest, st) ==
            if rest != [] && (rest[0] == "" || rest[0][0] != '-' || IsNumber(rest[0]))
            then ParseFrom(rest[1..], Stores(st, spelled, Normalize(spelled), Coerce(rest[0])))
            else ParseFrom(rest, Stores(st, spelled, Normalize(spelled), Bool(true)))
  {
    var ts := ["--" + spelled] + rest;
    var body := ts[0][2..];
    assert body == spelled && spelled + "" == spelled;
    EqualsFound(spelled, "");
    assert body[..|spelled|] == spelled && body != "" by { EmptyIsNoKey(); }
    assert ts[1..] == rest && (rest != [] ==> ts[1] == rest[0] && ts[2..] == rest[1..]);
    StoredStores(ts[0], spelled, Normalize(spelled), Given(ts, body, |spelled|), st);
    assert ts[0] != "--" by { assert ts[0][2..] != ""; }
  }

  lemma EmptyIsNoKey()
    ensures !IsArgKey(Normalize(""))
  {
  }

  lemma StoredKeeps(token: string, spelled: string, key: string, given: (Value, nat), st: Parsed)
    requires !IsArgKey(key)
    ensures Stored(token, spelled, key, given, st) ==
            (Parsed(st.args, st.extra + [token], st.positionals,
                    st.warnings + (if spelled != key then [FlagNormalized(spelled, key)] else []) + [FlagUnparsed(token)]), 1)
  {
    assert st.warnings + [] == st.warnings;
  }

  /** A long flag without a possible key is kept as it stands, alone. */
  lemma MalformedKept(token: string, rest: seq<string>, st: Parsed)
    requires HasPrefix(token, "--") && token != "--"
    requires !IsArgKey(Normalize(token[2..][..EqualsAt(token[2..])]))
    ensures var spelled := token[2..][..EqualsAt(token[2..])];
            ParseFrom([token] + rest, st) ==
            ParseFrom(rest, Parsed(st.args, st.extra + [token], st.positionals,
                                   st.warnings
                                   + (if spelled != Normalize(spelled) then [FlagNormalized(spelled, Normalize(spelled))] else [])
                                   + [FlagUnparsed(token)]))
  {
    var ts, body := [token] + rest, token[2..];
    var spelled := body[..EqualsAt(body)];
    assert ts[0] == token && ts[1..] == rest;
    StoredKeeps(token, spelled, Normalize(spelled), Given(ts, body, EqualsAt(body)), st);
  }

  lemma IsShort(token: string)
    requires token != "" && token[0] == '-' && (|token| == 1 || token[1] != '-')
    ensures Dashed(token) && !HasPrefix(token, "--")
  {
    if |token| >= 2 { assert token[..2] == [token[0], token[1]]; }
  }

  /** A short option is kept as it stands, with the token after it unless that has a dash too. */
  lemma ShortKept(token: string, rest: seq<string>, st: Parsed)
    requires token != "" && token[0] == '-' && (|token| == 1 || token[1] != '-') && !IsNumber(token)
    ensures ParseFrom([token] + rest, st) ==
            if rest != [] && (rest[0] == "" || rest[0][0] != '-') then
              var text := token + " " + rest[0];
              ParseFrom(rest[1..], Parsed(st.args, st.extra + [text], st.positionals, st.warnings + [ShortFlag(text)]))
            else ParseFrom(rest, Parsed(st.args, st.extra + [token], st.positionals, st.warnings + [ShortFlag(token)]))
  {
    var ts := [token] + rest;
    IsShort(token);
    assert ts[0] == token && ts[1..] == rest && (rest != [] ==> ts[1] == rest[0] && ts[2..] == rest[1..]);
    assert Step(ts, st) == ShortStep(ts, st);
  }

  /** Any other token is a positional, and after a bare `--` every token is. */
  lemma PositionalKept(token: string, rest: seq<string>, st: Parsed)
    requires token == "--" || token == "" || token[0] != '-' || (IsNumber(token) && (|token| == 1 || token[1] != '-'))
    ensures ParseFrom([token] + rest, st) ==
            if token == "--" then st.(positionals := st.positionals + rest)
            else ParseFrom(rest, st.(positionals := st.positionals + [token]))
  {
    var ts := [token] + rest;
    assert ts[1..] == rest;
    assert HasPrefix(token, "--") ==> |token| >= 2 && token[0] == '-' && token[1] == '-';
  }

  // The patterns, written out

  lemma {:induction false} SkipDigitsIs(s: string, i: nat, j: nat)
    requires i <= j <= |s| && (forall k | i <= k < j :: IsDigit(s[k])) && (j < |s| ==> !IsDigit(s[j]))
    ensures SkipDigits(s, i) == j
    decreases |s| - i
  {
    if i < j { SkipDigitsIs(s, i + 1, j); }
  }

  lemma {:induction false} SkippedAreDigits(s: string, i: nat)
    requires i <= |s|
    ensures forall k | i <= k < SkipDigits(s, i) :: IsDigit(s[k])
    decreases |s| - i
  {
    if i < |s| && IsDigit(s[i]) { SkippedAreDigits(s, i + 1); }
  }

  predicate DigitsAt(t: string, i: int, j: int)
    requires 0 <= i && j <= |t|
  {
    i < j && forall k | i <= k < j :: '0' <= t[k] <= '9'
  }

  /** A sign up to `a`, whole digits up to `b`, a fraction up to `c`, and an exponent whose digits start at `d`. */
  predicate NumberAt(t: string, a: nat, b: nat, c: nat, d: nat) {
    && a <= 1 && a < b <= c <= |t| && (a == 1 ==> t[0] == '-') && DigitsAt(t, a, b)
    && (b < c ==> t[b] == '.' && DigitsAt(t, b + 1, c))
    && (c < |t| ==>
          && t[c] in "eE" && DigitsAt(t, d, |t|)
          && (d == c + 1 || (d == c + 2 && t[c + 1] in "-+")))
  }

  lemma NumberFound(t: string, a: nat, b: nat, c: nat, d: nat)
    requires NumberAt(t, a, b, c, d)
    ensures IsNumberText(t)
  {
    assert SkipSign(t, 0, "-") == a;
    SkipDigitsIs(t, a, b);
    assert SkipSign(t, b, ".") == if b < c then b + 1 else b;
    if b < c { SkipDigitsIs(t, b + 1, c); }
    assert SkipSign(t, c, "eE") == if c < |t| then c + 1 else c;
    if c < |t| {
      assert SkipSign(t, c + 1, "-+") == d;
      SkipDigitsIs(t, d, |t|);
    }
  }

  lemma NumberIsFound(t: string) returns (a: nat, b: nat, c: nat, d: nat)
    requires IsNumberText(t)
    ensures NumberAt(t, a, b, c, d)
  {
    a := SkipSign(t, 0, "-");
    b := SkipDigits(t, a);
    var point := SkipSign(t, b, ".");
    c := if point > b && SkipDigits(t, point) > point then SkipDigits(t, point) else b;
    var e := SkipSign(t, c, "eE");
    d := SkipSign(t, e, "-+");
    SkippedAreDigits(t, a);
    SkippedAreDigits(t, point);
    SkippedAreDigits(t, d);
  }

  /** `-?\d+(\.\d+)?([eE][-+]?\d+)?`, place by place. */
  lemma NumberIff(t: string)
    ensures IsNumberText(t) <==> exists a, b, c, d :: NumberAt(t, a, b, c, d)
  {
    if IsNumberText(t) {
      var a, b, c, d := NumberIsFound(t);
    }
    if a, b, c, d :| NumberAt(t, a, b, c, d) { NumberFound(t, a, b, c, d); }
  }

  /** `-?\d+` */
  lemma IntIff(t: string)
    ensures IsIntText(t) <==> DigitsAt(t, 0, |t|) || (t != "" && t[0] == '-' && DigitsAt(t, 1, |t|))
  {
    AllDigitsSkipped(t, SkipSign(t, 0, "-"));
  }

  lemma {:induction false} KeyCharsIff(k: string)
    ensures KeyChars(k) <==> forall i | 0 <= i < |k| :: 'a' <= k[i] <= 'z' || '0' <= k[i] <= '9' || k[i] == '-'
  {
    if k != "" {
      KeyCharsIff(k[1..]);
      assert forall i | 0 < i < |k| :: k[i] == k[1..][i - 1];
    }
  }

  /** The key pattern: lower-case letters, digits and dashes, no dash first, and perhaps one final newline. */
  lemma ArgKeyIff(k: string)
    ensures IsArgKey(k) <==>
            var c := if k != "" && k[|k| - 1] == '\n' then k[..|k| - 1] else k;
            && c != "" && c[0] != '-'
            && forall i | 0 <= i < |c| :: 'a' <= c[i] <= 'z' || '0' <= c[i] <= '9' || c[i] == '-'
  {
    KeyCharsIff(Chomp(k));
  }

  lemma {:induction false} DashesAt(s: string)
    ensures |Dashes(s)| == |s|
    ensures forall i | 0 <= i < |s| :: Dashes(s)[i] == if s[i] == '_' then '-' else s[i]
  {
    if s != "" { DashesAt(s[1..]); }
  }

  /** Capitals written small, underscores as dashes, and nothing else changed. */
  ghost predicate NormalForm(s: string, norm: string) {
    && |norm| == |s|
    && forall i | 0 <= i < |s| ::
         norm[i] == if s[i] == '_' then '-' else if 'A' <= s[i] <= 'Z' then (s[i] as int + 32) as char else s[i]
  }

  lemma NormalFormOf(s: string)
    ensures NormalForm(s, Dashes(Lower(s)))
  {
    LowerAt(s);
    DashesAt(Lower(s));
  }

  /** A key is normalised by cutting off the blanks around it and bringing the rest into normal form. */
  lemma NormalizeIs(key: string)
    ensures exists a: nat, b: nat :: Trims(key, a, b) && NormalForm(key[a..b], Normalize(key))
  {
    StripIs(key);
    NormalFormOf(Strip(key));
  }
}
