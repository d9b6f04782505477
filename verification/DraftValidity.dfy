/** Whatever container is imported, the draft passes the portal's own validation, and deploys on the
    port it names. */
module DraftValidity {
  import opened Wrappers
  import opened Text
  import opened ServingEngines
  import opened RecipeImport
  import opened ShellScript
  import opened RecipeDraft
  import opened RenderedLines

  /** What the parser keeps to: valid keys, no null, and no port flag among what it could not parse. */
  ghost predicate Sane(st: Parsed) { ValidShape(st.args) && PortFree(st.extra) }

  lemma PortFlagParses(token: string)
    requires IsPortToken(token)
    ensures HasPrefix(token, "--") && var body := token[2..]; IsArgKey(Normalize(body[..EqualsAt(body)]))
  {
    assert token[..6] == PORT_FLAG && PORT_FLAG[..2] == "--";
    assert HasPrefix(token, "--") by { assert token[..2] == token[..6][..2]; }
    var body := token[2..];
    assert body[..4] == "port" by { assert body[..4] == token[..6][2..] == PORT_FLAG[2..]; }
    EqualsAfterPort(body);
    HostAndPortAreClean();
    NormalizeCore("port");
    NormalizeKey("port");
  }

  lemma EqualsAfterPort(body: string)
    requires |body| >= 4 && body[..4] == "port" && (|body| == 4 || body[4] == '=')
    ensures EqualsAt(body) == 4
  {
    assert body[0] == 'p' && body[1] == 'o' && body[2] == 'r' && body[3] == 't';
    assert EqualsAt(body[4..]) == 0;
    assert body[3..][1..] == body[4..] && EqualsAt(body[3..]) == 1;
    assert body[2..][1..] == body[3..] && EqualsAt(body[2..]) == 2;
    assert body[1..][1..] == body[2..] && EqualsAt(body[1..]) == 3;
  }

  lemma PutSane(st: Parsed, key: string, v: Value)
    requires Sane(st) && IsArgKey(key) && !v.Null?
    ensures Sane(Put(st, key, v))
  {
  }

  lemma UnparsedSane(st: Parsed, token: string)
    requires Sane(st) && !IsPortToken(token)
    ensures Sane(Note(st, FlagUnparsed(token)).(extra := st.extra + [token]))
  {
  }

  lemma StoredSane(token: string, key: string, norm: string, given: (Value, nat), st: Parsed)
    requires Sane(st) && !given.0.Null? && (IsPortToken(token) ==> IsArgKey(norm))
    ensures Sane(Stored(token, key, norm, given, st).0)
  {
    var mid := Normalized(key, norm, st);
    if IsArgKey(norm) {
      PutSane(mid, norm, given.0);
    } else {
      UnparsedSane(mid, token);
    }
  }

  lemma GivenIsValue(ts: seq<string>, body: string, eq: nat)
    requires ts != [] && eq <= |body|
    ensures !Given(ts, body, eq).0.Null?
  {
  }

  lemma LongStepSane(ts: seq<string>, st: Parsed)
    requires ts != [] && HasPrefix(ts[0], "--") && Sane(st)
    ensures Sane(LongStep(ts, st).0)
  {
    var body := ts[0][2..];
    var eq := EqualsAt(body);
    if IsPortToken(ts[0]) { PortFlagParses(ts[0]); }
    GivenIsValue(ts, body, eq);
    StoredSane(ts[0], body[..eq], Normalize(body[..eq]), Given(ts, body, eq), st);
  }

  lemma ShortStepSane(ts: seq<string>, st: Parsed)
    requires ts != [] && Dashed(ts[0]) && !HasPrefix(ts[0], "--") && Sane(st)
    ensures Sane(ShortStep(ts, st).0)
  {
    var text := if |ts| > 1 && !Dashed(ts[1]) then ts[0] + " " + ts[1] else ts[0];
    assert !IsPortToken(text) by {
      assert |ts[0]| >= 2 ==> text[1] == ts[0][1] != '-' by { if |ts[0]| >= 2 { assert ts[0][..2] == [ts[0][0], ts[0][1]]; } }
      assert |ts[0]| == 1 && |text| > 1 ==> text[1] == ' ';
      assert PORT_FLAG[1] == '-' && PORT_INLINE[1] == '-';
    }
  }

  lemma {:induction false} ParseSane(ts: seq<string>, st: Parsed)
    requires Sane(st)
    ensures Sane(ParseFrom(ts, st))
    decreases |ts|
  {
    if ts != [] {
      var (next, used) := Step(ts, st);
      if ts[0] != "--" && HasPrefix(ts[0], "--") {
        LongStepSane(ts, st);
      } else if ts[0] != "--" && Dashed(ts[0]) && !IsNumber(ts[0]) {
        ShortStepSane(ts, st);
      }
      ParseSane(ts[used..], next);
    }
  }

  lemma PortLineSplits(extra: seq<string>, pd: bool, port: Option<Value>)
    requires PortFree(extra)
    ensures Split(extra + PortLine(pd, port)) ==
            (extra, if PortLine(pd, port) == [] then None else Some(NatText(DraftPort(pd, port))))
  {
    PortFreeNotDangling(extra);
    SplitKeepsPortFree(extra, None);
    SplitConcat(extra, PortLine(pd, port), None);
    assert extra + [] == extra;
    if PortLine(pd, port) != [] {
      var line := PortLine(pd, port);
      assert HasPrefix(line[0], PORT_INLINE) && line[0][|PORT_INLINE|..] == NatText(DraftPort(pd, port));
      assert SplitFrom(line, None) == SplitFrom(line[1..], Some(NatText(DraftPort(pd, port))));
    }
  }

  lemma DraftPortInRange(pd: bool, port: Option<Value>)
    ensures ParsePort(NatText(DraftPort(pd, port))) == Some(DraftPort(pd, port))
  {
    NatTextPort(DraftPort(pd, port));
  }

  /** The draft's args and flags are accepted on the way in, and it names a possible port. */
  predicate Accepted(d: Draft) {
    ValidEngineArgs(d.engineArgs) && ValidPortFlag(d.extraArgs) && 1 <= d.servingPort <= 65535
  }

  /** The serving deployed from the draft listens on the draft's port and gets all of its other flags. */
  predicate DeploysAsSaid(d: Draft) {
    && ServingPort(DepOf(d)) == Some(d.servingPort)
    && Split(EngineFlags(DepOf(d))).0 == Render(d.engineArgs) + Split(d.extraArgs).0
  }

  /** Every draft is accepted; and it deploys as it says exactly if no recovered value is itself spelled like a
      port flag. */
  lemma DraftIsValid(live: Live, syntax: Syntax)
    requires DraftOf(live, syntax).Some?
    ensures var d := DraftOf(live, syntax).value;
            Accepted(d) && (DeploysAsSaid(d) <==> NoRogueValue(d.engineArgs))
  {
    var c := live.container;
    var (tokens, noted) := Unwrap(c.command + c.args, syntax.words);
    var program := DetectEngine(tokens, c.image);
    var start := Parsed(map[], [], [], noted + program.warnings);
    ParseSane(program.flags, start);
    AssembledIsValid(c, program, ParseFrom(program.flags, start));
    SameDeployment(LineDraft(c, syntax.words), DraftOf(live, syntax).value);
  }

  lemma SameDeployment(d: Draft, e: Draft)
    requires d.(warnings := e.warnings) == e
    ensures (Accepted(d) <==> Accepted(e)) && (DeploysAsSaid(d) <==> DeploysAsSaid(e))
  {
    assert DepOf(d) == DepOf(e);
  }

  lemma AssembledIsValid(c: Container, program: Program, parsed: Parsed)
    requires Sane(parsed)
    ensures var d := Assemble(c, program, parsed);
            Accepted(d) && (DeploysAsSaid(d) <==> NoRogueValue(d.engineArgs))
  {
    var d := Assemble(c, program, parsed);
    var pd, port := IsPd(c, parsed.args), Lookup(parsed.args, "port");
    PortLineSplits(parsed.extra, pd, port);
    DraftPortInRange(pd, port);
    assert "port" in DROPPED && "port" !in d.engineArgs;
    DeploysIff(d);
  }

  lemma DeploysIff(d: Draft)
    requires Accepted(d) && "port" !in d.engineArgs
    requires Split(d.extraArgs).1 == (if d.servingPort == SERVING_PORT && Split(d.extraArgs).1.None? then None
                                      else Some(NatText(d.servingPort)))
    ensures DeploysAsSaid(d) <==> NoRogueValue(d.engineArgs)
  {
    AcceptedPort(DepOf(d));
    NothingToDrop(Sorted(d.engineArgs.Keys), "port");
    NatTextPort(d.servingPort);
  }
}
