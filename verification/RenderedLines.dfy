/** Command lines as the portal renders them, read back: for a container, for a benchmark job's own server,
    and as the last command of a shell script. */
module RenderedLines {
  import opened Wrappers
  import opened Text
  import opened ServingEngines
  import opened RecipeImport
  import opened ShellScript
  import opened RecipeDraft

  /** The container the portal renders for a serving. */
  function ContainerOf(dep: Dep): Option<Container> {
    var launch := ContainerLaunch(dep);
    if launch.None? then None
    else Some(Container(launch.value.command, launch.value.args, dep.image, ""))
  }

  /** The serving a draft deploys as. */
  function DepOf(d: Draft): Dep {
    Dep(if d.engine == Sglang then "sglang" else "vllm", d.image, d.modelPath, d.engineArgs, d.extraArgs, None)
  }

  /** What an importable serving keeps to: no extra args and no KV events, no key the importer
      claims for itself, values and a model path that come back, and a port. */
  ghost predicate Importable(dep: Dep) {
    && dep.extraArgs == [] && dep.kvEvents.None?
    && ValidEngineArgs(dep.engineArgs)
    && (forall k | k in dep.engineArgs && k != "port" :: k !in DROPPED && Comes(k, dep.engineArgs[k]))
    && dep.modelPath != "" && Survives(Str(dep.modelPath))
    && ServingPort(dep).Some?
  }

  lemma SurvivorIsNoPortToken(v: Value)
    requires Survives(v) && v != Bool(true)
    ensures !IsPortToken(ValueText(v))
  {
    var t := ValueText(v);
    if IsPortToken(t) {
      assert HasPrefix(t, "--") by { assert PORT_FLAG[..2] == "--" && PORT_INLINE[..2] == "--"; }
      FlagNotTaken(t);
      SurvivorComesBack(v);
      assert false;
    }
  }

  lemma ImportableHasNoRogue(dep: Dep)
    requires Importable(dep)
    ensures NoRogueValue(dep.engineArgs)
  {
    forall k | k in dep.engineArgs && k != "port" && IsKept(dep.engineArgs[k]) && dep.engineArgs[k] != Bool(true)
      ensures !IsPortToken(ValueText(dep.engineArgs[k]))
    {
      SurvivorIsNoPortToken(dep.engineArgs[k]);
    }
  }

  lemma NatTextPort(p: nat)
    requires 1 <= p <= 65535
    ensures ParsePort(NatText(p)) == Some(p)
  {
    var t := NatText(p);
    AllDigitsAt(t);
    assert IsDigit(t[0]) && IsDigit(t[|t| - 1]);
    assert StripLeft(t) == t && StripRight(t) == t;
    ReadNatText(p);
  }

  lemma NatTextInjective(a: nat, b: nat)
    ensures NatText(a) == NatText(b) ==> a == b
  {
    ReadNatText(a);
    ReadNatText(b);
  }

  /** The head of a rendered line, flag by flag. */
  function HeadItems(e: Engine, model: string, port: nat): seq<string> {
    Item(ModelKey(e), Str(model))
    + ((if e == Sglang then Item("host", Str("0.0.0.0")) else []) + Item("port", Int(port)))
  }

  function ModelKey(e: Engine): string { if e == Sglang then "model-path" else "model" }

  function HeadArgs(e: Engine, model: string, port: nat): map<string, Value> {
    if e == Sglang then map["model-path" := Str(model), "host" := Str("0.0.0.0"), "port" := Int(port)]
    else map["model" := Str(model), "port" := Int(port)]
  }

  lemma ModelKeyIsClean(e: Engine)
    ensures IsCleanKey(ModelKey(e))
  {
    var k := ModelKey(e);
    assert forall i | 0 <= i < |k| :: IsKeyChar(k[i]);
    KeyCharsFrom(k);
  }

  lemma HostAndPortAreClean()
    ensures IsCleanKey("host") && IsCleanKey("port")
  {
  }

  lemma HostSurvives()
    ensures Survives(Str("0.0.0.0"))
  {
    var s := "0.0.0.0";
    assert Chomp(s) == s;
    assert SkipSign(s, 0, "-") == 0 && SkipDigits(s, 0) == 1;
    assert SkipSign(s, 1, ".") == 2 && SkipDigits(s, 2) == 3;
    assert SkipSign(s, 3, "eE") == 3;
  }

  lemma {:induction false} KeyCharsFrom(k: string)
    requires forall i | 0 <= i < |k| :: IsKeyChar(k[i])
    ensures KeyChars(k)
  {
    if k != "" { KeyCharsFrom(k[1..]); }
  }

  lemma ParsePortItem(port: nat, tail: seq<string>, st: Parsed)
    requires "port" !in st.args && StartsWithFlag(tail)
    ensures ParseFrom(Item("port", Int(port)) + tail, st) ==
            ParseFrom(tail, st.(args := st.args["port" := Int(port)]))
    ensures StartsWithFlag(Item("port", Int(port)) + tail)
  {
    HostAndPortAreClean();
    ParseItem("port", Int(port), tail, st);
    assert (Item("port", Int(port)) + tail)[0] == "--" + "port";
  }

  lemma ParseHostItem(tail: seq<string>, st: Parsed)
    requires "host" !in st.args && StartsWithFlag(tail)
    ensures ParseFrom(Item("host", Str("0.0.0.0")) + tail, st) ==
            ParseFrom(tail, st.(args := st.args["host" := Str("0.0.0.0")]))
    ensures StartsWithFlag(Item("host", Str("0.0.0.0")) + tail)
  {
    HostAndPortAreClean();
    HostSurvives();
    ParseItem("host", Str("0.0.0.0"), tail, st);
    assert (Item("host", Str("0.0.0.0")) + tail)[0] == "--" + "host";
  }

  lemma ParseModelItem(e: Engine, model: string, tail: seq<string>, st: Parsed)
    requires model != "" && Survives(Str(model))
    requires st.args == map[] && StartsWithFlag(tail)
    ensures ParseFrom(Item(ModelKey(e), Str(model)) + tail, st) ==
            ParseFrom(tail, st.(args := map[ModelKey(e) := Str(model)]))
  {
    ModelKeyIsClean(e);
    ParseItem(ModelKey(e), Str(model), tail, st);
  }

  lemma ParseHeadSglang(model: string, port: nat, tail: seq<string>, st: Parsed)
    requires model != "" && Survives(Str(model))
    requires st.args == map[] && StartsWithFlag(tail)
    ensures ParseFrom(Item("model-path", Str(model))
                      + (Item("host", Str("0.0.0.0")) + (Item("port", Int(port)) + tail)), st) ==
            ParseFrom(tail, st.(args := HeadArgs(Sglang, model, port)))
  {
    var first := st.(args := map["model-path" := Str(model)]);
    var second := st.(args := map["model-path" := Str(model), "host" := Str("0.0.0.0")]);
    var portTail := Item("port", Int(port)) + tail;
    ParsePortItem(port, tail, second);
    ParseHostItem(portTail, first);
    ParseModelItem(Sglang, model, Item("host", Str("0.0.0.0")) + portTail, st);
  }

  lemma ParseHeadVllm(model: string, port: nat, tail: seq<string>, st: Parsed)
    requires model != "" && Survives(Str(model))
    requires st.args == map[] && StartsWithFlag(tail)
    ensures ParseFrom(Item("model", Str(model)) + (Item("port", Int(port)) + tail), st) ==
            ParseFrom(tail, st.(args := HeadArgs(Vllm, model, port)))
  {
    ParsePortItem(port, tail, st.(args := map["model" := Str(model)]));
    ParseModelItem(Vllm, model, Item("port", Int(port)) + tail, st);
  }

  lemma Reassociate(a: seq<string>, b: seq<string>, c: seq<string>, d: seq<string>)
    ensures a + (b + c) + d == a + (b + (c + d))
  {
  }

  lemma ParseHead(e: Engine, model: string, port: nat, tail: seq<string>, st: Parsed)
    requires model != "" && Survives(Str(model))
    requires st.args == map[] && StartsWithFlag(tail)
    ensures ParseFrom(HeadItems(e, model, port) + tail, st) ==
            ParseFrom(tail, st.(args := HeadArgs(e, model, port)))
  {
    var hostItem := if e == Sglang then Item("host", Str("0.0.0.0")) else [];
    Reassociate(Item(ModelKey(e), Str(model)), hostItem, Item("port", Int(port)), tail);
    if e == Sglang {
      ParseHeadSglang(model, port, tail, st);
    } else {
      assert [] + (Item("port", Int(port)) + tail) == Item("port", Int(port)) + tail;
      ParseHeadVllm(model, port, tail, st);
    }
  }

  // What the draft's own engine args render to

  lemma AscendingCons(k: string, rest: seq<string>)
    requires Ascending(rest) && forall j | j in rest :: k != j && LexLe(k, j)
    ensures Ascending([k] + rest)
  {
  }

  lemma AscendingTail(ks: seq<string>)
    requires Ascending(ks) && ks != []
    ensures Ascending(ks[1..]) && ks[0] !in ks[1..] && forall j | j in ks[1..] :: LexLe(ks[0], j)
  {
  }

  lemma {:induction false} WithoutAscending(ks: seq<string>, key: string)
    requires Ascending(ks)
    ensures Ascending(Without(ks, key))
  {
    if ks != [] {
      AscendingTail(ks);
      WithoutAscending(ks[1..], key);
      if ks[0] == key {
        assert Without(ks, key) == Without(ks[1..], key);
      } else {
        AscendingCons(ks[0], Without(ks[1..], key));
      }
    }
  }

  function KeptKeys(ks: seq<string>, args: map<string, Value>): (r: seq<string>)
    requires forall k | k in ks :: k in args
    ensures forall k :: k in r <==> k in ks && IsKept(args[k])
  {
    if ks == [] then [] else (if IsKept(args[ks[0]]) then [ks[0]] else []) + KeptKeys(ks[1..], args)
  }

  lemma {:induction false} KeptKeysRender(ks: seq<string>, args: map<string, Value>, kept: map<string, Value>)
    requires forall k | k in ks :: k in args && (IsKept(args[k]) ==> k in kept && kept[k] == args[k])
    requires Ascending(ks)
    ensures Ascending(KeptKeys(ks, args))
    ensures RenderKeys(KeptKeys(ks, args), kept) == RenderKeys(ks, args)
  {
    if ks != [] {
      AscendingTail(ks);
      KeptKeysRender(ks[1..], args, kept);
      var tail := KeptKeys(ks[1..], args);
      if IsKept(args[ks[0]]) {
        AscendingCons(ks[0], tail);
        assert ([ks[0]] + tail)[1..] == tail;
      } else {
        assert KeptKeys(ks, args) == tail;
        assert [] + RenderKeys(ks[1..], args) == RenderKeys(ks[1..], args);
      }
    }
  }

  lemma RenderKeptOf(ks: seq<string>, args: map<string, Value>)
    requires forall k | k in ks :: k in args
    requires Ascending(ks)
    ensures Render(KeptOf(ks, args)) == RenderKeys(ks, args)
  {
    var kept := KeptOf(ks, args);
    KeptKeysRender(ks, args, kept);
    AscendingUnique(Sorted(kept.Keys), KeptKeys(ks, args));
  }

  /** The serving's own keys, the port aside. */
  function OwnKeys(dep: Dep): seq<string> { Without(Sorted(dep.engineArgs.Keys), "port") }

  lemma OwnKeysLine(dep: Dep)
    requires Importable(dep)
    ensures Ascending(OwnKeys(dep)) && Distinct(OwnKeys(dep))
    ensures forall k | k in OwnKeys(dep) ::
              k in dep.engineArgs && k != "port" && k !in DROPPED && Comes(k, dep.engineArgs[k])
    ensures Split(EngineFlags(dep)).0 == RenderKeys(OwnKeys(dep), dep.engineArgs)
  {
    WithoutAscending(Sorted(dep.engineArgs.Keys), "port");
    ImportableHasNoRogue(dep);
    SplitEngineFlags(dep);
    assert RenderKeys(OwnKeys(dep), dep.engineArgs) + [] == RenderKeys(OwnKeys(dep), dep.engineArgs);
  }

  lemma HeadIsItems(e: Engine, model: string, port: nat)
    requires model != ""
    ensures [ModelFlag(e), model] + BaseArgs(e) + [PORT_FLAG, NatText(port)] == HeadItems(e, model, port)
  {
    assert ModelFlag(e) == "--" + ModelKey(e) && PORT_FLAG == "--" + "port" && "--host" == "--" + "host";
    assert Item(ModelKey(e), Str(model)) == [ModelFlag(e), model];
    assert Item("port", Int(port)) == [PORT_FLAG, NatText(port)];
    if e == Sglang { assert Item("host", Str("0.0.0.0")) == ["--host", "0.0.0.0"]; }
  }

  lemma LaunchShape(dep: Dep, port: nat, flags: seq<string>)
    requires ServingPort(dep) == Some(port) && dep.kvEvents.None? && dep.modelPath != ""
    requires Split(EngineFlags(dep)).0 == flags
    ensures var e := EngineOf(dep.engine);
            ContainerLaunch(dep) == Some(Launch(Command(e), HeadItems(e, dep.modelPath, port) + flags))
  {
    var e := EngineOf(dep.engine);
    HeadIsItems(e, dep.modelPath, port);
    var head := [ModelFlag(e), dep.modelPath] + BaseArgs(e) + [PORT_FLAG, NatText(port)];
    assert KvArgs(dep) == [] && head + [] == head;
  }

  /** The rendered line, item by item. */
  lemma LaunchItems(dep: Dep)
    requires Importable(dep)
    ensures var e := EngineOf(dep.engine);
            ContainerLaunch(dep) ==
            Some(Launch(Command(e),
                   HeadItems(e, dep.modelPath, ServingPort(dep).value) + RenderKeys(OwnKeys(dep), dep.engineArgs)))
  {
    OwnKeysLine(dep);
    LaunchShape(dep, ServingPort(dep).value, RenderKeys(OwnKeys(dep), dep.engineArgs));
  }

  lemma DetectsSglang(args: seq<string>, image: string)
    ensures DetectEngine(Command(Sglang) + args, image) == Program(Sglang, args, "", [])
  {
  }

  lemma HeadsAreNoShell()
    ensures "python3" !in SHELLS && "--model" !in SHELLS
  {
  }

  lemma DetectsRendered(dep: Dep)
    requires ServingPort(dep).Some?
    ensures var c := ContainerOf(dep).value;
            && c.command + c.args != [] && (c.command + c.args)[0] !in SHELLS
            && DetectEngine(c.command + c.args, c.image) ==
            if EngineOf(dep.engine) == Sglang then Program(Sglang, c.args, "", [])
            else Program(EngineOfImage(dep.image), c.args, "", ImageWarnings(dep.image))
  {
    var args := ContainerLaunch(dep).value.args;
    HeadsAreNoShell();
    assert args[0] == ModelFlag(EngineOf(dep.engine));
    DetectsCommand(EngineOf(dep.engine), args, dep.image);
  }

  lemma DetectsCommand(e: Engine, args: seq<string>, image: string)
    requires args != [] && args[0] == ModelFlag(e)
    ensures Command(e) + args != [] && (Command(e) + args)[0] !in SHELLS
    ensures DetectEngine(Command(e) + args, image) ==
            if e == Sglang then Program(Sglang, args, "", [])
            else Program(EngineOfImage(image), args, "", ImageWarnings(image))
  {
    HeadsAreNoShell();
    if e == Sglang {
      DetectsSglang(args, image);
    } else {
      assert Command(e) + args == args;
      DetectsBare(args, image);
    }
  }

  lemma ParseLaunch(dep: Dep, warnings: seq<Warning>)
    requires Importable(dep)
    ensures var e := EngineOf(dep.engine);
            ParseFrom(ContainerLaunch(dep).value.args, Parsed(map[], [], [], warnings)) ==
            Parsed(HeadArgs(e, dep.modelPath, ServingPort(dep).value) + KeptOf(OwnKeys(dep), dep.engineArgs),
                   [], [], warnings)
  {
    var e, m := EngineOf(dep.engine), dep.engineArgs;
    var st := Parsed(map[], [], [], warnings);
    OwnKeysLine(dep);
    LaunchItems(dep);
    RenderStartsWithFlag(OwnKeys(dep), m);
    ParseHead(e, dep.modelPath, ServingPort(dep).value, RenderKeys(OwnKeys(dep), m), st);
    ParseRendered(OwnKeys(dep), m, st.(args := HeadArgs(e, dep.modelPath, ServingPort(dep).value)));
  }

  lemma HeadIsDropped(e: Engine, model: string, port: nat, own: map<string, Value>)
    requires forall k | k in own :: k !in DROPPED
    ensures var args := HeadArgs(e, model, port) + own;
            args - DROPPED == own && Lookup(args, "port") == Some(Int(port)) && KV_TRANSFER !in args
  {
  }

  lemma ModelIsTaken(e: Engine, model: string, port: nat, own: map<string, Value>)
    requires forall k | k in own :: k !in DROPPED
    ensures TakeModelPath(e, HeadArgs(e, model, port) + own, "") == (model, [])
  {
    var args := HeadArgs(e, model, port) + own;
    assert "model" in DROPPED && "model-path" in DROPPED && "model" != "model-path";
    assert Lookup(args, ModelKey(e)) == Some(Str(model));
    var none: seq<Warning> := [];
    assert none + none == none;
  }

  lemma PortComesBack(port: nat)
    requires 1 <= port <= 65535
    ensures DraftPort(false, Some(Int(port))) == port
    ensures PortWarnings(false, Some(Int(port))) == []
    ensures PortLine(false, Some(Int(port))) == DraftExtra(port)
  {
    NatTextPort(port);
    NatTextInjective(port, SERVING_PORT);
  }

  /** The extra args of a draft: its port, unless it is the default. */
  function DraftExtra(port: nat): seq<string> {
    if port == SERVING_PORT then [] else [PORT_INLINE + NatText(port)]
  }

  lemma AssembleRecovers(c: Container, flags: seq<string>, e: Engine, model: string, port: nat,
                         own: map<string, Value>, warnings: seq<Warning>)
    requires c.role == "" && 1 <= port <= 65535
    requires forall k | k in own :: k !in DROPPED
    ensures Assemble(c, Program(e, flags, "", warnings), Parsed(HeadArgs(e, model, port) + own, [], [], warnings)) ==
            Draft(e, c.image, model, own, DraftExtra(port), port, warnings)
  {
    HeadIsDropped(e, model, port, own);
    ModelIsTaken(e, model, port, own);
    PortComesBack(port);
    assert [] + DraftExtra(port) == DraftExtra(port);
    var none: seq<Warning> := [];
    assert none + none == none && warnings + none == warnings;
  }

  /** The line names its port, and nothing about prefill/decode. */
  predicate PlainArgs(args: map<string, Value>) { "port" in args && KV_TRANSFER !in args }

  /** Without a shell in front, the line is read as it stands. */
  lemma NotWrapped(c: Container, words: Splitter)
    requires c.command + c.args != [] && (c.command + c.args)[0] !in SHELLS
    ensures var program := DetectEngine(c.command + c.args, c.image);
            ReadLine(c, words) == (program, ParseFrom(program.flags, Parsed(map[], [], [], program.warnings)))
  {
    var program := DetectEngine(c.command + c.args, c.image);
    var none: seq<Warning> := [];
    assert none + program.warnings == program.warnings;
  }

  lemma BareLine(c: Container, dep: Dep, words: Splitter)
    requires ServingPort(dep).Some? && c == ContainerOf(dep).value
    ensures var e := EngineOf(dep.engine);
            var warnings := if e == Sglang then [] else ImageWarnings(dep.image);
            var program := Program(if e == Sglang then Sglang else EngineOfImage(dep.image), c.args, "", warnings);
            ReadLine(c, words) == (program, ParseFrom(c.args, Parsed(map[], [], [], warnings)))
  {
    DetectsRendered(dep);
    NotWrapped(c, words);
  }

  lemma OwnKeysNotDropped(dep: Dep)
    requires Importable(dep)
    ensures forall k | k in KeptOf(OwnKeys(dep), dep.engineArgs) :: k !in DROPPED
  {
    OwnKeysLine(dep);
  }

  /** A rendered line: engine, image, model, own args and port are all recovered, the engine of a vLLM line
      from the image, and only an image that names no engine is remarked on. */
  lemma LineRecovers(dep: Dep, words: Splitter)
    requires Importable(dep)
    requires EngineOf(dep.engine) == Vllm ==> EngineOfImage(dep.image) == Vllm
    ensures PlainArgs(ReadLine(ContainerOf(dep).value, words).1.args)
    ensures var port := ServingPort(dep).value;
            var e := EngineOf(dep.engine);
            LineDraft(ContainerOf(dep).value, words) ==
            Draft(e, dep.image, dep.modelPath, KeptOf(OwnKeys(dep), dep.engineArgs), DraftExtra(port), port,
                  if e == Sglang then [] else ImageWarnings(dep.image))
  {
    var c, e, port := ContainerOf(dep).value, EngineOf(dep.engine), ServingPort(dep).value;
    var warnings := if e == Sglang then [] else ImageWarnings(dep.image);
    BareLine(c, dep, words);
    ParseLaunch(dep, warnings);
    OwnKeysNotDropped(dep);
    HeadIsDropped(e, dep.modelPath, port, KeptOf(OwnKeys(dep), dep.engineArgs));
    AssembleRecovers(c, c.args, e, dep.modelPath, port, KeptOf(OwnKeys(dep), dep.engineArgs), warnings);
  }

  lemma DraftPortLine(port: nat)
    requires 1 <= port <= 65535
    ensures Split(DraftExtra(port)) == ([], if port == SERVING_PORT then None else Some(NatText(port)))
  {
    if port != SERVING_PORT {
      var lines := DraftExtra(port);
      assert HasPrefix(lines[0], PORT_INLINE) && lines[0][|PORT_INLINE|..] == NatText(port);
      assert SplitFrom(lines, None) == SplitFrom(lines[1..], Some(NatText(port)));
    }
  }

  /** What recovered args and the port line are worth as flags. */
  lemma DraftFlags(own: map<string, Value>, port: nat)
    requires 1 <= port <= 65535
    requires forall k | k in own :: k != "port" && IsCleanKey(k) && IsKept(own[k]) && Survives(own[k])
    ensures Split(Render(own) + DraftExtra(port)) ==
            (Render(own), if port == SERVING_PORT then None else Some(NatText(port)))
  {
    forall k | k in own && own[k] != Bool(true) ensures !IsPortToken(ValueText(own[k])) {
      SurvivorIsNoPortToken(own[k]);
    }
    forall k | k in own ensures IsArgKey(k) { NormalizeCore(k); }
    var ks := Sorted(own.Keys);
    SplitRender(ks, own, None);
    NothingToDrop(ks, "port");
    DraftPortLine(port);
    SplitConcat(Render(own), DraftExtra(port), None);
    assert Render(own) + [] == Render(own);
  }

  lemma {:induction false} NothingToDrop(ks: seq<string>, key: string)
    requires key !in ks
    ensures Without(ks, key) == ks
  {
    if ks != [] { NothingToDrop(ks[1..], key); }
  }

  /** How a recovered draft launches. */
  lemma DraftLaunch(dep: Dep, port: nat)
    requires 1 <= port <= 65535
    requires forall k | k in dep.engineArgs ::
               k != "port" && IsCleanKey(k) && IsKept(dep.engineArgs[k]) && Survives(dep.engineArgs[k])
    requires dep.extraArgs == DraftExtra(port) && dep.kvEvents.None? && dep.modelPath != ""
    ensures var e := EngineOf(dep.engine);
            ContainerLaunch(dep) ==
            Some(Launch(Command(e), HeadItems(e, dep.modelPath, port) + Render(dep.engineArgs)))
    ensures ServingPort(dep) == Some(port)
  {
    DraftFlags(dep.engineArgs, port);
    NatTextPort(port);
    LaunchShape(dep, port, Render(dep.engineArgs));
  }

  // The line that a benchmark job starts its own server with

  /** The full argv, on a port of the caller's choosing. */
  function ServeArgv(dep: Dep, port: nat): seq<string> {
    var flags := Split(EngineFlags(dep)).0;
    if EngineOf(dep.engine) == Sglang then
      Command(Sglang) + (["--model-path", dep.modelPath, "--host", "0.0.0.0", PORT_FLAG, NatText(port)] + flags)
    else ["vllm", "serve", dep.modelPath] + ([PORT_FLAG, NatText(port)] + flags)
  }

  lemma DetectsServe(model: string, tail: seq<string>, image: string)
    requires model != "" && !Dashed(model)
    ensures var tokens := ["vllm", "serve", model] + tail;
            DetectEngine(tokens, image) == Program(Vllm, tail, model, []) && tokens[0] !in SHELLS
  {
  }

  lemma AssembleServed(c: Container, flags: seq<string>, model: string, port: nat, own: map<string, Value>)
    requires c.role == "" && model != "" && 1 <= port <= 65535
    requires forall k | k in own :: k !in DROPPED
    ensures Assemble(c, Program(Vllm, flags, model, []), Parsed(map["port" := Int(port)] + own, [], [], [])) ==
            Draft(Vllm, c.image, model, own, DraftExtra(port), port, [])
  {
    var args := map["port" := Int(port)] + own;
    assert "port" in DROPPED && "model" in DROPPED && "model-path" in DROPPED && "kv-transfer-config" in DROPPED;
    assert "model"[0] == 'm' && "model-path"[0] == 'm' && "port"[0] == 'p' && "kv-transfer-config"[0] == 'k';
    assert args - DROPPED == own && Lookup(args, "port") == Some(Int(port));
    assert TakeModelPath(Vllm, args, model) == (model, []);
    PortComesBack(port);
    var none: seq<string> := [];
    assert none + DraftExtra(port) == DraftExtra(port);
  }

  lemma PortItem(port: nat)
    ensures [PORT_FLAG, NatText(port)] == Item("port", Int(port))
  {
    assert "--" + "port" == PORT_FLAG;
  }

  lemma SglangHead(model: string, port: nat)
    requires model != ""
    ensures ["--model-path", model, "--host", "0.0.0.0", PORT_FLAG, NatText(port)] == HeadItems(Sglang, model, port)
  {
    HeadIsItems(Sglang, model, port);
    assert [ModelFlag(Sglang), model] + BaseArgs(Sglang) + [PORT_FLAG, NatText(port)]
           == ["--model-path", model, "--host", "0.0.0.0", PORT_FLAG, NatText(port)];
  }

  /** The serving's own flags, after a head made of keys the importer claims for itself. */
  lemma OwnFlagsParse(dep: Dep, st: Parsed)
    requires Importable(dep) && forall k | k in st.args :: k in DROPPED
    ensures var flags := Split(EngineFlags(dep)).0;
            StartsWithFlag(flags)
            && ParseFrom(flags, st) == st.(args := st.args + KeptOf(OwnKeys(dep), dep.engineArgs))
  {
    OwnKeysLine(dep);
    RenderStartsWithFlag(OwnKeys(dep), dep.engineArgs);
    ParseRendered(OwnKeys(dep), dep.engineArgs, st);
  }

  lemma ServedVllmParses(dep: Dep, port: nat)
    requires Importable(dep)
    ensures ParseFrom([PORT_FLAG, NatText(port)] + Split(EngineFlags(dep)).0, Parsed(map[], [], [], [])) ==
            Parsed(map["port" := Int(port)] + KeptOf(OwnKeys(dep), dep.engineArgs), [], [], [])
  {
    PortItem(port);
    assert "port" in DROPPED;
    OwnFlagsParse(dep, Parsed(map["port" := Int(port)], [], [], []));
    ParsePortItem(port, Split(EngineFlags(dep)).0, Parsed(map[], [], [], []));
  }

  lemma ServedSglangParses(dep: Dep, port: nat)
    requires Importable(dep)
    ensures ParseFrom(["--model-path", dep.modelPath, "--host", "0.0.0.0", PORT_FLAG, NatText(port)]
                      + Split(EngineFlags(dep)).0, Parsed(map[], [], [], [])) ==
            Parsed(HeadArgs(Sglang, dep.modelPath, port) + KeptOf(OwnKeys(dep), dep.engineArgs), [], [], [])
  {
    SglangHead(dep.modelPath, port);
    assert "port" in DROPPED && "host" in DROPPED && "model-path" in DROPPED;
    OwnFlagsParse(dep, Parsed(HeadArgs(Sglang, dep.modelPath, port), [], [], []));
    ParseHead(Sglang, dep.modelPath, port, Split(EngineFlags(dep)).0, Parsed(map[], [], [], []));
  }

  lemma ServedVllm(dep: Dep, port: nat, words: Splitter)
    requires Importable(dep) && EngineOf(dep.engine) == Vllm && 1 <= port <= 65535
    ensures PlainArgs(ReadLine(Container([], ServeArgv(dep, port), dep.image, ""), words).1.args)
    ensures LineDraft(Container([], ServeArgv(dep, port), dep.image, ""), words) ==
            Draft(Vllm, dep.image, dep.modelPath, KeptOf(OwnKeys(dep), dep.engineArgs), DraftExtra(port), port, [])
  {
    var tail := [PORT_FLAG, NatText(port)] + Split(EngineFlags(dep)).0;
    var c := Container([], ServeArgv(dep, port), dep.image, "");
    assert c.command + c.args == ["vllm", "serve", dep.modelPath] + tail;
    DetectsServe(dep.modelPath, tail, dep.image);
    NotWrapped(c, words);
    ServedVllmParses(dep, port);
    OwnKeysNotDropped(dep);
    assert KV_TRANSFER in DROPPED && |KV_TRANSFER| > |"port"|;
    AssembleServed(c, tail, dep.modelPath, port, KeptOf(OwnKeys(dep), dep.engineArgs));
  }

  lemma ServedSglang(dep: Dep, port: nat, words: Splitter)
    requires Importable(dep) && EngineOf(dep.engine) == Sglang && 1 <= port <= 65535
    ensures PlainArgs(ReadLine(Container([], ServeArgv(dep, port), dep.image, ""), words).1.args)
    ensures LineDraft(Container([], ServeArgv(dep, port), dep.image, ""), words) ==
            Draft(Sglang, dep.image, dep.modelPath, KeptOf(OwnKeys(dep), dep.engineArgs), DraftExtra(port), port, [])
  {
    var tail := ["--model-path", dep.modelPath, "--host", "0.0.0.0", PORT_FLAG, NatText(port)]
                + Split(EngineFlags(dep)).0;
    var c := Container([], ServeArgv(dep, port), dep.image, "");
    assert c.command + c.args == Command(Sglang) + tail && (Command(Sglang) + tail)[0] == "python3";
    DetectsSglang(tail, dep.image);
    HeadsAreNoShell();
    NotWrapped(c, words);
    ServedSglangParses(dep, port);
    OwnKeysNotDropped(dep);
    HeadIsDropped(Sglang, dep.modelPath, port, KeptOf(OwnKeys(dep), dep.engineArgs));
    AssembleRecovers(c, tail, Sglang, dep.modelPath, port, KeptOf(OwnKeys(dep), dep.engineArgs), []);
  }

  // The same launch inside a shell script

  lemma StepCarries(ts: seq<string>, st: Parsed, w: seq<Warning>)
    requires ts != []
    ensures var (next, used) := Step(ts, st);
            Step(ts, st.(warnings := w + st.warnings)) == (next.(warnings := w + next.warnings), used)
  {
    if ts[0] != "--" && HasPrefix(ts[0], "--") {
      LongStepCarries(ts, st, w);
    } else if ts[0] != "--" && Dashed(ts[0]) && !IsNumber(ts[0]) {
      NoteCarries(st, ShortFlag(if |ts| > 1 && !Dashed(ts[1]) then ts[0] + " " + ts[1] else ts[0]), w);
    }
  }

  lemma NoteCarries(st: Parsed, x: Warning, w: seq<Warning>)
    ensures Note(st.(warnings := w + st.warnings), x) == Note(st, x).(warnings := w + Note(st, x).warnings)
  {
  }

  lemma StoredCarries(token: string, key: string, norm: string, given: (Value, nat), st: Parsed, w: seq<Warning>)
    ensures var (next, used) := Stored(token, key, norm, given, st);
            Stored(token, key, norm, given, st.(warnings := w + st.warnings)) ==
            (next.(warnings := w + next.warnings), used)
  {
    var mid := Normalized(key, norm, st);
    NoteCarries(st, FlagNormalized(key, norm), w);
    NoteCarries(mid, FlagUnparsed(token), w);
    NoteCarries(mid, DuplicateFlag(norm), w);
  }

  lemma LongStepCarries(ts: seq<string>, st: Parsed, w: seq<Warning>)
    requires ts != [] && HasPrefix(ts[0], "--")
    ensures var (next, used) := LongStep(ts, st);
            LongStep(ts, st.(warnings := w + st.warnings)) == (next.(warnings := w + next.warnings), used)
  {
    var body := ts[0][2..];
    var eq := EqualsAt(body);
    StoredCarries(ts[0], body[..eq], Normalize(body[..eq]), Given(ts, body, eq), st, w);
  }

  /** Earlier warnings are carried along and steer nothing. */
  lemma {:induction false} ParseCarries(ts: seq<string>, st: Parsed, w: seq<Warning>)
    ensures ParseFrom(ts, st.(warnings := w + st.warnings)) ==
            var r := ParseFrom(ts, st); r.(warnings := w + r.warnings)
    decreases |ts|
  {
    if ts != [] {
      var (next, used) := Step(ts, st);
      StepCarries(ts, st, w);
      ParseCarries(ts[used..], next, w);
    }
  }

  /** A launch wrapped in a shell script reads as the bare one does, after what was said about the wrapping. */
  lemma WrappedReadsSame(c: Container, bare: Container, words: Splitter)
    requires c.image == bare.image
    requires Unwrap(c.command + c.args, words).0 == bare.command + bare.args
    requires bare.command + bare.args != [] && (bare.command + bare.args)[0] !in SHELLS
    ensures var (program, parsed) := ReadLine(bare, words);
            ReadLine(c, words) ==
            (program, parsed.(warnings := Unwrap(c.command + c.args, words).1 + parsed.warnings))
  {
    var tokens, w := bare.command + bare.args, Unwrap(c.command + c.args, words).1;
    var program := DetectEngine(tokens, c.image);
    NotWrapped(bare, words);
    ParseCarries(program.flags, Parsed(map[], [], [], program.warnings), w);
  }

  /** A rendered launch starts with neither `exec` nor an assignment. */
  lemma HeadIsLaunch(dep: Dep)
    requires ServingPort(dep).Some?
    ensures var c := ContainerOf(dep).value;
            var launch := c.command + c.args;
            launch != [] && launch[0] != "exec" && !IsAssignment(launch[0])
  {
    var c := ContainerOf(dep).value;
    if EngineOf(dep.engine) == Sglang {
      assert (c.command + c.args)[0] == "python3";
      PythonIsNoAssignment();
    } else {
      assert (c.command + c.args)[0] == "--model" && !IsLetter("--model"[0]);
    }
  }

  lemma PythonIsNoAssignment()
    ensures !IsAssignment("python3")
  {
  }

  // Lines the portal does not render itself

  lemma {:induction false} VersionCharsIff(s: string)
    ensures VersionChars(s) <==> forall i | 0 <= i < |s| :: '0' <= s[i] <= '9' || s[i] == '.'
  {
    if s != "" {
      VersionCharsIff(s[1..]);
      assert forall i | 0 < i < |s| :: s[i] == s[1..][i - 1];
    }
  }

  /** `python`, a version of digits and dots, and perhaps `.exe`. */
  lemma PythonFound(version: string)
    requires forall i | 0 <= i < |version| :: '0' <= version[i] <= '9' || version[i] == '.'
    ensures IsPython("python" + version) && IsPython("python" + version + ".exe")
  {
    VersionCharsIff(version);
    var t, u := "python" + version, "python" + version + ".exe";
    assert t[..6] == "python" && t[6..] == version && u[..6] == "python" && u[6..] == version + ".exe";
    assert Chomp(t) == t by { assert t[|t| - 1] != '\n' by { if version == "" { assert t == "python"; } } }
    assert Chomp(u) == u by { assert u[|u| - 1] == ".exe"[3]; }
  }

  predicate IsModule(e: Engine, name: string) {
    if e == Sglang then name == "sglang.launch_server"
    else name == "vllm.entrypoints.openai.api_server" || name == "vllm.entrypoints.api_server"
  }

  /** A module is started by name, through a Python interpreter, or as a Python module. */
  predicate Starts(prefix: seq<string>, program: string) {
    || prefix == [program]
    || (|prefix| == 2 && IsPython(prefix[0]) && prefix[1] == program)
    || (|prefix| == 3 && IsPython(prefix[0]) && prefix[1] == "-m" && prefix[2] == program)
  }

  lemma StartLength(prefix: seq<string>, program: string, rest: seq<string>)
    requires Starts(prefix, program) && !IsPython(program) && program != "-m"
    ensures PrefixLength(prefix + rest) == |prefix| - 1
    ensures (prefix + rest)[|prefix| - 1] == program && (prefix + rest)[|prefix|..] == rest
  {
    assert (prefix + rest)[0] == prefix[0] && (|prefix| > 1 ==> (prefix + rest)[1] == prefix[1]);
  }

  lemma LongNameIsNoShell(name: string)
    requires |name| > 13
    ensures name !in SHELLS
  {
    assert forall s | s in SHELLS :: |s| <= 13;
  }

  lemma ModuleIsNoPython(e: Engine, name: string)
    requires IsModule(e, name)
    ensures !IsPython(name) && name != "-m" && name !in SHELLS && name != "vllm"
    ensures e == Vllm ==> name != SGLANG_MODULE && name in VLLM_MODULES
    ensures e == Sglang ==> name == SGLANG_MODULE
  {
    assert |name| > 13 && name[0] != 'p' && Chomp(name)[0] == name[0];
    LongNameIsNoShell(name);
    if e == Vllm { assert name[0] == 'v' && SGLANG_MODULE[0] == 's'; }
  }

  lemma DetectsModule(prefix: seq<string>, e: Engine, name: string, args: seq<string>, image: string)
    requires IsModule(e, name) && Starts(prefix, name)
    ensures DetectEngine(prefix + args, image) == Program(e, args, "", [])
  {
    ModuleIsNoPython(e, name);
    StartLength(prefix, name, args);
  }

  lemma StartIsNoShell(prefix: seq<string>, program: string)
    requires Starts(prefix, program) && program !in SHELLS
    ensures prefix[0] !in SHELLS
  {
    if |prefix| > 1 {
      assert Chomp(prefix[0])[0] == 'p' && prefix[0][0] == 'p';
      assert forall s | s in SHELLS :: s[0] != 'p';
    }
  }

  /** Any other program: its flags are read all the same, the engine is guessed from the image, and what was
      skipped is named. */
  lemma DetectsUnknown(prefix: seq<string>, program: string, args: seq<string>, image: string)
    requires Starts(prefix, program) && !IsPython(program) && program != "" && program[0] != '-'
    requires program != "vllm" && forall e: Engine :: !IsModule(e, program)
    ensures DetectEngine(prefix + args, image) ==
            Program(if Contains(Lower(image), "sglang") then Sglang else Vllm, args, "", [CommandUnrecognized(prefix)])
  {
    assert !IsModule(Sglang, program) && !IsModule(Vllm, program);
    StartLength(prefix, program, args);
    assert (prefix + args)[..|prefix|] == prefix && (prefix + args)[0] == prefix[0];
    assert |prefix| == 1 ==> !Dashed(prefix[0]);
  }

  /** The `vllm` program: with `serve` it is known, and a model may follow; without, it is remarked on. */
  lemma DetectsVllm(prefix: seq<string>, args: seq<string>, image: string)
    requires Starts(prefix, "vllm")
    ensures DetectEngine(prefix + args, image) ==
            if args == [] || args[0] != "serve" then Program(Vllm, args, "", [CommandUnrecognized(prefix + args)])
            else if |args| > 1 && (args[1] == "" || args[1][0] != '-') then Program(Vllm, args[2..], args[1], [])
            else Program(Vllm, args[1..], "", [])
  {
    assert !IsPython("vllm") by { assert Chomp("vllm")[0] == 'v'; }
    assert |"vllm"| == 4 && |SGLANG_MODULE| > 4 && forall m | m in VLLM_MODULES :: |m| > 4;
    StartLength(prefix, "vllm", args);
    assert args != [] ==> args[1..] == args[1..] && args[0] == (prefix + args)[|prefix|];
    if |args| > 1 { assert args[1..][0] == args[1] && args[1..][1..] == args[2..]; }
  }

  /** A Python interpreter with nothing to run. */
  lemma DetectsPythonAlone(tokens: seq<string>, image: string)
    requires tokens != [] && IsPython(tokens[0]) && (|tokens| == 1 || (|tokens| == 2 && tokens[1] == "-m"))
    ensures DetectEngine(tokens, image) ==
            Program(if Contains(Lower(image), "sglang") then Sglang else Vllm, [], "", [CommandUnrecognized(tokens)])
  {
    assert tokens[..|tokens|] == tokens && tokens[|tokens|..] == [];
  }

  /** Flags alone: the image runs the server, and its name says which, or nothing does and that is remarked on. */
  lemma DetectsBare(args: seq<string>, image: string)
    requires args == [] || (args[0] != "" && args[0][0] == '-')
    ensures DetectEngine(args, image) ==
            Program(if Contains(Lower(image), "sglang") then Sglang else Vllm, args, "",
                    if Contains(Lower(image), "sglang") || Contains(Lower(image), "vllm") then []
                    else [EngineFromDefault(image)])
  {
  }
}
