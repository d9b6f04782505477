/** A running container turned into a recipe draft: what its command line makes of it, and the proof that
    a rendered command line is recovered. */
module RecipeDraft {
  import opened Wrappers
  import opened Text
  import opened ServingEngines
  import opened RecipeImport
  import opened ShellScript

  /** The live container; `role` is the pod's prefill/decode label. */
  datatype Container = Container(command: seq<string>, args: seq<string>, image: string, role: string)

  /** The rest of the pod, as far as it is remarked on. `said` are the remarks about resources, env, volumes
      and probes. */
  datatype Pod = Pod(
    said: seq<Warning>, containers: nat, initContainers: seq<string>, affinity: bool, ports: seq<nat>)

  datatype Live = Live(container: Container, pod: Pod)

  /** A text as JSON: none; a falsy value; an object; or any other, which has no keys to look up. */
  datatype JsonKind = NotJson | Empty | Object | Other

  /** The library's readers: shell words and JSON. */
  datatype Syntax = Syntax(words: Splitter, json: string -> JsonKind)

  datatype Draft = Draft(
    engine: Engine, image: string, modelPath: string, engineArgs: map<string, Value>,
    extraArgs: seq<string>, servingPort: nat, warnings: seq<Warning>)

  const VLLM_MODULES := {"vllm.entrypoints.openai.api_server", "vllm.entrypoints.api_server"}
  const SGLANG_MODULE := "sglang.launch_server"

  predicate VersionChars(s: string) {
    s == "" || ((IsDigit(s[0]) || s[0] == '.') && VersionChars(s[1..]))
  }

  predicate IsPython(token: string) {
    var t := Chomp(token);
    && HasPrefix(t, "python")
    && (var rest := t[6..];
        VersionChars(rest)
        || (|rest| >= 4 && rest[|rest| - 4..] == ".exe" && VersionChars(rest[..|rest| - 4])))
  }

  function EngineOfImage(image: string): Engine {
    if Contains(Lower(image), "sglang") then Sglang else Vllm
  }

  function ImageWarnings(image: string): seq<Warning> {
    if Contains(Lower(image), "sglang") || Contains(Lower(image), "vllm") then [] else [EngineFromDefault(image)]
  }

  datatype Program = Program(engine: Engine, flags: seq<string>, positional: string, warnings: seq<Warning>)

  function PrefixLength(tokens: seq<string>): (i: nat)
    ensures i <= |tokens|
  {
    if tokens == [] || !IsPython(tokens[0]) then 0
    else if |tokens| > 1 && tokens[1] == "-m" then 2 else 1
  }

  /** `_detect_engine`; an empty positional stands for none. */
  function DetectEngine(tokens: seq<string>, image: string): Program {
    var i := PrefixLength(tokens);
    if i < |tokens| && tokens[i] == SGLANG_MODULE then Program(Sglang, tokens[i + 1..], "", [])
    else if i < |tokens| && tokens[i] in VLLM_MODULES then Program(Vllm, tokens[i + 1..], "", [])
    else if i < |tokens| && tokens[i] == "vllm" then
      var rest := tokens[i + 1..];
      if rest == [] || rest[0] != "serve" then Program(Vllm, rest, "", [CommandUnrecognized(tokens)])
      else if |rest| > 1 && !Dashed(rest[1]) then Program(Vllm, rest[2..], rest[1], [])
      else Program(Vllm, rest[1..], "", [])
    else if i == 0 && (tokens == [] || Dashed(tokens[0])) then
      Program(EngineOfImage(image), tokens, "", ImageWarnings(image))
    else
      var cut := if i < |tokens| then i + 1 else i;
      Program(EngineOfImage(image), tokens[cut..], "", [CommandUnrecognized(tokens[..cut])])
  }

  function Lookup(args: map<string, Value>, key: string): Option<Value> {
    if key in args then Some(args[key]) else None
  }

  /** `_take_model_path`: the model, and the warnings about it. */
  function TakeModelPath(engine: Engine, args: map<string, Value>, positional: string): (string, seq<Warning>) {
    var flag := if engine == Sglang then "model-path" else "model";
    var other := if engine == Sglang then "model" else "model-path";
    var renamed := flag !in args && other in args;
    var value := if renamed then Lookup(args, other) else Lookup(args, flag);
    var noted := if renamed then [FlagNormalized(other, flag)] else [];
    if value.None? && positional != "" then (positional, noted)
    else
      var clash := positional != "" && value.Some? && ValueText(value.value) != positional;
      var noted := noted + (if clash then [DuplicateFlag(flag)] else []);
      if value.None? || value.value == Bool(true) then ("", noted + [ModelPathMissing])
      else (ValueText(value.value), noted)
  }

  const DROPPED := {"model", "model-path", "kv-transfer-config", "port", "host"}

  function IsPd(c: Container, args: map<string, Value>): bool {
    "kv-transfer-config" in args || c.role != ""
  }

  /** The port of the draft: the default unless the line names another usable one. */
  function DraftPort(pd: bool, port: Option<Value>): nat {
    if port.None? || pd then SERVING_PORT
    else if ValueText(port.value) == NatText(SERVING_PORT) then SERVING_PORT
    else if ParsePort(ValueText(port.value)).Some? then ParsePort(ValueText(port.value)).value
    else SERVING_PORT
  }

  function PortWarnings(pd: bool, port: Option<Value>): seq<Warning> {
    if port.Some? && ValueText(port.value) != NatText(SERVING_PORT)
       && (pd || ParsePort(ValueText(port.value)).None?)
    then [PortChanged(ValueText(port.value))] else []
  }

  /** The draft names its port in the extra args when the line's port is not the default. */
  function PortLine(pd: bool, port: Option<Value>): seq<string> {
    if port.Some? && !pd && ValueText(port.value) != NatText(SERVING_PORT) && ParsePort(ValueText(port.value)).Some?
    then [PORT_INLINE + NatText(ParsePort(ValueText(port.value)).value)] else []
  }

  /** The program and the flags of the container's command line. */
  function ReadLine(c: Container, words: Splitter): (Program, Parsed) {
    var (tokens, noted) := Unwrap(c.command + c.args, words);
    var program := DetectEngine(tokens, c.image);
    (program, ParseFrom(program.flags, Parsed(map[], [], [], noted + program.warnings)))
  }

  /** What the command line makes of the draft. */
  function LineDraft(c: Container, words: Splitter): Draft {
    Assemble(c, ReadLine(c, words).0, ReadLine(c, words).1)
  }

  function Assemble(c: Container, program: Program, parsed: Parsed): Draft {
    var (model, noted) := TakeModelPath(program.engine, parsed.args, program.positional);
    var pd := IsPd(c, parsed.args);
    var port := Lookup(parsed.args, "port");
    Draft(program.engine, c.image, model, parsed.args - DROPPED, parsed.extra + PortLine(pd, port),
          DraftPort(pd, port), parsed.warnings + Remarks(noted, parsed.positionals, pd, port))
  }

  /** What is said after the flags: about the model, leftovers, prefill/decode and the port. */
  function Remarks(model: seq<Warning>, positionals: seq<string>, pd: bool, port: Option<Value>): seq<Warning> {
    model + (if positionals == [] then [] else [PositionalDropped(positionals)])
    + (if pd then [PdDetected] else []) + PortWarnings(pd, port)
  }

  const KV_TRANSFER := "kv-transfer-config"

  /** The prefill/decode role can be looked up: it is on a label, there is no transfer config to look in, or
      that is no JSON at all, falsy or an object. */
  predicate RoleReadable(c: Container, args: map<string, Value>, json: string -> JsonKind) {
    c.role != "" || KV_TRANSFER !in args || !json(ValueText(args[KV_TRANSFER])).Other?
  }

  /** The server's port replaces the one the pod names. */
  function StrayPort(pod: Pod, named: bool, servingPort: nat): seq<Warning> {
    if pod.ports != [] && servingPort !in pod.ports && !named then [PortChanged(NatText(pod.ports[0]))] else []
  }

  function PodWarnings(pod: Pod, image: string, stray: seq<Warning>): seq<Warning> {
    pod.said + Remark(pod.containers > 1, MultiContainer(pod.containers))
    + Remark(pod.initContainers != [], InitContainers(pod.initContainers))
    + Remark(pod.affinity, AffinityDropped) + stray + Remark(image == "", ImageMissing)
  }

  function Remark(cond: bool, w: Warning): seq<Warning> { if cond then [w] else [] }

  function Finish(live: Live, json: string -> JsonKind, program: Program, parsed: Parsed): Option<Draft> {
    if !RoleReadable(live.container, parsed.args, json) then None
    else
      var d := Assemble(live.container, program, parsed);
      var stray := StrayPort(live.pod, "port" in parsed.args, d.servingPort);
      Some(d.(warnings := d.warnings + PodWarnings(live.pod, d.image, stray)))
  }

  /** None: the import ends with an exception. */
  function DraftOf(live: Live, syntax: Syntax): Option<Draft> {
    var (program, parsed) := ReadLine(live.container, syntax.words);
    Finish(live, syntax.json, program, parsed)
  }

  method BuildRecipeDraft(live: Live, syntax: Syntax) returns (draft: Option<Draft>)
    ensures draft == DraftOf(live, syntax)
  {
    var c := live.container;
    var tokens, noted := UnwrapShell(c.command, c.args, syntax.words);
    var program := DetectEngine(tokens, c.image);
    var engineArgs, extra, positionals, warnings := ParseFlags(program.flags, noted + program.warnings);
    draft := FillDraft(live, syntax.json, program, engineArgs, extra, positionals, warnings);
  }

  method PlacePort(pd: bool, port: Option<Value>, extras: seq<string>, noted: seq<Warning>)
    returns (servingPort: nat, extra: seq<string>, warnings: seq<Warning>)
    ensures servingPort == DraftPort(pd, port)
    ensures extra == extras + PortLine(pd, port) && warnings == noted + PortWarnings(pd, port)
  {
    servingPort, extra, warnings := SERVING_PORT, extras, noted;
    if port.Some? && ValueText(port.value) != NatText(SERVING_PORT) {
      var parsed := ParsePort(ValueText(port.value));
      if !pd && parsed.Some? {
        servingPort := parsed.value;
        extra := extra + [PORT_INLINE + NatText(servingPort)];
      } else {
        warnings := warnings + [PortChanged(ValueText(port.value))];
      }
    }
  }

  lemma DroppedInTurn(args: map<string, Value>)
    ensures var rest := args - {"model", "model-path"};
            && Lookup(rest, KV_TRANSFER) == Lookup(args, KV_TRANSFER)
            && Lookup(rest - {KV_TRANSFER}, "port") == Lookup(args, "port")
            && rest - {KV_TRANSFER} - {"port"} - {"host"} == args - DROPPED
  {
  }

  lemma RemarksInTurn(noted: seq<Warning>, model: seq<Warning>, positionals: seq<string>, pd: bool, port: Option<Value>,
                      warnings: seq<Warning>)
    requires var left := if positionals == [] then noted + model else noted + model + [PositionalDropped(positionals)];
             warnings == if pd then left + [PdDetected] else left
    ensures warnings + PortWarnings(pd, port) == noted + Remarks(model, positionals, pd, port)
  {
  }

  /** What the entry point does once the flags are read. */
  method FillDraft(live: Live, json: string -> JsonKind, program: Program, args: map<string, Value>,
                   extras: seq<string>, positionals: seq<string>, noted: seq<Warning>)
    returns (draft: Option<Draft>)
    ensures draft == Finish(live, json, program, Parsed(args, extras, positionals, noted))
  {
    var c, engineArgs, extra, warnings := live.container, args, extras, noted;
    DroppedInTurn(args);
    var (model, modelWarnings) := TakeModelPath(program.engine, engineArgs, program.positional);
    warnings := warnings + modelWarnings;
    engineArgs := engineArgs - {"model", "model-path"};
    if positionals != [] {
      warnings := warnings + [PositionalDropped(positionals)];
    }
    var kv := Lookup(engineArgs, KV_TRANSFER);
    engineArgs := engineArgs - {KV_TRANSFER};
    if kv.Some? && c.role == "" && json(ValueText(kv.value)).Other? {
      return None;
    }
    var pd := kv.Some? || c.role != "";
    if pd {
      warnings := warnings + [PdDetected];
    }
    var port := Lookup(engineArgs, "port");
    engineArgs := engineArgs - {"port"};
    RemarksInTurn(noted, modelWarnings, positionals, pd, port, warnings);
    var servingPort;
    servingPort, extra, warnings := PlacePort(pd, port, extra, warnings);
    engineArgs := engineArgs - {"host"};
    warnings := RemarkOnPod(live, port.Some?, servingPort, warnings);
    draft := Some(Draft(program.engine, c.image, model, engineArgs, extra, servingPort, warnings));
  }

  method RemarkOnPod(live: Live, named: bool, servingPort: nat, noted: seq<Warning>) returns (warnings: seq<Warning>)
    ensures warnings == noted + PodWarnings(live.pod, live.container.image, StrayPort(live.pod, named, servingPort))
  {
    var pod := live.pod;
    var said := pod.said + Remark(pod.containers > 1, MultiContainer(pod.containers));
    said := said + Remark(pod.initContainers != [], InitContainers(pod.initContainers));
    said := said + Remark(pod.affinity, AffinityDropped);
    var stray: seq<Warning> := [];
    if pod.ports != [] && servingPort !in pod.ports && !named {
      stray := [PortChanged(NatText(pod.ports[0]))];
    }
    said := said + stray + Remark(live.container.image == "", ImageMissing);
    warnings := noted + said;
  }

  // The model, the port and the role, case by case

  /** The model comes from the engine's own flag, else from the other engine's, else from the positional; a bare flag
      names none. Each thing that is not as it should be is remarked on. */
  lemma ModelTaken(engine: Engine, args: map<string, Value>, positional: string)
    ensures var own, other := if engine == Sglang then "model-path" else "model", if engine == Sglang then "model" else "model-path";
            var (model, noted) := TakeModelPath(engine, args, positional);
            var given := own in args || other in args;
            var value := if own in args then args[own] else if other in args then args[other] else Null;
            && model == (if given then (if value == Bool(true) then "" else ValueText(value)) else positional)
            && (FlagNormalized(other, own) in noted <==> own !in args && other in args)
            && (DuplicateFlag(own) in noted <==> given && positional != "" && ValueText(value) != positional)
            && (ModelPathMissing in noted <==> if given then value == Bool(true) else positional == "")
  {
  }

  /** The draft's port is the line's, if that is a number in range and no prefill/decode pool's; it is named in the
      extra args unless it is the default, and a port not taken over is remarked on unless it is the default. */
  lemma PortTaken(pd: bool, port: Option<Value>)
    ensures var text := if port.Some? then ValueText(port.value) else NatText(SERVING_PORT);
            var taken := !pd && ParsePort(text).Some?;
            && DraftPort(pd, port) == (if text == "8000" || !taken then 8000 else ParsePort(text).value)
            && PortLine(pd, port) ==
               (if text != "8000" && taken then ["--port=" + NatText(ParsePort(text).value)] else [])
            && PortWarnings(pd, port) == (if text != "8000" && !taken then [PortChanged(text)] else [])
  {
    DefaultPortText();
  }

  lemma DefaultPortText()
    ensures NatText(SERVING_PORT) == "8000"
  {
    assert NatText(8) == "8" && NatText(80) == "80" && NatText(800) == "800";
  }

  /** Every draft drops the flags the portal sets itself, keeps all others, and says whether it was of a pool. */
  lemma AssembledIs(c: Container, program: Program, parsed: Parsed)
    ensures var d, pd := Assemble(c, program, parsed), "kv-transfer-config" in parsed.args || c.role != "";
            && d.engine == program.engine && d.image == c.image
            && (forall k :: k in d.engineArgs <==>
                  k in parsed.args && k != "model" && k != "model-path" && k != "kv-transfer-config" && k != "port" && k != "host")
            && (forall k | k in d.engineArgs :: d.engineArgs[k] == parsed.args[k])
            && parsed.extra <= d.extraArgs && parsed.warnings <= d.warnings
            && (pd ==> PdDetected in d.warnings && d.servingPort == SERVING_PORT && d.extraArgs == parsed.extra)
            && (parsed.positionals != [] ==> PositionalDropped(parsed.positionals) in d.warnings)
  {
  }

  /** There is a draft unless the role has to be looked up in a transfer config that cannot be looked into; it is the
      line's, with the pod's remarks after its own: extra and init containers, affinity, a named port that the serving
      does not use while the line sets none, and a missing image. */
  lemma PodRemarked(live: Live, json: string -> JsonKind, program: Program, parsed: Parsed)
    ensures var c, pod, args, draft := live.container, live.pod, parsed.args, Finish(live, json, program, parsed);
            var line := Assemble(c, program, parsed);
            && (draft.None? <==>
                  c.role == "" && "kv-transfer-config" in args && json(ValueText(args["kv-transfer-config"])).Other?)
            && (draft.Some? ==>
                  draft.value == line.(warnings := line.warnings
                    + (pod.said + (if pod.containers > 1 then [MultiContainer(pod.containers)] else [])
                       + (if pod.initContainers != [] then [InitContainers(pod.initContainers)] else [])
                       + (if pod.affinity then [AffinityDropped] else [])
                       + (if pod.ports != [] && line.servingPort !in pod.ports && "port" !in args
                          then [PortChanged(NatText(pod.ports[0]))] else [])
                       + (if c.image == "" then [ImageMissing] else []))))
  {
  }
}
