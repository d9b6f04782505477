/** Export and import undo each other: servings that come back from the cluster as they went out. */
module RecipeRoundTrip {
  import opened Wrappers
  import opened Text
  import opened ServingEngines
  import opened RecipeImport
  import opened ShellScript
  import opened RecipeDraft
  import opened RenderedLines

  /** There is a draft exactly if the prefill/decode role can be looked up: a transfer config that is JSON but
      no object, on a pod without a role label, ends the import with an exception. */
  lemma DraftExistsIff(live: Live, syntax: Syntax)
    ensures var args := ReadLine(live.container, syntax.words).1.args;
            DraftOf(live, syntax).Some? <==>
            live.container.role != "" || KV_TRANSFER !in args
            || syntax.json(ValueText(args[KV_TRANSFER])) in {NotJson, Empty, Object}
  {
  }

  function WithPod(d: Draft, pod: Pod): Draft {
    d.(warnings := d.warnings + PodWarnings(pod, d.image, []))
  }

  lemma PlainDraft(live: Live, syntax: Syntax)
    requires PlainArgs(ReadLine(live.container, syntax.words).1.args)
    ensures DraftOf(live, syntax) == Some(WithPod(LineDraft(live.container, syntax.words), live.pod))
  {
  }

  /** The serving as it runs in the cluster. */
  function Rendered(dep: Dep, pod: Pod): Live
    requires ServingPort(dep).Some?
  {
    Live(ContainerOf(dep).value, pod)
  }

  /** Importing a rendered serving recovers engine, image, model, own args and port, the engine of a vLLM line
      from the image. Nothing is remarked on but an image that names no engine or is missing, and the pod. */
  lemma ImportRecovers(dep: Dep, pod: Pod, syntax: Syntax)
    requires Importable(dep)
    requires EngineOf(dep.engine) == Vllm ==> EngineOfImage(dep.image) == Vllm
    ensures var port := ServingPort(dep).value;
            var e := EngineOf(dep.engine);
            DraftOf(Rendered(dep, pod), syntax) ==
            Some(WithPod(Draft(e, dep.image, dep.modelPath, KeptOf(OwnKeys(dep), dep.engineArgs), DraftExtra(port), port,
                               if e == Sglang then [] else ImageWarnings(dep.image)), pod))
  {
    LineRecovers(dep, syntax.words);
    PlainDraft(Rendered(dep, pod), syntax);
  }

  /** A draft whose args, port and model are those of the serving launches as the serving does. */
  lemma RecoveredLaunches(dep: Dep, d: Draft)
    requires Importable(dep)
    requires d.engine == EngineOf(dep.engine) && d.modelPath == dep.modelPath
    requires d.engineArgs == KeptOf(OwnKeys(dep), dep.engineArgs) && d.extraArgs == DraftExtra(ServingPort(dep).value)
    ensures ContainerLaunch(DepOf(d)) == ContainerLaunch(dep) && ServingPort(DepOf(d)) == ServingPort(dep)
  {
    OwnKeysLine(dep);
    RenderKeptOf(OwnKeys(dep), dep.engineArgs);
    LaunchItems(dep);
    DraftLaunch(DepOf(d), ServingPort(dep).value);
  }

  /** Export, import, export: the launch line is the one we started from. */
  lemma ExportImportExport(dep: Dep, pod: Pod, syntax: Syntax)
    requires Importable(dep)
    requires EngineOf(dep.engine) == Vllm ==> EngineOfImage(dep.image) == Vllm
    ensures var draft := DraftOf(Rendered(dep, pod), syntax);
            && draft.Some?
            && ContainerLaunch(DepOf(draft.value)) == ContainerLaunch(dep)
            && ServingPort(DepOf(draft.value)) == ServingPort(dep)
  {
    ImportRecovers(dep, pod, syntax);
    RecoveredLaunches(dep, DraftOf(Rendered(dep, pod), syntax).value);
  }

  /** The engine of a rendered line comes back exactly when a vLLM image does not mention SGLang. */
  lemma EngineRecovered(dep: Dep, pod: Pod, syntax: Syntax)
    requires ServingPort(dep).Some?
    ensures var draft := DraftOf(Rendered(dep, pod), syntax);
            draft.Some? ==>
              (draft.value.engine == EngineOf(dep.engine)
               <==> EngineOf(dep.engine) == Sglang || !Contains(Lower(dep.image), "sglang"))
  {
    BareLine(ContainerOf(dep).value, dep, syntax.words);
  }

  /** Importing the line of a benchmark job's own server recovers the engine whatever the image is called, and
      everything else. */
  lemma ServeArgvImports(dep: Dep, port: nat, pod: Pod, syntax: Syntax)
    requires Importable(dep) && 1 <= port <= 65535
    ensures DraftOf(Live(Container([], ServeArgv(dep, port), dep.image, ""), pod), syntax) ==
            Some(WithPod(Draft(EngineOf(dep.engine), dep.image, dep.modelPath, KeptOf(OwnKeys(dep), dep.engineArgs),
                               DraftExtra(port), port, []), pod))
  {
    if EngineOf(dep.engine) == Sglang {
      ServedSglang(dep, port, syntax.words);
    } else {
      ServedVllm(dep, port, syntax.words);
    }
    PlainDraft(Live(Container([], ServeArgv(dep, port), dep.image, ""), pod), syntax);
  }

  /** A draft with earlier warnings in front. */
  function After(w: seq<Warning>, draft: Option<Draft>): Option<Draft> {
    if draft.None? then None else Some(draft.value.(warnings := w + draft.value.warnings))
  }

  lemma FinishCarries(live: Live, json: string -> JsonKind, program: Program, parsed: Parsed, w: seq<Warning>)
    ensures Finish(live, json, program, parsed.(warnings := w + parsed.warnings)) ==
            After(w, Finish(live, json, program, parsed))
  {
    var (model, noted) := TakeModelPath(program.engine, parsed.args, program.positional);
    var d := Assemble(live.container, program, parsed);
    var said := Remarks(noted, parsed.positionals, IsPd(live.container, parsed.args), Lookup(parsed.args, "port"));
    var pod := PodWarnings(live.pod, d.image, StrayPort(live.pod, "port" in parsed.args, d.servingPort));
    assert w + parsed.warnings + said + pod == w + (parsed.warnings + said + pod);
  }

  /** A launch wrapped in a shell script imports as the bare one does, and says what was cut off. */
  lemma WrappedImportsSame(c: Container, bare: Container, pod: Pod, syntax: Syntax)
    requires c.image == bare.image && c.role == bare.role
    requires Unwrap(c.command + c.args, syntax.words).0 == bare.command + bare.args
    requires bare.command + bare.args != [] && (bare.command + bare.args)[0] !in SHELLS
    ensures DraftOf(Live(c, pod), syntax) ==
            After(Unwrap(c.command + c.args, syntax.words).1, DraftOf(Live(bare, pod), syntax))
  {
    var w := Unwrap(c.command + c.args, syntax.words).1;
    var (program, parsed) := ReadLine(bare, syntax.words);
    WrappedReadsSame(c, bare, syntax.words);
    FinishCarries(Live(bare, pod), syntax.json, program, parsed, w);
    SameFinish(c, bare, pod, syntax.json, program, parsed.(warnings := w + parsed.warnings));
  }

  /** The command line counts only through what was read from it. */
  lemma SameFinish(c: Container, bare: Container, pod: Pod, json: string -> JsonKind, program: Program, parsed: Parsed)
    requires c.image == bare.image && c.role == bare.role
    ensures Finish(Live(c, pod), json, program, parsed) == Finish(Live(bare, pod), json, program, parsed)
  {
  }

  lemma WrappedDraft(dep: Dep, shell: string, front: string, sep: string, last: string, exec: bool,
                     env: seq<string>, pod: Pod, syntax: Syntax)
    requires ServingPort(dep).Some?
    requires shell in SHELLS && Parts(front, sep) && OneCommand(last) && Strip(last) != "" && AllAssignments(env)
    requires var c := ContainerOf(dep).value;
             syntax.words(Strip(last)) == Some(Prefixed(exec, env, c.command + c.args))
    ensures DraftOf(Live(Container([shell, "-c"], [front + sep + last], dep.image, ""), pod), syntax) ==
            After(Truncated(Segments(Pieces(front))) + Dropped(env) + [ShellWrapper(Strip(last))],
                  DraftOf(Rendered(dep, pod), syntax))
  {
    var c := ContainerOf(dep).value;
    var wrapped := Container([shell, "-c"], [front + sep + last], dep.image, "");
    assert wrapped.command + wrapped.args == [shell, "-c", front + sep + last];
    DetectsRendered(dep);
    HeadIsLaunch(dep);
    LaunchFound(shell, front, sep, last, syntax.words, exec, env, c.command + c.args);
    WrappedImportsSame(wrapped, c, pod, syntax);
  }

  /** Export, wrap as the last command of a script, import: the serving that deploys is still the same, and
      exactly the wrapping is remarked on besides. */
  lemma WrappedExportImport(dep: Dep, shell: string, front: string, sep: string, last: string, exec: bool,
                            env: seq<string>, pod: Pod, syntax: Syntax)
    requires Importable(dep)
    requires EngineOf(dep.engine) == Vllm ==> EngineOfImage(dep.image) == Vllm
    requires shell in SHELLS && Parts(front, sep) && OneCommand(last) && Strip(last) != "" && AllAssignments(env)
    requires var c := ContainerOf(dep).value;
             syntax.words(Strip(last)) == Some(Prefixed(exec, env, c.command + c.args))
    ensures var wrapped := Live(Container([shell, "-c"], [front + sep + last], dep.image, ""), pod);
            var draft := DraftOf(wrapped, syntax);
            && draft == After(Truncated(Segments(Pieces(front))) + Dropped(env) + [ShellWrapper(Strip(last))],
                              DraftOf(Rendered(dep, pod), syntax))
            && draft.Some?
            && ContainerLaunch(DepOf(draft.value)) == ContainerLaunch(dep)
            && ServingPort(DepOf(draft.value)) == ServingPort(dep)
  {
    WrappedDraft(dep, shell, front, sep, last, exec, env, pod, syntax);
    ExportImportExport(dep, pod, syntax);
    var bare := DraftOf(Rendered(dep, pod), syntax).value;
    var draft := DraftOf(Live(Container([shell, "-c"], [front + sep + last], dep.image, ""), pod), syntax).value;
    assert DepOf(draft) == DepOf(bare);
  }

  // Launches written otherwise

  /** The flags of a rendered launch, behind any program that leaves them to the engine's own parser. */
  lemma FlagsImport(dep: Dep, c: Container, warnings: seq<Warning>, pod: Pod, syntax: Syntax)
    requires Importable(dep) && c.role == ""
    requires c.command + c.args != [] && (c.command + c.args)[0] !in SHELLS
    requires DetectEngine(c.command + c.args, c.image) ==
             Program(EngineOf(dep.engine), ContainerLaunch(dep).value.args, "", warnings)
    ensures DraftOf(Live(c, pod), syntax) ==
            Some(WithPod(Draft(EngineOf(dep.engine), c.image, dep.modelPath, KeptOf(OwnKeys(dep), dep.engineArgs),
                               DraftExtra(ServingPort(dep).value), ServingPort(dep).value, warnings), pod))
  {
    var e, port, own := EngineOf(dep.engine), ServingPort(dep).value, KeptOf(OwnKeys(dep), dep.engineArgs);
    NotWrapped(c, syntax.words);
    ParseLaunch(dep, warnings);
    OwnKeysNotDropped(dep);
    HeadIsDropped(e, dep.modelPath, port, own);
    AssembleRecovers(c, ContainerLaunch(dep).value.args, e, dep.modelPath, port, own, warnings);
    PlainDraft(Live(c, pod), syntax);
  }

  /** A launch through the engine's Python module: by name, through any Python, or with `-m`. Engine, model, args and
      port come back whatever the image is called, and nothing is remarked on. */
  lemma ModuleImports(dep: Dep, prefix: seq<string>, name: string, c: Container, pod: Pod, syntax: Syntax)
    requires Importable(dep) && c.role == "" && IsModule(EngineOf(dep.engine), name) && Starts(prefix, name)
    requires c.command + c.args == prefix + ContainerLaunch(dep).value.args
    ensures DraftOf(Live(c, pod), syntax) ==
            Some(WithPod(Draft(EngineOf(dep.engine), c.image, dep.modelPath, KeptOf(OwnKeys(dep), dep.engineArgs),
                               DraftExtra(ServingPort(dep).value), ServingPort(dep).value, []), pod))
  {
    DetectsModule(prefix, EngineOf(dep.engine), name, ContainerLaunch(dep).value.args, c.image);
    ModuleIsNoPython(EngineOf(dep.engine), name);
    StartIsNoShell(prefix, name);
    assert (c.command + c.args)[0] == prefix[0];
    FlagsImport(dep, c, [], pod, syntax);
  }

  lemma StartOfVllm(tokens: seq<string>, py: string, name: string, args: seq<string>) returns (prefix: seq<string>)
    requires IsPython(py) && tokens in {[name] + args, [py, name] + args, [py, "-m", name] + args}
    ensures Starts(prefix, name) && tokens == prefix + args
  {
    prefix := if tokens == [name] + args then [name] else if tokens == [py, name] + args then [py, name] else [py, "-m", name];
  }

  lemma NothingSaid(d: Draft, pod: Pod)
    requires d.warnings == []
    ensures WithPod(d, pod).warnings == PodWarnings(pod, d.image, []) && DepOf(WithPod(d, pod)) == DepOf(d)
  {
  }

  /** The vLLM case, with every word written out. */
  lemma VllmModuleImports(dep: Dep, py: string, name: string, c: Container, pod: Pod, syntax: Syntax)
    requires Importable(dep) && EngineOf(dep.engine) == Vllm && c.role == "" && IsPython(py)
    requires name == "vllm.entrypoints.openai.api_server" || name == "vllm.entrypoints.api_server"
    requires var args := ContainerLaunch(dep).value.args;
             c.command + c.args in {[name] + args, [py, name] + args, [py, "-m", name] + args}
    ensures DraftOf(Live(c, pod), syntax).Some?
    ensures var d := DraftOf(Live(c, pod), syntax).value;
            && d.engine == Vllm && d.image == c.image && d.modelPath == dep.modelPath
            && d.engineArgs == KeptOf(OwnKeys(dep), dep.engineArgs) && d.servingPort == ServingPort(dep).value
            && d.warnings == PodWarnings(pod, c.image, [])
            && ContainerLaunch(DepOf(d)) == ContainerLaunch(dep)
  {
    var prefix := StartOfVllm(c.command + c.args, py, name, ContainerLaunch(dep).value.args);
    var own := Draft(Vllm, c.image, dep.modelPath, KeptOf(OwnKeys(dep), dep.engineArgs),
                     DraftExtra(ServingPort(dep).value), ServingPort(dep).value, []);
    ModuleImports(dep, prefix, name, c, pod, syntax);
    NothingSaid(own, pod);
    RecoveredLaunches(dep, own);
  }

  /** A launch through a program the importer does not know: the engine is the image's, and if that is the right
      one everything else comes back, with a remark that names what was skipped. */
  lemma UnknownProgramImports(dep: Dep, prefix: seq<string>, program: string, c: Container, pod: Pod, syntax: Syntax)
    requires Importable(dep) && c.role == "" && Starts(prefix, program) && program !in SHELLS
    requires !IsPython(program) && program != "" && program[0] != '-' && program != "vllm"
    requires forall e: Engine :: !IsModule(e, program)
    requires c.command + c.args == prefix + ContainerLaunch(dep).value.args
    ensures DetectEngine(c.command + c.args, c.image).engine ==
            if Contains(Lower(c.image), "sglang") then Sglang else Vllm
    ensures EngineOf(dep.engine) == (if Contains(Lower(c.image), "sglang") then Sglang else Vllm) ==>
              DraftOf(Live(c, pod), syntax) ==
              Some(WithPod(Draft(EngineOf(dep.engine), c.image, dep.modelPath, KeptOf(OwnKeys(dep), dep.engineArgs),
                                 DraftExtra(ServingPort(dep).value), ServingPort(dep).value,
                                 [CommandUnrecognized(prefix)]), pod))
  {
    DetectsUnknown(prefix, program, ContainerLaunch(dep).value.args, c.image);
    StartIsNoShell(prefix, program);
    assert (c.command + c.args)[0] == prefix[0];
    if EngineOf(dep.engine) == if Contains(Lower(c.image), "sglang") then Sglang else Vllm {
      FlagsImport(dep, c, [CommandUnrecognized(prefix)], pod, syntax);
    }
  }

  lemma RenderedHead(dep: Dep)
    requires ServingPort(dep).Some? && EngineOf(dep.engine) == Vllm
    ensures var args := ContainerLaunch(dep).value.args;
            args != [] && args[0] != "" && args[0][0] == '-' && args[0] != "serve"
  {
    assert ContainerLaunch(dep).value.args[0] == "--model";
    assert "serve"[0] == 's';
  }

  lemma VllmIsNoShell(prefix: seq<string>, rest: seq<string>)
    requires Starts(prefix, "vllm")
    ensures prefix + rest != [] && (prefix + rest)[0] !in SHELLS
  {
    assert "vllm" !in SHELLS by { assert forall s | s in SHELLS :: s[0] != 'v'; }
    StartIsNoShell(prefix, "vllm");
    assert (prefix + rest)[0] == prefix[0];
  }

  /** The `vllm` program without `serve`: everything comes back as vLLM's, with a remark that names the line. */
  lemma VllmProgramImports(dep: Dep, prefix: seq<string>, c: Container, pod: Pod, syntax: Syntax)
    requires Importable(dep) && EngineOf(dep.engine) == Vllm && c.role == "" && Starts(prefix, "vllm")
    requires c.command + c.args == prefix + ContainerLaunch(dep).value.args
    ensures DraftOf(Live(c, pod), syntax) ==
            Some(WithPod(Draft(Vllm, c.image, dep.modelPath, KeptOf(OwnKeys(dep), dep.engineArgs),
                               DraftExtra(ServingPort(dep).value), ServingPort(dep).value,
                               [CommandUnrecognized(c.command + c.args)]), pod))
  {
    var args := ContainerLaunch(dep).value.args;
    RenderedHead(dep);
    DetectsVllm(prefix, args, c.image);
    VllmIsNoShell(prefix, args);
    FlagsImport(dep, c, [CommandUnrecognized(c.command + c.args)], pod, syntax);
  }

  /** `vllm serve` with the model as a flag. */
  lemma ServeFlagsImport(dep: Dep, prefix: seq<string>, c: Container, pod: Pod, syntax: Syntax)
    requires Importable(dep) && EngineOf(dep.engine) == Vllm && c.role == "" && Starts(prefix, "vllm")
    requires c.command + c.args == prefix + (["serve"] + ContainerLaunch(dep).value.args)
    ensures DraftOf(Live(c, pod), syntax) ==
            Some(WithPod(Draft(Vllm, c.image, dep.modelPath, KeptOf(OwnKeys(dep), dep.engineArgs),
                               DraftExtra(ServingPort(dep).value), ServingPort(dep).value, []), pod))
  {
    var args := ContainerLaunch(dep).value.args;
    RenderedHead(dep);
    assert (["serve"] + args)[1] == args[0] && (["serve"] + args)[1..] == args;
    DetectsVllm(prefix, ["serve"] + args, c.image);
    VllmIsNoShell(prefix, ["serve"] + args);
    FlagsImport(dep, c, [], pod, syntax);
  }
}
