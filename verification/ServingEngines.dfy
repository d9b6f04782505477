/** How a serving's structured engine args become its launch line, and the one port
    that the launch line, the container, the probes and the Service share. */
module ServingEngines {
  import opened Wrappers
  import opened Text

  const SERVING_PORT: nat := 8000

  datatype Engine = Vllm | Sglang

  /** A JSON scalar. A float is named by the text Python prints for it. */
  datatype Value = Null | Bool(b: bool) | Int(n: int) | Float(text: string) | Str(s: string)

  /** `str(value)` */
  function ValueText(v: Value): string {
    match v
    case Null => "None"
    case Bool(b) => if b then "True" else "False"
    case Int(n) => IntText(n)
    case Float(text) => text
    case Str(s) => s
  }

  predicate IsZero(v: Value) { v == Int(0) || v == Float("0.0") || v == Float("-0.0") }

  // Validation

  predicate IsKeyChar(c: char) { IsLower(c) || IsDigit(c) || c == '-' }

  /** A key as the portal writes it: lower-case letters, digits and inner dashes. */
  predicate IsCleanKey(k: string) {
    k != "" && k[0] != '-' && KeyChars(k)
  }

  predicate KeyChars(k: string) {
    k == "" || (IsKeyChar(k[0]) && KeyChars(k[1..]))
  }

  lemma {:induction false} KeyCharsAt(k: string)
    requires KeyChars(k)
    ensures forall i | 0 <= i < |k| :: IsKeyChar(k[i])
  {
    if k != "" { KeyCharsAt(k[1..]); }
  }

  /** The key pattern, whose `$` lets one final newline through. */
  predicate IsArgKey(k: string) { IsCleanKey(Chomp(k)) }

  function ParsePort(text: string): (r: Option<nat>)
    ensures r.Some? ==> 1 <= r.value <= 65535
  {
    var t := Strip(text);
    if t != "" && AllDigits(t) && 1 <= ReadNat(t) <= 65535 then Some(ReadNat(t)) else None
  }

  predicate ValidShape(args: map<string, Value>) {
    forall k | k in args :: IsArgKey(k) && !args[k].Null?
  }

  /** `validate_engine_args` accepts. The port is not parsed when `value in (None, False, "")`,
      which a zero number also satisfies. */
  predicate ValidEngineArgs(args: map<string, Value>) {
    && ValidShape(args)
    && ("port" in args ==>
          var v := args["port"];
          v == Bool(false) || v == Str("") || IsZero(v) || ParsePort(ValueText(v)).Some?)
  }

  predicate ValidPortFlag(extra: seq<string>) {
    Split(extra).1.Some? ==> ParsePort(Split(extra).1.value).Some?
  }

  // Splitting --port off

  const PORT_FLAG := "--port"
  const PORT_INLINE := "--port="

  predicate IsPortToken(a: string) { a == PORT_FLAG || HasPrefix(a, PORT_INLINE) }

  function Split(flags: seq<string>): (seq<string>, Option<string>) {
    SplitFrom(flags, None)
  }

  function SplitFrom(flags: seq<string>, port: Option<string>): (seq<string>, Option<string>)
    decreases |flags|
  {
    if flags == [] then ([], port)
    else if HasPrefix(flags[0], PORT_INLINE) then SplitFrom(flags[1..], Some(flags[0][|PORT_INLINE|..]))
    else if flags[0] == PORT_FLAG then
      if |flags| > 1 then SplitFrom(flags[2..], Some(flags[1])) else ([], Some(""))
    else
      var (rest, last) := SplitFrom(flags[1..], port);
      ([flags[0]] + rest, last)
  }

  method SplitPort(flags: seq<string>) returns (rest: seq<string>, port: Option<string>)
    ensures (rest, port) == Split(flags)
  {
    rest, port := [], None;
    var i := 0;
    assert flags[0..] == flags;
    while i < |flags|
      invariant 0 <= i
      invariant i <= |flags| ==> Split(flags).0 == rest + SplitFrom(flags[i..], port).0
      invariant i <= |flags| ==> Split(flags).1 == SplitFrom(flags[i..], port).1
      invariant i > |flags| ==> Split(flags) == (rest, port)
    {
      var a := flags[i];
      assert flags[i..][0] == a;
      assert flags[i..][1..] == flags[i + 1..];
      if HasPrefix(a, PORT_INLINE) {
        port := Some(a[|PORT_INLINE|..]);
      } else if a == PORT_FLAG {
        assert i + 1 < |flags| ==> flags[i..][1] == flags[i + 1] && flags[i..][2..] == flags[i + 2..];
        assert rest + [] == rest;
        port := if i + 1 < |flags| then Some(flags[i + 1]) else Some("");
        i := i + 1;
      } else {
        ghost var r := SplitFrom(flags[i + 1..], port).0;
        assert rest + ([a] + r) == (rest + [a]) + r;
        rest := rest + [a];
      }
      i := i + 1;
    }
    assert i <= |flags| ==> flags[i..] == [] && rest + [] == rest;
  }

  /** The flags end in a `--port` that still waits for its value. */
  ghost predicate Dangling(flags: seq<string>)
    decreases |flags|
  {
    flags != [] &&
    if flags[0] == PORT_FLAG then |flags| == 1 || Dangling(flags[2..]) else Dangling(flags[1..])
  }

  ghost predicate PortFree(flags: seq<string>) {
    forall i | 0 <= i < |flags| :: !IsPortToken(flags[i])
  }

  /** Every `--port` is removed. */
  lemma {:induction false} SplitRemovesPort(flags: seq<string>, port: Option<string>)
    ensures PortFree(SplitFrom(flags, port).0)
    decreases |flags|
  {
    if flags == [] {
    } else if HasPrefix(flags[0], PORT_INLINE) {
      SplitRemovesPort(flags[1..], Some(flags[0][|PORT_INLINE|..]));
    } else if flags[0] == PORT_FLAG {
      if |flags| > 1 { SplitRemovesPort(flags[2..], Some(flags[1])); }
    } else {
      SplitRemovesPort(flags[1..], port);
    }
  }

  lemma {:induction false} SplitKeepsPortFree(flags: seq<string>, port: Option<string>)
    requires PortFree(flags)
    ensures SplitFrom(flags, port) == (flags, port)
    decreases |flags|
  {
    if flags != [] {
      SplitKeepsPortFree(flags[1..], port);
      assert flags == [flags[0]] + flags[1..];
    }
  }

  lemma SplitIdempotent(flags: seq<string>)
    ensures Split(Split(flags).0) == (Split(flags).0, None)
  {
    SplitRemovesPort(flags, None);
    SplitKeepsPortFree(Split(flags).0, None);
  }

  lemma {:induction false} SplitConcatWhole(x: seq<string>, y: seq<string>, port: Option<string>)
    requires !Dangling(x)
    ensures SplitFrom(x + y, port).0 == SplitFrom(x, port).0 + SplitFrom(y, None).0
    ensures SplitFrom(x + y, port).1 ==
            if SplitFrom(y, None).1.Some? then SplitFrom(y, None).1 else SplitFrom(x, port).1
    decreases |x|
  {
    if x == [] {
      assert x + y == y;
      SplitDefault(y, port);
    } else {
      assert (x + y)[1..] == x[1..] + y;
      if HasPrefix(x[0], PORT_INLINE) {
        SplitConcatWhole(x[1..], y, Some(x[0][|PORT_INLINE|..]));
      } else if x[0] == PORT_FLAG {
        assert (x + y)[2..] == x[2..] + y;
        SplitConcatWhole(x[2..], y, Some(x[1]));
      } else {
        SplitConcatWhole(x[1..], y, port);
      }
    }
  }

  /** A list that ends in a bare `--port` is one that does not, and that flag. */
  lemma {:induction false} DanglingSplits(x: seq<string>, port: Option<string>)
    requires Dangling(x)
    ensures var front := x[..|x| - 1];
            && x[|x| - 1] == PORT_FLAG && !Dangling(front)
            && SplitFrom(x, port).0 == SplitFrom(front, port).0
    decreases |x|
  {
    var front := x[..|x| - 1];
    if x[0] == PORT_FLAG {
      if |x| > 1 {
        DanglingSplits(x[2..], Some(x[1]));
        assert front[2..] == x[2..][..|x| - 3] && front[1] == x[1];
      }
    } else {
      assert front[1..] == x[1..][..|x| - 2];
      DanglingSplits(x[1..], if HasPrefix(x[0], PORT_INLINE) then Some(x[0][|PORT_INLINE|..]) else port);
    }
  }

  /** The last `--port` wins: what follows decides, and only where it is silent what came before. A first
      part that ends in a bare `--port` takes the next flag for its value. */
  lemma SplitConcat(x: seq<string>, y: seq<string>, port: Option<string>)
    ensures var taken := Dangling(x) && y != [];
            var rest := SplitFrom(if taken then y[1..] else y, None);
            && SplitFrom(x + y, port).0 == SplitFrom(x, port).0 + rest.0
            && SplitFrom(x + y, port).1 ==
               if rest.1.Some? then rest.1 else if taken then Some(y[0]) else SplitFrom(x, port).1
  {
    if !Dangling(x) {
      SplitConcatWhole(x, y, port);
    } else if y == [] {
      assert x + y == x && SplitFrom(x, port).0 + [] == SplitFrom(x, port).0;
    } else {
      var front := x[..|x| - 1];
      DanglingSplits(x, port);
      assert x + y == front + ([PORT_FLAG] + y);
      SplitConcatWhole(front, [PORT_FLAG] + y, port);
      assert ([PORT_FLAG] + y)[1] == y[0] && ([PORT_FLAG] + y)[2..] == y[1..];
      SplitDefault(y[1..], Some(y[0]));
    }
  }

  lemma {:induction false} SplitDefault(flags: seq<string>, port: Option<string>)
    ensures SplitFrom(flags, port).0 == SplitFrom(flags, None).0
    ensures SplitFrom(flags, port).1 ==
            if SplitFrom(flags, None).1.Some? then SplitFrom(flags, None).1 else port
    decreases |flags|
  {
    if flags == [] {
    } else if HasPrefix(flags[0], PORT_INLINE) {
      SplitDefault(flags[1..], Some(flags[0][|PORT_INLINE|..]));
    } else if flags[0] == PORT_FLAG {
      if |flags| > 1 { SplitDefault(flags[2..], Some(flags[1])); }
    } else {
      SplitDefault(flags[1..], port);
    }
  }

  // Rendering

  predicate IsKept(v: Value) { !v.Null? && v != Bool(false) && v != Str("") }

  function Item(k: string, v: Value): seq<string> {
    if !IsKept(v) then []
    else if v == Bool(true) then ["--" + k]
    else ["--" + k, ValueText(v)]
  }

  function RenderKeys(ks: seq<string>, args: map<string, Value>): seq<string>
    requires forall k | k in ks :: k in args
  {
    if ks == [] then [] else Item(ks[0], args[ks[0]]) + RenderKeys(ks[1..], args)
  }

  function Render(args: map<string, Value>): seq<string> {
    RenderKeys(Sorted(args.Keys), args)
  }

  method RenderEngineArgs(args: map<string, Value>) returns (out: seq<string>)
    ensures out == Render(args)
  {
    out := [];
    var keys := Sorted(args.Keys);
    var i := 0;
    assert keys[0..] == keys;
    while i < |keys|
      invariant 0 <= i <= |keys|
      invariant Render(args) == out + RenderKeys(keys[i..], args)
    {
      assert keys[i] in keys;
      var key, value := keys[i], args[keys[i]];
      RenderStep(out, keys, i, args);
      if !IsKept(value) {
        assert out + Item(key, value) == out;
      } else if value == Bool(true) {
        out := out + ["--" + key];
      } else {
        out := out + ["--" + key, ValueText(value)];
      }
      i := i + 1;
    }
    assert keys[|keys|..] == [] && out + [] == out;
  }

  lemma RenderStep(out: seq<string>, keys: seq<string>, i: nat, args: map<string, Value>)
    requires i < |keys|
    requires forall k | k in keys :: k in args
    ensures out + RenderKeys(keys[i..], args) ==
            (out + Item(keys[i], args[keys[i]])) + RenderKeys(keys[i + 1..], args)
  {
  }

  function Without(ks: seq<string>, key: string): (r: seq<string>)
    ensures forall k :: k in r <==> k in ks && k != key
  {
    if ks == [] then [] else (if ks[0] == key then [] else [ks[0]]) + Without(ks[1..], key)
  }

  /** No argument other than the port itself is spelled like a `--port` flag. */
  ghost predicate NoRogueValue(args: map<string, Value>) {
    forall k | k in args && k != "port" && IsKept(args[k]) && args[k] != Bool(true) ::
      !IsPortToken(ValueText(args[k]))
  }

  lemma KeyHasNoEquals(k: string)
    requires IsArgKey(k)
    ensures '=' !in k
  {
    KeyCharsAt(Chomp(k));
    forall i | 0 <= i < |k| ensures k[i] != '=' {
      assert i == |k| - 1 || Chomp(k)[i] == k[i];
    }
  }

  lemma KeyIsNoPortToken(k: string)
    requires IsArgKey(k)
    ensures IsPortToken("--" + k) <==> k == "port"
  {
    var flag := "--" + k;
    assert !HasPrefix(flag, PORT_INLINE) by {
      KeyHasNoEquals(k);
      assert PORT_INLINE[6] == '=' && (|flag| > 6 ==> flag[6] == k[4]);
    }
    assert flag[2..] == k && PORT_FLAG[2..] == "port";
    assert k == "port" ==> flag == PORT_FLAG;
  }

  lemma SplitItem(k: string, v: Value, tail: seq<string>, port: Option<string>)
    requires IsArgKey(k)
    requires k != "port" && IsKept(v) && v != Bool(true) ==> !IsPortToken(ValueText(v))
    requires k == "port" ==> v != Bool(true)
    ensures Dangling(Item(k, v) + tail) <==> Dangling(tail)
    ensures var next := if k == "port" && IsKept(v) then Some(ValueText(v)) else port;
            SplitFrom(Item(k, v) + tail, port) ==
            ((if k == "port" then [] else Item(k, v)) + SplitFrom(tail, next).0, SplitFrom(tail, next).1)
  {
    KeyIsNoPortToken(k);
    var flags := Item(k, v) + tail;
    if !IsKept(v) {
      assert flags == tail && Item(k, v) == [];
      assert [] + SplitFrom(tail, port).0 == SplitFrom(tail, port).0;
    } else if v == Bool(true) {
      assert flags[0] == "--" + k && flags[1..] == tail;
    } else {
      assert flags[0] == "--" + k && flags[1] == ValueText(v) && flags[2..] == tail;
      assert flags[1..][0] == ValueText(v) && flags[1..][1..] == tail;
      if k != "port" {
        var x := SplitFrom(tail, port).0;
        assert SplitFrom(flags[1..], port).0 == [ValueText(v)] + x;
        assert [flags[0]] + ([ValueText(v)] + x) == Item(k, v) + x;
      } else {
        var x := SplitFrom(tail, Some(ValueText(v))).0;
        assert flags[0] == PORT_FLAG && [] + x == x;
      }
    }
  }

  lemma {:induction false} SplitRender(ks: seq<string>, args: map<string, Value>, port: Option<string>)
    requires forall k | k in ks :: k in args && IsArgKey(k)
    requires forall i, j | 0 <= i < j < |ks| :: ks[i] != ks[j]
    requires NoRogueValue(args)
    requires "port" in ks ==> args["port"] != Bool(true)
    ensures !Dangling(RenderKeys(ks, args))
    ensures SplitFrom(RenderKeys(ks, args), port) ==
            (RenderKeys(Without(ks, "port"), args),
             if "port" in ks && IsKept(args["port"]) then Some(ValueText(args["port"])) else port)
  {
    if ks != [] {
      var k, v := ks[0], args[ks[0]];
      var next := if k == "port" && IsKept(v) then Some(ValueText(v)) else port;
      SplitRender(ks[1..], args, next);
      SplitItem(k, v, RenderKeys(ks[1..], args), port);
      assert k !in ks[1..];
      var w := Without(ks[1..], "port");
      if k == "port" {
        assert Without(ks, "port") == w && [] + RenderKeys(w, args) == RenderKeys(w, args);
      } else {
        assert Without(ks, "port") == [k] + w && ([k] + w)[1..] == w;
      }
    }
  }

  // Launch line

  datatype Dep = Dep(
    engine: string,
    image: string,
    modelPath: string,
    engineArgs: map<string, Value>,
    extraArgs: seq<string>,
    kvEvents: Option<string>)  // the JSON body of the structured KV events, when set

  datatype Launch = Launch(command: seq<string>, args: seq<string>)

  function EngineOf(name: string): Engine { if name == "sglang" then Sglang else Vllm }

  function Command(e: Engine): seq<string> {
    if e == Sglang then ["python3", "-m", "sglang.launch_server"] else []
  }

  function ModelFlag(e: Engine): string { if e == Sglang then "--model-path" else "--model" }

  function BaseArgs(e: Engine): seq<string> { if e == Sglang then ["--host", "0.0.0.0"] else [] }

  function EngineFlags(dep: Dep): seq<string> { Render(dep.engineArgs) + dep.extraArgs }

  /** None: the port text is refused with an error. */
  function ServingPort(dep: Dep): Option<nat> {
    var port := Split(EngineFlags(dep)).1;
    if port.None? then Some(SERVING_PORT) else ParsePort(port.value)
  }

  function KvArgs(dep: Dep): seq<string> {
    if EngineOf(dep.engine) == Vllm && dep.kvEvents.Some? then ["--kv-events-config=" + dep.kvEvents.value] else []
  }

  function ContainerLaunch(dep: Dep): Option<Launch> {
    var e := EngineOf(dep.engine);
    var port := ServingPort(dep);
    if port.None? then None else
      Some(Launch(Command(e),
        [ModelFlag(e), dep.modelPath] + BaseArgs(e) + [PORT_FLAG, NatText(port.value)] + KvArgs(dep)
        + Split(EngineFlags(dep)).0))
  }

  lemma SplitEngineFlags(dep: Dep)
    requires ValidEngineArgs(dep.engineArgs) && NoRogueValue(dep.engineArgs)
    ensures var own := "port" in dep.engineArgs && IsKept(dep.engineArgs["port"]);
            Split(EngineFlags(dep)) ==
            (RenderKeys(Without(Sorted(dep.engineArgs.Keys), "port"), dep.engineArgs) + Split(dep.extraArgs).0,
             if Split(dep.extraArgs).1.Some? then Split(dep.extraArgs).1
             else if own then Some(ValueText(dep.engineArgs["port"])) else None)
  {
    var m := dep.engineArgs;
    var ks := Sorted(m.Keys);
    assert ValueText(Bool(true)) == "True" && !AllDigits("True") by { AllDigitsAt("True"); assert !IsDigit("True"[0]); }
    assert Strip("True") == "True" && ParsePort("True").None?;
    SplitRender(ks, m, None);
    SplitConcat(Render(m), dep.extraArgs, None);
  }

  /** The port a serving declares: the extra args' last, else its own, else the default. */
  function DeclaredPort(dep: Dep): Option<nat> {
    var extra := Split(dep.extraArgs).1;
    if extra.Some? then ParsePort(extra.value)
    else if "port" in dep.engineArgs && IsKept(dep.engineArgs["port"]) then ParsePort(ValueText(dep.engineArgs["port"]))
    else Some(SERVING_PORT)
  }

  /** Its flags other than ports, in order. */
  function DeclaredFlags(dep: Dep): seq<string> {
    RenderKeys(Without(Sorted(dep.engineArgs.Keys), "port"), dep.engineArgs) + Split(dep.extraArgs).0
  }

  lemma AcceptedWithoutRogue(dep: Dep)
    requires ValidEngineArgs(dep.engineArgs) && ValidPortFlag(dep.extraArgs)
    requires NoRogueValue(dep.engineArgs)
    ensures ServingPort(dep) == DeclaredPort(dep) && Split(EngineFlags(dep)).0 == DeclaredFlags(dep)
    ensures ServingPort(dep).Some? <==>
            Split(dep.extraArgs).1.Some? || !("port" in dep.engineArgs && IsZero(dep.engineArgs["port"]))
  {
    SplitEngineFlags(dep);
    if "port" in dep.engineArgs {
      OwnPort(dep.engineArgs["port"]);
    }
  }

  lemma {:induction false} ValueIsRendered(ks: seq<string>, args: map<string, Value>, k: string)
    requires forall j | j in ks :: j in args
    requires k in ks && IsKept(args[k]) && args[k] != Bool(true)
    ensures ValueText(args[k]) in RenderKeys(ks, args)
  {
    if ks[0] == k {
      assert Item(k, args[k])[1] == ValueText(args[k]);
      assert ValueText(args[k]) in Item(k, args[k]);
    } else {
      ValueIsRendered(ks[1..], args, k);
    }
  }

  lemma RogueIsRendered(ks: seq<string>, args: map<string, Value>)
    requires forall j | j in ks :: j in args
    requires forall k | k in args && k != "port" :: k in ks
    requires PortFree(RenderKeys(ks, args))
    ensures NoRogueValue(args)
  {
    forall k | k in args && k != "port" && IsKept(args[k]) && args[k] != Bool(true)
      ensures !IsPortToken(ValueText(args[k]))
    {
      ValueIsRendered(ks, args, k);
    }
  }

  lemma FlagsWithoutRogue(dep: Dep)
    requires Split(EngineFlags(dep)).0 == DeclaredFlags(dep)
    ensures NoRogueValue(dep.engineArgs)
  {
    SplitRemovesPort(EngineFlags(dep), None);
    var ks := Without(Sorted(dep.engineArgs.Keys), "port");
    var own := RenderKeys(ks, dep.engineArgs);
    assert PortFree(own) by {
      assert forall i | 0 <= i < |own| :: DeclaredFlags(dep)[i] == own[i];
    }
    RogueIsRendered(ks, dep.engineArgs);
  }

  /** An accepted serving listens on the port it declares and passes on its other flags exactly if no value
      is spelled like a port flag, and its own port is no number zero or the extra args override it. Validation
      lets a zero port through, rendering does not drop it. */
  lemma AcceptedPort(dep: Dep)
    requires ValidEngineArgs(dep.engineArgs) && ValidPortFlag(dep.extraArgs)
    ensures ServingPort(dep).Some? && ServingPort(dep) == DeclaredPort(dep) && Split(EngineFlags(dep)).0 == DeclaredFlags(dep)
            <==> NoRogueValue(dep.engineArgs)
                 && (Split(dep.extraArgs).1.Some? || !("port" in dep.engineArgs && IsZero(dep.engineArgs["port"])))
  {
    if NoRogueValue(dep.engineArgs) {
      AcceptedWithoutRogue(dep);
    } else if Split(EngineFlags(dep)).0 == DeclaredFlags(dep) {
      FlagsWithoutRogue(dep);
    }
  }

  lemma OwnPort(v: Value)
    requires v == Bool(false) || v == Str("") || IsZero(v) || ParsePort(ValueText(v)).Some?
    ensures IsZero(v) ==> IsKept(v)
    ensures IsKept(v) ==> (ParsePort(ValueText(v)).Some? <==> !IsZero(v))
  {
  }

  /** The excluded family is not empty: here both validations accept, and an argument value
      spelled `--port` swallows the flag after it, which is no port. */
  lemma RogueValueBreaksPort()
    ensures var dep := Dep("vllm", "", "m", map["tag" := Str("--port")], ["--seed"], None);
            ValidEngineArgs(dep.engineArgs) && ValidPortFlag(dep.extraArgs) && ServingPort(dep).None?
  {
    var m: map<string, Value> := map["tag" := Str("--port")];
    var ks := Sorted(m.Keys);
    AscendingUnique(ks, ["tag"]);
    assert ["tag"][1..] == [] && RenderKeys([], m) == [];
    assert IsKept(Str("--port")) && "--" + "tag" == "--tag";
    assert Item("tag", Str("--port")) == ["--tag", "--port"];
    assert RenderKeys(["tag"], m) == ["--tag", "--port"];
    assert Render(m) + ["--seed"] == ["--tag", "--port", "--seed"];
    assert SplitFrom(["--port", "--seed"], None) == ([], Some("--seed"));
    assert SplitFrom(["--tag", "--port", "--seed"], None).1 == Some("--seed");
    assert Split(["--seed"]).1 == None by { assert ["--seed"][1..] == []; assert "--seed"[2] == 's'; }
    AllDigitsAt("--seed");
    assert Strip("--seed") == "--seed" && !IsDigit("--seed"[0]);
  }

  // Manifests

  datatype ContainerPort = ContainerPort(number: int, name: string)

  predicate Clash(p: ContainerPort, q: ContainerPort) { p.number == q.number || p.name == q.name }

  ghost predicate NoClash(ports: seq<ContainerPort>) {
    forall i, j | 0 <= i < j < |ports| :: ports[i].number != ports[j].number && ports[i].name != ports[j].name
  }

  /** The portal's ports first; a later claim on a number or name already taken is dropped. */
  method ContainerPorts(portal: seq<ContainerPort>, claims: seq<ContainerPort>) returns (out: seq<ContainerPort>)
    requires NoClash(portal)
    ensures portal <= out && NoClash(out)
    ensures forall p | p in out :: p in portal || p in claims
    ensures forall k | 0 <= k < |claims| ::
              claims[k] in out
              || exists q | q in portal + claims[..k] ::
                   q in out && (q.number == claims[k].number || q.name == claims[k].name)
  {
    out := portal;
    for i := 0 to |claims|
      invariant portal <= out && NoClash(out)
      invariant forall p | p in out :: p in portal || p in claims[..i]
      invariant forall k | 0 <= k < i ::
          claims[k] in out
          || exists q | q in portal + claims[..k] ::
               q in out && (q.number == claims[k].number || q.name == claims[k].name)
    {
      var p := claims[i];
      if forall q | q in out :: !Clash(q, p) {
        assert forall n | 0 <= n < |out| :: out[n] in out && !Clash(out[n], p);
        out := out + [p];
        assert p in out;
      } else {
        var q :| q in out && Clash(q, p);
        assert q in portal + claims[..i];
      }
    }
  }

  datatype Manifest = Manifest(
    launch: Launch, ports: seq<ContainerPort>, probePorts: seq<nat>, targetPort: nat)

  /** The launch line names its port once, and that is the port of the container, of every probe and
      of the Service. */
  ghost predicate OnePort(m: Manifest) {
    && NamesPortOnce(m.launch.args, NatText(m.targetPort))
    && Split(m.launch.args).1 == Some(NatText(m.targetPort))
    && |m.ports| > 0 && m.ports[0] == ContainerPort(m.targetPort, "http")
    && forall i | 0 <= i < |m.probePorts| :: m.probePorts[i] == m.targetPort
  }

  /** `build_deployment` and `build_service`, as far as ports go: `probes` is how many probes the
      recipe turns on, `claims` the runtime's extra ports and then the KV-event sockets. */
  method BuildManifest(dep: Dep, probes: nat, claims: seq<ContainerPort>) returns (m: Option<Manifest>)
    ensures m.Some? <==> ServingPort(dep).Some?
    ensures m.Some? ==>
              && m.value.launch == ContainerLaunch(dep).value && m.value.targetPort == ServingPort(dep).value
              && |m.value.probePorts| == probes && NoClash(m.value.ports)
              && (OnePort(m.value) <==> !IsPortToken(dep.modelPath))
  {
    var port := ServingPort(dep);
    var launch := ContainerLaunch(dep);
    if port.None? {
      return None;
    }
    var ports := ContainerPorts([ContainerPort(port.value, "http")], claims);
    m := Some(Manifest(launch.value, ports, seq(probes, _ => port.value), port.value));
    assert ports[0] == ContainerPort(port.value, "http");
    LaunchNamesPortOnce(dep);
  }

  /** The only port token stands at `at`, and the text follows it. */
  ghost predicate NamesPortAt(args: seq<string>, at: nat, text: string) {
    && at + 1 < |args| && args[at] == PORT_FLAG && args[at + 1] == text
    && forall i | 0 <= i < |args| :: IsPortToken(args[i]) <==> i == at
  }

  ghost predicate NamesPortOnce(args: seq<string>, text: string) {
    exists at :: NamesPortAt(args, at, text)
  }

  lemma HeadPortFree(e: Engine)
    ensures !IsPortToken(ModelFlag(e)) && PortFree(BaseArgs(e))
  {
    assert "--model"[2] == 'm' && PORT_FLAG[2] == 'p' && PORT_INLINE[2] == 'p';
    assert "--host"[2] == 'h' && "0.0.0.0"[0] == '0';
  }

  lemma TailPortFree(dep: Dep)
    ensures PortFree(KvArgs(dep) + Split(EngineFlags(dep)).0)
  {
    SplitRemovesPort(EngineFlags(dep), None);
    assert forall i | 0 <= i < |KvArgs(dep)| :: KvArgs(dep)[i][2] == 'k';
    assert PORT_FLAG[2] == 'p' && PORT_INLINE[2] == 'p';
  }

  lemma NumberIsNoPortToken(n: nat)
    ensures !IsPortToken(NatText(n))
  {
    AllDigitsAt(NatText(n));
    assert IsDigit(NatText(n)[0]);
  }

  lemma PortBetween(head: seq<string>, text: string, tail: seq<string>)
    requires PortFree(head) && PortFree(tail) && !IsPortToken(text)
    ensures var args := head + ([PORT_FLAG, text] + tail);
            NamesPortAt(args, |head|, text) && Split(args).1 == Some(text)
  {
    var rest := [PORT_FLAG, text] + tail;
    PortFreeNotDangling(head);
    SplitKeepsPortFree(head, None);
    SplitConcat(head, rest, None);
    assert rest[2..] == tail;
    SplitKeepsPortFree(tail, Some(text));
  }

  lemma LaunchArgs(dep: Dep)
    requires ServingPort(dep).Some?
    ensures var e := EngineOf(dep.engine);
            ContainerLaunch(dep).value.args ==
            [ModelFlag(e), dep.modelPath] + BaseArgs(e)
            + ([PORT_FLAG, NatText(ServingPort(dep).value)] + (KvArgs(dep) + Split(EngineFlags(dep)).0))
  {
  }

  /** The launch line names its port exactly once if and only if the model path is no port flag itself;
      and then reading the line back gives that port. */
  lemma LaunchNamesPortOnce(dep: Dep)
    requires ServingPort(dep).Some?
    ensures var args, text := ContainerLaunch(dep).value.args, NatText(ServingPort(dep).value);
            && (NamesPortOnce(args, text) <==> !IsPortToken(dep.modelPath))
            && (!IsPortToken(dep.modelPath) ==> Split(args).1 == Some(text))
  {
    var e, text := EngineOf(dep.engine), NatText(ServingPort(dep).value);
    var head := [ModelFlag(e), dep.modelPath] + BaseArgs(e);
    var tail := KvArgs(dep) + Split(EngineFlags(dep)).0;
    LaunchArgs(dep);
    if IsPortToken(dep.modelPath) {
      SecondPort(head, text, tail);
    } else {
      PlainLine(dep);
    }
  }

  lemma PlainLine(dep: Dep)
    requires ServingPort(dep).Some? && !IsPortToken(dep.modelPath)
    ensures var text := NatText(ServingPort(dep).value);
            var args := [ModelFlag(EngineOf(dep.engine)), dep.modelPath] + BaseArgs(EngineOf(dep.engine))
                        + ([PORT_FLAG, text] + (KvArgs(dep) + Split(EngineFlags(dep)).0));
            NamesPortOnce(args, text) && Split(args).1 == Some(text)
  {
    var e := EngineOf(dep.engine);
    HeadPortFree(e);
    NumberIsNoPortToken(ServingPort(dep).value);
    TailPortFree(dep);
    PortBetween([ModelFlag(e), dep.modelPath] + BaseArgs(e), NatText(ServingPort(dep).value),
                KvArgs(dep) + Split(EngineFlags(dep)).0);
  }

  lemma SecondPort(head: seq<string>, text: string, tail: seq<string>)
    requires |head| > 1 && IsPortToken(head[1])
    ensures !NamesPortOnce(head + ([PORT_FLAG, text] + tail), text)
  {
    var args := head + ([PORT_FLAG, text] + tail);
    assert args[1] == head[1] && args[|head|] == PORT_FLAG;
  }

  lemma {:induction false} PortFreeNotDangling(flags: seq<string>)
    requires PortFree(flags)
    ensures !Dangling(flags)
  {
    if flags != [] { PortFreeNotDangling(flags[1..]); }
  }

  /** The launch line, written out: SGLang's names a command and a host, and only vLLM's carries the KV-events
      config; the serving's own flags come last, without their ports. */
  lemma LaunchIs(dep: Dep)
    requires ServingPort(dep).Some?
    ensures var port, flags := NatText(ServingPort(dep).value), Split(Render(dep.engineArgs) + dep.extraArgs).0;
            ContainerLaunch(dep) == Some(
              if dep.engine == "sglang" then
                Launch(["python3", "-m", "sglang.launch_server"],
                       ["--model-path", dep.modelPath, "--host", "0.0.0.0", "--port", port] + flags)
              else
                Launch([], ["--model", dep.modelPath, "--port", port]
                           + (if dep.kvEvents.Some? then ["--kv-events-config=" + dep.kvEvents.value] else []) + flags))
  {
    var port, flags := NatText(ServingPort(dep).value), Split(EngineFlags(dep)).0;
    LaunchArgs(dep);
    if dep.engine == "sglang" {
      SglangLine(dep.modelPath, port, KvArgs(dep), flags);
    } else {
      VllmLine(dep.modelPath, port, KvArgs(dep), flags);
    }
  }

  lemma SglangLine(model: string, port: string, kv: seq<string>, flags: seq<string>)
    requires kv == []
    ensures [ModelFlag(Sglang), model] + BaseArgs(Sglang) + ([PORT_FLAG, port] + (kv + flags))
            == ["--model-path", model, "--host", "0.0.0.0", "--port", port] + flags
  {
    assert kv + flags == flags;
  }

  lemma VllmLine(model: string, port: string, kv: seq<string>, flags: seq<string>)
    ensures [ModelFlag(Vllm), model] + BaseArgs(Vllm) + ([PORT_FLAG, port] + (kv + flags))
            == ["--model", model, "--port", port] + kv + flags
  {
  }

  /** What validation accepts: possible keys, no null, and for a port a number in range or one of the values that
      Python holds equal to no port. */
  lemma AcceptedIff(args: map<string, Value>)
    ensures ValidEngineArgs(args) <==>
            && (forall k | k in args :: IsArgKey(k) && args[k] != Null)
            && ("port" in args ==>
                  args["port"] in {Bool(false), Str(""), Int(0), Float("0.0"), Float("-0.0")}
                  || ParsePort(ValueText(args["port"])).Some?)
  {
  }

  /** A trailing `--port` takes the next list's first flag, and an empty port if there is none. */
  lemma TrailingPort(flags: seq<string>)
    requires !Dangling(flags)
    ensures Split(flags + [PORT_FLAG]) == (Split(flags).0, Some(""))
  {
    SplitConcat(flags, [PORT_FLAG], None);
    assert Split(flags).0 + [] == Split(flags).0;
  }
}
