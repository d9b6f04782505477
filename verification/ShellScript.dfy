/** A `sh -c` wrapper taken off a live container's command line. */
module ShellScript {
  import opened Wrappers
  import opened Text
  import opened RecipeImport

  /** The splitter of a command into shell words; None where it refuses the text. */
  type Splitter = string -> Option<seq<string>>

  const SHELLS := {"sh", "bash", "dash", "zsh", "/bin/sh", "/bin/bash", "/usr/bin/sh", "/usr/bin/bash"}

  /** How long the command separator is that a script starts with, if it starts with one. */
  function SeparatorLength(s: string): (n: nat)
    ensures n <= |s|
  {
    if HasPrefix(s, "&&") || HasPrefix(s, "||") then 2
    else if s != "" && s[0] in ";\n" then 1
    else 0
  }

  /** `re.split(r"&&|\|\||;|\n", script)` */
  function Pieces(s: string): (r: seq<string>)
    ensures r != []
  {
    var n := SeparatorLength(s);
    if s == "" then [""]
    else if n > 0 then [""] + Pieces(s[n..])
    else Prepended(s[0], Pieces(s[1..]))
  }

  function Prepended(c: char, pieces: seq<string>): (r: seq<string>)
    requires pieces != []
    ensures r != []
  {
    [[c] + pieces[0]] + pieces[1..]
  }

  function Mapped<S, T>(f: S -> T, ss: seq<S>): seq<T> {
    if ss == [] then [] else [f(ss[0])] + Mapped(f, ss[1..])
  }

  function Filtered<T>(keep: T -> bool, xs: seq<T>): seq<T> {
    if xs == [] then [] else if keep(xs[0]) then [xs[0]] + Filtered(keep, xs[1..]) else Filtered(keep, xs[1..])
  }

  predicate NotEmpty(s: string) { s != "" }

  /** Stripped, the blank ones dropped. */
  function Segments(pieces: seq<string>): seq<string> { Filtered(NotEmpty, Mapped(Strip, pieces)) }

  function IndexOf(tokens: seq<string>, token: string): (r: Option<nat>)
    ensures r.Some? ==> r.value < |tokens| && tokens[r.value] == token && token !in tokens[..r.value]
    ensures r.None? ==> token !in tokens
  {
    if tokens == [] then None
    else if tokens[0] == token then Some(0)
    else
      var r := IndexOf(tokens[1..], token);
      if r.None? then None
      else
        assert tokens[..r.value + 1] == [tokens[0]] + tokens[1..][..r.value];
        Some(r.value + 1)
  }

  predicate IsLetter(c: char) { IsLower(c) || IsUpper(c) || c == '_' }

  predicate NameThenEquals(s: string) {
    s != "" && (s[0] == '=' || ((IsLetter(s[0]) || IsDigit(s[0])) && NameThenEquals(s[1..])))
  }

  /** `NAME=...` */
  predicate IsAssignment(token: string) { token != "" && IsLetter(token[0]) && NameThenEquals(token[1..]) }

  function AssignmentCount(tokens: seq<string>): (n: nat)
    ensures n <= |tokens|
  {
    if tokens != [] && IsAssignment(tokens[0]) then AssignmentCount(tokens[1..]) + 1 else 0
  }

  function Dropped(tokens: seq<string>): seq<Warning> {
    if tokens == [] then [] else Dropped(tokens[..|tokens| - 1]) + [InlineEnvDropped(tokens[|tokens| - 1])]
  }

  /** The launch's own words, of those the script's last command has. */
  function Unprefixed(words: seq<string>): (seq<string>, seq<Warning>) {
    var out := if words != [] && words[0] == "exec" then words[1..] else words;
    (out[AssignmentCount(out)..], Dropped(out[..AssignmentCount(out)]))
  }

  function Truncated(segments: seq<string>): seq<Warning> {
    if segments == [] then [] else [ShellTruncated(segments)]
  }

  /** The tokens that start the server, and the warnings about what was cut off on the way. */
  function Unwrap(tokens: seq<string>, words: Splitter): (seq<string>, seq<Warning>) {
    if tokens == [] || tokens[0] !in SHELLS then (tokens, [])
    else
      var c := IndexOf(tokens, "-c");
      if c.None? || c.value + 1 >= |tokens| then ([], [CommandUnrecognized(tokens)])
      else
        var segments := Segments(Pieces(tokens[c.value + 1]));
        var launch := if segments == [] then "" else segments[|segments| - 1];
        var noted := if segments == [] then [] else Truncated(segments[..|segments| - 1]);
        match words(launch)
        case None => ([], noted + [CommandUnrecognized([launch])])
        case Some(split) => (Unprefixed(split).0, noted + Unprefixed(split).1 + [ShellWrapper(launch)])
  }

  method UnwrapShell(command: seq<string>, args: seq<string>, words: Splitter)
    returns (out: seq<string>, warnings: seq<Warning>)
    ensures (out, warnings) == Unwrap(command + args, words)
  {
    var tokens := command + args;
    if tokens == [] || tokens[0] !in SHELLS {
      return tokens, [];
    }
    var c := IndexOf(tokens, "-c");
    if c.None? || c.value + 1 >= |tokens| {
      return [], [CommandUnrecognized(tokens)];
    }
    var segments := Segments(Pieces(tokens[c.value + 1]));
    warnings := if |segments| > 1 then [ShellTruncated(segments[..|segments| - 1])] else [];
    var launch := if segments != [] then segments[|segments| - 1] else "";
    match words(launch) {
      case None =>
        return [], warnings + [CommandUnrecognized([launch])];
      case Some(split) =>
        var dropped: seq<Warning>;
        out, dropped := DropPrefixes(split);
        warnings := warnings + dropped + [ShellWrapper(launch)];
    }
  }

  method DropPrefixes(words: seq<string>) returns (out: seq<string>, dropped: seq<Warning>)
    ensures (out, dropped) == Unprefixed(words)
  {
    out, dropped := words, [];
    if out != [] && out[0] == "exec" {
      out := out[1..];
    }
    ghost var start := out;
    ghost var n := 0;
    assert start[0..] == start;
    while out != [] && IsAssignment(out[0])
      invariant n <= |start| && out == start[n..] && dropped == Dropped(start[..n])
      invariant AssignmentCount(start) == n + AssignmentCount(out)
    {
      assert start[n] == out[0] && start[..n + 1][..n] == start[..n];
      dropped := dropped + [InlineEnvDropped(out[0])];
      out, n := out[1..], n + 1;
    }
  }

  // Which command of a script is the launch

  predicate OneCommand(s: string) {
    s == "" || (SeparatorLength(s) == 0 && OneCommand(s[1..]))
  }

  lemma {:induction false} OnePiece(s: string)
    requires OneCommand(s)
    ensures Pieces(s) == [s]
  {
    if s != "" {
      OnePiece(s[1..]);
      assert s == [s[0]] + s[1..];
    }
  }

  const SEPARATORS := {"&&", "||", ";", "\n"}

  /** A separator right behind the character it is made of would be read one character early. */
  predicate Parts(front: string, sep: string) {
    sep in SEPARATORS && (front == "" || |sep| == 1 || front[|front| - 1] != sep[0])
  }

  lemma TwoCharacters(s: string)
    ensures HasPrefix(s, "&&") <==> |s| >= 2 && s[0] == '&' && s[1] == '&'
    ensures HasPrefix(s, "||") <==> |s| >= 2 && s[0] == '|' && s[1] == '|'
  {
  }

  lemma SeparatorKept(front: string, sep: string, rest: string)
    requires front != "" && Parts(front, sep)
    ensures SeparatorLength(front + sep + rest) == SeparatorLength(front)
  {
    var s := front + sep + rest;
    TwoCharacters(s);
    TwoCharacters(front);
    assert s == front + (sep + rest) && s[0] == front[0];
    if |front| == 1 {
      assert s[1] == (sep + rest)[0] == sep[0];
    } else {
      assert s[1] == front[1];
    }
  }

  lemma PrependedConcat(c: char, x: seq<string>, y: seq<string>)
    requires x != []
    ensures Prepended(c, x + y) == Prepended(c, x) + y
  {
  }

  lemma SeparatorIs(sep: string, rest: string)
    requires sep in SEPARATORS
    ensures SeparatorLength(sep + rest) == |sep|
  {
    TwoCharacters(sep + rest);
    assert (sep + rest)[0] == sep[0] && (|sep| == 2 ==> (sep + rest)[1] == sep[1]);
  }

  lemma PiecesCut(s: string, n: nat)
    requires n == SeparatorLength(s) && n > 0
    ensures Pieces(s) == [""] + Pieces(s[n..])
  {
  }

  lemma PiecesKeep(s: string)
    requires s != "" && SeparatorLength(s) == 0
    ensures Pieces(s) == Prepended(s[0], Pieces(s[1..]))
  {
  }

  lemma PartedAtOnce(sep: string, rest: string)
    requires sep in SEPARATORS
    ensures Pieces("" + sep + rest) == Pieces("") + Pieces(rest)
  {
    var s := "" + sep + rest;
    SeparatorIs(sep, rest);
    assert s == sep + rest && s[|sep|..] == rest;
    PiecesCut(s, |sep|);
  }

  lemma DropFront(front: string, sep: string, rest: string, n: nat)
    requires n <= |front|
    ensures (front + sep + rest)[n..] == front[n..] + sep + rest
  {
  }

  lemma PartedBehindCut(front: string, sep: string, rest: string, n: nat)
    requires front != "" && Parts(front, sep) && n == SeparatorLength(front) && n > 0
    requires Pieces(front[n..] + sep + rest) == Pieces(front[n..]) + Pieces(rest)
    ensures Pieces(front + sep + rest) == Pieces(front) + Pieces(rest)
  {
    SeparatorKept(front, sep, rest);
    DropFront(front, sep, rest, n);
    PiecesCut(front + sep + rest, n);
    PiecesCut(front, n);
    ConsAssociates("", Pieces(front[n..]), Pieces(rest));
  }

  lemma PartedBehindChar(front: string, sep: string, rest: string)
    requires front != "" && Parts(front, sep) && SeparatorLength(front) == 0
    requires Pieces(front[1..] + sep + rest) == Pieces(front[1..]) + Pieces(rest)
    ensures Pieces(front + sep + rest) == Pieces(front) + Pieces(rest)
  {
    SeparatorKept(front, sep, rest);
    DropFront(front, sep, rest, 1);
    PiecesKeep(front + sep + rest);
    PiecesKeep(front);
    PrependedConcat(front[0], Pieces(front[1..]), Pieces(rest));
  }

  lemma {:induction false} PiecesParted(front: string, sep: string, rest: string)
    requires Parts(front, sep)
    ensures Pieces(front + sep + rest) == Pieces(front) + Pieces(rest)
  {
    if front == "" {
      PartedAtOnce(sep, rest);
    } else if SeparatorLength(front) > 0 {
      PiecesParted(front[SeparatorLength(front)..], sep, rest);
      PartedBehindCut(front, sep, rest, SeparatorLength(front));
    } else {
      PiecesParted(front[1..], sep, rest);
      PartedBehindChar(front, sep, rest);
    }
  }

  lemma MappedCons<S, T>(f: S -> T, xs: seq<S>)
    requires xs != []
    ensures Mapped(f, xs) == [f(xs[0])] + Mapped(f, xs[1..])
  {
  }

  lemma ConsAssociates<T>(x: T, a: seq<T>, b: seq<T>)
    ensures [x] + (a + b) == [x] + a + b
  {
  }

  lemma {:induction false} MappedConcat<S, T>(f: S -> T, x: seq<S>, y: seq<S>)
    ensures Mapped(f, x + y) == Mapped(f, x) + Mapped(f, y)
  {
    if x == [] {
      assert x + y == y;
    } else {
      MappedConcat(f, x[1..], y);
      assert (x + y)[1..] == x[1..] + y && (x + y)[0] == x[0];
      MappedCons(f, x + y);
      MappedCons(f, x);
      ConsAssociates(f(x[0]), Mapped(f, x[1..]), Mapped(f, y));
    }
  }

  lemma {:induction false} FilteredConcat<T>(keep: T -> bool, x: seq<T>, y: seq<T>)
    ensures Filtered(keep, x + y) == Filtered(keep, x) + Filtered(keep, y)
  {
    if x == [] {
      assert x + y == y;
    } else {
      FilteredConcat(keep, x[1..], y);
      assert (x + y)[1..] == x[1..] + y;
    }
  }

  /** However many commands come first, the last one of a `sh -c` script is the launch; `exec` and variable
      assignments before it are dropped, each assignment with a warning. */
  lemma LaunchFound(shell: string, front: string, sep: string, last: string, words: Splitter, exec: bool,
                    env: seq<string>, launch: seq<string>)
    requires shell in SHELLS && Parts(front, sep) && OneCommand(last) && Strip(last) != ""
    requires words(Strip(last)) == Some(Prefixed(exec, env, launch))
    requires AllAssignments(env) && launch != [] && launch[0] != "exec" && !IsAssignment(launch[0])
    ensures Unwrap([shell, "-c", front + sep + last], words) ==
            (launch, Truncated(Segments(Pieces(front))) + Dropped(env) + [ShellWrapper(Strip(last))])
  {
    var script := front + sep + last;
    LastSegment(front, sep, last);
    ShellHasScript(shell, script);
    PrefixesDropped(exec, env, launch);
  }

  function Prefixed(exec: bool, env: seq<string>, launch: seq<string>): seq<string> {
    (if exec then ["exec"] else []) + (env + launch)
  }

  predicate AllAssignments(env: seq<string>) {
    env == [] || (IsAssignment(env[0]) && AllAssignments(env[1..]))
  }

  lemma LastSegment(front: string, sep: string, last: string)
    requires Parts(front, sep) && OneCommand(last) && Strip(last) != ""
    ensures Segments(Pieces(front + sep + last)) == Segments(Pieces(front)) + [Strip(last)]
  {
    PiecesParted(front, sep, last);
    OnePiece(last);
    MappedConcat(Strip, Pieces(front), [last]);
    FilteredConcat(NotEmpty, Mapped(Strip, Pieces(front)), Mapped(Strip, [last]));
    OneSegment(last);
  }

  lemma OneSegment(last: string)
    requires Strip(last) != ""
    ensures Segments([last]) == [Strip(last)]
  {
    assert [last][1..] == [] && Mapped(Strip, [last]) == [Strip(last)];
    assert [Strip(last)][1..] == [] && Filtered(NotEmpty, [Strip(last)]) == [Strip(last)];
  }

  lemma ShellHasScript(shell: string, script: string)
    requires shell in SHELLS
    ensures IndexOf([shell, "-c", script], "-c") == Some(1)
  {
  }

  lemma {:induction false} AssignmentsCounted(env: seq<string>, launch: seq<string>)
    requires AllAssignments(env) && (launch == [] || !IsAssignment(launch[0]))
    ensures AssignmentCount(env + launch) == |env|
  {
    if env == [] {
      assert env + launch == launch;
    } else {
      AssignmentsCounted(env[1..], launch);
      assert (env + launch)[1..] == env[1..] + launch;
    }
  }

  lemma ExecIsNoAssignment()
    ensures !IsAssignment("exec")
  {
  }

  lemma PrefixesDropped(exec: bool, env: seq<string>, launch: seq<string>)
    requires AllAssignments(env) && launch != [] && launch[0] != "exec" && !IsAssignment(launch[0])
    ensures Unprefixed(Prefixed(exec, env, launch)) == (launch, Dropped(env))
  {
    var out := env + launch;
    AssignmentsCounted(env, launch);
    assert out[|env|..] == launch && out[..|env|] == env;
    ExecIsNoAssignment();
    if exec {
      assert Prefixed(exec, env, launch)[1..] == out;
    } else {
      assert Prefixed(exec, env, launch) == out && out[0] == if env == [] then launch[0] else env[0];
    }
  }

  /** A line that does not start with a shell is left as it is; a shell without a script, or with one that cannot be
      split into words, leaves nothing, and says so. */
  lemma UnwrapOtherwise(tokens: seq<string>, words: Splitter)
    ensures tokens == [] || tokens[0] !in SHELLS ==> Unwrap(tokens, words) == (tokens, [])
    ensures tokens != [] && tokens[0] in SHELLS && "-c" !in tokens[..|tokens| - 1] ==>
              Unwrap(tokens, words) == ([], [CommandUnrecognized(tokens)])
  {
    if tokens != [] && tokens[0] in SHELLS && "-c" !in tokens[..|tokens| - 1] {
      forall i | 0 <= i < |tokens| - 1 ensures tokens[i] != "-c" {
        assert tokens[..|tokens| - 1][i] == tokens[i];
      }
    }
  }

  lemma UnsplitScript(shell: string, front: string, sep: string, last: string, words: Splitter)
    requires shell in SHELLS && Parts(front, sep) && OneCommand(last) && Strip(last) != "" && words(Strip(last)).None?
    ensures Unwrap([shell, "-c", front + sep + last], words) ==
            ([], Truncated(Segments(Pieces(front))) + [CommandUnrecognized([Strip(last)])])
  {
    LastSegment(front, sep, last);
    ShellHasScript(shell, front + sep + last);
  }

  lemma {:induction false} NameThenEqualsIff(s: string)
    ensures NameThenEquals(s) <==>
            exists n | 0 <= n < |s| :: s[n] == '=' && forall i | 0 <= i < n :: IsLetter(s[i]) || IsDigit(s[i])
  {
    if s != "" {
      NameThenEqualsIff(s[1..]);
      if NameThenEquals(s[1..]) && (IsLetter(s[0]) || IsDigit(s[0])) {
        var n :| 0 <= n < |s[1..]| && s[1..][n] == '=' && forall i | 0 <= i < n :: IsLetter(s[1..][i]) || IsDigit(s[1..][i]);
        assert s[n + 1] == '=' && forall i | 0 < i < n + 1 :: s[i] == s[1..][i - 1];
      }
      if n :| 0 < n < |s| && s[n] == '=' && forall i | 0 <= i < n :: IsLetter(s[i]) || IsDigit(s[i]) {
        assert s[1..][n - 1] == '=' && forall i | 0 <= i < n - 1 :: s[1..][i] == s[i + 1];
      }
    }
  }

  /** A separator stands at place `i`, or starts there. */
  predicate CutAt(s: string, i: nat) {
    i < |s| && (s[i] == ';' || s[i] == '\n' || (i + 1 < |s| && s[i] == s[i + 1] && (s[i] == '&' || s[i] == '|')))
  }

  lemma CutHere(s: string)
    ensures SeparatorLength(s) == 0 <==> !CutAt(s, 0)
    ensures SeparatorLength(s) == 2 <==> CutAt(s, 0) && s[0] != ';' && s[0] != '\n'
  {
    TwoCharacters(s);
  }

  /** The separators are `&&`, `||`, `;` and the line end, and a script without any is one command. */
  lemma {:induction false} OneCommandIff(s: string)
    ensures OneCommand(s) <==> forall i: nat | i < |s| :: !CutAt(s, i)
  {
    CutHere(s);
    if s != "" {
      OneCommandIff(s[1..]);
      assert forall i: nat | i < |s| - 1 :: CutAt(s[1..], i) <==> CutAt(s, i + 1);
      assert forall i: nat | 0 < i < |s| :: CutAt(s, i) <==> CutAt(s[1..], i - 1);
    }
  }

  lemma NoSegment(last: string)
    requires Strip(last) == ""
    ensures Segments([last]) == []
  {
    assert [last][1..] == [] && Mapped(Strip, [last]) == [Strip(last)];
    assert [Strip(last)][1..] == [] && Filtered(NotEmpty, [Strip(last)]) == [];
  }

  lemma SegmentsBeforeBlank(front: string, sep: string, last: string)
    requires Parts(front, sep) && OneCommand(last) && Strip(last) == ""
    ensures Segments(Pieces(front + sep + last)) == Segments(Pieces(front))
  {
    PiecesParted(front, sep, last);
    OnePiece(last);
    MappedConcat(Strip, Pieces(front), [last]);
    FilteredConcat(NotEmpty, Mapped(Strip, Pieces(front)), Mapped(Strip, [last]));
    NoSegment(last);
  }

  /** Blank commands do not count: a script that ends in a separator unwraps to what it is without it. */
  lemma BlankEndIgnored(shell: string, front: string, sep: string, last: string, words: Splitter)
    requires shell in SHELLS && Parts(front, sep) && OneCommand(last) && Strip(last) == ""
    ensures Unwrap([shell, "-c", front + sep + last], words) == Unwrap([shell, "-c", front], words)
  {
    var long, short := [shell, "-c", front + sep + last], [shell, "-c", front];
    SegmentsBeforeBlank(front, sep, last);
    ShellHasScript(shell, front + sep + last);
    ShellHasScript(shell, front);
    assert long[2] == front + sep + last && short[2] == front;
  }

  /** `[A-Za-z_][A-Za-z0-9_]*=`, the equals sign at `n`. */
  ghost predicate AssignsAt(token: string, n: nat) {
    && 0 < n < |token| && token[n] == '='
    && forall i | 0 <= i < n ::
         'a' <= token[i] <= 'z' || 'A' <= token[i] <= 'Z' || token[i] == '_' || ('0' <= token[i] <= '9' && i > 0)
  }

  lemma AssignmentIff(token: string)
    ensures IsAssignment(token) <==> exists n :: AssignsAt(token, n)
  {
    if token != "" {
      var rest := token[1..];
      NameThenEqualsIff(rest);
      if IsAssignment(token) {
        var m :| 0 <= m < |rest| && rest[m] == '=' && forall i | 0 <= i < m :: IsLetter(rest[i]) || IsDigit(rest[i]);
        assert forall i | 0 < i < m + 1 :: token[i] == rest[i - 1];
        assert AssignsAt(token, m + 1);
      }
      if n :| AssignsAt(token, n) {
        assert rest[n - 1] == '=';
      }
    }
  }

  /** The warning about the commands before the launch names them all, and each dropped assignment has its own. */
  lemma {:induction false} CutPartsNamed(segments: seq<string>, env: seq<string>)
    ensures Truncated(segments) == if segments == [] then [] else [ShellTruncated(segments)]
    ensures |Dropped(env)| == |env| && forall i | 0 <= i < |env| :: Dropped(env)[i] == InlineEnvDropped(env[i])
  {
    if env != [] { CutPartsNamed(segments, env[..|env| - 1]); }
  }

  /** A script of blanks launches nothing, and is reported as the empty command. */
  lemma BlankScript(shell: string, script: string, words: Splitter)
    requires shell in SHELLS && OneCommand(script) && Strip(script) == "" && words("") == Some([])
    ensures Unwrap([shell, "-c", script], words) == ([], [ShellWrapper("")])
  {
    ShellHasScript(shell, script);
    OnePiece(script);
    NoSegment(script);
    assert [shell, "-c", script][2] == script;
    assert Segments(Pieces(script)) == [];
    var none: seq<string>, quiet: seq<Warning> := [], [];
    assert none[0..] == none && none[..0] == none;
    assert Unprefixed(none) == (none, quiet);
    assert quiet + quiet + [ShellWrapper("")] == [ShellWrapper("")];
  }
}
