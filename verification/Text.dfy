/** Strings as the portal's Python reads them: ASCII character classes, the decimal
    spelling of integers, and the code-point order that `sorted` uses on keys. */
module Text {

  predicate IsDigit(c: char) { '0' <= c <= '9' }

  predicate IsLower(c: char) { 'a' <= c <= 'z' }

  predicate IsUpper(c: char) { 'A' <= c <= 'Z' }

  predicate IsSpace(c: char) { c == ' ' || '\t' <= c <= '\r' || '\U{1c}' <= c <= '\U{1f}' }

  predicate AllDigits(s: string) {
    s == "" || (IsDigit(s[|s| - 1]) && AllDigits(s[..|s| - 1]))
  }

  lemma {:induction false} AllDigitsAt(s: string)
    ensures AllDigits(s) <==> forall i | 0 <= i < |s| :: IsDigit(s[i])
  {
    if s != "" {
      AllDigitsAt(s[..|s| - 1]);
      assert forall i | 0 <= i < |s| - 1 :: s[..|s| - 1][i] == s[i];
    }
  }

  predicate HasPrefix(s: string, p: string) { p <= s }

  predicate Contains(s: string, p: string) {
    p <= s || (s != "" && Contains(s[1..], p))
  }

  function LowerChar(c: char): char {
    if IsUpper(c) then (c as int + 32) as char else c
  }

  function Lower(s: string): string {
    if s == "" then "" else [LowerChar(s[0])] + Lower(s[1..])
  }

  /** `str.strip` */
  function Strip(s: string): string {
    StripRight(StripLeft(s))
  }

  function StripLeft(s: string): string {
    if s != "" && IsSpace(s[0]) then StripLeft(s[1..]) else s
  }

  function StripRight(s: string): string {
    if s != "" && IsSpace(s[|s| - 1]) then StripRight(s[..|s| - 1]) else s
  }

  /** Python's `$` also matches just before a final newline; this is the text it leaves. */
  function Chomp(s: string): string {
    if s != "" && s[|s| - 1] == '\n' then s[..|s| - 1] else s
  }

  // Decimal integers

  function DigitChar(d: nat): (c: char)
    requires d < 10
    ensures IsDigit(c)
  {
    ('0' as int + d) as char
  }

  function NatText(n: nat): (s: string)
    ensures s != "" && AllDigits(s)
  {
    if n < 10 then [DigitChar(n)] else
      var s := NatText(n / 10) + [DigitChar(n % 10)];
      assert s[..|s| - 1] == NatText(n / 10);
      s
  }

  function ReadNat(s: string): nat
    requires AllDigits(s)
  {
    if s == "" then 0 else ReadNat(s[..|s| - 1]) * 10 + (s[|s| - 1] as int - '0' as int)
  }

  lemma {:induction false} ReadNatText(n: nat)
    ensures ReadNat(NatText(n)) == n
  {
    if n >= 10 {
      ReadNatText(n / 10);
      var s := NatText(n);
      assert s[..|s| - 1] == NatText(n / 10);
      assert s[|s| - 1] == DigitChar(n % 10);
    } else {
      var s := NatText(n);
      assert s[..|s| - 1] == "";
    }
  }

  function IntText(n: int): string {
    if n < 0 then "-" + NatText(-n) else NatText(n)
  }

  // Code-point order

  predicate LexLe(a: string, b: string) {
    a == "" || (b != "" && (a[0] < b[0] || (a[0] == b[0] && LexLe(a[1..], b[1..]))))
  }

  lemma LexTotal(a: string, b: string)
    ensures LexLe(a, b) || LexLe(b, a)
  {
  }

  lemma LexAntisymmetric(a: string, b: string)
    requires LexLe(a, b) && LexLe(b, a)
    ensures a == b
  {
  }

  lemma LexTransitive(a: string, b: string, c: string)
    requires LexLe(a, b) && LexLe(b, c)
    ensures LexLe(a, c)
  {
  }

  predicate IsLeast(k: string, keys: set<string>) {
    k in keys && forall j | j in keys :: LexLe(k, j)
  }

  lemma LeastExists(keys: set<string>)
    requires keys != {}
    ensures exists k :: IsLeast(k, keys)
  {
    var x :| x in keys;
    if keys == {x} {
      LexTotal(x, x);
      assert IsLeast(x, keys);
    } else {
      LeastExists(keys - {x});
      var m :| IsLeast(m, keys - {x});
      LexTotal(x, m);
      LexTotal(x, x);
      if LexLe(x, m) {
        forall j | j in keys ensures LexLe(x, j) {
          if j != x { LexTransitive(x, m, j); }
        }
        assert IsLeast(x, keys);
      } else {
        assert IsLeast(m, keys);
      }
    }
  }

  lemma LeastUnique(keys: set<string>)
    ensures forall a, b :: IsLeast(a, keys) && IsLeast(b, keys) ==> a == b
  {
    forall a, b | IsLeast(a, keys) && IsLeast(b, keys) ensures a == b {
      LexAntisymmetric(a, b);
    }
  }

  function Least(keys: set<string>): (k: string)
    requires keys != {}
    ensures IsLeast(k, keys)
  {
    LeastExists(keys);
    LeastUnique(keys);
    var k :| k in keys && IsLeast(k, keys);
    k
  }

  /** Strictly ascending, hence free of duplicates. */
  ghost predicate Ascending(ks: seq<string>) {
    forall i, j | 0 <= i < j < |ks| :: ks[i] != ks[j] && LexLe(ks[i], ks[j])
  }

  /** The least key in front of the others, in order. */
  lemma LeastInFront(keys: set<string>, k: string, rest: seq<string>)
    requires IsLeast(k, keys) && Ascending(rest) && forall j :: j in rest <==> j in keys - {k}
    ensures Ascending([k] + rest) && forall j :: j in [k] + rest <==> j in keys
  {
    assert forall i | 0 <= i < |rest| :: rest[i] in rest;
    assert forall j :: j in [k] + rest <==> j == k || j in rest;
  }

  /** `sorted(keys)` */
  function Sorted(keys: set<string>): (ks: seq<string>)
    ensures forall k :: k in ks <==> k in keys
    ensures Ascending(ks)
    decreases |keys|
  {
    if keys == {} then [] else
      var k := Least(keys);
      var rest := Sorted(keys - {k});
      LeastInFront(keys, k, rest);
      [k] + rest
  }

  lemma EmptyOrInhabited(s: seq<string>)
    ensures s == [] || exists k :: k in s
  {
    if s != [] { assert s[0] in s; }
  }

  /** Only one ascending list has a given set of members. */
  lemma {:induction false} AscendingUnique(a: seq<string>, b: seq<string>)
    requires Ascending(a) && Ascending(b)
    requires forall k :: k in a <==> k in b
    ensures a == b
  {
    if a == [] {
      EmptyOrInhabited(b);
    } else {
      assert a[0] in a && a[0] in b;
      assert b != [];
      assert b[0] in b && b[0] in a;
      if a[0] != b[0] {
        var i :| 0 <= i < |b| && b[i] == a[0];
        var j :| 0 <= j < |a| && a[j] == b[0];
        LexAntisymmetric(a[0], b[0]);
      }
      forall k ensures k in a[1..] <==> k in b[1..] {
        if k in a[1..] {
          var i :| 0 <= i < |a[1..]| && a[1..][i] == k;
          assert k != a[0] && k in a && k in b;
          var j :| 0 <= j < |b| && b[j] == k;
          assert b[1..][j - 1] == k;
        }
        if k in b[1..] {
          var i :| 0 <= i < |b[1..]| && b[1..][i] == k;
          assert k != b[0] && k in b && k in a;
          var j :| 0 <= j < |a| && a[j] == k;
          assert a[1..][j - 1] == k;
        }
      }
      AscendingUnique(a[1..], b[1..]);
      assert a == [a[0]] + a[1..] && b == [b[0]] + b[1..];
    }
  }

  // What the recursive functions mean

  lemma {:induction false} LowerAt(s: string)
    ensures |Lower(s)| == |s|
    ensures forall i | 0 <= i < |s| :: Lower(s)[i] == if 'A' <= s[i] <= 'Z' then (s[i] as int + 32) as char else s[i]
  {
    if s != "" { LowerAt(s[1..]); }
  }

  /** The text between `a` and `b` has no blank at either end, and all around it is blank. */
  ghost predicate Trims(s: string, a: nat, b: nat) {
    && a <= b <= |s| && (forall i | 0 <= i < |s| && (i < a || b <= i) :: IsSpace(s[i]))
    && (a < b ==> !IsSpace(s[a]) && !IsSpace(s[b - 1]))
  }

  lemma {:induction false} LeftStripped(s: string) returns (a: nat)
    ensures a <= |s| && StripLeft(s) == s[a..] && (forall i | 0 <= i < a :: IsSpace(s[i]))
    ensures a < |s| ==> !IsSpace(s[a])
  {
    a := 0;
    if s != "" && IsSpace(s[0]) {
      var n := LeftStripped(s[1..]);
      a := n + 1;
      assert s[1..][n..] == s[a..];
      assert forall i | 0 < i < a :: s[i] == s[1..][i - 1];
    }
  }

  lemma {:induction false} RightStripped(s: string) returns (b: nat)
    ensures b <= |s| && StripRight(s) == s[..b] && (forall i | b <= i < |s| :: IsSpace(s[i]))
    ensures b > 0 ==> !IsSpace(s[b - 1])
  {
    b := |s|;
    if s != "" && IsSpace(s[|s| - 1]) {
      b := RightStripped(s[..|s| - 1]);
      assert s[..|s| - 1][..b] == s[..b];
      assert forall i | b <= i < |s| - 1 :: s[i] == s[..|s| - 1][i];
    }
  }

  lemma StripIs(s: string)
    ensures exists a: nat, b: nat :: Trims(s, a, b) && Strip(s) == s[a..b]
  {
    var a := LeftStripped(s);
    var n := RightStripped(s[a..]);
    assert s[a..][..n] == s[a..a + n];
    assert forall i | a + n <= i < |s| :: s[i] == s[a..][i - a];
    assert n > 0 ==> s[a..][n - 1] == s[a + n - 1];
    assert Trims(s, a, a + n);
  }

  lemma {:induction false} ContainsIff(s: string, p: string)
    ensures Contains(s, p) <==> exists i :: 0 <= i <= |s| && p <= s[i..]
  {
    assert s[0..] == s;
    if s != "" && !(p <= s) {
      ContainsIff(s[1..], p);
      if i :| 0 <= i <= |s| && p <= s[i..] {
        assert i > 0 && s[1..][i - 1..] == s[i..];
      }
      if i :| 0 <= i <= |s| - 1 && p <= s[1..][i..] {
        assert s[i + 1..] == s[1..][i..];
      }
    }
  }

  /** The blanks of ASCII. */
  lemma BlankIff(c: char)
    ensures IsSpace(c) <==> c in {' ', '\t', '\n', '\U{b}', '\U{c}', '\r', '\U{1c}', '\U{1d}', '\U{1e}', '\U{1f}'}
  {
    if IsSpace(c) && c != ' ' {
      assert (9 <= c as int <= 13 || 28 <= c as int <= 31) && c == (c as int) as char;
    }
  }
}
