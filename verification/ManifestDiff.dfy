/** The side-by-side diff built from the opcodes of a sequence matcher, and the pairing of
    manifests it is shown for. */
module ManifestDiff {
  import opened Wrappers

  datatype Tag = Equal | Replace | Delete | Insert

  /** Lines `i1..i2` of the first text against `j1..j2` of the second. */
  datatype Opcode = Opcode(tag: Tag, i1: nat, i2: nat, j1: nat, j2: nat)

  datatype Cell = Cell(line: nat, text: string)

  datatype Row = Row(op: Tag, left: Option<Cell>, right: Option<Cell>)

  /** What the matcher promises: the opcodes tile both texts in order, and equal blocks are equal. */
  ghost predicate Tiles(ops: seq<Opcode>, a: seq<string>, b: seq<string>) {
    TilesFrom(ops, a, b, 0, 0)
  }

  ghost predicate TilesFrom(ops: seq<Opcode>, a: seq<string>, b: seq<string>, i: nat, j: nat) {
    if ops == [] then i == |a| && j == |b|
    else
      var o := ops[0];
      && o.i1 == i && o.j1 == j && i <= o.i2 <= |a| && j <= o.j2 <= |b|
      && (o.tag.Equal? ==> a[o.i1..o.i2] == b[o.j1..o.j2])
      && TilesFrom(ops[1..], a, b, o.i2, o.j2)
  }

  /** The first lines of a text, numbered from one. */
  function Numbered(text: seq<string>, to: nat): seq<Cell>
    requires to <= |text|
  {
    if to == 0 then [] else Numbered(text, to - 1) + [Cell(to, text[to - 1])]
  }

  function Lefts(rows: seq<Row>): seq<Cell> {
    if rows == [] then []
    else Lefts(rows[..|rows| - 1]) + (if rows[|rows| - 1].left.Some? then [rows[|rows| - 1].left.value] else [])
  }

  function Rights(rows: seq<Row>): seq<Cell> {
    if rows == [] then []
    else Rights(rows[..|rows| - 1]) + (if rows[|rows| - 1].right.Some? then [rows[|rows| - 1].right.value] else [])
  }

  function Changed(rows: seq<Row>): nat {
    if rows == [] then 0
    else Changed(rows[..|rows| - 1]) + (if rows[|rows| - 1].op.Equal? then 0 else 1)
  }

  /** A row says what it shows: both cells and the same text, both cells, or the one cell there is. */
  predicate RowFits(r: Row) {
    match r.op
    case Equal => r.left.Some? && r.right.Some? && r.left.value.text == r.right.value.text
    case Replace => r.left.Some? && r.right.Some?
    case Delete => r.left.Some? && r.right.None?
    case Insert => r.left.None? && r.right.Some?
  }

  predicate AllFit(rows: seq<Row>) {
    rows == [] || (RowFits(rows[|rows| - 1]) && AllFit(rows[..|rows| - 1]))
  }

  /** The rows show the first `i` lines of one text beside the first `j` of the other, in order. */
  ghost predicate Show(rows: seq<Row>, a: seq<string>, i: nat, b: seq<string>, j: nat) {
    i <= |a| && j <= |b| && Lefts(rows) == Numbered(a, i) && Rights(rows) == Numbered(b, j) && AllFit(rows)
  }

  /** The changed rows that a block makes: its lines are paired, the longer side's leftovers stand alone. */
  function Pairs(o: Opcode): nat
    requires o.i1 <= o.i2 && o.j1 <= o.j2
  {
    if o.i2 - o.i1 < o.j2 - o.j1 then o.j2 - o.j1 else o.i2 - o.i1
  }

  ghost predicate Forward(ops: seq<Opcode>) {
    ops == [] || (ops[|ops| - 1].i1 <= ops[|ops| - 1].i2 && ops[|ops| - 1].j1 <= ops[|ops| - 1].j2
                  && Forward(ops[..|ops| - 1]))
  }

  ghost function ChangedIn(ops: seq<Opcode>): nat
    requires Forward(ops)
  {
    if ops == [] then 0
    else ChangedIn(ops[..|ops| - 1]) + (if ops[|ops| - 1].tag.Equal? then 0 else Pairs(ops[|ops| - 1]))
  }

  lemma ShowOneMore(rows: seq<Row>, r: Row, a: seq<string>, i: nat, i': nat, b: seq<string>, j: nat, j': nat)
    requires Show(rows, a, i, b, j) && RowFits(r) && i <= i' <= |a| && j <= j' <= |b|
    requires if r.left.Some? then i' == i + 1 && r.left.value == Cell(i', a[i]) else i' == i
    requires if r.right.Some? then j' == j + 1 && r.right.value == Cell(j', b[j]) else j' == j
    ensures Show(rows + [r], a, i', b, j')
    ensures Changed(rows + [r]) == Changed(rows) + (if r.op.Equal? then 0 else 1)
  {
  }

  method AppendEqual(rows: seq<Row>, o: Opcode, a: seq<string>, b: seq<string>) returns (out: seq<Row>)
    requires o.i1 <= o.i2 <= |a| && o.j1 <= o.j2 <= |b| && a[o.i1..o.i2] == b[o.j1..o.j2]
    requires Show(rows, a, o.i1, b, o.j1)
    ensures Show(out, a, o.i2, b, o.j2) && Changed(out) == Changed(rows)
  {
    out := rows;
    assert |a[o.i1..o.i2]| == |b[o.j1..o.j2]|;
    for k := 0 to o.i2 - o.i1
      invariant Show(out, a, o.i1 + k, b, o.j1 + k) && Changed(out) == Changed(rows)
    {
      assert a[o.i1..o.i2][k] == b[o.j1..o.j2][k];
      var i: nat, j: nat := o.i1 + k, o.j1 + k;
      var row := Row(Equal, Some(Cell(i + 1, a[i])), Some(Cell(j + 1, b[j])));
      ShowOneMore(out, row, a, i, i + 1, b, j, j + 1);
      out := out + [row];
    }
  }

  method AppendChanged(rows: seq<Row>, o: Opcode, a: seq<string>, b: seq<string>) returns (out: seq<Row>)
    requires o.i1 <= o.i2 <= |a| && o.j1 <= o.j2 <= |b|
    requires Show(rows, a, o.i1, b, o.j1)
    ensures Show(out, a, o.i2, b, o.j2) && Changed(out) == Changed(rows) + Pairs(o)
  {
    out := rows;
    var i, j := o.i1, o.j1;
    ghost var made := 0;
    while i < o.i2 || j < o.j2
      invariant 0 <= made <= Pairs(o)
      invariant i == (if made < o.i2 - o.i1 then o.i1 + made else o.i2)
      invariant j == (if made < o.j2 - o.j1 then o.j1 + made else o.j2)
      invariant Show(out, a, i, b, j) && Changed(out) == Changed(rows) + made
      decreases Pairs(o) - made
    {
      var left := if i < o.i2 then Some(Cell(i + 1, a[i])) else None;
      var right := if j < o.j2 then Some(Cell(j + 1, b[j])) else None;
      var op := if left.Some? && right.Some? then Replace else if left.Some? then Delete else Insert;
      var i' := if left.Some? then i + 1 else i;
      var j' := if right.Some? then j + 1 else j;
      ShowOneMore(out, Row(op, left, right), a, i, i', b, j, j');
      out := out + [Row(op, left, right)];
      i, j, made := i', j', made + 1;
    }
  }

  lemma {:induction false} TilesForward(ops: seq<Opcode>, a: seq<string>, b: seq<string>, i: nat, j: nat, k: nat)
    requires TilesFrom(ops, a, b, i, j) && k < |ops|
    ensures ops[k].i1 <= ops[k].i2 <= |a| && ops[k].j1 <= ops[k].j2 <= |b|
  {
    if k > 0 { TilesForward(ops[1..], a, b, ops[0].i2, ops[0].j2, k - 1); }
  }

  lemma {:induction false} AllForward(ops: seq<Opcode>, a: seq<string>, b: seq<string>, n: nat)
    requires Tiles(ops, a, b) && n <= |ops|
    ensures Forward(ops[..n])
  {
    if n > 0 {
      TilesForward(ops, a, b, 0, 0, n - 1);
      AllForward(ops, a, b, n - 1);
      assert ops[..n][..n - 1] == ops[..n - 1];
    }
  }

  /** Nothing of either text is lost, reordered or invented, whatever opcodes the matcher picks; the changed
      rows are exactly those of its unequal blocks. */
  method SideBySide(a: seq<string>, b: seq<string>, ops: seq<Opcode>) returns (rows: seq<Row>)
    requires Tiles(ops, a, b)
    ensures Lefts(rows) == Numbered(a, |a|) && Rights(rows) == Numbered(b, |b|) && AllFit(rows)
    ensures Forward(ops) && Changed(rows) == ChangedIn(ops)
  {
    rows := [];
    var i: nat, j: nat := 0, 0;
    assert ops[0..] == ops;
    for k := 0 to |ops|
      invariant TilesFrom(ops[k..], a, b, i, j) && Show(rows, a, i, b, j)
      invariant Forward(ops[..k]) && Changed(rows) == ChangedIn(ops[..k])
    {
      var o := ops[k];
      assert ops[k..][0] == o && ops[k..][1..] == ops[k + 1..];
      assert ops[..k + 1][..k] == ops[..k] && ops[..k + 1][k] == o;
      AllForward(ops, a, b, k + 1);
      if o.tag.Equal? {
        rows := AppendEqual(rows, o, a, b);
      } else {
        rows := AppendChanged(rows, o, a, b);
      }
      i, j := o.i2, o.j2;
    }
    assert ops[..|ops|] == ops;
  }

  lemma {:induction false} LeadingUnchanged(ops: seq<Opcode>)
    requires ops != [] && Forward(ops) && ChangedIn(ops) == 0
    ensures Forward(ops[1..]) && ChangedIn(ops[1..]) == 0
    ensures ops[0].i1 <= ops[0].i2 && ops[0].j1 <= ops[0].j2
    ensures ops[0].tag.Equal? || Pairs(ops[0]) == 0
  {
    if |ops| > 1 {
      LeadingUnchanged(ops[..|ops| - 1]);
      assert ops[..|ops| - 1][1..] == ops[1..][..|ops| - 2];
    }
  }

  lemma {:induction false} UnchangedFrom(ops: seq<Opcode>, a: seq<string>, b: seq<string>, i: nat, j: nat)
    requires i <= |a| && j <= |b| && TilesFrom(ops, a, b, i, j) && Forward(ops) && ChangedIn(ops) == 0
    ensures a[i..] == b[j..]
  {
    if ops != [] {
      var o := ops[0];
      LeadingUnchanged(ops);
      UnchangedFrom(ops[1..], a, b, o.i2, o.j2);
      assert a[i..] == a[i..o.i2] + a[o.i2..] && b[j..] == b[j..o.j2] + b[o.j2..];
    }
  }

  /** A diff without changed rows is of two texts that are the same, line for line. */
  lemma UnchangedMeansSame(ops: seq<Opcode>, a: seq<string>, b: seq<string>)
    requires Tiles(ops, a, b) && Forward(ops) && ChangedIn(ops) == 0
    ensures a == b
  {
    UnchangedFrom(ops, a, b, 0, 0);
    assert a[0..] == a && b[0..] == b;
  }

  // Manifests

  datatype Key = Key(kind: string, name: string)

  /** A dumped manifest: its key and its lines. */
  datatype Manifest = Manifest(key: Key, lines: seq<string>)

  /** `{key(m): m for m in ms}`: the last of a key wins. */
  function ByKey(ms: seq<Manifest>): map<Key, Manifest> {
    if ms == [] then map[] else ByKey(ms[..|ms| - 1])[ms[|ms| - 1].key := ms[|ms| - 1]]
  }

  function KeysOf(ms: seq<Manifest>): seq<Key> {
    seq(|ms|, i requires 0 <= i < |ms| => ms[i].key)
  }

  /** The keys of a dict in insertion order: each key once, where it first came. */
  function FirstKeys(ms: seq<Manifest>): seq<Key> {
    if ms == [] then []
    else
      var front := FirstKeys(ms[..|ms| - 1]);
      if ms[|ms| - 1].key in front then front else front + [ms[|ms| - 1].key]
  }

  function Without(keys: seq<Key>, others: seq<Key>): seq<Key> {
    if keys == [] then []
    else Without(keys[..|keys| - 1], others) + (if keys[|keys| - 1] in others then [] else [keys[|keys| - 1]])
  }

  /** The current manifests' keys in order, then those only proposed, in theirs. */
  method PairKeys(current: seq<Manifest>, proposed: seq<Manifest>) returns (keys: seq<Key>)
    ensures keys == KeysOf(current) + Without(FirstKeys(proposed), KeysOf(current))
    ensures forall k :: k in keys <==> k in KeysOf(current) || k in KeysOf(proposed)
    ensures forall p, q | |current| <= p < q < |keys| :: keys[p] != keys[q]
    ensures forall p | |current| <= p < |keys| :: keys[p] !in KeysOf(current)
  {
    var own := KeysOf(current);
    keys := own;
    var after := FirstKeys(proposed);
    for i := 0 to |after|
      invariant keys == own + Without(after[..i], own)
    {
      assert after[..i + 1][..i] == after[..i];
      if after[i] !in own {
        keys := keys + [after[i]];
      }
    }
    assert after[..|after|] == after;
    FirstKeysAre(proposed);
    WithoutAre(after, own);
  }

  lemma {:induction false} WithoutAre(keys: seq<Key>, others: seq<Key>)
    ensures forall k :: k in Without(keys, others) <==> k in keys && k !in others
    ensures (forall p, q | 0 <= p < q < |keys| :: keys[p] != keys[q]) ==>
              forall p, q | 0 <= p < q < |Without(keys, others)| :: Without(keys, others)[p] != Without(keys, others)[q]
  {
    if keys != [] {
      WithoutAre(keys[..|keys| - 1], others);
      assert keys == keys[..|keys| - 1] + [keys[|keys| - 1]];
    }
  }

  lemma {:induction false} FirstKeysAre(ms: seq<Manifest>)
    ensures forall k :: k in FirstKeys(ms) <==> k in KeysOf(ms)
    ensures forall p, q | 0 <= p < q < |FirstKeys(ms)| :: FirstKeys(ms)[p] != FirstKeys(ms)[q]
  {
    if ms != [] {
      FirstKeysAre(ms[..|ms| - 1]);
      assert KeysOf(ms) == KeysOf(ms[..|ms| - 1]) + [ms[|ms| - 1].key];
    }
  }

  /** Of several manifests under one key, the last is the one compared. */
  lemma {:induction false} LastOfKeyWins(ms: seq<Manifest>, i: nat)
    requires i < |ms| && forall j | i < j < |ms| :: ms[j].key != ms[i].key
    ensures ms[i].key in ByKey(ms) && ByKey(ms)[ms[i].key] == ms[i]
  {
    if i < |ms| - 1 {
      assert ms[..|ms| - 1][i] == ms[i];
      LastOfKeyWins(ms[..|ms| - 1], i);
    }
  }

  lemma {:induction false} OtherKeysAbsent(ms: seq<Manifest>, key: Key)
    requires key !in KeysOf(ms)
    ensures key !in ByKey(ms)
  {
    if ms != [] {
      assert KeysOf(ms) == KeysOf(ms[..|ms| - 1]) + [ms[|ms| - 1].key];
      OtherKeysAbsent(ms[..|ms| - 1], key);
    }
  }

  datatype Entry = Entry(key: Key, changed: nat, rows: seq<Row>)

  function LinesOf(ms: map<Key, Manifest>, key: Key): seq<string> {
    if key in ms then ms[key].lines else []
  }

  /** The matcher, as the caller knows it. */
  ghost predicate Matches(matcher: (seq<string>, seq<string>) -> seq<Opcode>) {
    forall a, b :: Tiles(matcher(a, b), a, b)
  }

  /** An entry shows both versions of its manifest in full, and without changed rows they are the same. */
  ghost predicate ShowsBoth(e: Entry, before: map<Key, Manifest>, after: map<Key, Manifest>) {
    var was := if e.key in before then before[e.key].lines else [];
    var now := if e.key in after then after[e.key].lines else [];
    && Lefts(e.rows) == Numbered(was, |was|) && Rights(e.rows) == Numbered(now, |now|) && AllFit(e.rows)
    && e.changed == Changed(e.rows) && (e.changed == 0 ==> was == now)
  }

  method DiffOne(key: Key, before: map<Key, Manifest>, after: map<Key, Manifest>,
                 matcher: (seq<string>, seq<string>) -> seq<Opcode>) returns (e: Entry)
    requires Matches(matcher)
    ensures e.key == key && ShowsBoth(e, before, after)
  {
    var a, b := LinesOf(before, key), LinesOf(after, key);
    var rows := SideBySide(a, b, matcher(a, b));
    e := Entry(key, Changed(rows), rows);
    if e.changed == 0 { UnchangedMeansSame(matcher(a, b), a, b); }
  }

  function EntryKeys(es: seq<Entry>): seq<Key> {
    if es == [] then [] else EntryKeys(es[..|es| - 1]) + [es[|es| - 1].key]
  }

  ghost predicate AllShowBoth(es: seq<Entry>, before: map<Key, Manifest>, after: map<Key, Manifest>) {
    es == [] || (ShowsBoth(es[|es| - 1], before, after) && AllShowBoth(es[..|es| - 1], before, after))
  }

  lemma OneMoreEntry(es: seq<Entry>, e: Entry, before: map<Key, Manifest>, after: map<Key, Manifest>)
    ensures EntryKeys(es + [e]) == EntryKeys(es) + [e.key]
    ensures AllShowBoth(es, before, after) && ShowsBoth(e, before, after) ==> AllShowBoth(es + [e], before, after)
  {
    assert (es + [e])[..|es|] == es;
  }

  method AddEntry(es: seq<Entry>, key: Key, before: map<Key, Manifest>, after: map<Key, Manifest>,
                  matcher: (seq<string>, seq<string>) -> seq<Opcode>) returns (out: seq<Entry>)
    requires Matches(matcher) && AllShowBoth(es, before, after)
    ensures EntryKeys(out) == EntryKeys(es) + [key] && AllShowBoth(out, before, after)
  {
    var e := DiffOne(key, before, after, matcher);
    OneMoreEntry(es, e, before, after);
    out := es + [e];
  }

  method DiffKeys(keys: seq<Key>, before: map<Key, Manifest>, after: map<Key, Manifest>,
                  matcher: (seq<string>, seq<string>) -> seq<Opcode>) returns (out: seq<Entry>)
    requires Matches(matcher)
    ensures EntryKeys(out) == keys && AllShowBoth(out, before, after)
  {
    out := [];
    for n := 0 to |keys|
      invariant EntryKeys(out) == keys[..n] && AllShowBoth(out, before, after)
    {
      out := AddEntry(out, keys[n], before, after, matcher);
    }
    assert keys[..|keys|] == keys;
  }

  /** One entry for each key that either side has, the current ones first and in their order. */
  method ManifestDiffs(current: seq<Manifest>, proposed: seq<Manifest>,
                       matcher: (seq<string>, seq<string>) -> seq<Opcode>) returns (out: seq<Entry>)
    requires Matches(matcher)
    ensures EntryKeys(out) == KeysOf(current) + Without(FirstKeys(proposed), KeysOf(current))
    ensures forall k :: k in EntryKeys(out) <==> k in KeysOf(current) || k in KeysOf(proposed)
    ensures AllShowBoth(out, ByKey(current), ByKey(proposed))
  {
    var keys := PairKeys(current, proposed);
    out := DiffKeys(keys, ByKey(current), ByKey(proposed), matcher);
  }
}
