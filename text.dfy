/**
 * The parts of Python's `str` behaviour the job engine depends on: `strip`,
 * `rstrip`, `split("\n")`, `join`, the `<` order on strings, `sorted` over a
 * set, `str(int)`, and the order-preserving de-duplication loop with a `seen`
 * set that the engine writes out three times.
 */
module Text {

  // ---------------------------------------------------------------------------
  // Whitespace and stripping
  // ---------------------------------------------------------------------------

  /** Python's `str.isspace()` for one character. */
  predicate IsSpace(c: char) {
    var n := c as int;
    n == 0x20 || 0x09 <= n <= 0x0D || 0x1C <= n <= 0x1F || n == 0x85 || n == 0xA0
    || n == 0x1680 || 0x2000 <= n <= 0x200A || n == 0x2028 || n == 0x2029
    || n == 0x202F || n == 0x205F || n == 0x3000
  }

  predicate AllSpace(s: string) {
    forall i :: 0 <= i < |s| ==> IsSpace(s[i])
  }

  /** `s.lstrip()`: `s` without its leading whitespace. */
  function LStrip(s: string): string {
    if s != [] && IsSpace(s[0]) then LStrip(s[1..]) else s
  }

  /** `s.rstrip()`: `s` without its trailing whitespace. */
  function RStrip(s: string): string {
    if s != [] && IsSpace(s[|s| - 1]) then RStrip(s[..|s| - 1]) else s
  }

  /** `s.strip()`: `s` without whitespace at either end. */
  function Strip(s: string): string {
    RStrip(LStrip(s))
  }

  /** What `lstrip` removes is a run of whitespace at the front, and no more. */
  lemma {:induction false} LStripSpec(s: string)
    ensures var r := LStrip(s);
      |r| <= |s| && r == s[|s| - |r|..] && AllSpace(s[..|s| - |r|]) && (r == [] || !IsSpace(r[0]))
  {
    if s != [] && IsSpace(s[0]) {
      LStripSpec(s[1..]);
      var r := LStrip(s);
      assert s[..|s| - |r|] == [s[0]] + s[1..][..|s| - 1 - |r|];
    }
  }

  /** What `rstrip` removes is a run of whitespace at the end, and no more. */
  lemma {:induction false} RStripSpec(s: string)
    ensures var r := RStrip(s);
      |r| <= |s| && r == s[..|r|] && AllSpace(s[|r|..]) && (r == [] || !IsSpace(r[|r| - 1]))
  {
    if s != [] && IsSpace(s[|s| - 1]) {
      RStripSpec(s[..|s| - 1]);
      var r := RStrip(s);
      assert s[|r|..] == s[..|s| - 1][|r|..] + [s[|s| - 1]];
    }
  }

  /**
   * A stripped string is empty or has no whitespace at either end, and it is
   * empty exactly when the input was all whitespace.
   */
  lemma StripSpec(s: string)
    ensures var r := Strip(s); r == [] || (!IsSpace(r[0]) && !IsSpace(r[|r| - 1]))
    ensures Strip(s) == [] <==> AllSpace(s)
  {
    var l := LStrip(s);
    var r := RStrip(l);
    LStripSpec(s);
    RStripSpec(l);
    assert r != [] ==> r[0] == l[0];
    if r == [] {
      assert AllSpace(l[0..]);
      assert l == [];
      assert s[..|s|] == s;
    }
  }

  /** A value that survived `strip()` and a blank check: an entry of a result file. */
  predicate IsEntry(x: string) {
    x != [] && !IsSpace(x[0]) && !IsSpace(x[|x| - 1])
  }

  /** Stripping an entry gives the entry back. */
  lemma StripEntry(x: string)
    requires IsEntry(x)
    ensures Strip(x) == x
  {
    assert LStrip(x) == x;
    assert RStrip(x) == x;
  }

  // ---------------------------------------------------------------------------
  // Splitting and joining
  // ---------------------------------------------------------------------------

  /** `s.split(sep)` for a one-character separator. */
  function Split(s: string, sep: char): (r: seq<string>)
    ensures |r| >= 1
    ensures forall i :: 0 <= i < |r| ==> sep !in r[i]
  {
    if s == [] then [[]]
    else
      var rest := Split(s[1..], sep);
      if s[0] == sep then [[]] + rest else [[s[0]] + rest[0]] + rest[1..]
  }

  /** `sep.join(parts)`. */
  function Join(parts: seq<string>, sep: string): string {
    if parts == [] then []
    else if |parts| == 1 then parts[0]
    else parts[0] + sep + Join(parts[1..], sep)
  }

  /** Joining the pieces of a split with the separator gives the string back. */
  lemma {:induction false} JoinSplit(s: string, sep: char)
    ensures Join(Split(s, sep), [sep]) == s
  {
    if s != [] {
      var rest := Split(s[1..], sep);
      JoinSplit(s[1..], sep);
      if s[0] == sep {
        assert ([[]] + rest)[1..] == rest;
        assert s == [sep] + s[1..];
      } else {
        var parts := [[s[0]] + rest[0]] + rest[1..];
        if |rest| == 1 {
          assert s == [s[0]] + s[1..];
        } else {
          assert parts[1..] == rest[1..];
          assert Join(rest, [sep]) == rest[0] + [sep] + Join(rest[1..], [sep]);
          assert s == [s[0]] + s[1..];
        }
      }
    }
  }

  // ---------------------------------------------------------------------------
  // Order-preserving de-duplication
  // ---------------------------------------------------------------------------

  predicate Distinct<T(==)>(s: seq<T>) {
    forall i, j :: 0 <= i < j < |s| ==> s[i] != s[j]
  }

  /** `[l.strip() for l in lines if l.strip()]`. */
  function Clean(lines: seq<string>): (r: seq<string>)
    ensures |r| <= |lines|
  {
    if lines == [] then []
    else
      var c := Strip(lines[0]);
      (if c == [] then [] else [c]) + Clean(lines[1..])
  }

  /** A line contributes its stripped form exactly when that is not blank. */
  lemma {:induction false} CleanMember(lines: seq<string>, i: nat)
    requires i < |lines|
    ensures Strip(lines[i]) != [] ==> Strip(lines[i]) in Clean(lines)
  {
    if i > 0 {
      CleanMember(lines[1..], i - 1);
    }
  }

  /** Conversely, every kept line is the stripped form of some input line. */
  lemma {:induction false} CleanSource(lines: seq<string>, x: string)
    requires x in Clean(lines)
    ensures exists i :: 0 <= i < |lines| && Strip(lines[i]) == x
  {
    var c := Strip(lines[0]);
    if x != c {
      CleanSource(lines[1..], x);
      var i :| 0 <= i < |lines[1..]| && Strip(lines[1..][i]) == x;
      assert Strip(lines[i + 1]) == x;
    }
  }

  /** Every kept line is an entry: stripped and not blank. */
  lemma {:induction false} CleanEntries(lines: seq<string>)
    ensures forall x :: x in Clean(lines) ==> IsEntry(x)
  {
    if lines != [] {
      StripSpec(lines[0]);
      CleanEntries(lines[1..]);
    }
  }

  lemma {:induction false} CleanAppend(a: seq<string>, b: seq<string>)
    ensures Clean(a + b) == Clean(a) + Clean(b)
  {
    if a == [] {
      assert a + b == b;
    } else {
      assert (a + b)[1..] == a[1..] + b;
      CleanAppend(a[1..], b);
    }
  }

  /**
   * The reference de-duplication: element `i` of `xs` is kept exactly when it
   * does not occur at an earlier position, and kept elements stay in order.
   */
  function KeepFirst(xs: seq<string>): (r: seq<string>)
    ensures Distinct(r)
    ensures forall x :: x in r <==> x in xs
  {
    if xs == [] then []
    else
      var init := xs[..|xs| - 1];
      var last := xs[|xs| - 1];
      assert xs == init + [last];
      KeepFirst(init) + (if last in init then [] else [last])
  }

  lemma {:induction false} KeepFirstOfDistinct(xs: seq<string>)
    requires Distinct(xs)
    ensures KeepFirst(xs) == xs
  {
    if xs != [] {
      var init := xs[..|xs| - 1];
      KeepFirstOfDistinct(init);
      assert xs == init + [xs[|xs| - 1]];
    }
  }

  lemma KeepFirstSnoc(ys: seq<string>, c: string)
    ensures KeepFirst(ys + [c]) == KeepFirst(ys) + (if c in ys then [] else [c])
  {
    assert (ys + [c])[..|ys|] == ys;
  }

  /**
   * The accumulation loop the engine uses with a `seen` set: each line is
   * stripped and appended when it is non-blank and not yet present.
   */
  function AddNew(acc: seq<string>, lines: seq<string>): (r: seq<string>)
    ensures |acc| <= |r| && r[..|acc|] == acc
    ensures forall x :: x in r <==> x in acc || x in Clean(lines)
    ensures Distinct(acc) ==> Distinct(r)
    decreases |lines|
  {
    if lines == [] then acc
    else
      var c := Strip(lines[0]);
      var next := if c != [] && c !in acc then acc + [c] else acc;
      var r := AddNew(next, lines[1..]);
      assert r[..|acc|] == next[..|next|][..|acc|];
      assert Clean(lines) == (if c == [] then [] else [c]) + Clean(lines[1..]);
      r
  }

  /** Accumulating two batches one after the other is accumulating their concatenation. */
  lemma {:induction false} AddNewAppend(acc: seq<string>, a: seq<string>, b: seq<string>)
    ensures AddNew(acc, a + b) == AddNew(AddNew(acc, a), b)
    decreases |a|
  {
    if a == [] {
      assert a + b == b;
    } else {
      assert (a + b)[1..] == a[1..] + b;
      var c := Strip(a[0]);
      AddNewAppend(if c != [] && c !in acc then acc + [c] else acc, a[1..], b);
    }
  }

  /**
   * The loop computes the reference de-duplication of the old entries followed
   * by the stripped, non-blank lines: first occurrences, in order.
   */
  lemma {:induction false} AddNewIsKeepFirst(acc: seq<string>, lines: seq<string>)
    requires Distinct(acc)
    ensures AddNew(acc, lines) == KeepFirst(acc + Clean(lines))
    decreases |lines|
  {
    if lines == [] {
      KeepFirstOfDistinct(acc);
      assert acc + Clean(lines) == acc;
    } else {
      var init := lines[..|lines| - 1];
      var last := lines[|lines| - 1];
      assert lines == init + [last];
      AddNewIsKeepFirst(acc, init);
      AddNewSnoc(acc, init, last);
    }
  }

  /** One more line: the inductive step of `AddNewIsKeepFirst`. */
  lemma AddNewSnoc(acc: seq<string>, init: seq<string>, last: string)
    requires AddNew(acc, init) == KeepFirst(acc + Clean(init))
    ensures AddNew(acc, init + [last]) == KeepFirst(acc + Clean(init + [last]))
  {
    var ys := acc + Clean(init);
    var xs := AddNew(acc, init);
    var c := Strip(last);
    AddNewLast(acc, init, last);
    CleanLast(acc, init, last);
    if c != [] {
      KeepFirstSnoc(ys, c);
      assert c in xs <==> c in ys;
    }
  }

  lemma AddNewLast(acc: seq<string>, init: seq<string>, last: string)
    ensures AddNew(acc, init + [last]) ==
      var xs := AddNew(acc, init); var c := Strip(last);
      if c != [] && c !in xs then xs + [c] else xs
  {
    AddNewAppend(acc, init, [last]);
    AddNewOne(AddNew(acc, init), last);
  }

  lemma CleanLast(acc: seq<string>, init: seq<string>, last: string)
    ensures acc + Clean(init + [last]) ==
      var c := Strip(last); if c == [] then acc + Clean(init) else acc + Clean(init) + [c]
  {
    CleanAppend(init, [last]);
    CleanOne(last);
  }

  lemma AddNewOne(acc: seq<string>, line: string)
    ensures AddNew(acc, [line]) ==
      var c := Strip(line); if c != [] && c !in acc then acc + [c] else acc
  {
    assert [line][1..] == [];
  }

  lemma CleanOne(line: string)
    ensures Clean([line]) == var c := Strip(line); if c == [] then [] else [c]
  {
    assert [line][1..] == [];
  }

  /** Re-running the accumulation over the same lines adds nothing. */
  lemma {:induction false} AddNewIdempotent(acc: seq<string>, lines: seq<string>)
    ensures AddNew(AddNew(acc, lines), lines) == AddNew(acc, lines)
  {
    var r := AddNew(acc, lines);
    AddNewCovered(r, lines);
  }

  /** Lines whose cleaned form is already present add nothing. */
  lemma {:induction false} AddNewCovered(acc: seq<string>, lines: seq<string>)
    requires forall x :: x in Clean(lines) ==> x in acc
    ensures AddNew(acc, lines) == acc
    decreases |lines|
  {
    if lines != [] {
      assert Clean(lines) == (if Strip(lines[0]) == [] then [] else [Strip(lines[0])]) + Clean(lines[1..]);
      AddNewCovered(acc, lines[1..]);
    }
  }

  // ---------------------------------------------------------------------------
  // Order on strings and sorting
  // ---------------------------------------------------------------------------

  /** Python's `<` on `str`: lexicographic by code point. */
  predicate Less(a: string, b: string)
    decreases |a|
  {
    if a == [] then b != []
    else b != [] && (a[0] < b[0] || (a[0] == b[0] && Less(a[1..], b[1..])))
  }

  lemma {:induction false} LessIrreflexive(a: string)
    ensures !Less(a, a)
  {
    if a != [] {
      LessIrreflexive(a[1..]);
    }
  }

  lemma {:induction false} LessTransitive(a: string, b: string, c: string)
    requires Less(a, b) && Less(b, c)
    ensures Less(a, c)
    decreases |a|
  {
    if a != [] && a[0] == b[0] && b[0] == c[0] {
      LessTransitive(a[1..], b[1..], c[1..]);
    }
  }

  lemma {:induction false} LessTotal(a: string, b: string)
    requires a != b
    ensures Less(a, b) || Less(b, a)
    decreases |a|
  {
    if a != [] && b != [] && a[0] == b[0] {
      assert a == [a[0]] + a[1..] && b == [b[0]] + b[1..];
      LessTotal(a[1..], b[1..]);
    }
  }

  lemma LessAsymmetric(a: string, b: string)
    requires Less(a, b)
    ensures !Less(b, a)
  {
    if Less(b, a) {
      LessTransitive(a, b, a);
      LessIrreflexive(a);
    }
  }

  /** Ascending without repetition, as `sorted()` prints a set. */
  predicate StrictlySorted(s: seq<string>) {
    forall i, j :: 0 <= i < j < |s| ==> Less(s[i], s[j])
  }

  lemma SortedCons(x: string, s: seq<string>)
    requires StrictlySorted(s)
    requires forall y :: y in s ==> Less(x, y)
    ensures StrictlySorted([x] + s)
  {
  }

  /** Insert `x` at its place in a strictly sorted sequence. */
  function Insert(x: string, s: seq<string>): (r: seq<string>)
    requires StrictlySorted(s)
    ensures StrictlySorted(r)
    ensures forall y :: y in r <==> y == x || y in s
  {
    if s == [] then [x]
    else if x == s[0] then s
    else if Less(x, s[0]) then
      InsertBelowHead(x, s);
      [x] + s
    else
      LessTotal(x, s[0]);
      var t := Insert(x, s[1..]);
      assert forall y :: y in t ==> Less(s[0], y) by {
        forall y | y in t ensures Less(s[0], y) {
          if y != x {
            var j :| 0 <= j < |s[1..]| && s[1..][j] == y;
            assert s[j + 1] == y;
          }
        }
      }
      SortedCons(s[0], t);
      [s[0]] + t
  }

  lemma InsertBelowHead(x: string, s: seq<string>)
    requires StrictlySorted(s) && s != [] && Less(x, s[0])
    ensures forall y :: y in s ==> Less(x, y)
  {
    forall y | y in s ensures Less(x, y) {
      var j :| 0 <= j < |s| && s[j] == y;
      if j > 0 {
        LessTransitive(x, s[0], y);
      }
    }
  }

  /** Two strictly sorted sequences with the same elements are the same sequence. */
  lemma {:induction false} SortedUnique(a: seq<string>, b: seq<string>)
    requires StrictlySorted(a) && StrictlySorted(b)
    requires forall x :: x in a <==> x in b
    ensures a == b
  {
    if a != [] {
      assert a[0] in b;
    }
    if b != [] {
      assert b[0] in a;
    }
    if a != [] && b != [] {
      if a[0] != b[0] {
        var j :| 0 <= j < |b| && b[j] == a[0];
        var k :| 0 <= k < |a| && a[k] == b[0];
        assert Less(b[0], a[0]);
        assert Less(a[0], b[0]);
        LessAsymmetric(a[0], b[0]);
      }
      forall x ensures x in a[1..] <==> x in b[1..] {
        if x in a[1..] {
          var i :| 0 <= i < |a[1..]| && a[1..][i] == x;
          assert Less(a[0], a[i + 1]);
          LessIrreflexive(x);
          assert x != a[0];
          assert x in b;
          var j :| 0 <= j < |b| && b[j] == x;
          assert j != 0;
          assert x == b[1..][j - 1];
        }
        if x in b[1..] {
          var i :| 0 <= i < |b[1..]| && b[1..][i] == x;
          assert Less(b[0], b[i + 1]);
          LessIrreflexive(x);
          assert x in a;
          var j :| 0 <= j < |a| && a[j] == x;
          assert j != 0;
          assert x == a[1..][j - 1];
        }
      }
      SortedUnique(a[1..], b[1..]);
      assert a == [a[0]] + a[1..] && b == [b[0]] + b[1..];
    }
  }

  /** `sorted(items)` for a set of strings. */
  method SortStrings(items: set<string>) returns (r: seq<string>)
    ensures StrictlySorted(r)
    ensures forall x :: x in r <==> x in items
  {
    r := [];
    var rest := items;
    while rest != {}
      invariant rest <= items
      invariant StrictlySorted(r)
      invariant forall x :: x in r <==> x in items && x !in rest
      decreases rest
    {
      var x :| x in rest;
      r := Insert(x, r);
      rest := rest - {x};
    }
  }

  /**
   * Iteration over a set or a dict's keys in whatever order the runtime gives:
   * each element exactly once, in an order the model leaves open.
   */
  method Enumerate(items: set<string>) returns (r: seq<string>)
    ensures Distinct(r)
    ensures forall x :: x in r <==> x in items
    ensures |r| == |items|
  {
    r := [];
    var rest := items;
    while rest != {}
      invariant rest <= items
      invariant Distinct(r)
      invariant forall x :: x in r <==> x in items && x !in rest
      invariant |r| + |rest| == |items|
      decreases rest
    {
      var x :| x in rest;
      r := r + [x];
      rest := rest - {x};
    }
  }

  // ---------------------------------------------------------------------------
  // str(int)
  // ---------------------------------------------------------------------------

  predicate IsDigit(c: char) {
    '0' <= c <= '9'
  }

  function DigitChar(d: nat): (c: char)
    requires d < 10
    ensures IsDigit(c) && c as int - '0' as int == d
  {
    ('0' as int + d) as char
  }

  /** `str(n)` for `n >= 0`: decimal digits, no leading zero. */
  function NatToString(n: nat): (r: string)
    ensures |r| >= 1 && forall i :: 0 <= i < |r| ==> IsDigit(r[i])
    ensures r[0] == '0' ==> n == 0
  {
    if n < 10 then [DigitChar(n)] else NatToString(n / 10) + [DigitChar(n % 10)]
  }

  /** `str(i)`. */
  function IntToString(i: int): (r: string)
    ensures r != []
    ensures r[0] == '-' <==> i < 0
  {
    if i < 0 then "-" + NatToString(-i) else NatToString(i)
  }

  function ParseDigits(s: string): nat
    requires forall i :: 0 <= i < |s| ==> IsDigit(s[i])
  {
    if s == [] then 0
    else
      assert IsDigit(s[|s| - 1]);
      ParseDigits(s[..|s| - 1]) * 10 + (s[|s| - 1] as int - '0' as int)
  }

  /** `int(s)` for the strings `str` produces. */
  function ParseInt(s: string): int
    requires s != [] ==> forall i :: (if s[0] == '-' then 1 else 0) <= i < |s| ==> IsDigit(s[i])
  {
    if s != [] && s[0] == '-' then 0 - ParseDigits(s[1..]) as int else ParseDigits(s)
  }

  lemma {:induction false} ParseNatToString(n: nat)
    ensures ParseDigits(NatToString(n)) == n
  {
    if n >= 10 {
      ParseNatToString(n / 10);
      var s := NatToString(n / 10) + [DigitChar(n % 10)];
      assert s[..|s| - 1] == NatToString(n / 10);
    }
  }

  /** `int(str(i)) == i`. */
  lemma IntToStringRoundTrip(i: int)
    ensures ParseInt(IntToString(i)) == i
  {
    if i < 0 {
      ParseNatToString(-i);
      assert IntToString(i)[1..] == NatToString(-i);
    } else {
      ParseNatToString(i);
    }
  }
}
