/** The parts of Go's `strings` and `strconv` packages the decoder relies on,
    over ASCII text: `strings.TrimSpace`, `strings.Split(s, "\n")` and
    `strconv.Atoi`. */
module Strings {
  import opened Wrappers

  /** The ASCII white space that Go's `strings.TrimSpace` removes. */
  predicate IsSpace(c: char) {
    c == ' ' || c == '\t' || c == '\n' || c == '\U{000B}' || c == '\U{000C}' || c == '\r'
  }

  predicate AllSpace(s: string) {
    forall i :: 0 <= i < |s| ==> IsSpace(s[i])
  }

  /** No white space at either end. */
  predicate Trimmed(s: string) {
    s == [] || (!IsSpace(s[0]) && !IsSpace(s[|s| - 1]))
  }

  predicate IsDigit(c: char) {
    '0' <= c <= '9'
  }

  predicate AllDigits(s: string) {
    forall i :: 0 <= i < |s| ==> IsDigit(s[i])
  }

  function DigitValue(c: char): (d: nat)
    requires IsDigit(c)
    ensures d <= 9
  {
    c as int - '0' as int
  }

  // ---------------------------------------------------------------- trimming

  function TrimLeft(s: string): (r: string)
    ensures |r| <= |s| && r == s[|s| - |r|..]
    ensures AllSpace(s[..|s| - |r|])
    ensures r == [] || !IsSpace(r[0])
  {
    if s != [] && IsSpace(s[0]) then TrimLeft(s[1..]) else s
  }

  function TrimRight(s: string): (r: string)
    ensures |r| <= |s| && r == s[..|r|]
    ensures AllSpace(s[|r|..])
    ensures r == [] || !IsSpace(r[|r| - 1])
  {
    if s != [] && IsSpace(s[|s| - 1]) then TrimRight(s[..|s| - 1]) else s
  }

  /** `strings.TrimSpace`: drop the white space at both ends. */
  function TrimSpace(s: string): string {
    TrimRight(TrimLeft(s))
  }

  /** The result has no white space at either end, is no longer than the
      input, and is empty exactly when the input is all white space. */
  lemma TrimSpaceRule(s: string)
    ensures Trimmed(TrimSpace(s))
    ensures |TrimSpace(s)| <= |s|
    ensures TrimSpace(s) == [] <==> AllSpace(s)
  {
    var l := TrimLeft(s);
    if TrimSpace(s) == [] {
      assert AllSpace(l[|TrimRight(l)|..]);
      assert AllSpace(s) by {
        var p := TrimLeftPart(s);
        AllSpaceAppend(p, l);
      }
    }
  }

  lemma {:induction false} TrimLeftOf(p: string, m: string)
    requires AllSpace(p)
    requires m == [] || !IsSpace(m[0])
    ensures TrimLeft(p + m) == m
  {
    if p != [] {
      assert (p + m)[1..] == p[1..] + m;
      TrimLeftOf(p[1..], m);
    } else {
      assert p + m == m;
    }
  }

  lemma {:induction false} TrimRightOf(m: string, q: string)
    requires AllSpace(q)
    requires m == [] || !IsSpace(m[|m| - 1])
    ensures TrimRight(m + q) == m
  {
    if q != [] {
      assert (m + q)[..|m + q| - 1] == m + q[..|q| - 1];
      TrimRightOf(m, q[..|q| - 1]);
    } else {
      assert m + q == m;
    }
  }

  /** TrimSpace is characterised by its result: whatever is left after peeling
      white space off both ends of `p + m + q` is `m`. */
  lemma TrimSpaceOf(p: string, m: string, q: string)
    requires AllSpace(p) && AllSpace(q) && Trimmed(m)
    ensures TrimSpace(p + m + q) == m
  {
    if m == [] {
      assert p + m + q == p + q;
      TrimLeftOf(p + q, []);
      assert p + q + [] == p + q;
    } else {
      assert p + m + q == p + (m + q);
      TrimLeftOf(p, m + q);
      TrimRightOf(m, q);
    }
  }

  /** The input is the trimmed text with white space around it. */
  lemma TrimSpaceParts(s: string) returns (p: string, q: string)
    ensures AllSpace(p) && AllSpace(q)
    ensures s == p + TrimSpace(s) + q
  {
    var l := TrimLeft(s);
    p := TrimLeftPart(s);
    q := TrimRightPart(l);
    AppendAssoc(p, TrimRight(l), q);
  }

  /** The white space TrimLeft drops. */
  lemma TrimLeftPart(s: string) returns (p: string)
    ensures AllSpace(p) && s == p + TrimLeft(s)
  {
    p := s[..|s| - |TrimLeft(s)|];
    SplitAt(s, |p|);
  }

  /** The white space TrimRight drops. */
  lemma TrimRightPart(s: string) returns (q: string)
    ensures AllSpace(q) && s == TrimRight(s) + q
  {
    q := s[|TrimRight(s)|..];
    SplitAt(s, |TrimRight(s)|);
  }

  /** Surrounding white space never changes what TrimSpace returns. */
  lemma TrimSpaceSurrounded(p: string, s: string, q: string)
    requires AllSpace(p) && AllSpace(q)
    ensures TrimSpace(p + s + q) == TrimSpace(s)
  {
    var p', q' := TrimSpaceParts(s);
    var m := TrimSpace(s);
    var x, z := p + p', q' + q;
    assert AllSpace(x) && AllSpace(z) by {
      AllSpaceAppend(p, p');
      AllSpaceAppend(q', q);
    }
    calc {
      p + s + q;
      p + (p' + m + q') + q;
      { SeqAssoc5(p, p', m, q', q); }
      x + m + z;
    }
    TrimSpaceOf(x, m, z);
  }

  lemma AllSpaceAppend(a: string, b: string)
    requires AllSpace(a) && AllSpace(b)
    ensures AllSpace(a + b)
  {
    forall i | 0 <= i < |a + b| ensures IsSpace((a + b)[i]) {
      if i >= |a| { assert (a + b)[i] == b[i - |a|]; }
    }
  }

  /** Trimming never introduces a newline. */
  lemma TrimSpaceNoNewline(s: string)
    requires '\n' !in s
    ensures '\n' !in TrimSpace(s)
  {
    var p, q := TrimSpaceParts(s);
    var m := TrimSpace(s);
    forall k | 0 <= k < |m|
      ensures m[k] != '\n'
    {
      assert s[|p| + k] == m[k];
    }
  }

  lemma SplitAt(s: string, k: nat)
    requires k <= |s|
    ensures s == s[..k] + s[k..]
  {
  }

  lemma AppendAssoc(a: string, b: string, c: string)
    ensures a + (b + c) == a + b + c
  {
  }

  lemma SeqAssoc5(a: string, b: string, c: string, d: string, e: string)
    ensures a + (b + c + d) + e == (a + b) + c + (d + e)
  {
  }

  // --------------------------------------------------------------- splitting

  /** `strings.Split(s, "\n")`: the pieces between newlines; `n` newlines
      give `n + 1` pieces, and the empty text gives one empty piece. */
  function Split(s: string): (lines: seq<string>)
    ensures |lines| >= 1
    ensures forall i :: 0 <= i < |lines| ==> '\n' !in lines[i]
  {
    if s == [] then [[]]
    else
      var rest := Split(s[1..]);
      if s[0] == '\n' then [[]] + rest
      else [[s[0]] + rest[0]] + rest[1..]
  }

  /** `strings.Join(lines, "\n")`, the inverse of Split. */
  function Join(lines: seq<string>): string
    requires |lines| >= 1
  {
    if |lines| == 1 then lines[0] else lines[0] + "\n" + Join(lines[1..])
  }

  lemma {:induction false} JoinSplit(s: string)
    ensures Join(Split(s)) == s
  {
    if s != [] {
      JoinSplit(s[1..]);
      var rest := Split(s[1..]);
      if s[0] == '\n' {
        assert Split(s)[1..] == rest;
      } else if |rest| > 1 {
        assert Split(s)[1..] == rest[1..];
        assert Join(rest) == rest[0] + "\n" + Join(rest[1..]);
      }
    }
  }

  lemma {:induction false} SplitNoNewlinePrefix(a: string, t: string)
    requires '\n' !in a
    ensures Split(a + t) == [a + Split(t)[0]] + Split(t)[1..]
  {
    var st := Split(t);
    if a == [] {
      assert a + t == t;
      assert a + st[0] == st[0];
      assert [a + st[0]] + st[1..] == st;
    } else {
      assert (a + t)[1..] == a[1..] + t;
      SplitNoNewlinePrefix(a[1..], t);
      var rest := Split(a[1..] + t);
      assert rest == [a[1..] + st[0]] + st[1..];
      assert [a[0]] + rest[0] == a + st[0];
      assert rest[1..] == st[1..];
    }
  }

  /** A text without a newline is a single piece. */
  lemma SplitSingle(s: string)
    requires '\n' !in s
    ensures Split(s) == [s]
  {
    SplitNoNewlinePrefix(s, []);
    assert s + [] == s;
    assert Split([]) == [[]];
  }

  lemma {:induction false} SplitJoin(lines: seq<string>)
    requires |lines| >= 1
    requires forall i :: 0 <= i < |lines| ==> '\n' !in lines[i]
    ensures Split(Join(lines)) == lines
  {
    if |lines| == 1 {
      SplitNoNewlinePrefix(lines[0], []);
      assert lines[0] + [] == lines[0];
      assert lines[0] + Split([])[0] == lines[0];
    } else {
      var t := Join(lines[1..]);
      SplitJoin(lines[1..]);
      var nt := "\n" + t;
      assert lines[0] + "\n" + t == lines[0] + nt;
      SplitNoNewlinePrefix(lines[0], nt);
      assert nt[1..] == t;
      assert Split(nt) == [[]] + lines[1..];
      assert lines[0] + Split(nt)[0] == lines[0];
      assert Split(nt)[1..] == lines[1..];
      assert lines == [lines[0]] + lines[1..];
    }
  }

  /** A first piece is empty only when the text is empty or starts a new line. */
  lemma SplitEmptyFirst(s: string)
    requires |Split(s)| > 1 && Split(s)[0] == []
    ensures s != [] && s[0] == '\n'
  {
    JoinSplit(s);
    var lines := Split(s);
    assert s == [] + "\n" + Join(lines[1..]);
  }

  // ------------------------------------------------------- integer parsing

  /** Go's `int` on a 64-bit platform. */
  const MinInt: int := -0x8000_0000_0000_0000
  const MaxInt: int := 0x7FFF_FFFF_FFFF_FFFF

  function Pow10(n: nat): (p: nat)
    ensures p >= 1
  {
    if n == 0 then 1 else 10 * Pow10(n - 1)
  }

  /** The value of a string of decimal digits, most significant first. */
  function DecimalValue(s: string): (n: nat)
    requires AllDigits(s)
    ensures n < Pow10(|s|)
  {
    if s == [] then 0 else DecimalValue(s[..|s| - 1]) * 10 + DigitValue(s[|s| - 1])
  }

  lemma AllDigitsAppend(a: string, b: string)
    requires AllDigits(a) && AllDigits(b)
    ensures AllDigits(a + b)
  {
    forall i | 0 <= i < |a + b| ensures IsDigit((a + b)[i]) {
      if i >= |a| { assert (a + b)[i] == b[i - |a|]; }
    }
  }

  lemma {:induction false} DecimalValueAppend(a: string, b: string)
    requires AllDigits(a) && AllDigits(b)
    ensures AllDigits(a + b)
    ensures DecimalValue(a + b) == DecimalValue(a) * Pow10(|b|) + DecimalValue(b)
  {
    AllDigitsAppend(a, b);
    if b != [] {
      var b' := b[..|b| - 1];
      var c := b[|b| - 1];
      assert (a + b)[..|a + b| - 1] == a + b';
      assert (a + b)[|a + b| - 1] == c;
      DecimalValueAppend(a, b');
      var va, vb', p := DecimalValue(a), DecimalValue(b'), Pow10(|b'|);
      var d := DigitValue(c);
      assert DecimalValue(a + b) == DecimalValue(a + b') * 10 + d;
      assert DecimalValue(b) == vb' * 10 + d;
      assert Pow10(|b|) == p * 10;
      ShiftDigit(va, p, vb', d);
    } else {
      assert a + b == a;
    }
  }

  lemma ShiftDigit(x: nat, p: nat, y: nat, d: nat)
    ensures (x * p + y) * 10 + d == x * (p * 10) + (y * 10 + d)
  {
  }

  lemma {:induction false} Pow10Monotone(m: nat, n: nat)
    requires m <= n
    ensures Pow10(m) <= Pow10(n)
  {
    if m < n { Pow10Monotone(m, n - 1); }
  }

  /** `strconv.Atoi`: an optional `+` or `-`, then one or more decimal digits,
      nothing else (no white space), and the value must fit in a Go `int`. */
  function Atoi(s: string): (r: Option<int>)
    ensures r.Some? ==> MinInt <= r.value <= MaxInt
    ensures r.Some? ==> |s| > 0 && AllDigits(s[1..]) && (IsDigit(s[0]) || s[0] == '+' || s[0] == '-')
    ensures r.Some? && r.value < 0 ==> s[0] == '-'
  {
    var digits := if s != [] && (s[0] == '+' || s[0] == '-') then s[1..] else s;
    if digits == [] || !AllDigits(digits) then None
    else
      var magnitude: int := DecimalValue(digits);
      var v: int := if s[0] == '-' then -magnitude else magnitude;
      if MinInt <= v <= MaxInt then Some(v) else None
  }

  /** A single character is an integer exactly when it is a digit. */
  lemma AtoiOneChar(c: char)
    ensures Atoi([c]).Some? <==> IsDigit(c)
    ensures IsDigit(c) ==> Atoi([c]) == Some(DigitValue(c))
  {
    if IsDigit(c) {
      assert [c][..0] == [];
    }
  }

  /** Up to 18 digits always fit in a Go `int`, and Atoi reads them as their
      decimal value. */
  lemma AtoiDigits(ds: string)
    requires AllDigits(ds) && 0 < |ds| <= 18
    ensures Atoi(ds) == Some(DecimalValue(ds))
  {
    Pow10Monotone(|ds|, 18);
    Pow10Of18();
  }

  lemma Pow10Of18()
    ensures Pow10(18) == 1_000_000_000_000_000_000
  {
    assert Pow10(6) == 1_000_000;
    assert Pow10(12) == 1_000_000 * Pow10(6);
  }
}
