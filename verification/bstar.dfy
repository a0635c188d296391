/** The "implied decimal point" fields of line 1 (the second derivative of
    the mean motion and the drag term B*): a sign, five mantissa digits read
    as a fraction after a decimal point, and a signed one-digit power of ten,
    so that " 22813-4" stands for +0.22813e-4. The decoder rewrites such a
    field into an ordinary exponent literal and hands that to the float
    parser. */
module BStar {
  import opened Wrappers
  import opened Strings
  import opened Errors

  /** The literal `parseBStar` builds from a field: the field is trimmed and
      then assembled. */
  function BStarLiteral(field: string): Result<string, ParseError> {
    AssembleLiteral(TrimSpace(field))
  }

  /** The `switch` of `parseBStar` on a trimmed field: a leading `+` or `-`
      is the sign, followed by five mantissa characters and two exponent
      characters; without a sign the sign is `+` and the mantissa starts at
      once. Go indexes the first byte and slices the columns without
      checking, so an empty or short field panics. */
  function AssembleLiteral(t: string): (r: Result<string, ParseError>)
    ensures r.Failure? <==> |t| < MantissaStart(t) + 7
    ensures r.Failure? ==> r.error == IndexOutOfRange
    ensures r.Success? ==>
      var m := MantissaStart(t);
      r.value == [Sign(t)] + "0." + t[m..m + 5] + "e" + t[m + 5..m + 7]
  {
    if t == [] then Failure(IndexOutOfRange)
    else if t[0] == '+' || t[0] == '-' then
      var mantissa :- Slice(t, 1, 6);
      var exponent :- Slice(t, 6, 8);
      Success([t[0]] + "0." + mantissa + "e" + exponent)
    else
      var mantissa :- Slice(t, 0, 5);
      var exponent :- Slice(t, 5, 7);
      Success("+" + "0." + mantissa + "e" + exponent)
  }

  predicate IsSign(c: char) {
    c == '+' || c == '-'
  }

  /** Where the mantissa of a trimmed field starts: after its sign, if any. */
  function MantissaStart(t: string): (m: nat)
    ensures m <= 1
  {
    if t != [] && IsSign(t[0]) then 1 else 0
  }

  /** The sign of a trimmed field: its first character if that is a sign,
      `+` otherwise. */
  function Sign(t: string): (c: char)
    ensures IsSign(c)
  {
    if t != [] && IsSign(t[0]) then t[0] else '+'
  }

  /** `parseBStar`: the float parser (a parameter, see `Errors.ParseFloat`)
      applied to the assembled literal. A short field panics before the
      parser runs; a literal the parser rejects is reported with the
      literal's text, not the field's. */
  function ParseBStar(parseFloat: string -> Option<real>, field: string): (r: Result<real, ParseError>)
    ensures r.Success? <==>
      BStarLiteral(field).Success? && parseFloat(BStarLiteral(field).value).Some?
    ensures BStarLiteral(field).Failure? ==> r == Failure(IndexOutOfRange)
    ensures BStarLiteral(field).Success? && r.Failure? ==>
      r.error == SyntaxError(BStarLiteral(field).value)
    ensures r.Success? ==> parseFloat(BStarLiteral(field).value) == Some(r.value)
  {
    var literal :- BStarLiteral(field);
    ParseFloat(parseFloat, literal)
  }

  // ----------------------------------------------------- what the field means

  /** 10 raised to an integer power, as an exact real. */
  function RealPow10(e: int): (x: real)
    ensures x > 0.0
  {
    if e >= 0 then Pow10(e) as real else 1.0 / Pow10(-e) as real
  }

  function SignValue(c: char): real {
    if c == '-' then -1.0 else 1.0
  }

  /** A field whose mantissa columns are digits and whose exponent columns
      are an integer. */
  predicate WellFormedField(t: string) {
    var m := MantissaStart(t);
    |t| >= m + 7 && AllDigits(t[m..m + 5]) && Atoi(t[m + 5..m + 7]).Some?
  }

  /** The number a well-formed field stands for: the sign, the mantissa
      digits as a fraction of 100000, times ten to the exponent. */
  function ImpliedValue(t: string): real
    requires WellFormedField(t)
  {
    var m := MantissaStart(t);
    Scaled(Sign(t), DecimalValue(t[m..m + 5]), 5, Atoi(t[m + 5..m + 7]).value)
  }

  /** sign * (mantissa / 10^digits) * 10^exponent. */
  function Scaled(sign: char, mantissa: nat, digits: nat, exponent: int): real {
    SignValue(sign) * (mantissa as real / Pow10(digits) as real) * RealPow10(exponent)
  }

  /** The value of an exponent literal of the shape the decoder builds: a
      sign, `0.`, one or more digits, `e`, and a decimal exponent with an
      optional sign. None for any other text. */
  function ExponentLiteralValue(lit: string): (v: Option<real>)
    ensures v.Some? ==> |lit| >= 6 && IsSign(lit[0]) && lit[1..3] == "0."
  {
    if |lit| < 6 || !IsSign(lit[0]) || lit[1..3] != "0." then None
    else
      match IndexOf(lit, 'e', 3)
      case None => None
      case Some(k) =>
        var digits := lit[3..k];
        var exponent := Atoi(lit[k + 1..]);
        if digits == [] || !AllDigits(digits) || exponent.None? then None
        else Some(Scaled(lit[0], DecimalValue(digits), |digits|, exponent.value))
  }

  /** The first position at or after `from` holding `c`. */
  function IndexOf(s: string, c: char, from: nat): (k: Option<nat>)
    requires from <= |s|
    ensures k.Some? ==> from <= k.value < |s| && s[k.value] == c
    ensures k.Some? ==> forall i :: from <= i < k.value ==> s[i] != c
    ensures k.None? ==> forall i :: from <= i < |s| ==> s[i] != c
    decreases |s| - from
  {
    if from == |s| then None
    else if s[from] == c then Some(from)
    else IndexOf(s, c, from + 1)
  }

  /** The first `c` at or after `from` is found where it is. */
  lemma {:induction false} IndexOfFirst(s: string, c: char, from: nat, k: nat)
    requires from <= k < |s| && s[k] == c
    requires forall i :: from <= i < k ==> s[i] != c
    ensures IndexOf(s, c, from) == Some(k)
    decreases k - from
  {
    if from < k {
      IndexOfFirst(s, c, from + 1, k);
    }
  }

  /** Reading back an assembled literal: sign, five mantissa digits and an
      exponent that Atoi accepts give sign * 0.mantissa * 10^exponent. */
  lemma ExponentLiteralOf(sign: char, mantissa: string, exponent: string)
    requires IsSign(sign) && |mantissa| == 5 && AllDigits(mantissa) && Atoi(exponent).Some?
    ensures ExponentLiteralValue([sign] + "0." + mantissa + "e" + exponent)
      == Some(Scaled(sign, DecimalValue(mantissa), 5, Atoi(exponent).value))
  {
    var lit := [sign] + "0." + mantissa + "e" + exponent;
    assert lit[1..3] == "0.";
    assert lit[3..8] == mantissa;
    assert lit[9..] == exponent;
    assert lit[8] == 'e';
    forall i | 3 <= i < 8
      ensures lit[i] != 'e'
    {
      assert lit[i] == mantissa[i - 3];
    }
    IndexOfFirst(lit, 'e', 3, 8);
  }

  /** The literal assembled from a well-formed trimmed field denotes the
      field's implied value: a float parser that reads exponent literals
      exactly returns sign * 0.mantissa * 10^exponent. */
  lemma AssembledLiteralValue(t: string)
    requires WellFormedField(t)
    ensures AssembleLiteral(t).Success?
    ensures ExponentLiteralValue(AssembleLiteral(t).value) == Some(ImpliedValue(t))
  {
    var m := MantissaStart(t);
    ExponentLiteralOf(Sign(t), t[m..m + 5], t[m + 5..m + 7]);
  }

  /** Under a float parser that agrees with the exponent-literal reading on
      the assembled literal, `parseBStar` yields the field's implied value. */
  lemma ParseBStarValue(parseFloat: string -> Option<real>, field: string)
    requires WellFormedField(TrimSpace(field))
    requires BStarLiteral(field).Success? ==>
      parseFloat(BStarLiteral(field).value) == ExponentLiteralValue(BStarLiteral(field).value)
    ensures ParseBStar(parseFloat, field) == Success(ImpliedValue(TrimSpace(field)))
  {
    AssembledLiteralValue(TrimSpace(field));
  }

  /** Blanks around a field do not change the literal built from it. */
  lemma BStarLiteralTrims(p: string, t: string, q: string)
    requires AllSpace(p) && AllSpace(q) && Trimmed(t)
    ensures BStarLiteral(p + t + q) == AssembleLiteral(t)
  {
    TrimSpaceOf(p, t, q);
  }

  /** The drag term of the sample ISS element set, " 22813-4" once trimmed,
      and a signed field. */
  lemma AssembleLiteralExamples()
    ensures AssembleLiteral("22813-4") == Success("+0.22813e-4")
    ensures AssembleLiteral("-11606-4") == Success("-0.11606e-4")
  {
    var u, v := "22813-4", "-11606-4";
    assert u[0] == '2' && u[0..5] == "22813" && u[5..7] == "-4";
    assert MantissaStart(u) == 0 && Sign(u) == '+';
    assert ['+'] + "0." + "22813" + "e" + "-4" == "+0.22813e-4";
    assert v[0] == '-' && v[1..6] == "11606" && v[6..8] == "-4";
    assert MantissaStart(v) == 1 && Sign(v) == '-';
    assert ['-'] + "0." + "11606" + "e" + "-4" == "-0.11606e-4";
  }

  /** A field cut short, and a blank one, make Go panic. */
  lemma BStarLiteralShort()
    ensures BStarLiteral("  2281") == Failure(IndexOutOfRange)
    ensures BStarLiteral("        ") == Failure(IndexOutOfRange)
  {
    TrimSpaceOf("  ", "2281", []);
    assert "  " + "2281" + [] == "  2281";
    TrimSpaceOf("        ", [], []);
    assert "        " + [] + [] == "        ";
  }
}
