/** NORAD catalog numbers in the "Alpha-5" scheme: five columns hold either a
    plain integer, or a letter standing for a two-digit prefix followed by
    four digits, so that numbers from 100000 to 339999 fit. The letters run
    A to Z without I and O (they look like 1 and 0), giving the prefixes 10
    to 33. */
module NoradId {
  import opened Wrappers
  import opened Strings
  import opened Errors

  /** The `switch` of `parseNoradId`: the digits a leading letter stands
      for, as a table. `Alpha5TableRule` shows it is `Alpha5Prefix`. */
  function Alpha5Table(c: char): Option<string> {
    match c
    case 'A' => Some("10")
    case 'B' => Some("11")
    case 'C' => Some("12")
    case 'D' => Some("13")
    case 'E' => Some("14")
    case 'F' => Some("15")
    case 'G' => Some("16")
    case 'H' => Some("17")
    case 'J' => Some("18")
    case 'K' => Some("19")
    case 'L' => Some("20")
    case 'M' => Some("21")
    case 'N' => Some("22")
    case 'P' => Some("23")
    case 'Q' => Some("24")
    case 'R' => Some("25")
    case 'S' => Some("26")
    case 'T' => Some("27")
    case 'U' => Some("28")
    case 'V' => Some("29")
    case 'W' => Some("30")
    case 'X' => Some("31")
    case 'Y' => Some("32")
    case 'Z' => Some("33")
    case _ => None
  }

  /** The letters of the scheme: upper-case A to Z except I and O. */
  predicate IsAlpha5Letter(c: char) {
    'A' <= c <= 'Z' && c != 'I' && c != 'O'
  }

  /** The position of a letter in the alphabet without I and O (A is 0, Z is 23). */
  function Alpha5Rank(c: char): (k: nat)
    requires IsAlpha5Letter(c)
    ensures k < 24
  {
    (c - 'A') as nat - (if c > 'I' then 1 else 0) - (if c > 'O' then 1 else 0)
  }

  /** The letter at a position of the alphabet without I and O. */
  function Alpha5Letter(k: nat): (c: char)
    requires k < 24
    ensures IsAlpha5Letter(c) && Alpha5Rank(c) == k
  {
    'A' + (k + (if k >= 8 then 1 else 0) + (if k >= 13 then 1 else 0)) as char
  }

  /** The digits a leading letter stands for: the two digits of 10 plus its
      rank, for the letters of the scheme only. */
  function Alpha5Prefix(c: char): Option<string> {
    if IsAlpha5Letter(c) then Some(TwoDigits(Alpha5Value(c))) else None
  }

  /** The table agrees with the rule on every character: it is defined
      exactly on the letters of the scheme, and each letter stands for the
      two digits of 10 plus its rank (A is 10, H is 17, J is 18, N is 22,
      P is 23, Z is 33). In particular I, O, lower-case letters, digits and
      signs have no prefix. */
  lemma Alpha5TableRule(c: char)
    ensures Alpha5Table(c).Some? <==> IsAlpha5Letter(c)
    ensures Alpha5Table(c) == Alpha5Prefix(c)
  {
    if IsAlpha5Letter(c) {
      var p := Alpha5Table(c).value;
      var t := TwoDigits(10 + Alpha5Rank(c));
      assert p[0] == t[0] && p[1] == t[1];
    }
  }

  /** The two decimal digits of a number below 100. */
  function TwoDigits(v: nat): (s: string)
    requires v < 100
    ensures |s| == 2 && AllDigits(s) && DecimalValue(s) == v
  {
    var s := ['0' + (v / 10) as char, '0' + (v % 10) as char];
    assert DecimalValue(s) == DecimalValue(s[..1]) * 10 + DigitValue(s[1]);
    s
  }

  /** The prefix of a letter as a number. */
  function Alpha5Value(c: char): (v: nat)
    requires IsAlpha5Letter(c)
    ensures 10 <= v <= 33
  {
    10 + Alpha5Rank(c)
  }

  /** Later letters stand for larger prefixes, so no two letters share one. */
  lemma Alpha5PrefixIncreasing(c: char, d: char)
    requires IsAlpha5Letter(c) && IsAlpha5Letter(d) && c < d
    ensures Alpha5Value(c) < Alpha5Value(d)
    ensures Alpha5Table(c) != Alpha5Table(d)
  {
    Alpha5TableRule(c);
    Alpha5TableRule(d);
    assert DecimalValue(Alpha5Prefix(c).value) != DecimalValue(Alpha5Prefix(d).value);
  }

  /** `parseNoradId`: a field starting with a digit is read as an integer;
      one starting with a letter of the scheme is read as the letter's prefix
      followed by the rest of the field; anything else is an error. Go
      indexes the first byte, which panics on an empty field. */
  function ParseNoradId(s: string): (r: Result<int, ParseError>)
    ensures s == [] <==> r == Failure(IndexOutOfRange)
    ensures r.Failure? && r.error == InvalidAlpha5 <==>
      s != [] && !IsDigit(s[0]) && !IsAlpha5Letter(s[0])
    ensures r.Success? ==> 0 <= r.value <= MaxInt
  {
    if s == [] then Failure(IndexOutOfRange)
    else
      AtoiOneChar(s[0]);
      if Atoi([s[0]]).Some? then ParseInt(s)
      else
        match Alpha5Prefix(s[0])
        case None => Failure(InvalidAlpha5)
        case Some(prefix) => ParseInt(prefix + s[1..])
  }

  /** The branch a leading digit takes. */
  lemma ParseNoradIdDigit(s: string)
    requires |s| > 0 && IsDigit(s[0])
    ensures ParseNoradId(s) == ParseInt(s)
  {
    AtoiOneChar(s[0]);
  }

  /** The branch a leading letter of the scheme takes. */
  lemma ParseNoradIdLetter(s: string)
    requires |s| > 0 && IsAlpha5Letter(s[0])
    ensures ParseNoradId(s) == ParseInt(TwoDigits(Alpha5Value(s[0])) + s[1..])
  {
    AtoiOneChar(s[0]);
  }

  /** A field of up to 18 digits is its decimal value. */
  lemma NumericNoradId(s: string)
    requires 0 < |s| <= 18 && AllDigits(s)
    ensures ParseNoradId(s) == Success(DecimalValue(s))
  {
    ParseNoradIdDigit(s);
    AtoiDigits(s);
  }

  /** A field starting with a digit but holding anything other than digits
      after it is rejected as a whole. */
  lemma NumericNoradIdSyntax(s: string)
    requires |s| > 0 && IsDigit(s[0]) && !AllDigits(s)
    ensures ParseNoradId(s) == Failure(SyntaxError(s))
  {
    ParseNoradIdDigit(s);
    var j :| 0 <= j < |s| && !IsDigit(s[j]);
    assert s[1..][j - 1] == s[j];
  }

  /** A letter of the scheme followed by up to 16 digits (so that the whole
      fits in a Go `int`) reads as the decimal value of the letter's prefix
      followed by those digits; `PrefixValue` gives that value as the prefix
      times 10^|digits| plus the value of the digits. */
  lemma Alpha5NoradId(s: string)
    requires |s| > 0 && IsAlpha5Letter(s[0])
    requires AllDigits(s[1..]) && |s[1..]| <= 16
    ensures AllDigits(TwoDigits(Alpha5Value(s[0])) + s[1..])
    ensures ParseNoradId(s) == Success(DecimalValue(TwoDigits(Alpha5Value(s[0])) + s[1..]))
  {
    var p := TwoDigits(Alpha5Value(s[0]));
    ParseNoradIdLetter(s);
    AllDigitsAppend(p, s[1..]);
    AtoiDigits(p + s[1..]);
  }

  /** The value of a two-digit prefix followed by digits. */
  lemma PrefixValue(a: nat, rest: string)
    requires a < 100 && AllDigits(rest)
    ensures AllDigits(TwoDigits(a) + rest)
    ensures DecimalValue(TwoDigits(a) + rest) == a * Pow10(|rest|) + DecimalValue(rest)
  {
    DecimalValueAppend(TwoDigits(a), rest);
  }

  /** After a letter of the scheme, anything but digits is rejected, with
      the prefix spliced in front of the offending text. */
  lemma Alpha5NoradIdSyntax(s: string)
    requires |s| > 0 && IsAlpha5Letter(s[0]) && !AllDigits(s[1..])
    ensures ParseNoradId(s) == Failure(SyntaxError(Alpha5Prefix(s[0]).value + s[1..]))
  {
    ParseNoradIdLetter(s);
    var p := Alpha5Prefix(s[0]).value;
    var t := p + s[1..];
    if Atoi(t).Some? {
      assert forall i :: 0 <= i < |s[1..]| ==> s[1..][i] == t[1..][i + 1];
    }
  }

  /** The Alpha-5 spelling of a catalog number up to 339999: five digits,
      zero-padded, below 100000, otherwise a letter and four digits. */
  function Alpha5Format(n: nat): (s: string)
    requires n <= 339999
    ensures |s| == 5
  {
    Pow10Of4();
    Pow10Of5();
    if n < 100000 then PadDigits(n, 5)
    else [Alpha5Letter(n / 10000 - 10)] + PadDigits(n % 10000, 4)
  }

  /** The decimal digits of `n`, zero-padded to `width` columns. */
  function PadDigits(n: nat, width: nat): (s: string)
    requires n < Pow10(width)
    ensures |s| == width && AllDigits(s) && DecimalValue(s) == n
  {
    if width == 0 then []
    else
      var s := PadDigits(n / 10, width - 1) + ['0' + (n % 10) as char];
      assert s[..|s| - 1] == PadDigits(n / 10, width - 1);
      s
  }

  /** Round trip: the decoder reads back every catalog number from 0 to
      339999 from its Alpha-5 spelling. */
  lemma ParseAlpha5Format(n: nat)
    requires n <= 339999
    ensures ParseNoradId(Alpha5Format(n)) == Success(n)
  {
    Pow10Of4();
    Pow10Of5();
    if n < 100000 {
      NumericNoradId(PadDigits(n, 5));
    } else {
      var q, r := n / 10000, n % 10000;
      assert n == q * 10000 + r;
      Alpha5LetterThenDigits(q, r);
      assert Alpha5Format(n) == [Alpha5Letter(q - 10)] + PadDigits(r, 4);
    }
  }

  /** The round trip for the numbers spelled with a letter. */
  lemma Alpha5LetterThenDigits(q: nat, r: nat)
    requires 10 <= q <= 33 && r < 10000
    ensures Pow10(4) == 10000
    ensures ParseNoradId([Alpha5Letter(q - 10)] + PadDigits(r, 4)) == Success(q * 10000 + r)
  {
    Pow10Of4();
    var rest := PadDigits(r, 4);
    var c := Alpha5Letter(q - 10);
    var s := [c] + rest;
    LetterThenFourDigits(c, rest);
    assert Alpha5Value(c) == q;
  }

  /** Any letter of the scheme followed by four digits. */
  lemma LetterThenFourDigits(c: char, rest: string)
    requires IsAlpha5Letter(c) && |rest| == 4 && AllDigits(rest)
    ensures ParseNoradId([c] + rest) == Success(Alpha5Value(c) * 10000 + DecimalValue(rest))
  {
    var s := [c] + rest;
    assert s[0] == c && s[1..] == rest;
    PrefixValue4(Alpha5Value(c), rest);
    Alpha5NoradId(s);
  }

  /** `PrefixValue` for four digits. */
  lemma PrefixValue4(a: nat, rest: string)
    requires a < 100 && AllDigits(rest) && |rest| == 4
    ensures AllDigits(TwoDigits(a) + rest)
    ensures DecimalValue(TwoDigits(a) + rest) == a * 10000 + DecimalValue(rest)
  {
    PrefixValue(a, rest);
    Pow10Of4();
  }

  lemma Pow10Of4()
    ensures Pow10(4) == 10000
  {
  }

  lemma Pow10Of5()
    ensures Pow10(5) == 100000
  {
  }

  /** The spelling of the ISS. */
  lemma Alpha5FormatIss()
    ensures Alpha5Format(25544) == "25544"
  {
  }

  /** The spelling of the first Alpha-5 number. */
  lemma Alpha5FormatFirst()
    ensures Alpha5Format(100000) == "A0000"
  {
  }

  /** The spelling of the last Alpha-5 number. */
  lemma Alpha5FormatLast()
    ensures Alpha5Format(339999) == "Z9999"
  {
  }

  /** Examples: the ISS, the first Alpha-5 number and the last one. */
  lemma NoradIdExamples()
    ensures ParseNoradId("25544") == Success(25544)
    ensures ParseNoradId("A0000") == Success(100000)
    ensures ParseNoradId("Z9999") == Success(339999)
  {
    Alpha5FormatIss();
    ParseAlpha5Format(25544);
    Alpha5FormatFirst();
    ParseAlpha5Format(100000);
    Alpha5FormatLast();
    ParseAlpha5Format(339999);
  }

  /** I and O, and lower-case letters, are not letters of the scheme. */
  lemma NoradIdInvalidExamples()
    ensures ParseNoradId("I1234") == Failure(InvalidAlpha5)
    ensures ParseNoradId("O1234") == Failure(InvalidAlpha5)
    ensures ParseNoradId("a1234") == Failure(InvalidAlpha5)
  {
  }
}
