/** The mod-10 line checksum of the two-line element format: every digit
    counts its value, `-` counts 1, everything else (blanks, `.`, `+`,
    letters) counts 0, and the checksum is the sum modulo 10. The last column
    of each data line holds the checksum of the columns before it. */
module Checksum {
  import opened Strings

  /** What one character adds to the sum: the `switch` of `calculateChecksum`. */
  function Weight(c: char): nat {
    if '0' <= c <= '9' then (c - '0') as nat
    else if c == '-' then 1
    else 0
  }

  /** Digits weigh their value, `-` weighs 1, every other character 0. */
  lemma WeightRule(c: char)
    ensures Weight(c) <= 9
    ensures IsDigit(c) ==> Weight(c) == DigitValue(c)
    ensures c == '-' ==> Weight(c) == 1
    ensures !IsDigit(c) && c != '-' ==> Weight(c) == 0
  {
  }

  /** The sum of the weights of the characters of `s[from..]`. */
  function WeightSum(s: string, from: nat): nat
    requires from <= |s|
    decreases |s| - from
  {
    if from == |s| then 0 else Weight(s[from]) + WeightSum(s, from + 1)
  }

  /** The checksum of a line (without its check digit). */
  function Checksum(s: string): (r: nat)
    ensures r <= 9
  {
    WeightSum(s, 0) % 10
  }

  /** `calculateChecksum`: one pass over the line accumulating the weights. */
  method CalculateChecksum(line: string) returns (r: int)
    ensures 0 <= r <= 9
    ensures r == Checksum(line)
  {
    var result := 0;
    for i := 0 to |line|
      invariant result + WeightSum(line, i) == WeightSum(line, 0)
    {
      result := result + Weight(line[i]);
    }
    r := result % 10;
  }

  /** `isChecksumValid`: the last character is a digit and equals the
      checksum of everything before it. Go indexes the last byte, so the
      line must not be empty. */
  function IsChecksumValid(line: string): (valid: bool)
    requires |line| > 0
    ensures valid <==> IsDigit(line[|line| - 1]) && DigitValue(line[|line| - 1]) == Checksum(line[..|line| - 1])
  {
    var provided := Atoi([line[|line| - 1]]);
    AtoiOneChar(line[|line| - 1]);
    provided.Some? && provided.value == Checksum(line[..|line| - 1])
  }

  // ------------------------------------------------------------ properties

  lemma {:induction false} WeightSumAppend(a: string, b: string, from: nat)
    requires from <= |a|
    ensures WeightSum(a + b, from) == WeightSum(a, from) + WeightSum(b, 0)
    decreases |a| - from
  {
    if from == |a| {
      WeightSumShift(a, b, 0);
    } else {
      assert (a + b)[from] == a[from];
      WeightSumAppend(a, b, from + 1);
    }
  }

  /** Summing the tail of `a + b` that lies inside `b`. */
  lemma {:induction false} WeightSumShift(a: string, b: string, from: nat)
    requires from <= |b|
    ensures WeightSum(a + b, |a| + from) == WeightSum(b, from)
    decreases |b| - from
  {
    if from < |b| {
      assert (a + b)[|a| + from] == b[from];
      WeightSumShift(a, b, from + 1);
    }
  }

  /** The checksum of a concatenation is the sum of the parts' checksums. */
  lemma ChecksumAppend(a: string, b: string)
    ensures Checksum(a + b) == (Checksum(a) + Checksum(b)) % 10
  {
    WeightSumAppend(a, b, 0);
    ModAdd(WeightSum(a, 0), WeightSum(b, 0));
  }

  lemma ModAdd(x: nat, y: nat)
    ensures (x + y) % 10 == (x % 10 + y % 10) % 10
  {
    var qx, qy := x / 10, y / 10;
    assert x + y == 10 * (qx + qy) + (x % 10 + y % 10);
  }

  predicate WeightsZero(z: string) {
    forall i :: 0 <= i < |z| ==> Weight(z[i]) == 0
  }

  lemma {:induction false} WeightSumZero(z: string, from: nat)
    requires from <= |z|
    requires WeightsZero(z)
    ensures WeightSum(z, from) == 0
    decreases |z| - from
  {
    if from < |z| {
      WeightSumZero(z, from + 1);
    }
  }

  /** Inserting blanks, periods, plus signs or letters anywhere in a line
      never changes its checksum. */
  lemma ZeroWeightInsertion(a: string, z: string, b: string)
    requires WeightsZero(z)
    ensures Checksum(a + z + b) == Checksum(a + b)
  {
    WeightSumAppend(a + z, b, 0);
    WeightSumAppend(a, z, 0);
    WeightSumAppend(a, b, 0);
    WeightSumZero(z, 0);
  }

  /** The check digit that completes a line body. */
  function CheckDigit(body: string): (d: char)
    ensures IsDigit(d) && DigitValue(d) == Checksum(body)
  {
    '0' + Checksum(body) as char
  }

  /** Exactly one final digit makes a line body valid: every other last
      character, in particular any altered check digit, is rejected. */
  lemma OnlyCheckDigitValid(body: string, c: char)
    ensures IsChecksumValid(body + [c]) <==> c == CheckDigit(body)
  {
    var line := body + [c];
    assert line[..|line| - 1] == body;
  }

  /** Replacing the check digit of a valid line by any other character makes
      the line invalid. */
  lemma AlteredCheckDigitInvalid(line: string, c: char)
    requires |line| > 0 && IsChecksumValid(line)
    requires c != line[|line| - 1]
    ensures !IsChecksumValid(line[..|line| - 1] + [c])
  {
    var body := line[..|line| - 1];
    assert line == body + [line[|line| - 1]];
    OnlyCheckDigitValid(body, line[|line| - 1]);
    OnlyCheckDigitValid(body, c);
  }

  /** The bodies (everything but the check digit) of the two data lines of
      an ISS element set, each in three parts of four six-character pieces. */
  const IssLine1A: string := "1 2554" + "4U 980" + "67A   " + "20274."
  const IssLine1B: string := "517825" + "28  .0" + "000086" + "7  000"
  const IssLine1C: string := "00-0  " + "22813-" + "4 0  9" + "99"
  const IssLine1Body: string := IssLine1A + IssLine1B + IssLine1C
  const IssLine2A: string := "2 2554" + "4  51." + "6441  " + "93.000"
  const IssLine2B: string := "0 0001" + "400  1" + "1.0000" + " 349.0"
  const IssLine2C: string := "000 15" + ".49300" + "070250" + "76"
  const IssLine2Body: string := IssLine2A + IssLine2B + IssLine2C

  /** The sum of four pieces whose sums are known. */
  lemma WeightSumFourPieces(a0: string, a1: string, a2: string, a3: string, v0: nat, v1: nat, v2: nat, v3: nat)
    requires WeightSum(a0, 0) == v0 && WeightSum(a1, 0) == v1
    requires WeightSum(a2, 0) == v2 && WeightSum(a3, 0) == v3
    ensures WeightSum(a0 + a1 + a2 + a3, 0) == v0 + v1 + v2 + v3
  {
    WeightSumAppend(a0, a1, 0);
    WeightSumAppend(a0 + a1, a2, 0);
    WeightSumAppend(a0 + a1 + a2, a3, 0);
  }

  lemma IssLine1ASum()
    ensures WeightSum(IssLine1A, 0) == 66
  {
    WeightSumFourPieces("1 2554", "4U 980", "67A   ", "20274.", 17, 21, 13, 15);
  }

  lemma IssLine1BSum()
    ensures WeightSum(IssLine1B, 0) == 59
  {
    WeightSumFourPieces("517825", "28  .0", "000086", "7  000", 28, 10, 14, 7);
  }

  lemma IssLine1CSum()
    ensures WeightSum(IssLine1C, 0) == 49
  {
    WeightSumFourPieces("00-0  ", "22813-", "4 0  9", "99", 1, 17, 13, 18);
  }

  /** Line 1 of the sample set has checksum 4. */
  lemma IssLine1Checksum()
    ensures Checksum(IssLine1Body) == 4
  {
    IssLine1ASum();
    IssLine1BSum();
    IssLine1CSum();
    WeightSumAppend(IssLine1A, IssLine1B, 0);
    WeightSumAppend(IssLine1A + IssLine1B, IssLine1C, 0);
  }

  lemma IssLine2ASum()
    ensures WeightSum(IssLine2A, 0) == 55
  {
    WeightSumFourPieces("2 2554", "4  51.", "6441  ", "93.000", 18, 10, 15, 12);
  }

  lemma IssLine2BSum()
    ensures WeightSum(IssLine2B, 0) == 23
  {
    WeightSumFourPieces("0 0001", "400  1", "1.0000", " 349.0", 1, 5, 1, 16);
  }

  lemma IssLine2CSum()
    ensures WeightSum(IssLine2C, 0) == 49
  {
    WeightSumFourPieces("000 15", ".49300", "070250", "76", 6, 16, 14, 13);
  }

  /** Line 2 of the sample set has checksum 7. */
  lemma IssLine2Checksum()
    ensures Checksum(IssLine2Body) == 7
  {
    IssLine2ASum();
    IssLine2BSum();
    IssLine2CSum();
    WeightSumAppend(IssLine2A, IssLine2B, 0);
    WeightSumAppend(IssLine2A + IssLine2B, IssLine2C, 0);
  }

  /** The body of a line 1 with negative fields (2008, day 264), whose
      `-` signs each count 1. */
  const NegativeLine1A: string := "1 2554" + "4U 980" + "67A   " + "08264."
  const NegativeLine1B: string := "517825" + "28 -.0" + "000218" + "2  000"
  const NegativeLine1C: string := "00-0 -" + "11606-" + "4 0  2" + "92"
  const NegativeLine1Body: string := NegativeLine1A + NegativeLine1B + NegativeLine1C

  lemma NegativeLine1ASum()
    ensures WeightSum(NegativeLine1A, 0) == 71
  {
    WeightSumFourPieces("1 2554", "4U 980", "67A   ", "08264.", 17, 21, 13, 20);
  }

  lemma NegativeLine1BSum()
    ensures WeightSum(NegativeLine1B, 0) == 52
  {
    WeightSumFourPieces("517825", "28 -.0", "000218", "2  000", 28, 11, 11, 2);
  }

  lemma NegativeLine1CSum()
    ensures WeightSum(NegativeLine1C, 0) == 34
  {
    WeightSumFourPieces("00-0 -", "11606-", "4 0  2", "92", 2, 15, 6, 11);
  }

  /** That line has checksum 7. */
  lemma NegativeLine1Checksum()
    ensures Checksum(NegativeLine1Body) == 7
  {
    NegativeLine1ASum();
    NegativeLine1BSum();
    NegativeLine1CSum();
    WeightSumAppend(NegativeLine1A, NegativeLine1B, 0);
    WeightSumAppend(NegativeLine1A + NegativeLine1B, NegativeLine1C, 0);
  }

  /** The sample data lines, check digits included, pass the check, and the
      first one fails with any other final digit. */
  lemma SampleLinesValid()
    ensures IsChecksumValid(IssLine1Body + "4")
    ensures IsChecksumValid(IssLine2Body + "7")
    ensures !IsChecksumValid(IssLine1Body + "1")
  {
    IssLine1Checksum();
    IssLine2Checksum();
    OnlyCheckDigitValid(IssLine1Body, '4');
    OnlyCheckDigitValid(IssLine2Body, '7');
    OnlyCheckDigitValid(IssLine1Body, '1');
  }
}
