/** The element set of the ISS that the package's example decodes, under
    a float parser that accepts the ten float texts of its data lines: the
    three lines, the columns the decoder reads from them, and the record it
    returns. */
module Sample {
  import opened Wrappers
  import opened Strings
  import opened Errors
  import opened Checksum
  import opened NoradId
  import opened BStar
  import opened Epoch
  import opened Tle

  const IssName: string := "ISS (ZARYA)"
  const IssLine1: string := IssLine1Body + "4"
  const IssLine2: string := IssLine2Body + "7"

  /** The example text: the name line and the two data lines. */
  const IssText: string := IssName + "\n" + IssLine1 + "\n" + IssLine2

  /** The float parser accepts the four float texts line 1 hands it: the
      epoch day, the first derivative of the mean motion, and the literals
      built from the two implied-decimal fields. */
  predicate AcceptsIssLine1Floats(parseFloat: string -> Option<real>) {
    && parseFloat("274.51782528").Some?
    && parseFloat(".00000867").Some?
    && parseFloat("+0.00000e-0").Some?
    && parseFloat("+0.22813e-4").Some?
  }

  /** The float parser accepts the six orbital element texts of line 2, the
      eccentricity with its implied decimal point written out. */
  predicate AcceptsIssLine2Floats(parseFloat: string -> Option<real>) {
    && parseFloat("51.6441").Some?
    && parseFloat("93.0000").Some?
    && parseFloat(".0001400").Some?
    && parseFloat("11.0000").Some?
    && parseFloat("349.0000").Some?
    && parseFloat("15.49300070").Some?
  }

  // ------------------------------------------------------------- columns

  /** A slice of a concatenation lies in the left part, in the right part,
      or across both. */
  lemma SliceOfConcat(a: string, b: string, lo: nat, hi: nat)
    requires lo <= hi <= |a| + |b|
    ensures hi <= |a| ==> (a + b)[lo..hi] == a[lo..hi]
    ensures |a| <= lo ==> (a + b)[lo..hi] == b[lo - |a|..hi - |a|]
    ensures lo <= |a| <= hi ==> (a + b)[lo..hi] == a[lo..|a|] + b[0..hi - |a|]
  {
  }

  lemma IssLineLengths()
    ensures |IssLine1| == 69 && |IssLine2| == 69
  {
  }

  /** Columns 3 to 7 of both lines: the catalog number. */
  lemma IssIdColumns()
    ensures |IssLine1| == 69 && |IssLine2| == 69
    ensures IssLine1[2..7] == "25544" && IssLine2[2..7] == "25544"
  {
    SliceOfConcat(IssLine1Body, "4", 2, 7);
    SliceOfConcat(IssLine1A + IssLine1B, IssLine1C, 2, 7);
    SliceOfConcat(IssLine1A, IssLine1B, 2, 7);
    SliceOfConcat("1 2554" + "4U 980" + "67A   ", "20274.", 2, 7);
    SliceOfConcat("1 2554" + "4U 980", "67A   ", 2, 7);
    SliceOfConcat("1 2554", "4U 980", 2, 7);
    SliceOfConcat(IssLine2Body, "7", 2, 7);
    SliceOfConcat(IssLine2A + IssLine2B, IssLine2C, 2, 7);
    SliceOfConcat(IssLine2A, IssLine2B, 2, 7);
    SliceOfConcat("2 2554" + "4  51." + "6441  ", "93.000", 2, 7);
    SliceOfConcat("2 2554" + "4  51.", "6441  ", 2, 7);
    SliceOfConcat("2 2554", "4  51.", 2, 7);
  }

  /** Columns 19 to 32 of line 1: the epoch year and day. */
  lemma IssEpochColumns()
    ensures |IssLine1| == 69 && IssLine1[18..20] == "20"
    ensures IssLine1[20..32] == "274.51782528"
  {
    IssEpochYearColumns();
    IssEpochDayColumns();
  }

  lemma IssEpochYearColumns()
    ensures |IssLine1| == 69 && IssLine1[18..20] == "20"
  {
    SliceOfConcat(IssLine1Body, "4", 18, 20);
    SliceOfConcat(IssLine1A + IssLine1B, IssLine1C, 18, 20);
    SliceOfConcat(IssLine1A, IssLine1B, 18, 20);
    SliceOfConcat("1 2554" + "4U 980" + "67A   ", "20274.", 18, 20);
  }

  lemma IssEpochDayColumns()
    ensures |IssLine1| == 69 && IssLine1[20..32] == "274.51782528"
  {
    SliceOfConcat(IssLine1Body, "4", 20, 32);
    SliceOfConcat(IssLine1A + IssLine1B, IssLine1C, 20, 32);
    SliceOfConcat(IssLine1A, IssLine1B, 20, 32);
    SliceOfConcat("1 2554" + "4U 980" + "67A   ", "20274.", 20, 24);
    SliceOfConcat("517825" + "28  .0" + "000086", "7  000", 0, 8);
    SliceOfConcat("517825" + "28  .0", "000086", 0, 8);
    SliceOfConcat("517825", "28  .0", 0, 8);
  }

  /** Columns 34 to 43 of line 1: the first derivative of the mean motion. */
  lemma IssFirstDerivativeColumns()
    ensures |IssLine1| == 69 && IssLine1[33..43] == " .00000867"
  {
    SliceOfConcat(IssLine1Body, "4", 33, 43);
    SliceOfConcat(IssLine1A + IssLine1B, IssLine1C, 33, 43);
    SliceOfConcat(IssLine1A, IssLine1B, 33, 43);
    SliceOfConcat("517825" + "28  .0" + "000086", "7  000", 9, 19);
    SliceOfConcat("517825" + "28  .0", "000086", 9, 18);
    SliceOfConcat("517825", "28  .0", 9, 12);
  }

  /** Columns 45 to 52 of line 1: the second derivative of the mean
      motion. */
  lemma IssSecondDerivativeColumns()
    ensures |IssLine1| == 69 && IssLine1[44..52] == " 00000-0"
  {
    SliceOfConcat(IssLine1Body, "4", 44, 52);
    SliceOfConcat(IssLine1A + IssLine1B, IssLine1C, 44, 52);
    SliceOfConcat(IssLine1A, IssLine1B, 44, 48);
    SliceOfConcat("517825" + "28  .0" + "000086", "7  000", 20, 24);
    SliceOfConcat("00-0  " + "22813-" + "4 0  9", "99", 0, 4);
    SliceOfConcat("00-0  " + "22813-", "4 0  9", 0, 4);
    SliceOfConcat("00-0  ", "22813-", 0, 4);
  }

  /** Columns 54 to 61 of line 1: the drag term. */
  lemma IssBStarColumns()
    ensures |IssLine1| == 69 && IssLine1[53..61] == " 22813-4"
  {
    SliceOfConcat(IssLine1Body, "4", 53, 61);
    SliceOfConcat(IssLine1A + IssLine1B, IssLine1C, 53, 61);
    SliceOfConcat("00-0  " + "22813-" + "4 0  9", "99", 5, 13);
    SliceOfConcat("00-0  " + "22813-", "4 0  9", 5, 13);
    SliceOfConcat("00-0  ", "22813-", 5, 12);
  }

  /** Columns 65 to 69 of line 1: the element set number and the stored
      checksum. */
  lemma IssLine1TailColumns()
    ensures |IssLine1| == 69 && IssLine1[64..68] == " 999"
  {
    SliceOfConcat(IssLine1Body, "4", 64, 68);
    SliceOfConcat(IssLine1A + IssLine1B, IssLine1C, 64, 68);
    SliceOfConcat("00-0  " + "22813-" + "4 0  9", "99", 16, 20);
    SliceOfConcat("00-0  " + "22813-", "4 0  9", 16, 18);
  }

  /** Column 69 of line 1: the stored checksum. */
  lemma IssLine1CheckColumn()
    ensures |IssLine1| == 69 && IssLine1[68] == '4'
  {
  }

  /** Columns 9 to 16 of line 2: the inclination. */
  lemma IssInclinationColumns()
    ensures |IssLine2| == 69 && IssLine2[8..16] == " 51.6441"
  {
    SliceOfConcat(IssLine2Body, "7", 8, 16);
    SliceOfConcat(IssLine2A + IssLine2B, IssLine2C, 8, 16);
    SliceOfConcat(IssLine2A, IssLine2B, 8, 16);
    SliceOfConcat("2 2554" + "4  51." + "6441  ", "93.000", 8, 16);
    SliceOfConcat("2 2554" + "4  51.", "6441  ", 8, 16);
    SliceOfConcat("2 2554", "4  51.", 8, 12);
  }

  /** Columns 18 to 25 of line 2: the right ascension of the ascending node. */
  lemma IssRightAscensionColumns()
    ensures |IssLine2| == 69 && IssLine2[17..25] == " 93.0000"
  {
    SliceOfConcat(IssLine2Body, "7", 17, 25);
    SliceOfConcat(IssLine2A + IssLine2B, IssLine2C, 17, 25);
    SliceOfConcat(IssLine2A, IssLine2B, 17, 25);
    SliceOfConcat("2 2554" + "4  51." + "6441  ", "93.000", 17, 24);
    SliceOfConcat("2 2554" + "4  51.", "6441  ", 17, 18);
    SliceOfConcat("0 0001" + "400  1" + "1.0000", " 349.0", 0, 1);
    SliceOfConcat("0 0001" + "400  1", "1.0000", 0, 1);
    SliceOfConcat("0 0001", "400  1", 0, 1);
  }

  /** Columns 27 to 33 of line 2: the eccentricity, without its decimal point. */
  lemma IssEccentricityColumns()
    ensures |IssLine2| == 69 && IssLine2[26..33] == "0001400"
  {
    SliceOfConcat(IssLine2Body, "7", 26, 33);
    SliceOfConcat(IssLine2A + IssLine2B, IssLine2C, 26, 33);
    SliceOfConcat(IssLine2A, IssLine2B, 26, 33);
    SliceOfConcat("0 0001" + "400  1" + "1.0000", " 349.0", 2, 9);
    SliceOfConcat("0 0001" + "400  1", "1.0000", 2, 9);
    SliceOfConcat("0 0001", "400  1", 2, 9);
  }

  /** Columns 35 to 42 of line 2: the argument of perigee. */
  lemma IssPerigeeColumns()
    ensures |IssLine2| == 69 && IssLine2[34..42] == " 11.0000"
  {
    SliceOfConcat(IssLine2Body, "7", 34, 42);
    SliceOfConcat(IssLine2A + IssLine2B, IssLine2C, 34, 42);
    SliceOfConcat(IssLine2A, IssLine2B, 34, 42);
    SliceOfConcat("0 0001" + "400  1" + "1.0000", " 349.0", 10, 18);
    SliceOfConcat("0 0001" + "400  1", "1.0000", 10, 18);
    SliceOfConcat("0 0001", "400  1", 10, 12);
  }

  /** Columns 44 to 51 of line 2: the mean anomaly. */
  lemma IssMeanAnomalyColumns()
    ensures |IssLine2| == 69 && IssLine2[43..51] == "349.0000"
  {
    SliceOfConcat(IssLine2Body, "7", 43, 51);
    SliceOfConcat(IssLine2A + IssLine2B, IssLine2C, 43, 51);
    SliceOfConcat(IssLine2A, IssLine2B, 43, 48);
    SliceOfConcat("0 0001" + "400  1" + "1.0000", " 349.0", 19, 24);
    SliceOfConcat("000 15" + ".49300" + "070250", "76", 0, 3);
    SliceOfConcat("000 15" + ".49300", "070250", 0, 3);
    SliceOfConcat("000 15", ".49300", 0, 3);
  }

  /** Columns 53 to 63 of line 2: the mean motion. */
  lemma IssMeanMotionColumns()
    ensures |IssLine2| == 69 && IssLine2[52..63] == "15.49300070"
  {
    SliceOfConcat(IssLine2Body, "7", 52, 63);
    SliceOfConcat(IssLine2A + IssLine2B, IssLine2C, 52, 63);
    SliceOfConcat("000 15" + ".49300" + "070250", "76", 4, 15);
    SliceOfConcat("000 15" + ".49300", "070250", 4, 15);
    SliceOfConcat("000 15", ".49300", 4, 12);
  }

  /** Columns 64 to 69 of line 2: the revolution count and the stored
      checksum. */
  lemma IssLine2TailColumns()
    ensures |IssLine2| == 69
    ensures IssLine2[63..68] == "25076"
  {
    SliceOfConcat(IssLine2Body, "7", 63, 68);
    SliceOfConcat(IssLine2A + IssLine2B, IssLine2C, 63, 68);
    SliceOfConcat("000 15" + ".49300" + "070250", "76", 15, 20);
    SliceOfConcat("000 15" + ".49300", "070250", 15, 18);
  }

  /** Column 69 of line 2: the stored checksum. */
  lemma IssLine2CheckColumn()
    ensures |IssLine2| == 69 && IssLine2[68] == '7'
  {
  }

  // ------------------------------------------------------ trimmed columns

  /** A column of blanks followed by a text that starts and ends with
      something other than white space trims to that text. */
  lemma PaddedText(field: string, pad: string, text: string)
    requires AllSpace(pad) && field == pad + text
    requires |text| > 0 && !IsSpace(text[0]) && !IsSpace(text[|text| - 1])
    ensures TrimSpace(field) == text
  {
    TrimSpaceOf(pad, text, []);
    assert pad + text + [] == field;
  }

  /** The same for a column of blanks followed by digits. */
  lemma PaddedDigits(field: string, pad: string, digits: string)
    requires AllSpace(pad) && field == pad + digits
    requires |digits| > 0 && IsDigit(digits[0]) && IsDigit(digits[|digits| - 1])
    ensures TrimSpace(field) == digits
  {
    PaddedText(field, pad, digits);
  }

  lemma ElementSetNumberValue()
    ensures AllDigits("999") && DecimalValue("999") == 999
  {
    var s := "999";
    assert s[..2] == "99" && s[..2][..1] == "9" && s[..1][..0] == [];
  }

  lemma CatalogNumberValue()
    ensures AllDigits("25544") && DecimalValue("25544") == 25544
  {
    var s := "25544";
    assert s[..4] == "2554" && s[..4][..3] == "255" && s[..3][..2] == "25";
    assert s[..2][..1] == "2" && s[..1][..0] == [];
    assert DecimalValue("25") == 25;
    assert DecimalValue("255") == 255;
    assert DecimalValue("2554") == 2554;
  }

  lemma RevolutionCountValue()
    ensures AllDigits("25076") && DecimalValue("25076") == 25076
  {
    var s := "25076";
    assert s[..4] == "2507" && s[..4][..3] == "250" && s[..3][..2] == "25";
    assert s[..2][..1] == "2" && s[..1][..0] == [];
    assert DecimalValue("25") == 25;
    assert DecimalValue("250") == 250;
    assert DecimalValue("2507") == 2507;
  }

  /** An implied-decimal column without a sign: a blank and seven columns
      that begin and end with a digit. The decoder hands the float parser
      `+0.`, the five mantissa columns, `e` and the two exponent columns,
      and the value is what the parser returns on that literal. */
  lemma UnsignedImpliedField(parseFloat: string -> Option<real>, field: string)
    requires |field| == 8 && IsSpace(field[0]) && IsDigit(field[1]) && IsDigit(field[7])
    requires parseFloat("+0." + field[1..6] + "e" + field[6..8]).Some?
    ensures ParseBStar(parseFloat, field)
      == Success(parseFloat("+0." + field[1..6] + "e" + field[6..8]).value)
  {
    UnsignedLiteral(field);
  }

  /** The literal built from an unsigned implied-decimal column. */
  lemma UnsignedLiteral(field: string)
    requires |field| == 8 && IsSpace(field[0]) && IsDigit(field[1]) && IsDigit(field[7])
    ensures BStarLiteral(field) == Success("+0." + field[1..6] + "e" + field[6..8])
  {
    UnsignedTrim(field);
    UnsignedAssemble(field[1..]);
    DropFirstSlice(field, 0, 5);
    DropFirstSlice(field, 5, 7);
  }

  lemma UnsignedTrim(field: string)
    requires |field| == 8 && IsSpace(field[0]) && IsDigit(field[1]) && IsDigit(field[7])
    ensures BStarLiteral(field) == AssembleLiteral(field[1..])
  {
    var t := field[1..];
    assert t[0] == field[1] && t[|t| - 1] == field[7];
    assert Trimmed(t) && AllSpace([field[0]]);
    BStarLiteralTrims([field[0]], t, []);
    assert [field[0]] + t + [] == field;
  }

  lemma UnsignedAssemble(t: string)
    requires |t| == 7 && IsDigit(t[0])
    ensures AssembleLiteral(t) == Success("+0." + t[0..5] + "e" + t[5..7])
  {
    assert MantissaStart(t) == 0 && Sign(t) == '+';
    assert ['+'] + "0." == "+0.";
  }

  lemma DropFirstSlice(s: string, lo: nat, hi: nat)
    requires lo <= hi < |s|
    ensures s[1..][lo..hi] == s[lo + 1..hi + 1]
  {
  }
  // ---------------------------------------------------------------- fields

  /** Columns 3 to 7 of both lines trim to the catalog number "25544",
      which decodes to 25544. */
  lemma IssIdFields()
    ensures |IssLine1| == 69 && |IssLine2| == 69
    ensures TrimSpace(IssLine1[2..7]) == "25544" && TrimSpace(IssLine2[2..7]) == "25544"
    ensures ParseNoradId("25544") == Success(25544)
  {
    IssLine1IdText();
    IssLine2IdText();
    CatalogNumberValue();
    NumericNoradId("25544");
  }

  lemma IssLine1IdText()
    ensures |IssLine1| == 69 && TrimSpace(IssLine1[2..7]) == "25544"
  {
    IssIdColumns();
    PaddedDigits(IssLine1[2..7], [], "25544");
  }

  lemma IssLine2IdText()
    ensures |IssLine2| == 69 && TrimSpace(IssLine2[2..7]) == "25544"
  {
    IssIdColumns();
    PaddedDigits(IssLine2[2..7], [], "25544");
  }

  /** A line of 17 columns or more whose trimmed columns 3 to 7 decode has
      a designation carrying that catalog number. */
  lemma DesignationOf(line: string, id: string, n: int)
    requires |line| >= 17 && TrimSpace(line[2..7]) == id
    requires ParseNoradId(id) == Success(n)
    ensures ParseDesignation(line).Success?
    ensures ParseDesignation(line).value.noradIdStr == id
    ensures ParseDesignation(line).value.noradId == n
  {
  }

  /** The catalog number of line 1. */
  lemma IssDesignation()
    ensures ParseDesignation(IssLine1).Success?
    ensures ParseDesignation(IssLine1).value.noradIdStr == "25544"
    ensures ParseDesignation(IssLine1).value.noradId == 25544
  {
    IssIdFields();
    DesignationOf(IssLine1, "25544", 25544);
  }

  /** The epoch of line 1: 2020, and the day the float parser reads from
      "274.51782528". */
  lemma IssEpochFields(parseFloat: string -> Option<real>)
    requires parseFloat("274.51782528").Some?
    ensures ParseEpochFields(parseFloat, IssLine1).Success?
    ensures ParseEpochFields(parseFloat, IssLine1).value.epoch
      == Epoch(2020, parseFloat("274.51782528").value)
  {
    IssEpochColumns();
    TwoDigitYear("20");
    assert DecimalValue("20") == 20;
  }

  /** The drag fields of line 1: the float of ".00000867", and the floats
      of the literals built from " 00000-0" and " 22813-4". */
  lemma IssDrag(parseFloat: string -> Option<real>)
    requires AcceptsIssLine1Floats(parseFloat)
    ensures ParseDrag(parseFloat, IssLine1).Success?
    ensures var d := ParseDrag(parseFloat, IssLine1).value;
      && d.meanMotionFirstDerivative == parseFloat(".00000867").value
      && d.meanMotionSecondDerivative == parseFloat("+0.00000e-0").value
      && d.bStar == parseFloat("+0.22813e-4").value
  {
    IssFirstDerivativeText();
    IssSecondDerivative(parseFloat);
    IssBStar(parseFloat);
  }

  lemma IssFirstDerivativeText()
    ensures |IssLine1| == 69 && TrimSpace(IssLine1[33..43]) == ".00000867"
  {
    IssFirstDerivativeColumns();
    PaddedText(IssLine1[33..43], " ", ".00000867");
  }

  lemma IssSecondDerivative(parseFloat: string -> Option<real>)
    requires parseFloat("+0.00000e-0").Some?
    ensures |IssLine1| == 69
    ensures ParseBStar(parseFloat, IssLine1[44..52]) == Success(parseFloat("+0.00000e-0").value)
  {
    IssSecondDerivativeColumns();
    var f := IssLine1[44..52];
    assert f[1..6] == "00000" && f[6..8] == "-0";
    assert "+0." + "00000" + "e" + "-0" == "+0.00000e-0";
    UnsignedImpliedField(parseFloat, f);
  }

  lemma IssBStar(parseFloat: string -> Option<real>)
    requires parseFloat("+0.22813e-4").Some?
    ensures |IssLine1| == 69
    ensures ParseBStar(parseFloat, IssLine1[53..61]) == Success(parseFloat("+0.22813e-4").value)
  {
    IssBStarColumns();
    var f := IssLine1[53..61];
    assert f[1..6] == "22813" && f[6..8] == "-4";
    assert "+0." + "22813" + "e" + "-4" == "+0.22813e-4";
    UnsignedImpliedField(parseFloat, f);
  }

  /** The element set number and stored checksum of line 1. */
  lemma IssLine1Tail()
    ensures ParseLine1Tail(IssLine1).Success?
    ensures ParseLine1Tail(IssLine1).value.elementSetNumber == 999
    ensures ParseLine1Tail(IssLine1).value.line1Checksum == 4
  {
    IssLine1CheckColumn();
    IssElementSetNumberText();
    ElementSetNumberValue();
    AtoiDigits("999");
  }

  lemma IssElementSetNumberText()
    ensures |IssLine1| == 69 && TrimSpace(IssLine1[64..68]) == "999"
  {
    IssLine1TailColumns();
    PaddedDigits(IssLine1[64..68], " ", "999");
  }

  /** The orbital elements of line 2: the floats of "51.6441", "93.0000",
      ".0001400", "11.0000", "349.0000" and "15.49300070". */
  lemma IssElements(parseFloat: string -> Option<real>)
    requires AcceptsIssLine2Floats(parseFloat)
    ensures ParseElements(parseFloat, IssLine2).Success?
    ensures var e := ParseElements(parseFloat, IssLine2).value;
      && e.inclinationDegrees == parseFloat("51.6441").value
      && e.rightAscensionDegrees == parseFloat("93.0000").value
      && e.eccentricity == parseFloat(".0001400").value
      && e.perigeeArgumentDegrees == parseFloat("11.0000").value
      && e.meanAnomalyDegrees == parseFloat("349.0000").value
      && e.meanMotion == parseFloat("15.49300070").value
  {
    IssInclinationText();
    IssRightAscensionText();
    IssEccentricityText();
    IssPerigeeText();
    IssMeanAnomalyText();
    IssMeanMotionText();
  }

  lemma IssInclinationText()
    ensures |IssLine2| == 69 && TrimSpace(IssLine2[8..16]) == "51.6441"
  {
    IssInclinationColumns();
    PaddedText(IssLine2[8..16], " ", "51.6441");
  }

  lemma IssRightAscensionText()
    ensures |IssLine2| == 69 && TrimSpace(IssLine2[17..25]) == "93.0000"
  {
    IssRightAscensionColumns();
    PaddedText(IssLine2[17..25], " ", "93.0000");
  }

  /** The eccentricity is read from a decimal point followed by its
      columns, untrimmed. */
  lemma IssEccentricityText()
    ensures |IssLine2| == 69 && "." + IssLine2[26..33] == ".0001400"
  {
    IssEccentricityColumns();
    assert "." + "0001400" == ".0001400";
  }

  lemma IssPerigeeText()
    ensures |IssLine2| == 69 && TrimSpace(IssLine2[34..42]) == "11.0000"
  {
    IssPerigeeColumns();
    PaddedText(IssLine2[34..42], " ", "11.0000");
  }

  lemma IssMeanAnomalyText()
    ensures |IssLine2| == 69 && TrimSpace(IssLine2[43..51]) == "349.0000"
  {
    IssMeanAnomalyColumns();
    PaddedText(IssLine2[43..51], [], "349.0000");
  }

  lemma IssMeanMotionText()
    ensures |IssLine2| == 69 && TrimSpace(IssLine2[52..63]) == "15.49300070"
  {
    IssMeanMotionColumns();
    PaddedText(IssLine2[52..63], [], "15.49300070");
  }

  /** The revolution count and stored checksum of line 2. */
  lemma IssLine2Tail()
    ensures ParseLine2Tail(IssLine2).Success?
    ensures ParseLine2Tail(IssLine2).value.epochRevolutionCount == 25076
    ensures ParseLine2Tail(IssLine2).value.line2Checksum == 7
  {
    IssLine2CheckColumn();
    IssRevolutionCountText();
    RevolutionCountValue();
    AtoiDigits("25076");
  }

  lemma IssRevolutionCountText()
    ensures |IssLine2| == 69 && TrimSpace(IssLine2[63..68]) == "25076"
  {
    IssLine2TailColumns();
    PaddedDigits(IssLine2[63..68], [], "25076");
  }

  // ----------------------------------------------------------- the decode

  /** Line 1 decodes: catalog number 25544, epoch 2020 at the day the
      parser reads, the drag fields the parser reads from their texts,
      element set 999, stored checksum 4. */
  lemma IssLine1Decodes(parseFloat: string -> Option<real>)
    requires AcceptsIssLine1Floats(parseFloat)
    ensures ParseLine1(parseFloat, IssLine1).Success?
    ensures var f := ParseLine1(parseFloat, IssLine1).value;
      && f.designation.noradIdStr == "25544" && f.designation.noradId == 25544
      && f.epochFields.epoch == Epoch(2020, parseFloat("274.51782528").value)
      && f.drag == Drag(parseFloat(".00000867").value, parseFloat("+0.00000e-0").value,
                        parseFloat("+0.22813e-4").value)
      && f.tail.elementSetNumber == 999 && f.tail.line1Checksum == 4
  {
    IssDesignation();
    IssEpochFields(parseFloat);
    IssDrag(parseFloat);
    IssLine1Tail();
  }

  /** Line 2 carries the catalog number of line 1 and decodes: the six
      elements the parser reads from their texts, revolution 25076, stored
      checksum 7. */
  lemma IssLine2Decodes(parseFloat: string -> Option<real>)
    requires AcceptsIssLine2Floats(parseFloat)
    ensures ParseLine2(parseFloat, IssLine2, "25544").Success?
    ensures var f := ParseLine2(parseFloat, IssLine2, "25544").value;
      && f.elements == Elements(parseFloat("51.6441").value, parseFloat("93.0000").value,
                                parseFloat(".0001400").value, parseFloat("11.0000").value,
                                parseFloat("349.0000").value, parseFloat("15.49300070").value)
      && f.tail.epochRevolutionCount == 25076 && f.tail.line2Checksum == 7
  {
    IssIdFields();
    IssElements(parseFloat);
    IssLine2Tail();
  }

  /** A text starting with a newline splits into an empty first line and
      the lines of the rest. */
  lemma SplitAfterNewline(t: string)
    ensures Split("\n" + t) == [[]] + Split(t)
  {
    assert ("\n" + t)[1..] == t;
  }

  /** A line without a line break, a newline and the rest: the line, then
      the lines of the rest. */
  lemma SplitFirstLine(a: string, t: string)
    requires '\n' !in a
    ensures Split(a + "\n" + t) == [a] + Split(t)
  {
    assert a + "\n" + t == a + ("\n" + t);
    SplitNoNewlinePrefix(a, "\n" + t);
    SplitAfterNewline(t);
    assert a + [] == a;
  }

  /** Three lines without line breaks, joined by newlines, split back into
      the same three lines. */
  lemma SplitThree(a: string, b: string, c: string)
    requires '\n' !in a && '\n' !in b && '\n' !in c
    ensures Split(a + "\n" + b + "\n" + c) == [a, b, c]
  {
    SplitSingle(c);
    SplitFirstLine(b, c);
    AppendAssoc(a + "\n", b + "\n", c);
    assert a + "\n" + b + "\n" + c == a + "\n" + (b + "\n" + c);
    SplitFirstLine(a, b + "\n" + c);
  }

  /** No line of the example holds a line break. */
  lemma IssNoLineBreaks()
    ensures '\n' !in IssName && '\n' !in IssLine1 && '\n' !in IssLine2
  {
    IssLine1NoLineBreak();
    IssLine2NoLineBreak();
  }

  lemma IssLine1NoLineBreak()
    ensures '\n' !in IssLine1
  {
    NoLineBreak("1 2554", "4U 980", "67A   ", "20274.");
    NoLineBreak("517825", "28  .0", "000086", "7  000");
    NoLineBreak("00-0  ", "22813-", "4 0  9", "99");
    NoLineBreak(IssLine1A, IssLine1B, IssLine1C, "4");
  }

  lemma IssLine2NoLineBreak()
    ensures '\n' !in IssLine2
  {
    NoLineBreak("2 2554", "4  51.", "6441  ", "93.000");
    NoLineBreak("0 0001", "400  1", "1.0000", " 349.0");
    NoLineBreak("000 15", ".49300", "070250", "76");
    NoLineBreak(IssLine2A, IssLine2B, IssLine2C, "7");
  }

  lemma NoLineBreak(a: string, b: string, c: string, d: string)
    requires '\n' !in a && '\n' !in b && '\n' !in c && '\n' !in d
    ensures '\n' !in a + b + c + d
  {
  }

  /** The example text starts and ends with a character that is not white
      space, so trimming leaves it alone. */
  lemma IssTextTrimmed()
    ensures TrimSpace(IssText) == IssText
  {
    IssLineLengths();
    assert IssText[0] == 'I' && IssText[|IssText| - 1] == '7';
    TrimSpaceOf([], IssText, []);
    assert [] + IssText + [] == IssText;
  }

  /** The example text is already trimmed and splits into the name line and
      the two data lines. */
  lemma IssTextSplits()
    ensures TrimSpace(IssText) == IssText
    ensures SplitLines(IssText) == Success(Lines(IssName, IssLine1, IssLine2))
  {
    IssTextTrimmed();
    IssNoLineBreaks();
    SplitThree(IssName, IssLine1, IssLine2);
  }

  /** Once both lines decode, their NORAD ids agree and both checksums hold,
      the decode is the record assembled from the two lines' fields. */
  lemma LinesDecode(parseFloat: string -> Option<real>, contents: string, lines: Lines, noradIdStr: string)
    requires ParseLine1(parseFloat, lines.line1).Success?
    requires ParseLine1(parseFloat, lines.line1).value.designation.noradIdStr == noradIdStr
    requires ParseLine2(parseFloat, lines.line2, noradIdStr).Success?
    requires |lines.line1| > 0 && IsChecksumValid(lines.line1)
    requires |lines.line2| > 0 && IsChecksumValid(lines.line2)
    ensures ParseLines(parseFloat, contents, lines) == Success(Assemble(contents, lines,
      ParseLine1(parseFloat, lines.line1).value, ParseLine2(parseFloat, lines.line2, noradIdStr).value))
  {
  }

  /** The package's example: the ISS element set decodes, under a float
      parser that accepts its ten float texts, to the record with its name,
      catalog number, epoch, element set number, revolution count, both
      stored checksums, and each float field the value the parser returns
      on that field's text. */
  lemma ExampleDecodes(parseFloat: string -> Option<real>)
    requires AcceptsIssLine1Floats(parseFloat) && AcceptsIssLine2Floats(parseFloat)
    ensures Parse(parseFloat, IssText).Success?
    ensures var t := Parse(parseFloat, IssText).value;
      && t.name == "ISS (ZARYA)" && t.line1 == IssLine1 && t.line2 == IssLine2
      && t.contents == IssText
      && t.noradIdStr == "25544" && t.noradId == 25544
      && t.epoch == Epoch(2020, parseFloat("274.51782528").value)
      && t.meanMotionFirstDerivative == parseFloat(".00000867").value
      && t.meanMotionSecondDerivative == parseFloat("+0.00000e-0").value
      && t.bStar == parseFloat("+0.22813e-4").value
      && t.elementSetNumber == 999 && t.line1Checksum == 4
      && t.inclinationDegrees == parseFloat("51.6441").value
      && t.rightAscensionDegrees == parseFloat("93.0000").value
      && t.eccentricity == parseFloat(".0001400").value
      && t.perigeeArgumentDegrees == parseFloat("11.0000").value
      && t.meanAnomalyDegrees == parseFloat("349.0000").value
      && t.meanMotion == parseFloat("15.49300070").value
      && t.epochRevolutionCount == 25076 && t.line2Checksum == 7
  {
    IssTextSplits();
    IssLine1Decodes(parseFloat);
    IssLine2Decodes(parseFloat);
    SampleLinesValid();
    LinesDecode(parseFloat, IssText, Lines(IssName, IssLine1, IssLine2), "25544");
  }
}
