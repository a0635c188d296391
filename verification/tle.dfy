/** The decoder of a two-line element set, with or without a name line
    before the two data lines ("3LE" and "TLE"). The input is trimmed and
    cut into lines; every field is read from fixed columns of its line, in
    column order, and the first failing step ends the decode; only when
    every field has been read are the NORAD ids compared and the two
    checksums verified. */
module Tle {
  import opened Wrappers
  import opened Strings
  import opened Errors
  import opened Checksum
  import opened NoradId
  import opened BStar
  import opened Epoch

  /** The decoded element set: the `TLE` record. Go's `float64` fields are
      the reals the float parser returns; the epoch is an `Epoch` value. */
  datatype TLE = TLE(
    name: string,
    line1: string,
    line2: string,
    contents: string,
    // line 1
    noradIdStr: string,
    noradId: int,
    classification: string,
    internationalDesignator: string,
    launchTwoDigitYear: string,
    launchNumber: string,
    launchPiece: string,
    elementSetEpoch: string,
    epochYear: string,
    epochDay: string,
    epoch: Epoch,
    meanMotionFirstDerivative: real,
    meanMotionSecondDerivative: real,
    bStar: real,
    ephemerisType: string,
    elementSetNumber: int,
    line1Checksum: int,
    // line 2
    inclinationDegrees: real,
    rightAscensionDegrees: real,
    eccentricity: real,
    perigeeArgumentDegrees: real,
    meanAnomalyDegrees: real,
    meanMotion: real,
    epochRevolutionCount: int,
    line2Checksum: int)

  /** The name line (empty for a two-line set) and the two data lines. */
  datatype Lines = Lines(name: string, line1: string, line2: string)

  /** Columns 3 to 17 of line 1: the catalog number, the classification
      and the international designator with its parts. */
  datatype Designation = Designation(
    noradIdStr: string,
    noradId: int,
    classification: string,
    internationalDesignator: string,
    launchTwoDigitYear: string,
    launchNumber: string,
    launchPiece: string)

  /** Columns 19 to 32 of line 1. */
  datatype EpochFields = EpochFields(
    elementSetEpoch: string,
    epochYear: string,
    epochDay: string,
    epoch: Epoch)

  /** Columns 34 to 61 of line 1. */
  datatype Drag = Drag(
    meanMotionFirstDerivative: real,
    meanMotionSecondDerivative: real,
    bStar: real)

  /** Columns 63 to 69 of line 1. */
  datatype Line1Tail = Line1Tail(
    ephemerisType: string,
    elementSetNumber: int,
    line1Checksum: int)

  /** The fields read from line 1. */
  datatype Line1Fields = Line1Fields(
    designation: Designation,
    epochFields: EpochFields,
    drag: Drag,
    tail: Line1Tail)

  /** Columns 9 to 63 of line 2. */
  datatype Elements = Elements(
    inclinationDegrees: real,
    rightAscensionDegrees: real,
    eccentricity: real,
    perigeeArgumentDegrees: real,
    meanAnomalyDegrees: real,
    meanMotion: real)

  /** Columns 64 to 69 of line 2. */
  datatype Line2Tail = Line2Tail(
    epochRevolutionCount: int,
    line2Checksum: int)

  /** The fields read from line 2. */
  datatype Line2Fields = Line2Fields(
    elements: Elements,
    tail: Line2Tail)

  /** An error a field of a data line can raise: neither a line count nor a
      checksum error. */
  predicate IsFieldError(e: ParseError) {
    !e.WrongLineCount? && !IsChecksumError(e)
  }

  /** The `switch` on the number of lines: two lines are the data lines, three
      are a name line and the data lines, any other count is an error
      carrying the trimmed text. */
  function SplitLines(contents: string): (r: Result<Lines, ParseError>)
    ensures r.Success? <==> |Split(contents)| == 2 || |Split(contents)| == 3
    ensures r.Failure? ==> r.error == WrongLineCount(contents)
    ensures r.Success? && |Split(contents)| == 2 ==>
      r.value == Lines([], Split(contents)[0], Split(contents)[1])
    ensures r.Success? && |Split(contents)| == 3 ==>
      r.value == Lines(Split(contents)[0], Split(contents)[1], Split(contents)[2])
  {
    var lines := Split(contents);
    if |lines| == 2 then Success(Lines([], lines[0], lines[1]))
    else if |lines| == 3 then Success(Lines(lines[0], lines[1], lines[2]))
    else Failure(WrongLineCount(contents))
  }

  /** The NORAD id, classification and international designator of line 1
      (columns 3 to 17). */
  function ParseDesignation(line: string): (r: Result<Designation, ParseError>)
    ensures |line| < 7 ==> r == Failure(IndexOutOfRange)
    ensures |line| >= 7 && ParseNoradId(TrimSpace(line[2..7])).Failure? ==>
      r == Failure(ParseNoradId(TrimSpace(line[2..7])).error)
    ensures r.Failure? ==> IsFieldError(r.error)
    ensures r.Success? <==> |line| >= 17 && ParseNoradId(TrimSpace(line[2..7])).Success?
    ensures r.Success? ==>
      && r.value.noradIdStr == TrimSpace(line[2..7])
      && ParseNoradId(r.value.noradIdStr) == Success(r.value.noradId)
      && r.value.classification == line[7..8]
      && r.value.internationalDesignator == TrimSpace(line[9..17])
      && r.value.launchTwoDigitYear == line[9..11]
      && r.value.launchNumber == line[11..14]
      && r.value.launchPiece == TrimSpace(line[14..17])
  {
    var idField :- Slice(line, 2, 7);
    var idStr := TrimSpace(idField);
    var id :- ParseNoradId(idStr);
    var classification :- Slice(line, 7, 8);
    var designator :- Slice(line, 9, 17);
    // once columns 9 to 17 exist, the designator's parts cannot panic
    Success(Designation(idStr, id, classification, TrimSpace(designator),
      line[9..11], line[11..14], TrimSpace(line[14..17])))
  }

  /** The epoch of line 1 (columns 19 to 32). */
  function ParseEpochFields(parseFloat: string -> Option<real>, line: string): (r: Result<EpochFields, ParseError>)
    ensures r.Failure? ==> IsFieldError(r.error)
    ensures r.Success? <==>
      |line| >= 32 && ConvertYearAndDayToDate(parseFloat, line[18..20], line[20..32]).Success?
    ensures r.Success? ==>
      && r.value.elementSetEpoch == line[18..32] == r.value.epochYear + r.value.epochDay
      && r.value.epochYear == line[18..20]
      && r.value.epochDay == line[20..32]
      && ConvertYearAndDayToDate(parseFloat, r.value.epochYear, r.value.epochDay) == Success(r.value.epoch)
  {
    var elementSetEpoch :- Slice(line, 18, 32);
    // once columns 18 to 32 exist, the year and day cannot panic
    var year, day := line[18..20], line[20..32];
    assert elementSetEpoch == year + day;
    var epoch :- ConvertYearAndDayToDate(parseFloat, year, day);
    Success(EpochFields(elementSetEpoch, year, day, epoch))
  }

  /** The trimmed text of a float column, read by the float parser. */
  function ParseFloatColumn(parseFloat: string -> Option<real>, line: string, lo: nat, hi: nat): (r: Result<real, ParseError>)
    requires lo <= hi
    ensures r.Failure? ==> IsFieldError(r.error)
    ensures r.Success? <==> hi <= |line| && parseFloat(TrimSpace(line[lo..hi])).Some?
    ensures r.Success? ==> parseFloat(TrimSpace(line[lo..hi])) == Some(r.value)
  {
    var field :- Slice(line, lo, hi);
    ParseFloat(parseFloat, TrimSpace(field))
  }

  /** The mean-motion derivatives and the drag term of line 1 (columns 34
      to 61); the last two are implied-decimal fields. */
  function ParseDrag(parseFloat: string -> Option<real>, line: string): (r: Result<Drag, ParseError>)
    ensures r.Failure? ==> IsFieldError(r.error)
    ensures r.Success? <==>
      && |line| >= 61 && parseFloat(TrimSpace(line[33..43])).Some?
      && ParseBStar(parseFloat, line[44..52]).Success? && ParseBStar(parseFloat, line[53..61]).Success?
    ensures r.Success? ==>
      && parseFloat(TrimSpace(line[33..43])) == Some(r.value.meanMotionFirstDerivative)
      && ParseBStar(parseFloat, line[44..52]) == Success(r.value.meanMotionSecondDerivative)
      && ParseBStar(parseFloat, line[53..61]) == Success(r.value.bStar)
  {
    var first :- ParseFloatColumn(parseFloat, line, 33, 43);
    var secondField :- Slice(line, 44, 52);
    var second :- ParseBStar(parseFloat, secondField);
    var bStarField :- Slice(line, 53, 61);
    var bStar :- ParseBStar(parseFloat, bStarField);
    Success(Drag(first, second, bStar))
  }

  /** The stored checksum column: a single character read by Atoi, so
      exactly a digit. */
  function ParseChecksumColumn(line: string): (r: Result<int, ParseError>)
    ensures r.Failure? ==> IsFieldError(r.error)
    ensures r.Success? <==> |line| >= 69 && IsDigit(line[68])
    ensures r.Success? ==> r.value == DigitValue(line[68])
  {
    var field :- Slice(line, 68, 69);
    assert field == [line[68]];
    AtoiOneChar(line[68]);
    ParseInt(field)
  }

  /** The trimmed text of an integer column, read by Atoi. */
  function ParseIntColumn(line: string, lo: nat, hi: nat): (r: Result<int, ParseError>)
    requires lo <= hi
    ensures r.Failure? ==> IsFieldError(r.error)
    ensures r.Success? <==> hi <= |line| && Atoi(TrimSpace(line[lo..hi])).Some?
    ensures r.Success? ==> Atoi(TrimSpace(line[lo..hi])) == Some(r.value)
  {
    var field :- Slice(line, lo, hi);
    ParseInt(TrimSpace(field))
  }

  /** The ephemeris type, element set number and stored checksum of line 1
      (columns 63 to 69). */
  function ParseLine1Tail(line: string): (r: Result<Line1Tail, ParseError>)
    ensures r.Failure? ==> IsFieldError(r.error)
    ensures r.Success? <==>
      |line| >= 69 && Atoi(TrimSpace(line[64..68])).Some? && IsDigit(line[68])
    ensures r.Success? ==>
      && r.value.ephemerisType == line[62..63]
      && Atoi(TrimSpace(line[64..68])) == Some(r.value.elementSetNumber)
      && r.value.line1Checksum == DigitValue(line[68])
  {
    var ephemerisType :- Slice(line, 62, 63);
    var elementSetNumber :- ParseIntColumn(line, 64, 68);
    var checksum :- ParseChecksumColumn(line);
    Success(Line1Tail(ephemerisType, elementSetNumber, checksum))
  }

  /** Line 1, field by field in column order: the first field that fails
      ends the decode. */
  function ParseLine1(parseFloat: string -> Option<real>, line: string): (r: Result<Line1Fields, ParseError>)
    ensures r.Failure? ==> IsFieldError(r.error)
    ensures r.Success? <==>
      && ParseDesignation(line).Success? && ParseEpochFields(parseFloat, line).Success?
      && ParseDrag(parseFloat, line).Success? && ParseLine1Tail(line).Success?
    ensures r.Success? ==>
      && |line| >= 69
      && r.value.designation == ParseDesignation(line).value
      && r.value.epochFields == ParseEpochFields(parseFloat, line).value
      && r.value.drag == ParseDrag(parseFloat, line).value
      && r.value.tail == ParseLine1Tail(line).value
  {
    var designation :- ParseDesignation(line);
    var epochFields :- ParseEpochFields(parseFloat, line);
    var drag :- ParseDrag(parseFloat, line);
    var tail :- ParseLine1Tail(line);
    Success(Line1Fields(designation, epochFields, drag, tail))
  }

  /** The orbital elements of line 2 (columns 9 to 63): five trimmed
      float columns and the eccentricity, whose leading decimal point is
      implied. */
  function ParseElements(parseFloat: string -> Option<real>, line: string): (r: Result<Elements, ParseError>)
    ensures r.Failure? ==> IsFieldError(r.error)
    ensures r.Success? <==>
      && |line| >= 63
      && parseFloat(TrimSpace(line[8..16])).Some? && parseFloat(TrimSpace(line[17..25])).Some?
      && parseFloat("." + line[26..33]).Some? && parseFloat(TrimSpace(line[34..42])).Some?
      && parseFloat(TrimSpace(line[43..51])).Some? && parseFloat(TrimSpace(line[52..63])).Some?
    ensures r.Success? ==>
      && parseFloat(TrimSpace(line[8..16])) == Some(r.value.inclinationDegrees)
      && parseFloat(TrimSpace(line[17..25])) == Some(r.value.rightAscensionDegrees)
      && parseFloat("." + line[26..33]) == Some(r.value.eccentricity)
      && parseFloat(TrimSpace(line[34..42])) == Some(r.value.perigeeArgumentDegrees)
      && parseFloat(TrimSpace(line[43..51])) == Some(r.value.meanAnomalyDegrees)
      && parseFloat(TrimSpace(line[52..63])) == Some(r.value.meanMotion)
  {
    var inclination :- ParseFloatColumn(parseFloat, line, 8, 16);
    var rightAscension :- ParseFloatColumn(parseFloat, line, 17, 25);
    var eccentricityField :- Slice(line, 26, 33);
    var eccentricity :- ParseFloat(parseFloat, "." + eccentricityField);
    var perigee :- ParseFloatColumn(parseFloat, line, 34, 42);
    var meanAnomaly :- ParseFloatColumn(parseFloat, line, 43, 51);
    var meanMotion :- ParseFloatColumn(parseFloat, line, 52, 63);
    Success(Elements(inclination, rightAscension, eccentricity, perigee, meanAnomaly, meanMotion))
  }

  /** The revolution count and stored checksum of line 2 (columns 64 to 69). */
  function ParseLine2Tail(line: string): (r: Result<Line2Tail, ParseError>)
    ensures r.Failure? ==> IsFieldError(r.error)
    ensures r.Success? <==> |line| >= 69 && Atoi(TrimSpace(line[63..68])).Some? && IsDigit(line[68])
    ensures r.Success? ==>
      && Atoi(TrimSpace(line[63..68])) == Some(r.value.epochRevolutionCount)
      && r.value.line2Checksum == DigitValue(line[68])
  {
    var revolutions :- ParseIntColumn(line, 63, 68);
    var checksum :- ParseChecksumColumn(line);
    Success(Line2Tail(revolutions, checksum))
  }

  /** Line 2: its NORAD id must be the one of line 1, then the orbital
      elements are read in column order. */
  function ParseLine2(parseFloat: string -> Option<real>, line: string, noradIdStr: string): (r: Result<Line2Fields, ParseError>)
    ensures |line| < 7 ==> r == Failure(IndexOutOfRange)
    ensures |line| >= 7 && TrimSpace(line[2..7]) != noradIdStr ==> r == Failure(NoradIdMismatch)
    ensures r.Failure? ==> IsFieldError(r.error)
    ensures r.Success? <==>
      && |line| >= 7 && TrimSpace(line[2..7]) == noradIdStr
      && ParseElements(parseFloat, line).Success? && ParseLine2Tail(line).Success?
    ensures r.Success? ==>
      && |line| >= 69
      && r.value.elements == ParseElements(parseFloat, line).value
      && r.value.tail == ParseLine2Tail(line).value
  {
    var idField :- Slice(line, 2, 7);
    if TrimSpace(idField) != noradIdStr then Failure(NoradIdMismatch)
    else
      var elements :- ParseElements(parseFloat, line);
      var tail :- ParseLine2Tail(line);
      Success(Line2Fields(elements, tail))
  }

  /** The record of a decoded set. */
  function Assemble(contents: string, lines: Lines, f1: Line1Fields, f2: Line2Fields): TLE {
    var d, e, g, t1 := f1.designation, f1.epochFields, f1.drag, f1.tail;
    var el, t2 := f2.elements, f2.tail;
    TLE(lines.name, lines.line1, lines.line2, contents,
      d.noradIdStr, d.noradId, d.classification, d.internationalDesignator,
      d.launchTwoDigitYear, d.launchNumber, d.launchPiece,
      e.elementSetEpoch, e.epochYear, e.epochDay, e.epoch,
      g.meanMotionFirstDerivative, g.meanMotionSecondDerivative, g.bStar,
      t1.ephemerisType, t1.elementSetNumber, t1.line1Checksum,
      el.inclinationDegrees, el.rightAscensionDegrees, el.eccentricity,
      el.perigeeArgumentDegrees, el.meanAnomalyDegrees, el.meanMotion,
      t2.epochRevolutionCount, t2.line2Checksum)
  }

  /** The decode after splitting: both data lines field by field, then the
      line 1 checksum, then the line 2 checksum. */
  function ParseLines(parseFloat: string -> Option<real>, contents: string, lines: Lines): (r: Result<TLE, ParseError>)
    ensures r.Failure? ==> !r.error.WrongLineCount?
    ensures r.Success? ==>
      && |lines.line1| >= 69 && |lines.line2| >= 69
      && IsChecksumValid(lines.line1) && IsChecksumValid(lines.line2)
      && TrimSpace(lines.line2[2..7]) == TrimSpace(lines.line1[2..7])
    ensures r.Success? ==>
      && r.value.name == lines.name && r.value.line1 == lines.line1
      && r.value.line2 == lines.line2 && r.value.contents == contents
  {
    var f1 :- ParseLine1(parseFloat, lines.line1);
    var f2 :- ParseLine2(parseFloat, lines.line2, f1.designation.noradIdStr);
    if !IsChecksumValid(lines.line1) then Failure(Line1ChecksumInvalid)
    else if !IsChecksumValid(lines.line2) then Failure(Line2ChecksumInvalid)
    else Success(Assemble(contents, lines, f1, f2))
  }

  /** `Parse`: the text is trimmed, split at newlines into two or three
      lines, and decoded. Go's floating-point parser is the parameter
      `parseFloat`. A failure carries no record. */
  function Parse(parseFloat: string -> Option<real>, txt: string): (r: Result<TLE, ParseError>)
    ensures r.Success? ==> r.value.contents == TrimSpace(txt)
    ensures (r.Failure? && r.error.WrongLineCount?) <==>
      |Split(TrimSpace(txt))| != 2 && |Split(TrimSpace(txt))| != 3
    ensures r.Failure? && r.error.WrongLineCount? ==> r.error.contents == TrimSpace(txt)
    ensures r.Success? ==>
      && |r.value.line1| >= 69 && |r.value.line2| >= 69
      && IsChecksumValid(r.value.line1) && IsChecksumValid(r.value.line2)
  {
    var contents := TrimSpace(txt);
    var lines :- SplitLines(contents);
    ParseLines(parseFloat, contents, lines)
  }


  // ------------------------------------------------------------- properties

  /** Blank lines and white space around the element set change nothing: the
      decode depends only on the trimmed text. */
  lemma ParseIgnoresSurroundingSpace(parseFloat: string -> Option<real>, p: string, txt: string, q: string)
    requires AllSpace(p) && AllSpace(q)
    ensures Parse(parseFloat, p + txt + q) == Parse(parseFloat, txt)
  {
    TrimSpaceSurrounded(p, txt, q);
  }

  /** The lines of a trimmed text split into two or three lines hold no
      newline, and joining them with newlines gives back the text. The name
      line of a three-line text is never empty, since a trimmed text cannot
      start with a newline. */
  lemma SplitLinesJoin(contents: string)
    requires Trimmed(contents) && SplitLines(contents).Success?
    ensures var l := SplitLines(contents).value;
      && '\n' !in l.name && '\n' !in l.line1 && '\n' !in l.line2
      && (l.name == [] <==> |Split(contents)| == 2)
      && (l.name == [] ==> contents == l.line1 + "\n" + l.line2)
      && (l.name != [] ==> contents == l.name + "\n" + l.line1 + "\n" + l.line2)
  {
    var lines := Split(contents);
    JoinSplit(contents);
    if |lines| == 2 {
      assert lines[1..] == [lines[1]];
    } else {
      if lines[0] == [] {
        SplitEmptyFirst(contents);
        assert false;
      }
      var tail := lines[1..];
      assert tail == [lines[1], lines[2]] && tail[1..] == [lines[2]];
      assert Join(tail) == lines[1] + "\n" + lines[2];
      AppendAssoc(lines[0] + "\n", lines[1] + "\n", lines[2]);
    }
  }

  /** The same for a decoded set: its `Contents` is its name line (when it
      has one) and its two data lines joined with newlines, and it has a
      name exactly when the text had three lines. */
  lemma ParseContentsJoin(parseFloat: string -> Option<real>, txt: string)
    requires Parse(parseFloat, txt).Success?
    ensures var t := Parse(parseFloat, txt).value;
      && t.contents == TrimSpace(txt)
      && '\n' !in t.name && '\n' !in t.line1 && '\n' !in t.line2
      && (t.name == [] <==> |Split(TrimSpace(txt))| == 2)
      && (t.name == [] ==> t.contents == t.line1 + "\n" + t.line2)
      && (t.name != [] ==> t.contents == t.name + "\n" + t.line1 + "\n" + t.line2)
  {
    TrimSpaceRule(txt);
    SplitLinesJoin(TrimSpace(txt));
  }

  /** A text without a line break, the empty text included, is rejected as
      a wrong line count carrying the trimmed text. */
  lemma SingleLineRejected(parseFloat: string -> Option<real>, txt: string)
    requires '\n' !in txt
    ensures Parse(parseFloat, txt) == Failure(WrongLineCount(TrimSpace(txt)))
  {
    TrimSpaceNoNewline(txt);
    SplitLinesSingle(TrimSpace(txt));
    ParseSplitFailure(parseFloat, txt);
  }

  lemma SplitLinesSingle(contents: string)
    requires '\n' !in contents
    ensures SplitLines(contents) == Failure(WrongLineCount(contents))
  {
    SplitSingle(contents);
  }

  /** A text that does not split into two or three lines fails as its split
      does. */
  lemma ParseSplitFailure(parseFloat: string -> Option<real>, txt: string)
    requires SplitLines(TrimSpace(txt)).Failure?
    ensures Parse(parseFloat, txt) == Failure(SplitLines(TrimSpace(txt)).error)
  {
  }

  /** A successful decode is the record assembled from the fields of both
      lines. */
  lemma ParseLinesAssembled(parseFloat: string -> Option<real>, contents: string, lines: Lines)
    requires ParseLines(parseFloat, contents, lines).Success?
    ensures ParseLine1(parseFloat, lines.line1).Success?
    ensures var f1 := ParseLine1(parseFloat, lines.line1).value;
      && ParseLine2(parseFloat, lines.line2, f1.designation.noradIdStr).Success?
      && ParseLines(parseFloat, contents, lines).value ==
           Assemble(contents, lines, f1, ParseLine2(parseFloat, lines.line2, f1.designation.noradIdStr).value)
  {
  }

  /** The lines a successful `Parse` decoded. */
  lemma ParseSplit(parseFloat: string -> Option<real>, txt: string)
    requires Parse(parseFloat, txt).Success?
    ensures SplitLines(TrimSpace(txt)).Success?
    ensures Parse(parseFloat, txt) == ParseLines(parseFloat, TrimSpace(txt), SplitLines(TrimSpace(txt)).value)
  {
  }

  /** The line 1 fields of a decoded set: the fixed-column strings exactly,
      and the values each column decodes to. */
  lemma Line1Columns(parseFloat: string -> Option<real>, txt: string)
    requires Parse(parseFloat, txt).Success?
    ensures var t := Parse(parseFloat, txt).value;
      var l := t.line1;
      && |l| >= 69
      && t.noradIdStr == TrimSpace(l[2..7])
      && ParseNoradId(t.noradIdStr) == Success(t.noradId)
      && t.classification == l[7..8]
      && t.internationalDesignator == TrimSpace(l[9..17])
      && t.launchTwoDigitYear == l[9..11]
      && t.launchNumber == l[11..14]
      && t.launchPiece == TrimSpace(l[14..17])
      && t.elementSetEpoch == l[18..32] == t.epochYear + t.epochDay
      && t.epochYear == l[18..20]
      && t.epochDay == l[20..32]
      && ConvertYearAndDayToDate(parseFloat, t.epochYear, t.epochDay) == Success(t.epoch)
      && parseFloat(TrimSpace(l[33..43])) == Some(t.meanMotionFirstDerivative)
      && ParseBStar(parseFloat, l[44..52]) == Success(t.meanMotionSecondDerivative)
      && ParseBStar(parseFloat, l[53..61]) == Success(t.bStar)
      && t.ephemerisType == l[62..63]
      && Atoi(TrimSpace(l[64..68])) == Some(t.elementSetNumber)
      && IsDigit(l[68]) && t.line1Checksum == DigitValue(l[68])
  {
    ParseSplit(parseFloat, txt);
    ParseLinesAssembled(parseFloat, TrimSpace(txt), SplitLines(TrimSpace(txt)).value);
  }

  /** The line 2 fields of a decoded set: its NORAD id is the one of line
      1, and each value is what its column decodes to, the eccentricity
      being read with its implied leading decimal point. */
  lemma Line2Columns(parseFloat: string -> Option<real>, txt: string)
    requires Parse(parseFloat, txt).Success?
    ensures var t := Parse(parseFloat, txt).value;
      var l := t.line2;
      && |l| >= 69
      && TrimSpace(l[2..7]) == t.noradIdStr
      && parseFloat(TrimSpace(l[8..16])) == Some(t.inclinationDegrees)
      && parseFloat(TrimSpace(l[17..25])) == Some(t.rightAscensionDegrees)
      && parseFloat("." + l[26..33]) == Some(t.eccentricity)
      && parseFloat(TrimSpace(l[34..42])) == Some(t.perigeeArgumentDegrees)
      && parseFloat(TrimSpace(l[43..51])) == Some(t.meanAnomalyDegrees)
      && parseFloat(TrimSpace(l[52..63])) == Some(t.meanMotion)
      && Atoi(TrimSpace(l[63..68])) == Some(t.epochRevolutionCount)
      && IsDigit(l[68]) && t.line2Checksum == DigitValue(l[68])
  {
    ParseSplit(parseFloat, txt);
    ParseLinesAssembled(parseFloat, TrimSpace(txt), SplitLines(TrimSpace(txt)).value);
  }

  /** Once line 1 decodes, a line 2 whose trimmed columns 3 to 7 differ from
      line 1's NORAD id is rejected before any of its other columns is read. */
  lemma NoradIdMismatchRejected(parseFloat: string -> Option<real>, contents: string, lines: Lines)
    requires ParseLine1(parseFloat, lines.line1).Success?
    requires |lines.line2| >= 7
    requires TrimSpace(lines.line2[2..7]) != TrimSpace(lines.line1[2..7])
    ensures ParseLines(parseFloat, contents, lines) == Failure(NoradIdMismatch)
  {
  }

  /** The checksums are verified last and line 1 first: a checksum error
      means every field of both lines decoded, and it names line 1 exactly
      when line 1 is invalid, whatever line 2 holds. */
  lemma ChecksumErrorOrder(parseFloat: string -> Option<real>, contents: string, lines: Lines)
    requires ParseLines(parseFloat, contents, lines).Failure?
    requires IsChecksumError(ParseLines(parseFloat, contents, lines).error)
    ensures ParseLine1(parseFloat, lines.line1).Success?
    ensures ParseLine2(parseFloat, lines.line2, ParseLine1(parseFloat, lines.line1).value.designation.noradIdStr).Success?
    ensures |lines.line1| > 0 && |lines.line2| > 0
    ensures ParseLines(parseFloat, contents, lines).error == Line1ChecksumInvalid <==>
      !IsChecksumValid(lines.line1)
    ensures ParseLines(parseFloat, contents, lines).error == Line2ChecksumInvalid <==>
      IsChecksumValid(lines.line1) && !IsChecksumValid(lines.line2)
  {
  }

  /** When both lines decode, the outcome is decided by the checksums alone,
      line 1 first. */
  lemma ChecksumDecides(parseFloat: string -> Option<real>, contents: string, lines: Lines)
    requires ParseLine1(parseFloat, lines.line1).Success?
    requires ParseLine2(parseFloat, lines.line2, ParseLine1(parseFloat, lines.line1).value.designation.noradIdStr).Success?
    ensures |lines.line1| > 0 && |lines.line2| > 0
    ensures !IsChecksumValid(lines.line1) ==>
      ParseLines(parseFloat, contents, lines) == Failure(Line1ChecksumInvalid)
    ensures IsChecksumValid(lines.line1) && !IsChecksumValid(lines.line2) ==>
      ParseLines(parseFloat, contents, lines) == Failure(Line2ChecksumInvalid)
    ensures IsChecksumValid(lines.line1) && IsChecksumValid(lines.line2) ==>
      ParseLines(parseFloat, contents, lines).Success?
  {
  }

  /** Changing the check digit of a valid line 1 to any other character
      makes the decode fail, whatever the rest of the set holds. When the
      set decoded and the new character is a digit, every field still
      decodes and the failure is the line 1 checksum error. */
  lemma AlteredLine1CheckDigitRejected(parseFloat: string -> Option<real>, contents: string, lines: Lines, c: char)
    requires |lines.line1| > 0 && IsChecksumValid(lines.line1)
    requires c != lines.line1[|lines.line1| - 1]
    ensures ParseLines(parseFloat, contents, lines.(line1 := lines.line1[..|lines.line1| - 1] + [c])).Failure?
    ensures ParseLines(parseFloat, contents, lines).Success? && IsDigit(c) ==>
      ParseLines(parseFloat, contents, lines.(line1 := lines.line1[..|lines.line1| - 1] + [c]))
        == Failure(Line1ChecksumInvalid)
  {
    var altered := lines.(line1 := lines.line1[..|lines.line1| - 1] + [c]);
    AlteredCheckDigitInvalid(lines.line1, c);
    InvalidLine1Fails(parseFloat, contents, altered);
    if ParseLines(parseFloat, contents, lines).Success? && IsDigit(c) {
      ParseLinesAssembled(parseFloat, contents, lines);
      AlteredLine1Reported(parseFloat, contents, lines, altered, c);
    }
  }

  /** The same for a valid line 2, whose checksum error is reported once
      line 1 has passed its own. */
  lemma AlteredLine2CheckDigitRejected(parseFloat: string -> Option<real>, contents: string, lines: Lines, c: char)
    requires |lines.line2| > 0 && IsChecksumValid(lines.line2)
    requires c != lines.line2[|lines.line2| - 1]
    ensures ParseLines(parseFloat, contents, lines.(line2 := lines.line2[..|lines.line2| - 1] + [c])).Failure?
    ensures ParseLines(parseFloat, contents, lines).Success? && IsDigit(c) ==>
      ParseLines(parseFloat, contents, lines.(line2 := lines.line2[..|lines.line2| - 1] + [c]))
        == Failure(Line2ChecksumInvalid)
  {
    var altered := lines.(line2 := lines.line2[..|lines.line2| - 1] + [c]);
    AlteredCheckDigitInvalid(lines.line2, c);
    InvalidLine2Fails(parseFloat, contents, altered);
    if ParseLines(parseFloat, contents, lines).Success? && IsDigit(c) {
      ParseLinesAssembled(parseFloat, contents, lines);
      AlteredLine2Reported(parseFloat, contents, lines, altered, c);
    }
  }

  lemma AlteredLine1Reported(parseFloat: string -> Option<real>, contents: string, lines: Lines, altered: Lines, c: char)
    requires ParseLine1(parseFloat, lines.line1).Success?
    requires ParseLine2(parseFloat, lines.line2, ParseLine1(parseFloat, lines.line1).value.designation.noradIdStr).Success?
    requires IsDigit(c) && altered == lines.(line1 := lines.line1[..|lines.line1| - 1] + [c])
    requires !IsChecksumValid(altered.line1)
    ensures ParseLines(parseFloat, contents, altered) == Failure(Line1ChecksumInvalid)
  {
    AlteredLastColumn(lines.line1, c);
    Line1SameColumns(parseFloat, lines.line1, altered.line1);
    ChecksumDecides(parseFloat, contents, altered);
  }

  lemma AlteredLine2Reported(parseFloat: string -> Option<real>, contents: string, lines: Lines, altered: Lines, c: char)
    requires ParseLine1(parseFloat, lines.line1).Success?
    requires ParseLine2(parseFloat, lines.line2, ParseLine1(parseFloat, lines.line1).value.designation.noradIdStr).Success?
    requires IsDigit(c) && altered == lines.(line2 := lines.line2[..|lines.line2| - 1] + [c])
    requires IsChecksumValid(lines.line1) && !IsChecksumValid(altered.line2)
    ensures ParseLines(parseFloat, contents, altered) == Failure(Line2ChecksumInvalid)
  {
    AlteredLastColumn(lines.line2, c);
    Line2SameColumns(parseFloat, lines.line2, altered.line2, ParseLine1(parseFloat, lines.line1).value.designation.noradIdStr);
    ChecksumDecides(parseFloat, contents, altered);
  }

  /** Two lines of 69 columns or more that agree on the first 68 columns and
      both hold a digit in column 69. */
  predicate SameFirst68(a: string, b: string) {
    |a| >= 69 && |b| >= 69 && a[..68] == b[..68] && IsDigit(a[68]) && IsDigit(b[68])
  }

  /** Replacing the last character of a line of 69 columns or more by a
      digit keeps its first 68 columns and a digit in column 69. */
  lemma AlteredLastColumn(line: string, c: char)
    requires |line| >= 69 && IsDigit(line[68]) && IsDigit(c)
    ensures SameFirst68(line, line[..|line| - 1] + [c])
  {
    var altered := line[..|line| - 1] + [c];
    assert altered[..68] == line[..68];
  }

  lemma SameColumns(a: string, b: string, lo: nat, hi: nat)
    requires |a| >= 68 && |b| >= 68 && a[..68] == b[..68] && lo <= hi <= 68
    ensures a[lo..hi] == b[lo..hi]
  {
    forall i | 0 <= i < hi - lo
      ensures a[lo..hi][i] == b[lo..hi][i]
    {
      assert a[lo + i] == a[..68][lo + i];
      assert b[lo + i] == b[..68][lo + i];
    }
  }

  /** The fields of line 1 other than its stored checksum come from its
      first 68 columns, so two such lines decode alike. */
  lemma Line1SameColumns(parseFloat: string -> Option<real>, a: string, b: string)
    requires SameFirst68(a, b)
    ensures ParseLine1(parseFloat, a).Success? <==> ParseLine1(parseFloat, b).Success?
    ensures ParseLine1(parseFloat, a).Success? ==>
      ParseLine1(parseFloat, a).value.designation == ParseLine1(parseFloat, b).value.designation
  {
    SameColumns(a, b, 2, 7);
    SameColumns(a, b, 7, 8);
    SameColumns(a, b, 9, 17);
    SameColumns(a, b, 9, 11);
    SameColumns(a, b, 11, 14);
    SameColumns(a, b, 14, 17);
    assert ParseDesignation(a) == ParseDesignation(b);
    SameColumns(a, b, 18, 20);
    SameColumns(a, b, 20, 32);
    assert ParseEpochFields(parseFloat, a).Success? <==> ParseEpochFields(parseFloat, b).Success?;
    SameColumns(a, b, 33, 43);
    SameColumns(a, b, 44, 52);
    SameColumns(a, b, 53, 61);
    assert ParseDrag(parseFloat, a).Success? <==> ParseDrag(parseFloat, b).Success?;
    SameColumns(a, b, 64, 68);
    assert ParseLine1Tail(a).Success? <==> ParseLine1Tail(b).Success?;
  }

  /** The same for line 2: all its fields but the stored checksum come from
      its first 68 columns. */
  lemma Line2SameColumns(parseFloat: string -> Option<real>, a: string, b: string, noradIdStr: string)
    requires SameFirst68(a, b)
    ensures ParseLine2(parseFloat, a, noradIdStr).Success? <==> ParseLine2(parseFloat, b, noradIdStr).Success?
  {
    SameColumns(a, b, 2, 7);
    SameColumns(a, b, 8, 16);
    SameColumns(a, b, 17, 25);
    SameColumns(a, b, 26, 33);
    SameColumns(a, b, 34, 42);
    SameColumns(a, b, 43, 51);
    SameColumns(a, b, 52, 63);
    assert ParseElements(parseFloat, a).Success? <==> ParseElements(parseFloat, b).Success?;
    SameColumns(a, b, 63, 68);
    assert ParseLine2Tail(a).Success? <==> ParseLine2Tail(b).Success?;
  }

  /** A set whose line 1 fails the checksum never decodes. */
  lemma InvalidLine1Fails(parseFloat: string -> Option<real>, contents: string, lines: Lines)
    requires |lines.line1| > 0 && !IsChecksumValid(lines.line1)
    ensures ParseLines(parseFloat, contents, lines).Failure?
  {
  }

  /** A set whose line 2 fails the checksum never decodes. */
  lemma InvalidLine2Fails(parseFloat: string -> Option<real>, contents: string, lines: Lines)
    requires |lines.line2| > 0 && !IsChecksumValid(lines.line2)
    ensures ParseLines(parseFloat, contents, lines).Failure?
  {
  }

  /** On a line 1 of exactly 69 columns, the stored checksum (column 69) is
      the digit the checksum test reads (the last one), so it is the
      checksum of the first 68 columns. On a longer line the two are
      different columns. */
  lemma StoredChecksumOf69Columns(parseFloat: string -> Option<real>, txt: string)
    requires Parse(parseFloat, txt).Success?
    requires |Parse(parseFloat, txt).value.line1| == 69
    ensures var t := Parse(parseFloat, txt).value;
      t.line1Checksum == Checksum.Checksum(t.line1[..68])
  {
    Line1Columns(parseFloat, txt);
  }
}
