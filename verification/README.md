# Two-line element set decoder, modelled in Dafny

This project models `tle`, a Go decoder for the NORAD two-line element
format: a satellite's orbital elements at an epoch, written as two
fixed-column data lines of 69 characters. A "3LE" adds a name line before
them. The decoder does the following:

- It trims the text and splits it into two or three lines.
- It reads every field of line 1 and line 2 from fixed columns, in column
  order. The first field that fails ends the decode.
- It checks that both lines carry the same NORAD catalog number.
- It verifies the mod-10 checksum of line 1, then of line 2.
- On success it returns the `TLE` record. On any failure it returns an
  error and no record.

The modules follow the parts of `tle.go`:

- `Checksum`: `calculateChecksum` and `isChecksumValid`. Digits weigh
  their value, `-` weighs 1, everything else 0. The last character of a
  line must be the sum modulo 10 of the characters before it.
- `NoradId`: `parseNoradId` and the Alpha-5 catalog numbers. A leading
  letter A–Z, skipping I and O, stands for a prefix from 10 to 33. The
  `switch` on the letter is `Alpha5Table`. The decoder looks the prefix up
  through `Alpha5Prefix`, the rule "two digits of 10 plus the rank".
  `Alpha5TableRule` proves the two equal on every character.
- `BStar`: `parseBStar`. An implied-decimal field such as ` 22813-4` is
  rewritten as the exponent literal `+0.22813e-4` and handed to the float
  parser.
- `Epoch`: `convertYearAndDayToDate`. It pivots two-digit years at 57 and
  reads the day of year.
- `Tle`: `Parse`, the record and the order of its steps.
- `Sample`: the package's example (examples/basic/main.go:6-9). The ISS
  element set decodes end to end to the record it holds, under any float
  parser that accepts the ten float texts of its two data lines.
- `Strings` and `Errors`: the library calls the decoder makes, written out
  for ASCII text.
  - `strings.TrimSpace` and `strings.Split(s, "\n")`.
  - `strconv.Atoi`: an optional sign, then one or more digits, within the
    64-bit `int` range.
  - Go string slicing, which panics past the end of the string.

`strconv.ParseFloat` is a parameter of the decoder, `parseFloat: string ->
Option<real>`. Every float field is specified as "what the float parser
returns on exactly this text". For the B* fields,
`BStar.ParseBStarValue` also proves which real number the text denotes,
under a parser that reads exponent literals exactly.

Where `tle.go` does something other than one might expect:

- Line 2's catalog number is compared with line 1's as a trimmed string
  (tle.go:128-131), not as a parsed integer.
- A leading letter is followed by whatever the rest of the trimmed field
  holds, not exactly four digits (tle.go:288-339).
- A line too short for a field makes Go panic; it does not return an
  error. The model gives such a panic its own failure, `IndexOutOfRange`,
  at the step where Go would panic.

The fixtures in tle_test.go:14-15 end in the check digits 1 and 8. The
checksum rule rejects them: the bodies need 4 and 7, the digits of the
lines in examples/basic/main.go:7-8 (`Checksum.SampleLinesValid`).

## Model

| member | source | states |
|---|---|---|
| Checksum.WeightRule | tle.go:229-251 | each character weighs at most 9: a digit its value, `-` 1, any other character 0 |
| Checksum.Checksum | tle.go:221-254 | the checksum of a line is a single digit, 0 to 9 |
| Checksum.CalculateChecksum | tle.go:221-254 | the loop that accumulates the weights returns a value in 0..9, equal to the sum of the weights of all characters modulo 10 |
| Checksum.ChecksumAppend | tle.go:227-253 | the checksum of a concatenation is the sum of the parts' checksums modulo 10 |
| Checksum.ZeroWeightInsertion | tle.go:223-251 | inserting blanks, periods, `+` signs or letters anywhere never changes the checksum |
| Checksum.IsChecksumValid | tle.go:210-219 | a line is valid exactly when its last character is a digit equal to the checksum of all preceding characters |
| Checksum.CheckDigit | tle.go:210-219 | the check digit of a body is a digit whose value is the body's checksum |
| Checksum.OnlyCheckDigitValid | tle.go:210-219 | a body followed by a character is valid exactly when that character is the body's check digit |
| Checksum.AlteredCheckDigitInvalid | tle.go:210-219 | replacing the last character of a valid line by any other character makes it invalid |
| Checksum.IssLine1Checksum | examples/basic/main.go:7 | the body of the sample line 1 has checksum 4 |
| Checksum.IssLine2Checksum | examples/basic/main.go:8 | the body of the sample line 2 has checksum 7 |
| Checksum.NegativeLine1Checksum | tle.go:232-233 | a line 1 body with four `-` signs, each weighing 1, has checksum 7 |
| Checksum.SampleLinesValid | examples/basic/main.go:7-8 | both sample lines pass the check, and line 1 with final digit 1, as in tle_test.go:14, fails |
| NoradId.Alpha5TableRule | tle.go:290-343 | the letter table of the `switch` is defined exactly on A–Z without I and O, and on every character it agrees with the rule "the two digits of 10 plus the letter's rank in that alphabet" that the decoder uses |
| NoradId.Alpha5PrefixIncreasing | tle.go:290-343 | later letters have strictly larger prefixes, so no two letters share a table entry |
| NoradId.ParseNoradId | tle.go:280-344 | an empty field panics; the Alpha-5 error is raised exactly when the first character is neither a digit nor a letter of the scheme; a success is in 0..MaxInt |
| NoradId.ParseNoradIdDigit | tle.go:281-286 | a field starting with a digit is read by Atoi as a whole |
| NoradId.ParseNoradIdLetter | tle.go:287-343 | a field starting with a letter of the scheme is read by Atoi as the letter's two-digit prefix followed by the rest of the field |
| NoradId.NumericNoradId | tle.go:281-286 | a field of 1 to 18 digits is its decimal value |
| NoradId.NumericNoradIdSyntax | tle.go:282-285 | a field starting with a digit but not all digits fails with Atoi's syntax error on the field |
| NoradId.Alpha5NoradId | tle.go:287-339 | a letter followed by up to 16 digits is the decimal value of the letter's prefix followed by those digits |
| NoradId.PrefixValue | tle.go:291-339 | that value is the prefix times 10 to the number of digits, plus the value of the digits |
| NoradId.LetterThenFourDigits | tle.go:287-339 | a letter followed by four digits is its prefix times 10000 plus the value of the digits |
| NoradId.Alpha5NoradIdSyntax | tle.go:287-339 | after a letter, anything but digits fails, with the prefix spliced in front of the rest in the error |
| NoradId.ParseAlpha5Format | tle.go:280-344 | round trip: every catalog number 0..339999, written in Alpha-5 (five digits, or a letter and four digits), is read back as itself |
| NoradId.NoradIdExamples | tle.go:280-344 | "25544" is 25544, "A0000" is 100000, "Z9999" is 339999 |
| NoradId.NoradIdInvalidExamples | tle.go:291-341 | "I1234", "O1234" and "a1234" are Alpha-5 errors |
| BStar.ParseBStar | tle.go:256-278 | succeeds exactly when the literal can be built and the float parser accepts it, and then is the parser's value of the literal; a short field panics, and a rejected literal is reported with the literal's text |
| BStar.AssembleLiteral | tle.go:264-275 | on a trimmed field it fails (a panic) exactly when the field is shorter than its sign plus seven columns; otherwise the literal is the sign (`+` if none), `0.`, the five mantissa columns, `e` and the two exponent columns |
| BStar.BStarLiteralTrims | tle.go:263 | blanks around a field do not change the literal built from it |
| BStar.AssembleLiteralExamples | tle.go:264-275 | "22813-4" becomes "+0.22813e-4" and "-11606-4" becomes "-0.11606e-4" |
| BStar.BStarLiteralShort | tle.go:263-273 | a field cut short and a blank field both panic |
| BStar.AssembledLiteralValue | tle.go:264-277 | for a field whose mantissa is digits and whose exponent is an integer, the literal denotes sign × mantissa/100000 × 10^exponent |
| BStar.ParseBStarValue | tle.go:256-278 | under a float parser that reads exponent literals exactly, `parseBStar` returns that implied value |
| Epoch.ConvertYearAndDayToDate | tle.go:185-201 | success exactly when the year is an integer and the day a float; a bad year is reported first, with its text; the year is the pivot of whatever integer Atoi reads, signed ones included; a year 0..99 becomes one of 1957..2056 with the same last two digits; the day is what the float parser returns |
| Epoch.FullYearRange | tle.go:191-195 | every two-digit year lands in 1957..2056 and keeps its last two digits |
| Epoch.FullYearOnto | tle.go:191-195 | every year of 1957..2056 comes from its last two digits (with FullYearRange, a bijection) |
| Epoch.FullYearInjective | tle.go:191-195 | distinct two-digit years give distinct years |
| Epoch.TwoDigitYear | tle.go:187 | a two-digit year field is read as its decimal value, 0..99 |
| Epoch.FullYearExamples | tle.go:185-201 | 20 is 2020, 98 is 1998, 56 is 2056, 57 is 1957; Atoi reads the year fields "-5" and "+5" as -5 and 5, and the decoder turns them into 1995 and 2005 |
| Epoch.BadYearFails | tle_test.go:104-110 | year text "20a" fails with its text, whatever the day |
| Epoch.BadDayFails | tle_test.go:112-118 | a day text the float parser rejects fails after a good year |
| Epoch.SampleEpoch | tle.go:185-208 | year "20", day "274.51782528" is 2020, 273.51782528 days after the start of the year |
| Epoch.TestEpoch | tle_test.go:91-102 | year "15", day "22.968530853511766" is 2015, 21 days 23:14:41.0657 into the year |
| Tle.SplitLines | tle.go:67-77 | two lines give an empty name, three give the name line first, and any other count fails with the trimmed text |
| Tle.ParseDesignation | tle.go:80-91 | too short for the id panics; a bad id is reported first; on success, id string, classification and designator parts are the exact columns, and the id is what `parseNoradId` returns |
| Tle.ParseEpochFields | tle.go:93-99 | succeeds exactly when the epoch columns exist and convert; the epoch field is the year columns followed by the day columns |
| Tle.ParseFloatColumn | tle.go:101-104 | a float column succeeds exactly when it exists and the float parser accepts its trimmed text |
| Tle.ParseIntColumn | tle.go:117-120 | an integer column succeeds exactly when it exists and Atoi accepts its trimmed text |
| Tle.ParseChecksumColumn | tle.go:122-125 | the stored checksum column succeeds exactly when column 69 exists and is a digit, and it is that digit's value |
| Tle.ParseDrag | tle.go:101-114 | the first derivative is the float of trimmed columns 34–43; the second derivative and B* are what `parseBStar` returns on columns 45–52 and 54–61 |
| Tle.ParseLine1Tail | tle.go:116-125 | the ephemeris type is column 63; the element set number is Atoi of trimmed columns 65–68; the stored checksum is the digit in column 69 |
| Tle.ParseLine1 | tle.go:79-125 | line 1 decodes exactly when each of its four column groups does, and fails only with a field error |
| Tle.ParseElements | tle.go:133-162 | the six elements are the floats of their trimmed columns; the eccentricity is read from "." followed by columns 27–33 |
| Tle.ParseLine2Tail | tle.go:164-172 | the revolution count is Atoi of trimmed columns 64–68; the stored checksum is the digit in column 69 |
| Tle.ParseLine2 | tle.go:127-172 | a line 2 whose trimmed columns 3–7 differ from line 1's id fails with the mismatch before any other column is read; otherwise it decodes exactly when its column groups do |
| Tle.ParseLines | tle.go:79-182 | a success has both lines at least 69 long, both checksums valid and equal trimmed ids |
| Tle.Parse | tle.go:57-183 | `Contents` is the trimmed text; the line-count error happens exactly when the trimmed text is not two or three lines; a success has both checksums valid |
| Tle.ParseIgnoresSurroundingSpace | tle.go:59 | white space and blank lines around the text never change the result (tle_test.go:59-75) |
| Tle.SplitLinesJoin | tle.go:59-77 | the split lines hold no newline, and joining them with newlines gives back the trimmed text; a name line is never empty |
| Tle.ParseContentsJoin | tle.go:57-77 | a decoded set has a name exactly when the text had three lines, and `Contents` is its lines joined with newlines |
| Tle.SingleLineRejected | tle.go:75-77 | a text without a newline, the empty text included, fails with the line-count error |
| Tle.ParseLinesAssembled | tle.go:79-182 | a successful decode is the record assembled from the fields of both lines |
| Tle.Line1Columns | tle.go:80-125 | every line 1 field of a decoded set is its exact column, or the value its column decodes to |
| Tle.Line2Columns | tle.go:128-172 | every line 2 field of a decoded set is the value its column decodes to, and line 2's id is line 1's |
| Tle.NoradIdMismatchRejected | tle.go:128-131 | once line 1 decodes, a different line 2 id is reported as the mismatch |
| Tle.ChecksumErrorOrder | tle.go:174-180 | a checksum error means every field of both lines decoded, and it names line 1 exactly when line 1 is invalid |
| Tle.ChecksumDecides | tle.go:174-182 | once both lines decode, the checksums alone decide the outcome, line 1 first |
| Tle.AlteredLine1CheckDigitRejected | tle.go:174-176 | changing the last character of a valid line 1 to any other character makes the decode fail, whatever the rest of the set holds; in a set that decoded, changing it to another digit fails with exactly the line 1 checksum error |
| Tle.AlteredLine2CheckDigitRejected | tle.go:178-180 | the same for a valid line 2: the decode fails, and in a set that decoded another digit gives exactly the line 2 checksum error |
| Tle.Line1SameColumns | tle.go:80-125 | two lines 1 that agree on the first 68 columns and both hold a digit in column 69 both decode or both fail, with the same designation |
| Tle.Line2SameColumns | tle.go:127-172 | two lines 2 that agree on the first 68 columns and both hold a digit in column 69 both decode or both fail |
| Tle.InvalidLine1Fails | tle.go:174-176 | a set whose line 1 fails the checksum never decodes |
| Tle.InvalidLine2Fails | tle.go:178-180 | a set whose line 2 fails the checksum never decodes |
| Tle.StoredChecksumOf69Columns | tle.go:122 | on a 69-column line 1, the stored checksum is the checksum of the first 68 columns |
| Sample.ExampleDecodes | examples/basic/main.go:6-12 | the example text decodes under any float parser that accepts its ten float texts (".00000867", "+0.22813e-4", "51.6441" and the others). The record has name "ISS (ZARYA)", both data lines, the text as `Contents`, NORAD id "25544" = 25544, epoch year 2020, element set 999, revolution 25076 and stored checksums 4 and 7; the epoch day and each float field are what the parser returns on that field's text |
| Sample.IssTextSplits | tle.go:59-73 | the example text is already trimmed and splits into the name line and the two data lines |
| Sample.SplitThree | tle.go:60 | three newline-free lines joined by newlines split back into exactly those three lines |
| Sample.IssLine1Decodes | tle.go:79-125 | under a float parser that accepts line 1's four float texts, line 1 of the example decodes to NORAD id 25544, epoch year 2020, the parser's values of the day and the three drag texts, element set 999 and stored checksum 4 |
| Sample.IssLine2Decodes | tle.go:127-172 | under a float parser that accepts line 2's six element texts, line 2 of the example carries line 1's NORAD id and decodes to the parser's values of those texts, revolution 25076 and stored checksum 7 |
| Sample.IssDrag | tle.go:101-114 | the drag fields of line 1 are the parser's values of ".00000867", "+0.00000e-0" and "+0.22813e-4" |
| Sample.IssElements | tle.go:133-162 | the orbital elements of line 2 are the parser's values of "51.6441", "93.0000", ".0001400", "11.0000", "349.0000" and "15.49300070" |
| Sample.DesignationOf | tle.go:79-91 | a line of at least 17 columns whose trimmed columns 3 to 7 decode as a NORAD id yields that id and its string |
| Sample.PaddedText | tle.go:101-104 | a column of blanks followed by a text that starts and ends with something other than white space trims to that text |
| Sample.PaddedDigits | tle.go:117 | a column of blanks followed by digits trims to those digits |
| Sample.UnsignedImpliedField | tle.go:256-278 | a blank and seven columns beginning and ending with a digit are read as the float parser's value of `+0.`, the five mantissa columns, `e` and the two exponent columns, whenever the parser accepts that literal |
| Sample.LinesDecode | tle.go:172-182 | once both lines decode under the same NORAD id and both checksums hold, the decode is the record assembled from the two lines' fields |
| Strings.TrimSpaceRule | tle.go:59 | the trimmed text has no white space at either end, is no longer than the input, and is empty exactly when the input is all white space |
| Strings.TrimSpaceSurrounded | tle.go:59 | white space around a text does not change its trimmed form |
| Strings.JoinSplit | tle.go:60 | joining the pieces of a split with newlines gives back the text |
| Strings.SplitJoin | tle.go:60 | splitting a join of newline-free lines gives back the lines |
| Strings.Atoi | tle.go:187 | a success is within the 64-bit `int` range and is an optional sign followed by digits only; a negative value has a `-` |
| Strings.AtoiOneChar | tle.go:211 | a single character is an integer exactly when it is a digit, and then it is the digit's value |
| Strings.AtoiDigits | tle.go:282 | up to 18 digits always fit and are read as their decimal value |
| Errors.Slice | tle.go:80 | slicing succeeds exactly when the end is within the string, and then it is that substring; otherwise it panics |
| Errors.ParseInt | tle.go:117-120 | Atoi's error carries the rejected text |
| Errors.ParseFloat | tle.go:101-104 | the float parser's error carries the rejected text |

## Left out

- `strconv.ParseFloat` is not part of this model; it is the parameter
  `parseFloat`. IEEE-754 rounding, and the float values of all ten float
  fields, are therefore not modelled.
- Epoch time arithmetic (tle.go:203-207) is left out: the day times
  86400e9, truncated to nanoseconds and added to `time.Date`. The epoch is
  the exact pair (year, day of year). `Epoch.SecondsIntoYear` states the
  offset rule over exact reals.
- The JSON tags on `TLE` (tle.go:13-53) are serialisation metadata with no
  behaviour.
- Unicode is left out. The model works on ASCII text:
  - `range` over runes and Unicode white space in `strings.TrimSpace` are
    not modelled;
  - a non-ASCII byte is a character here.
- Go runtime panics are not errors in Go. A short line and a blank NORAD id
  or B* field panic there. Here they are the failure `IndexOutOfRange`,
  raised at the step where Go would panic. A recovered panic is not
  modelled.
- The error messages are not modelled. Each error is a constructor of
  `ParseError`: the line-count error keeps the trimmed text, and the
  `strconv` errors keep the rejected text.
- Go returns a zero `TLE` together with an error. Here a failure carries
  no record at all.
- Checksum.CalculateChecksum: the Go accumulator is an `int`. Its overflow
  needs more than 10^18 characters and is not modelled.
- Tle.StoredChecksumOf69Columns: on a line 1 longer than 69 columns, the
  stored `Line1Checksum` (column 69) and the digit `isChecksumValid`
  checks (the last one) are different characters. The lemma covers only
  the 69-column case.
