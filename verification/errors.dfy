/** The ways a decode can fail, and the Result-returning forms of the
    primitive steps that can fail: slicing a fixed column range and the two
    `strconv` conversions. */
module Errors {
  import opened Wrappers
  import opened Strings

  datatype ParseError =
    | /** "invalid TLE, must have 2 or 3 lines", with the trimmed text */
      WrongLineCount(contents: string)
    | /** `strconv.Atoi` or `strconv.ParseFloat` rejected this text */
      SyntaxError(text: string)
    | /** "invalid NORAD ID Alpha-5 format": the leading letter has no prefix */
      InvalidAlpha5
    | /** "line 1 and line 2 NORAD IDs do not match" */
      NoradIdMismatch
    | /** "line 1 checksum is invalid" */
      Line1ChecksumInvalid
    | /** "line 2 checksum is invalid" */
      Line2ChecksumInvalid
    | /** Not an error value in Go: the runtime panics on a string index or
          slice bound beyond the end (a short line or a blank field). */
      IndexOutOfRange

  /** The checksum failures, reported only once every field has decoded. */
  predicate IsChecksumError(e: ParseError) {
    e.Line1ChecksumInvalid? || e.Line2ChecksumInvalid?
  }

  /** Go's `s[lo:hi]` on a string, which panics when `hi` is past the end. */
  function Slice(s: string, lo: nat, hi: nat): (r: Result<string, ParseError>)
    requires lo <= hi
    ensures r.Success? <==> hi <= |s|
    ensures r.Success? ==> |r.value| == hi - lo && r.value == s[lo..hi]
    ensures r.Failure? ==> r.error == IndexOutOfRange
  {
    if hi <= |s| then Success(s[lo..hi]) else Failure(IndexOutOfRange)
  }

  /** `strconv.Atoi` with its error. */
  function ParseInt(text: string): (r: Result<int, ParseError>)
    ensures r.Success? <==> Atoi(text).Some?
    ensures r.Success? ==> r.value == Atoi(text).value
    ensures r.Failure? ==> r.error == SyntaxError(text)
  {
    match Atoi(text)
    case Some(n) => Success(n)
    case None => Failure(SyntaxError(text))
  }

  /** `strconv.ParseFloat(text, 64)`, which is not part of this model: the
      decoder takes it as the parameter `parseFloat`, `None` standing for an
      error. */
  function ParseFloat(parseFloat: string -> Option<real>, text: string): (r: Result<real, ParseError>)
    ensures r.Success? <==> parseFloat(text).Some?
    ensures r.Success? ==> r.value == parseFloat(text).value
    ensures r.Failure? ==> r.error == SyntaxError(text)
  {
    match parseFloat(text)
    case Some(x) => Success(x)
    case None => Failure(SyntaxError(text))
  }
}
