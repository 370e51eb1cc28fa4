/**
 * The exceptions rb_store_png raises (png_ext.c:107-156): their Ruby class and the
 * message text, including the decimal rendering of the numbers printed with %u/%zd.
 */
module Failures {
  import opened Words

  datatype EncodeError =
    | InvalidDepth(depth: u32)                 // line 108
    | DataTooShort(required: u32, got: nat)    // line 112
    | WriterInitFailed(text: string)           // line 118
    | InfoInitFailed(text: string)             // line 123
    | LibpngError(text: string)                // lines 128 and 156
    | WriteFailed(text: string)                // line 152

  datatype ExceptionClass = ArgumentError | StandardError

  /** Argument errors for bad inputs; StandardError, with the error string, for libpng failures. */
  function ClassOf(e: EncodeError): (c: ExceptionClass)
    ensures c == StandardError <==> e.WriterInitFailed? || e.InfoInitFailed? || e.LibpngError? || e.WriteFailed?
  {
    if e.InvalidDepth? || e.DataTooShort? then ArgumentError else StandardError
  }

  function Digit(n: nat): (c: char)
    requires n < 10
    ensures '0' <= c <= '9'
  {
    "0123456789"[n]
  }

  /** A natural number in decimal, no leading zeros: what %u and %zd print for it. */
  function Decimal(n: nat): (s: string)
    ensures |s| > 0
    ensures forall i :: 0 <= i < |s| ==> '0' <= s[i] <= '9'
    ensures n > 0 ==> s[0] != '0'
  {
    if n < 10 then [Digit(n)] else Decimal(n / 10) + [Digit(n % 10)]
  }

  /** Reading decimal digits back: the inverse of Decimal. */
  function ParseDecimal(s: string): nat
    requires forall i :: 0 <= i < |s| ==> '0' <= s[i] <= '9'
  {
    if s == [] then 0 else ParseDecimal(s[..|s| - 1]) * 10 + (s[|s| - 1] as int - '0' as int)
  }

  lemma {:induction false} ParseDecimalInverts(n: nat)
    ensures ParseDecimal(Decimal(n)) == n
  {
    if n >= 10 {
      var s := Decimal(n);
      assert s[..|s| - 1] == Decimal(n / 10);
      ParseDecimalInverts(n / 10);
    }
  }

  /** The exception message, as the format strings of lines 108-156 print it. */
  function Message(e: EncodeError): (m: string)
    ensures |m| > 0 && m[|m| - 1] == (if ClassOf(e) == ArgumentError then '.' else '\n')
  {
    match e
    case InvalidDepth(d) => "Depth must be either 8 or 16 (got " + Decimal(d) + ")."
    case DataTooShort(req, got) => "Data must contain at least " + Decimal(req) + " bytes (got " + Decimal(got) + ")."
    case WriterInitFailed(t) => "Unable to create PNG writing structure: " + t + "\n"
    case InfoInitFailed(t) => "Unable to create PNG info structure: " + t + "\n"
    case LibpngError(t) => "A libpng error occurred: " + t + "\n"
    case WriteFailed(t) => "A libpng error occurred while writing: " + t + "\n"
  }

  /** The message of a libpng failure ends with the whole error string and a newline. */
  lemma LibraryMessageEndsWithErrorText(e: EncodeError)
    requires ClassOf(e) == StandardError
    ensures |Message(e)| > |e.text|
    ensures Message(e)[|Message(e)| - |e.text| - 1..] == e.text + "\n"
  {
    var p: string := match e
      case WriterInitFailed(_) => "Unable to create PNG writing structure: "
      case InfoInitFailed(_) => "Unable to create PNG info structure: "
      case LibpngError(_) => "A libpng error occurred: "
      case WriteFailed(_) => "A libpng error occurred while writing: ";
    var q := e.text + "\n";
    assert Message(e) == p + q;
    assert (p + q)[|p|..] == q;
  }

  /** The depth printed in an InvalidDepth message can be read back from it. */
  lemma {:induction false} InvalidDepthMessageNamesDepth(d: u32)
    ensures var m := Message(InvalidDepth(d));
      |m| == 36 + |Decimal(d)| && m[34..|m| - 2] == Decimal(d) && ParseDecimal(m[34..|m| - 2]) == d
  {
    var m := Message(InvalidDepth(d));
    assert m[34..|m| - 2] == Decimal(d);
    ParseDecimalInverts(d);
  }
}
