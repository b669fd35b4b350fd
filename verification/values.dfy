/**
 * The PHP values the histogram classes receive and return: scalars with
 * PHP's `is_numeric` / `is_int` / `isset` tests, the error kinds the
 * classes raise, and the string helpers used by the delimited export.
 */
module Values {

  datatype Option<T> = None | Some(value: T)

  /** The failures raised (PEAR error objects or exceptions) by the classes. */
  datatype Error =
    | WrongType           // "wrong histogram type requested"
    | IncorrectOptions    // "incorrect options array"
    | DataNotSet          // "data has not been set"
    | NotCalculated       // "histogram has not been calculated"
    | IncorrectBinMode    // "incorrect mode for bins"
    | NotAnArray          // "array of numeric data expected"
    | NonNumericItem      // "non-numeric item in array"
    | InvalidCoordinates  // "array of numeric coordinates expected"
    | EmptyData           // min()/max() of an empty array
    | DivisionByZero      // a bin count of zero used as a divisor

  datatype Result<T> = Ok(value: T) | Err(error: Error)

  /** A PHP scalar as far as the histogram code distinguishes them. */
  datatype Scalar =
    | Null
    | Bool(b: bool)
    | Int(i: int)
    | Float(f: real)
    | NumericString(n: real)  // a string that `is_numeric` accepts, with its value
    | OtherString(s: string)

  /** PHP's `is_numeric`: integers, floats and numeric strings. */
  predicate IsNumeric(s: Scalar) {
    s.Int? || s.Float? || s.NumericString?
  }

  /** PHP's `isset` on an array entry: present and not null. */
  predicate IsSet(s: Scalar) {
    !s.Null?
  }

  /** The number a numeric scalar stands for. */
  function NumValue(s: Scalar): real
    requires IsNumeric(s)
  {
    match s
    case Int(i) => i as real
    case Float(f) => f
    case NumericString(n) => n
  }

  predicate AllNumeric(items: seq<Scalar>) {
    forall i :: 0 <= i < |items| ==> IsNumeric(items[i])
  }

  /** The numbers of a list of numeric scalars, in the same order. */
  function Numbers(items: seq<Scalar>): (r: seq<real>)
    requires AllNumeric(items)
    ensures |r| == |items|
    ensures forall i :: 0 <= i < |items| ==> r[i] == NumValue(items[i])
  {
    seq(|items|, i requires 0 <= i < |items| => NumValue(items[i]))
  }

  /** Decimal rendering of a count or an index, as PHP interpolates an int. */
  function NatToString(n: nat): string
  {
    if n < 10 then [DigitChar(n)] else NatToString(n / 10) + [DigitChar(n % 10)]
  }

  function DigitChar(d: nat): char
    requires d < 10
  {
    "0123456789"[d]
  }

  /** PHP's `implode(sep, parts)`. */
  function Implode(sep: string, parts: seq<string>): string
  {
    if parts == [] then ""
    else if |parts| == 1 then parts[0]
    else parts[0] + sep + Implode(sep, parts[1..])
  }

  /** Every line followed by a newline. */
  function Lines(lines: seq<string>): string
  {
    if lines == [] then "" else lines[0] + "\n" + Lines(lines[1..])
  }

  /**
   * `implode("\n", out) . "\n"` over a non-empty list of lines is each
   * line terminated by a newline.
   */
  lemma {:induction false} ImplodeThenNewline(parts: seq<string>)
    requires parts != []
    ensures Implode("\n", parts) + "\n" == Lines(parts)
  {
    if |parts| == 1 {
      assert parts[1..] == [];
    } else {
      ImplodeThenNewline(parts[1..]);
      calc {
        Implode("\n", parts) + "\n";
        parts[0] + "\n" + Implode("\n", parts[1..]) + "\n";
        parts[0] + "\n" + (Implode("\n", parts[1..]) + "\n");
        parts[0] + "\n" + Lines(parts[1..]);
      }
    }
  }

  /** A decimal rendering holds digits only, so no line break. */
  lemma {:induction false} NatToStringNoBreak(n: nat)
    ensures '\n' !in NatToString(n)
  {
    if n >= 10 {
      NatToStringNoBreak(n / 10);
    }
  }

  /** Lines holding no line break give text with exactly one line break per line. */
  lemma {:induction false} LinesCount(lines: seq<string>)
    requires forall i :: 0 <= i < |lines| ==> '\n' !in lines[i]
    ensures multiset(Lines(lines))['\n'] == |lines|
  {
    if lines != [] {
      LinesCount(lines[1..]);
      assert multiset(lines[0])['\n'] == 0;
    }
  }
}
