/**
 * Values every stage of the pipeline passes around: the `{"content", "metadata"}`
 * records and `Document(page_content, metadata)` objects, their metadata
 * dictionaries, and the way Python's f-strings render metadata values.
 */
module Common {

  datatype Option<T> = None | Some(value: T)

  /** A raised exception is a Failure carrying its message. */
  datatype Result<T> = Success(value: T) | Failure(error: string)

  /** A metadata value: the pipeline stores strings, integers and None. */
  datatype Value = Str(s: string) | Int(i: int) | Null

  type Metadata = map<string, Value>

  /** A document, chunk or evidence item: text content plus its metadata dictionary. */
  datatype Doc = Doc(content: string, metadata: Metadata)

  /** `metadata.get(key)`: None when the key is absent. */
  function Get(m: Metadata, key: string): (v: Value)
    ensures key !in m ==> v == Null
    ensures key in m ==> v == m[key]
  {
    if key in m then m[key] else Null
  }

  function Digit(d: nat): (c: char)
    requires d < 10
    ensures '0' <= c <= '9' && c as int - '0' as int == d
  {
    ['0', '1', '2', '3', '4', '5', '6', '7', '8', '9'][d]
  }

  predicate IsDigits(s: string) {
    forall i :: 0 <= i < |s| ==> '0' <= s[i] <= '9'
  }

  /** Decimal rendering of a natural number, as `str(n)`. */
  function NatToString(n: nat): (r: string)
    ensures |r| >= 1 && IsDigits(r)
    ensures r[0] == '0' ==> n == 0
    decreases n
  {
    if n < 10 then [Digit(n)] else NatToString(n / 10) + [Digit(n % 10)]
  }

  /** The value of a string of decimal digits, read left to right. */
  function ParseDecimal(s: string): nat
    requires IsDigits(s)
  {
    if s == [] then 0
    else ParseDecimal(s[..|s| - 1]) * 10 + (s[|s| - 1] as int - '0' as int)
  }

  /** Reading back the decimal rendering gives the number: the rendering loses nothing. */
  lemma {:induction false} ParseNatToString(n: nat)
    ensures ParseDecimal(NatToString(n)) == n
    decreases n
  {
    var r := NatToString(n);
    if n >= 10 {
      ParseNatToString(n / 10);
      assert r[..|r| - 1] == NatToString(n / 10);
    }
  }

  /** Distinct numbers render as distinct strings. */
  lemma NatToStringInjective(m: nat, n: nat)
    requires m != n
    ensures NatToString(m) != NatToString(n)
  {
    ParseNatToString(m);
    ParseNatToString(n);
  }

  /** Decimal rendering of an integer, as `str(i)`: a minus sign for negatives. */
  function IntToString(i: int): (r: string)
    ensures |r| >= 1
    ensures (r[0] == '-') == (i < 0)
  {
    if i < 0 then "-" + NatToString(-i) else NatToString(i)
  }

  /** How an f-string renders a metadata value: `None` for a missing key or None. */
  function Show(v: Value): (r: string)
    ensures v.Null? ==> r == "None"
    ensures v.Str? ==> r == v.s
    ensures v.Int? && v.i >= 0 ==> IsDigits(r) && ParseDecimal(r) == v.i
    ensures v.Int? && v.i < 0 ==> r != [] && r[0] == '-' && IsDigits(r[1..]) && ParseDecimal(r[1..]) == -v.i
  {
    match v
    case Str(s) => s
    case Int(i) =>
      ParseNatToString(if i < 0 then -i else i);
      assert i < 0 ==> IntToString(i)[1..] == NatToString(-i);
      IntToString(i)
    case Null => "None"
  }

  /** A string of `n` blanks. */
  function Spaces(n: nat): (r: string)
    ensures |r| == n && forall i :: 0 <= i < n ==> r[i] == ' '
  {
    seq(n, _ => ' ')
  }
}
