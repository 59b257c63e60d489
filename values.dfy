/**
 * The values that the system keeps in metadata dictionaries (point payloads,
 * `metadata.json` files, the conversation context): Python's JSON-like values,
 * their truthiness, `dict.get`, and their rendering inside f-strings.
 */
module Values {

  /** A dictionary value. `Obj` is a nested dictionary. */
  datatype Value = Null | Bool(b: bool) | Int(i: int) | Str(s: string) | Obj(fields: map<string, Value>)

  /** A Python `dict` with string keys, as a value. */
  type Dict = map<string, Value>

  /** A Python `dict` object that callers share: updates through it are visible to them. */
  class MutableDict {
    var entries: Dict

    constructor (entries: Dict)
      ensures this.entries == entries
    {
      this.entries := entries;
    }
  }

  /** Python truthiness: `None`, `False`, `0`, `""` and `{}` are false. */
  predicate Truthy(v: Value) {
    match v
    case Null => false
    case Bool(b) => b
    case Int(i) => i != 0
    case Str(s) => s != ""
    case Obj(m) => m != map[]
  }

  /** `d.get(key, default)`. */
  function Get(d: Dict, key: string, default: Value): Value {
    if key in d then d[key] else default
  }

  predicate IsDigit(c: char) {
    '0' <= c <= '9'
  }

  function DigitChar(d: nat): char
    requires d < 10
  {
    ('0' as int + d) as char
  }

  /** Decimal digits of a natural number, most significant first, as `str(n)` prints them. */
  function NatToString(n: nat): (s: string)
    ensures s != []
    ensures forall k :: 0 <= k < |s| ==> IsDigit(s[k])
  {
    if n < 10 then [DigitChar(n)] else NatToString(n / 10) + [DigitChar(n % 10)]
  }

  /** The number a string of decimal digits denotes (`int(s)` on digit strings). */
  function ParseNat(s: string): nat
    requires forall k :: 0 <= k < |s| ==> IsDigit(s[k])
  {
    if s == [] then 0 else 10 * ParseNat(s[..|s| - 1]) + DigitValue(s[|s| - 1])
  }

  function DigitValue(c: char): nat
    requires IsDigit(c)
  {
    c as int - '0' as int
  }

  /** Printing a number in decimal loses nothing: the digits parse back to it. */
  lemma {:induction false} ParseNatToString(n: nat)
    ensures ParseNat(NatToString(n)) == n
  {
    if n >= 10 {
      var s := NatToString(n);
      assert s[..|s| - 1] == NatToString(n / 10);
      ParseNatToString(n / 10);
    }
  }

  /** `str(i)` for a Python `int`. */
  function IntToString(i: int): string {
    if i < 0 then "-" + NatToString(-i) else NatToString(i)
  }

  /**
   * `str(v)` as an f-string renders it: strings verbatim, `None`, `True`,
   * `False`, decimal integers. Nested dictionaries get a fixed placeholder
   * rather than Python's `repr`.
   */
  function Show(v: Value): string {
    match v
    case Null => "None"
    case Bool(b) => if b then "True" else "False"
    case Int(i) => IntToString(i)
    case Str(s) => s
    case Obj(_) => "{...}"
  }
}
