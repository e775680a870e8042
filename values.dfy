/**
 * The Python objects that the lenient JavaScript-literal decoder hands to the
 * extractor, and the few pieces of Python semantics the extractor relies on:
 * subscription with a constant index (`v[0]`), `str(v)` (which is also what an
 * f-string placeholder produces for these types), `repr(v)` and truthiness.
 */
module Values {
  import opened Results

  /** None, bool, int, str, list, and dict with its keys in insertion order. */
  datatype Value =
    | Null
    | Bool(b: bool)
    | Int(i: int)
    | Str(s: string)
    | List(elems: seq<Value>)
    | Dict(entries: seq<Entry>)

  /** One key/value pair of a dict; `dict.values()` yields `val` in entry order. */
  datatype Entry = Entry(key: string, val: Value)

  /** The exceptions that subscription raises, with the message `str(e)` gives. */
  datatype Fault =
    | IndexError(message: string)
    | KeyError(key: nat)
    | TypeError(message: string)

  function TypeName(v: Value): string
  {
    match v
    case Null => "NoneType"
    case Bool(_) => "bool"
    case Int(_) => "int"
    case Str(_) => "str"
    case List(_) => "list"
    case Dict(_) => "dict"
  }

  /** `str(e)` for a subscription fault; a `KeyError` shows the repr of its key. */
  function FaultMessage(f: Fault): string
  {
    match f
    case IndexError(m) => m
    case KeyError(k) => NatToDecimal(k)
    case TypeError(m) => m
  }

  /** `d.get(key)` on a dict: the value of the first entry with that key. */
  function Lookup(entries: seq<Entry>, key: string): (r: Option<Value>)
    ensures r.None? <==> forall k :: 0 <= k < |entries| ==> entries[k].key != key
    ensures r.Some? ==>
      exists k :: 0 <= k < |entries| && entries[k].key == key && entries[k].val == r.value &&
        forall j :: 0 <= j < k ==> entries[j].key != key
  {
    if entries == [] then None
    else if entries[0].key == key then Some(entries[0].val)
    else Lookup(entries[1..], key)
  }

  /** `len(v) > i` for a value that has a length and can be indexed by position. */
  predicate HasIndex(v: Value, i: nat)
  {
    (v.List? && i < |v.elems|) || (v.Str? && i < |v.s|)
  }

  /**
   * `v[i]` for a non-negative literal index: a list yields its element, a
   * string a one-character string, a dict raises `KeyError` (its keys are
   * strings, never the integer `i`), every scalar raises `TypeError`.
   */
  function Subscript(v: Value, i: nat): (r: Result<Value, Fault>)
    ensures r.Ok? <==> HasIndex(v, i)
  {
    match v
    case List(xs) => if i < |xs| then Ok(xs[i]) else Err(IndexError("list index out of range"))
    case Str(s) => if i < |s| then Ok(Str([s[i]])) else Err(IndexError("string index out of range"))
    case Dict(_) => Err(KeyError(i))
    case _ => Err(TypeError("'" + TypeName(v) + "' object is not subscriptable"))
  }

  /** Python truthiness: `if v:` takes the branch exactly when this holds. */
  predicate Truthy(v: Value)
    ensures Truthy(v) <==>
      v != Null && v != Bool(false) && v != Int(0) && v != Str([]) && v != List([]) && v != Dict([])
  {
    match v
    case Null => false
    case Bool(b) => b
    case Int(n) => n != 0
    case Str(s) => s != []
    case List(xs) => xs != []
    case Dict(es) => es != []
  }

  // ----- str() and repr() -----

  function Digit(d: nat): char
    requires d < 10
  {
    "0123456789"[d]
  }

  function HexDigit(d: nat): char
    requires d < 16
  {
    "0123456789abcdef"[d]
  }

  /** The decimal digits of `n`, most significant first, without leading zeros. */
  function NatToDecimal(n: nat): string
  {
    if n < 10 then [Digit(n)] else NatToDecimal(n / 10) + [Digit(n % 10)]
  }

  function IntToDecimal(n: int): string
  {
    if n < 0 then "-" + NatToDecimal(-n) else NatToDecimal(n)
  }

  /** `repr` of one character inside a literal delimited by `quote`. */
  function EscapeChar(c: char, quote: char): string
  {
    if c == '\\' || c == quote then ['\\', c]
    else if c == '\t' then "\\t"
    else if c == '\n' then "\\n"
    else if c == '\r' then "\\r"
    else if c as int < 0x20 || 0x7f <= c as int <= 0xa0 || c as int == 0xad then
      "\\x" + [HexDigit(c as int / 16), HexDigit(c as int % 16)]
    else [c]
  }

  function EscapeChars(s: string, quote: char): string
  {
    if s == [] then "" else EscapeChar(s[0], quote) + EscapeChars(s[1..], quote)
  }

  /** `repr(s)`: single quotes unless `s` holds a single quote and no double quote. */
  function QuotedString(s: string): string
  {
    var quote := if '\'' in s && '"' !in s then '"' else '\'';
    [quote] + EscapeChars(s, quote) + [quote]
  }

  function Repr(v: Value): string
  {
    match v
    case Null => "None"
    case Bool(b) => if b then "True" else "False"
    case Int(n) => IntToDecimal(n)
    case Str(s) => QuotedString(s)
    case List(xs) => "[" + ReprItems(xs) + "]"
    case Dict(es) => "{" + ReprEntries(es) + "}"
  }

  /** The items of a list display, separated by ", ". */
  function ReprItems(xs: seq<Value>): string
  {
    if xs == [] then ""
    else Repr(xs[0]) + (if |xs| == 1 then "" else ", " + ReprItems(xs[1..]))
  }

  /** The `key: value` pairs of a dict display, separated by ", ". */
  function ReprEntries(es: seq<Entry>): string
  {
    if es == [] then ""
    else QuotedString(es[0].key) + ": " + Repr(es[0].val) + (if |es| == 1 then "" else ", " + ReprEntries(es[1..]))
  }

  /** `str(v)`, and the text an f-string placeholder `{v}` produces. */
  function Show(v: Value): (r: string)
    ensures v.Str? ==> r == v.s
    ensures v.Null? ==> r == "None"
    ensures v.Bool? ==> r == (if v.b then "True" else "False")
    ensures v.Int? && v.i >= 0 ==> r == NatToDecimal(v.i)
    ensures v.Int? && v.i < 0 ==> r == "-" + NatToDecimal(-v.i)
    ensures v.List? ==> |r| >= 2 && r[0] == '[' && r[|r| - 1] == ']'
    ensures v.Dict? ==> |r| >= 2 && r[0] == '{' && r[|r| - 1] == '}'
  {
    if v.Str? then v.s else Repr(v)
  }

  // ----- properties of str() -----

  predicate IsDigit(c: char)
  {
    '0' <= c <= '9'
  }

  lemma {:induction false} NatToDecimalDigits(n: nat)
    ensures |NatToDecimal(n)| >= 1
    ensures forall k :: 0 <= k < |NatToDecimal(n)| ==> IsDigit(NatToDecimal(n)[k])
    ensures (|NatToDecimal(n)| == 1) == (n < 10)
  {
    if n >= 10 {
      NatToDecimalDigits(n / 10);
    }
  }

  /** Distinct numbers have distinct decimal forms. */
  lemma {:induction false} NatToDecimalInjective(a: nat, b: nat)
    requires NatToDecimal(a) == NatToDecimal(b)
    ensures a == b
  {
    NatToDecimalDigits(a);
    NatToDecimalDigits(b);
    if a >= 10 && b >= 10 {
      var sa, sb := NatToDecimal(a / 10), NatToDecimal(b / 10);
      assert NatToDecimal(a) == sa + [Digit(a % 10)];
      assert NatToDecimal(b) == sb + [Digit(b % 10)];
      assert sa == NatToDecimal(a)[..|NatToDecimal(a)| - 1];
      assert sb == NatToDecimal(b)[..|NatToDecimal(b)| - 1];
      NatToDecimalInjective(a / 10, b / 10);
      assert Digit(a % 10) == NatToDecimal(a)[|NatToDecimal(a)| - 1];
    }
  }

  /**
   * `str(v)` is the decimal form of `n` exactly when `v` is the int `n` or the
   * string of its digits: no other value prints as a plain digit string.
   */
  lemma ShowIsDecimal(v: Value, n: nat)
    ensures Show(v) == NatToDecimal(n) <==> v == Int(n) || v == Str(NatToDecimal(n))
  {
    NatToDecimalDigits(n);
    assert IsDigit(NatToDecimal(n)[0]);
    match v
    case Null =>
    case Bool(_) =>
    case Int(m) =>
      if m < 0 {
        assert Show(v)[0] == '-';
      } else if Show(v) == NatToDecimal(n) {
        NatToDecimalInjective(m, n);
      }
    case Str(_) =>
    case List(_) =>
      assert Show(v)[0] == '[';
    case Dict(_) =>
      assert Show(v)[0] == '{';
  }
}
