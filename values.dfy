/**
 Python values as the subscription server sees them: the decoded JSON fields of a
 message, the results of the configuration hooks, the handles the subscription manager
 returns, and the errors it reports. Only what the server inspects is modelled:
 truthiness (`if x:`), `isinstance(x, dict)` with key lookup, and `str()` of a client
 subscription id.
 */
module Values {

  datatype Option<+T> = None | Some(value: T) {
    function GetOr(default: T): T {
      match this
      case Some(v) => v
      case None => default
    }
  }

  datatype Result<+T, +E> = Ok(value: T) | Err(error: E)

  /** A raised Python exception, given by the two texts `str(e)` and `repr(e)`. */
  datatype Exc = Exc(text: string, repr: string)

  /** `KeyError(name)`, raised by `parsed_message[name]` when the field is missing. */
  function KeyError(name: string): Exc {
    Exc("'" + name + "'", "KeyError('" + name + "')")
  }

  /** The error raised when `on_connect` rejects the handshake. */
  const ProhibitedConnection: Exc :=
    Exc("Prohibited connection!", "ValueError('Prohibited connection!')")

  /** The error raised by `None.get(...)`. */
  const NoneHasNoGet: Exc :=
    Exc("'NoneType' object has no attribute 'get'",
        "AttributeError(\"'NoneType' object has no attribute 'get'\")")

  /** The client's subscription id, `parsed_message.get('id', None)`. Absent and JSON null
      are both `NoId`; a float, list or object id is `OtherId` with its `str()` text. */
  datatype ClientId =
    | NoId
    | BoolId(b: bool)
    | IntId(i: int)
    | StrId(s: string)
    | OtherId(text: string)

  /** A Python value. `PyOther` stands for anything else (a float, a list, an arbitrary
      object), of which the server only ever asks whether it is truthy. */
  datatype PyValue =
    | PyNone
    | PyBool(b: bool)
    | PyInt(i: int)
    | PyStr(s: string)
    | PyDict(entries: map<string, PyValue>)
    | PyException(exc: Exc)
    | PyCallback(id: ClientId, room: string)
    | PyOther(truthy: bool, kind: string)

  /** Python truthiness, `bool(v)`. */
  predicate Truthy(v: PyValue) {
    match v
    case PyNone => false
    case PyBool(b) => b
    case PyInt(i) => i != 0
    case PyStr(s) => s != ""
    case PyDict(m) => m != map[]
    case PyException(_) => true
    case PyCallback(_, _) => true
    case PyOther(t, _) => t
  }

  predicate IsDigits(s: string) {
    forall k :: 0 <= k < |s| ==> '0' <= s[k] <= '9'
  }

  function DigitChar(d: nat): (c: char)
    requires d < 10
    ensures '0' <= c <= '9' && c as int - '0' as int == d
  {
    ('0' as int + d) as char
  }

  /** The decimal digits of `n`, most significant first, without leading zeros. */
  function NatDigits(n: nat): (r: string)
    ensures |r| >= 1 && IsDigits(r)
    ensures n > 0 ==> r[0] != '0'
    decreases n
  {
    if n < 10 then [DigitChar(n)] else NatDigits(n / 10) + [DigitChar(n % 10)]
  }

  /** The value of a string of decimal digits: Python's `int(s)` on such a string. */
  function DigitsValue(s: string): nat
    requires IsDigits(s)
  {
    if s == [] then 0
    else DigitsValue(s[..|s| - 1]) * 10 + (s[|s| - 1] as int - '0' as int)
  }

  lemma {:induction false} NatDigitsRoundTrip(n: nat)
    ensures DigitsValue(NatDigits(n)) == n
    decreases n
  {
    if n >= 10 {
      NatDigitsRoundTrip(n / 10);
      var s := NatDigits(n);
      assert s[..|s| - 1] == NatDigits(n / 10);
    }
  }

  /** `str(i)` for a Python int. */
  function Decimal(i: int): (r: string)
    ensures |r| >= 1
    ensures i < 0 <==> r[0] == '-'
  {
    if i < 0 then "-" + NatDigits(-i) else NatDigits(i)
  }

  /** `int(s)` on a string that `str` produced for an int: the inverse of `Decimal`. */
  function ParseDecimal(s: string): int
    requires |s| >= 1
    requires s[0] == '-' ==> IsDigits(s[1..])
    requires s[0] != '-' ==> IsDigits(s)
  {
    if s[0] == '-' then -(DigitsValue(s[1..]) as int) else DigitsValue(s)
  }

  lemma {:induction false} DecimalRoundTrip(i: int)
    ensures var s := Decimal(i);
            (s[0] == '-' ==> IsDigits(s[1..])) && (s[0] != '-' ==> IsDigits(s)) &&
            ParseDecimal(s) == i
  {
    if i < 0 {
      NatDigitsRoundTrip(-i);
      assert Decimal(i)[1..] == NatDigits(-i);
    } else {
      NatDigitsRoundTrip(i);
    }
  }

  /** Distinct ints have distinct `str()` texts. */
  lemma DecimalInjective(i: int, j: int)
    ensures Decimal(i) == Decimal(j) <==> i == j
  {
    DecimalRoundTrip(i);
    DecimalRoundTrip(j);
  }

  /** `str(sub_id)` for a client subscription id: a string is its own text, and the text of
      an int reads back as that int. */
  function Show(id: ClientId): (r: string)
    ensures id.StrId? ==> r == id.s
    ensures id.IntId? ==>
              |r| >= 1 && (r[0] == '-' ==> IsDigits(r[1..])) && (r[0] != '-' ==> IsDigits(r)) &&
              ParseDecimal(r) == id.i
  {
    match id
    case NoId => "None"
    case BoolId(b) => if b then "True" else "False"
    case IntId(i) => DecimalRoundTrip(i); Decimal(i)
    case StrId(s) => s
    case OtherId(text) => text
  }
}
