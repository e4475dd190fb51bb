/**
  The slice of Python's data model that the BAAI node code relies on: the values that
  `json.loads` produces (and that the node passes around as `Dict`), the exceptions the
  node's `try` blocks swallow, and the built-in operations the code applies to them
  (`key in x`, `x[key]`, `x.get(key)`, `str(x)`, `sep.join(parts)`).
*/
module Python {
  import opened Wrappers

  /** A JSON-shaped Python value. Floats are kept as their IEEE-754 bit pattern; dict keys are strings. */
  datatype Value =
    | PyNone
    | PyBool(b: bool)
    | PyInt(i: int)
    | PyFloat(bits: bv64)
    | PyStr(s: string)
    | PyList(items: seq<Value>)
    | PyDict(entries: map<string, Value>)

  /** The exceptions that can reach the node's `except Exception` handlers. */
  datatype Exception =
    | KeyError(key: string)
    | TypeError
    | AttributeError
    | ValueError(message: string)
    | Raised(message: string)      // `raise Exception(message)`
    | InvalidToken                 // cryptography.fernet.InvalidToken
    | DecodeError                  // json.JSONDecodeError
    | ConnectionError              // a failed call to the storage network

  /** `needle` occurs as a contiguous part of `hay` (Python's `needle in hay` on two strings). */
  predicate IsSubstring(needle: string, hay: string)
    decreases |hay|
  {
    needle <= hay || (|hay| > 0 && IsSubstring(needle, hay[1..]))
  }

  /** `key in container` for a string key. */
  function Contains(container: Value, key: string): (r: Result<bool, Exception>)
    ensures r.Ok? <==> container.PyDict? || container.PyStr? || container.PyList?
    ensures container.PyDict? ==> r == Ok(key in container.entries)
  {
    match container
    case PyDict(m) => Ok(key in m)
    case PyStr(s) => Ok(IsSubstring(key, s))    // substring test
    case PyList(items) => Ok(PyStr(key) in items)
    case _ => Err(TypeError)                     // e.g. `'x' in 5`
  }

  /** `container[key]` for a string key. */
  function GetItem(container: Value, key: string): (r: Result<Value, Exception>)
    ensures r.Ok? <==> container.PyDict? && key in container.entries
    ensures r.Ok? ==> r.value == container.entries[key]
  {
    match container
    case PyDict(m) => if key in m then Ok(m[key]) else Err(KeyError(key))
    case _ => Err(TypeError)                     // str and list need integer indices
  }

  /** `container.get(key)`: only a dict has `get`; an absent key gives `None`. */
  function Get(container: Value, key: string): (r: Result<Value, Exception>)
    ensures r.Ok? <==> container.PyDict?
    ensures r.Ok? ==> r.value == if key in container.entries then container.entries[key] else PyNone
  {
    match container
    case PyDict(m) => Ok(if key in m then m[key] else PyNone)
    case _ => Err(AttributeError)
  }

  // ---------------------------------------------------------------------------------
  // str()
  // ---------------------------------------------------------------------------------

  /** How `str` renders the values whose text the model does not spell out. */
  datatype Repr = Repr(float: bv64 -> string, container: Value -> string)

  /** Python's `repr` of a float never contains the character ':'. */
  ghost predicate FloatReprColonFree(repr: Repr) {
    forall bits :: ':' !in repr.float(bits)
  }

  predicate IsDigit(c: char) {
    '0' <= c <= '9'
  }

  predicate AllDigits(s: string) {
    forall i :: 0 <= i < |s| ==> IsDigit(s[i])
  }

  function DigitChar(d: nat): (c: char)
    requires d < 10
    ensures IsDigit(c)
  {
    ('0' as int + d) as char
  }

  /** The decimal digits of a natural number, most significant first, without leading zeros. */
  function NatToDecimal(n: nat): (s: string)
    ensures |s| > 0 && AllDigits(s)
    decreases n
  {
    if n < 10 then [DigitChar(n)] else NatToDecimal(n / 10) + [DigitChar(n % 10)]
  }

  /** `str(i)` for an `int`: `int()` reads the text back as `i`. */
  function IntToDecimal(i: int): (s: string)
    ensures ParseInt(s) == Some(i)
  {
    if i < 0 then
      var d := NatToDecimal(-i);
      NatDecimalRoundTrip(-i);
      assert ("-" + d)[1..] == d;
      "-" + d
    else
      NatDecimalRoundTrip(i);
      NatToDecimal(i)
  }

  /** The number a string of decimal digits denotes. */
  function DecimalValue(s: string): nat
    requires AllDigits(s)
  {
    if |s| == 0 then 0 else DecimalValue(s[..|s| - 1]) * 10 + (s[|s| - 1] as int - '0' as int)
  }

  /** `int(s)` restricted to an optional minus sign followed by decimal digits. */
  function ParseInt(s: string): Option<int> {
    if |s| > 1 && s[0] == '-' && AllDigits(s[1..]) then Some(-(DecimalValue(s[1..]) as int))
    else if |s| > 0 && AllDigits(s) then Some(DecimalValue(s))
    else None
  }

  lemma {:induction false} NatDecimalRoundTrip(n: nat)
    ensures DecimalValue(NatToDecimal(n)) == n
    decreases n
  {
    if n >= 10 {
      NatDecimalRoundTrip(n / 10);
      var s := NatToDecimal(n);
      assert s[..|s| - 1] == NatToDecimal(n / 10);
    }
  }

  /** `str(v)`: a string renders as itself, and an integer as decimal text that reads back as it. */
  function ToStr(repr: Repr, v: Value): (r: string)
    ensures v.PyStr? ==> r == v.s
    ensures v.PyInt? ==> ParseInt(r) == Some(v.i)
  {
    match v
    case PyNone => "None"
    case PyBool(b) => if b then "True" else "False"
    case PyInt(i) => IntToDecimal(i)
    case PyFloat(bits) => repr.float(bits)
    case PyStr(s) => s
    case _ => repr.container(v)
  }

  /** Numbers, booleans and `None` render without a ':'. */
  lemma ScalarRenderingColonFree(repr: Repr, v: Value)
    requires FloatReprColonFree(repr)
    requires v.PyNone? || v.PyBool? || v.PyInt? || v.PyFloat?
    ensures ':' !in ToStr(repr, v)
  {
    if v.PyInt? {
      var d := NatToDecimal(if v.i < 0 then -v.i else v.i);
      assert forall k :: 0 <= k < |d| ==> d[k] != ':';
    }
  }

  // ---------------------------------------------------------------------------------
  // str.join
  // ---------------------------------------------------------------------------------

  /** How many times `c` occurs in `s`. */
  function Occurrences(c: char, s: string): (k: nat)
    ensures k == 0 <==> c !in s
  {
    if |s| == 0 then 0
    else
      assert s == [s[0]] + s[1..];
      (if s[0] == c then 1 else 0) + Occurrences(c, s[1..])
  }

  lemma {:induction false} OccurrencesConcat(c: char, a: string, b: string)
    ensures Occurrences(c, a + b) == Occurrences(c, a) + Occurrences(c, b)
  {
    if |a| == 0 {
      assert a + b == b;
    } else {
      assert (a + b)[1..] == a[1..] + b;
      OccurrencesConcat(c, a[1..], b);
    }
  }

  /** `sep.join(parts)`: the text starts with the first part. */
  function Join(sep: string, parts: seq<string>): (r: string)
    ensures |parts| == 0 ==> r == ""
    ensures |parts| > 0 ==> |parts[0]| <= |r| && r[..|parts[0]|] == parts[0]
  {
    if |parts| == 0 then ""
    else if |parts| == 1 then parts[0]
    else parts[0] + sep + Join(sep, parts[1..])
  }

  /** A one-character separator that no part contains occurs exactly once between each two parts. */
  lemma {:induction false} JoinOccurrences(c: char, parts: seq<string>)
    requires |parts| > 0
    requires forall i :: 0 <= i < |parts| ==> c !in parts[i]
    ensures Occurrences(c, Join([c], parts)) == |parts| - 1
  {
    if |parts| > 1 {
      JoinUnfold([c], parts);
      JoinOccurrences(c, parts[1..]);
      OccurrencesConcat(c, parts[0] + [c], Join([c], parts[1..]));
      OccurrencesConcat(c, parts[0], [c]);
    }
  }

  /** The position of the first occurrence of `c` in `s`. */
  function FirstIndex(c: char, s: string): (k: nat)
    requires c in s
    ensures k < |s| && s[k] == c
  {
    if s[0] == c then 0 else FirstIndex(c, s[1..])  + 1
  }

  lemma {:induction false} FirstIndexOfSeparator(c: char, a: string, s: string)
    requires c !in a
    ensures FirstIndex(c, a + [c] + s) == |a|
  {
    if |a| > 0 {
      assert a[0] in a;
      assert (a + [c] + s)[1..] == a[1..] + [c] + s;
      FirstIndexOfSeparator(c, a[1..], s);
    }
  }

  /** A one-character separator that occurs in neither head splits the joined strings at the same place. */
  lemma SeparatorSplit(c: char, a: string, s: string, b: string, t: string)
    requires c !in a && c !in b
    requires a + [c] + s == b + [c] + t
    ensures a == b && s == t
  {
    var joined := a + [c] + s;
    FirstIndexOfSeparator(c, a, s);
    FirstIndexOfSeparator(c, b, t);
    assert a == joined[..|a|] && b == joined[..|b|];
    assert s == joined[|a| + 1..] && t == joined[|b| + 1..];
  }

  lemma JoinUnfold(sep: string, parts: seq<string>)
    requires |parts| > 1
    ensures Join(sep, parts) == parts[0] + sep + Join(sep, parts[1..])
  {
  }

  /** Joining with a one-character separator that no part contains is injective. */
  lemma {:induction false} JoinInjective(c: char, xs: seq<string>, ys: seq<string>)
    requires |xs| == |ys|
    requires forall i :: 0 <= i < |xs| ==> c !in xs[i]
    requires forall i :: 0 <= i < |ys| ==> c !in ys[i]
    requires Join([c], xs) == Join([c], ys)
    ensures xs == ys
    decreases |xs|
  {
    if |xs| > 1 {
      JoinUnfold([c], xs);
      JoinUnfold([c], ys);
      SeparatorSplit(c, xs[0], Join([c], xs[1..]), ys[0], Join([c], ys[1..]));
      JoinInjective(c, xs[1..], ys[1..]);
      assert xs == [xs[0]] + xs[1..] && ys == [ys[0]] + ys[1..];
    }
  }
}
