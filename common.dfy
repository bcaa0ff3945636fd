/** Shared vocabulary of the model: optional values, results that carry the
    Python exception a call would raise, JSON values, and the few string
    helpers (join, prefix, substring, decimal rendering) the components use. */
module Common {

  datatype Option<+T> = None | Some(value: T)

  /** The exception kinds the modelled code can raise. */
  datatype Error =
    | KeyError(key: string)          // dict lookup of a missing key
    | IndexError                     // `xs[-1]` on an empty list
    | TypeError                      // operand of the wrong kind (unhashable, not subscriptable)
    | ValueError(reason: string)     // explicit `raise ValueError` / `random.sample` misuse
    | ValidationError(field: string) // pydantic rejected the named field
    | UnknownAction(name: string)    // the scratch loop met an action it does not know
    | External(reason: string)       // an external service (model, search backend) failed
    | Raised(message: string)        // a bare `raise Exception(message)`

  /** Ok carries a value, Err the exception that propagates instead. */
  datatype Result<+T> = Ok(value: T) | Err(error: Error) {
    predicate IsFailure() { Err? }
    function PropagateFailure<U>(): Result<U> requires Err? { Err(error) }
    function Extract(): T requires Ok? { value }
  }

  /** A value as `json.load` produces it; floats are carried as reals. */
  datatype Value =
    | VNull
    | VBool(b: bool)
    | VInt(i: int)
    | VReal(r: real)
    | VStr(s: string)
    | VList(items: seq<Value>)
    | VDict(entries: map<string, Value>)

  /** Python's `sep.join(parts)`. */
  function Join(parts: seq<string>, sep: string): string
  {
    if |parts| == 0 then ""
    else if |parts| == 1 then parts[0]
    else parts[0] + sep + Join(parts[1..], sep)
  }

  /** Two pieces are joined by one separator. */
  lemma JoinTwo(xs: seq<string>, sep: string)
    requires |xs| == 2
    ensures Join(xs, sep) == xs[0] + sep + xs[1]
  {
    assert xs[1..][1..] == [];
  }

  lemma {:induction false} JoinSnoc(parts: seq<string>, p: string, sep: string)
    requires |parts| > 0
    ensures Join(parts + [p], sep) == Join(parts, sep) + sep + p
  {
    if |parts| == 1 {
      assert parts + [p] == [parts[0], p];
      assert (parts + [p])[1..] == [p];
    } else {
      assert (parts + [p])[1..] == parts[1..] + [p];
      JoinSnoc(parts[1..], p, sep);
    }
  }

  /** `a` is obtained from `b` by deleting elements (greedy leftmost matching). */
  predicate IsSubsequence<T(==)>(a: seq<T>, b: seq<T>)
    decreases |b|
  {
    |a| == 0 || (|b| > 0 && if a[0] == b[0] then IsSubsequence(a[1..], b[1..]) else IsSubsequence(a, b[1..]))
  }

  predicate StartsWith(s: string, prefix: string)
  {
    |prefix| <= |s| && s[..|prefix|] == prefix
  }

  /** Python's `needle in haystack` on strings. */
  predicate IsSubstring(needle: string, haystack: string)
  {
    StartsWith(haystack, needle) || (|haystack| > 0 && IsSubstring(needle, haystack[1..]))
  }

  lemma {:induction false} SubstringAt(needle: string, haystack: string, i: nat)
    requires i + |needle| <= |haystack| && haystack[i..i + |needle|] == needle
    ensures IsSubstring(needle, haystack)
  {
    if i > 0 {
      assert haystack[1..][i - 1..i - 1 + |needle|] == haystack[i..i + |needle|];
      SubstringAt(needle, haystack[1..], i - 1);
    }
  }

  /** A substring occurs at some position. */
  lemma {:induction false} SubstringPosition(needle: string, haystack: string) returns (i: nat)
    requires IsSubstring(needle, haystack)
    ensures i + |needle| <= |haystack| && haystack[i..i + |needle|] == needle
  {
    if StartsWith(haystack, needle) {
      i := 0;
    } else {
      var j := SubstringPosition(needle, haystack[1..]);
      assert haystack[1..][j..j + |needle|] == haystack[j + 1..j + 1 + |needle|];
      i := j + 1;
    }
  }

  function DigitChar(d: nat): char
    requires d < 10
  {
    "0123456789"[d]
  }

  /** Python's `str(n)` for a natural number. */
  function NatToString(n: nat): (r: string)
    ensures |r| >= 1
  {
    if n < 10 then [DigitChar(n)] else NatToString(n / 10) + [DigitChar(n % 10)]
  }

  /** Distinct numbers render as distinct decimal strings. */
  lemma {:induction false} NatToStringInjective(n: nat, m: nat)
    requires NatToString(n) == NatToString(m)
    ensures n == m
  {
    if n < 10 && m < 10 {
      assert NatToString(n)[0] == DigitChar(n);
    } else if n >= 10 && m >= 10 {
      var a, b := NatToString(n / 10), NatToString(m / 10);
      assert NatToString(n) == a + [DigitChar(n % 10)];
      assert NatToString(m) == b + [DigitChar(m % 10)];
      assert |a| == |b|;
      assert a == NatToString(n)[..|a|] == NatToString(m)[..|b|] == b;
      assert DigitChar(n % 10) == NatToString(n)[|a|] == NatToString(m)[|b|] == DigitChar(m % 10);
      NatToStringInjective(n / 10, m / 10);
    }
  }

  /** Python's `str(i)` for an integer: a minus sign before the digits of a
      negative one. */
  function IntToString(i: int): (r: string)
    ensures |r| >= 1
    ensures i >= 0 ==> r == NatToString(i)
    ensures i < 0 ==> r == "-" + NatToString(-i)
  {
    if i < 0 then "-" + NatToString(-i) else NatToString(i)
  }
}
