/**
 * Shared vocabulary of the model: optional values, results with the error
 * kinds the services answer with, and the few JavaScript value rules the
 * source leans on (truthiness of `x || d`, `String(n)`, `trim()`).
 */
module Common {

  /** Row identifiers. The store hands them out from a counter, so a larger
      id is a newer row. */
  type Id = nat

  datatype Option<+T> = None | Some(value: T)
  {
    function GetOr(default: T): T {
      match this
      case Some(v) => v
      case None => default
    }
  }

  /** The HTTP-level error answers of the services. */
  datatype Error =
    | NotFound(message: string)
    | BadRequest(message: string)
    | Unauthorized(message: string)
    | Conflict(message: string)
    | ServerError(message: string)
  {
    function StatusCode(): (code: int)
      ensures 400 <= code < 600
    {
      match this
      case BadRequest(_) => 400
      case Unauthorized(_) => 401
      case NotFound(_) => 404
      case Conflict(_) => 409
      case ServerError(_) => 500
    }
  }

  datatype Result<+T> = Ok(value: T) | Err(error: Error)

  /** A JavaScript number field that is either missing (`undefined`),
      explicitly `null`, or a number. */
  datatype Field<+T> = Undefined | Null | Val(v: T)

  /** `x || d` for a numeric argument that may be absent: 0 and absent are falsy. */
  function NumOr(x: Option<int>, d: int): (r: int)
    ensures x.Some? && x.value != 0 ==> r == x.value
    ensures (x.None? || x.value == 0) ==> r == d
  {
    if x.Some? && x.value != 0 then x.value else d
  }

  /** A string is truthy in JavaScript exactly when it is not empty. */
  predicate TruthyStr(s: Option<string>)
  {
    s.Some? && s.value != ""
  }

  function Min(a: int, b: int): int { if a <= b then a else b }
  function Max(a: int, b: int): int { if a >= b then a else b }

  // ---------------------------------------------------------------------
  // Decimal rendering, as JavaScript's String(n) and Postgres' ::text do
  // for a non-negative integer.

  function DigitChar(d: nat): char
    requires d < 10
  {
    "0123456789"[d]
  }

  predicate IsDigit(c: char) { '0' <= c <= '9' }

  function CharValue(c: char): nat
    requires IsDigit(c)
  {
    (c as int - '0' as int) as nat
  }

  function Decimal(n: nat): (s: string)
    ensures |s| >= 1
    ensures forall i :: 0 <= i < |s| ==> IsDigit(s[i])
    decreases n
  {
    if n < 10 then [DigitChar(n)] else Decimal(n / 10) + [DigitChar(n % 10)]
  }

  /** The value of a string of digits, read most significant first. */
  function DigitsValue(s: string): nat
    requires forall i :: 0 <= i < |s| ==> IsDigit(s[i])
  {
    if s == [] then 0 else DigitsValue(s[..|s| - 1]) * 10 + CharValue(s[|s| - 1])
  }

  function Pow10(k: nat): (p: nat)
    ensures p >= 1
  {
    if k == 0 then 1 else 10 * Pow10(k - 1)
  }

  function Repeat(c: char, k: nat): (s: string)
    ensures |s| == k && forall i :: 0 <= i < k ==> s[i] == c
  {
    if k == 0 then [] else [c] + Repeat(c, k - 1)
  }

  /** Postgres LPAD(s, len, fill): pads on the left, and cuts a longer
      string down to its first `len` characters. */
  function LeftPad(s: string, len: nat, fill: char): (r: string)
    ensures |r| == len
    ensures |s| >= len ==> r == s[..len]
    ensures |s| < len ==> r == Repeat(fill, len - |s|) + s
  {
    if |s| >= len then s[..len] else Repeat(fill, len - |s|) + s
  }

  lemma {:induction false} DecimalValue(n: nat)
    ensures DigitsValue(Decimal(n)) == n
    decreases n
  {
    if n >= 10 {
      var s := Decimal(n);
      assert s[..|s| - 1] == Decimal(n / 10);
      DecimalValue(n / 10);
    }
  }

  lemma {:induction false} DecimalLength(n: nat, k: nat)
    requires n < Pow10(k)
    ensures |Decimal(n)| <= Max(k, 1)
    decreases n
  {
    if n >= 10 {
      assert k >= 2;
      DecimalLength(n / 10, k - 1);
    }
  }

  lemma {:induction false} DecimalLengthLower(n: nat, k: nat)
    requires n >= Pow10(k)
    ensures |Decimal(n)| >= k + 1
    decreases k
  {
    if k > 0 {
      assert n >= 10;
      DecimalLengthLower(n / 10, k - 1);
    }
  }

  lemma {:induction false} LeadingZerosValue(m: nat, s: string)
    requires forall i :: 0 <= i < |s| ==> IsDigit(s[i])
    ensures forall i :: 0 <= i < |Repeat('0', m) + s| ==> IsDigit((Repeat('0', m) + s)[i])
    ensures DigitsValue(Repeat('0', m) + s) == DigitsValue(s)
    decreases |s|, m
  {
    var z := Repeat('0', m);
    if s == [] {
      assert z + s == z;
      if m > 0 {
        assert z[..|z| - 1] == Repeat('0', m - 1);
        LeadingZerosValue(m - 1, []);
        assert Repeat('0', m - 1) + [] == Repeat('0', m - 1);
      }
    } else {
      var t := z + s;
      assert t[..|t| - 1] == z + s[..|s| - 1];
      LeadingZerosValue(m, s[..|s| - 1]);
    }
  }

  /** Below 10^w, the `w` characters `LPAD(n::text, w, '0')` gives read
      back as `n`. */
  lemma PadRoundTrip(n: nat, w: nat)
    requires n < Pow10(w)
    ensures forall i :: 0 <= i < w ==> IsDigit(LeftPad(Decimal(n), w, '0')[i])
    ensures DigitsValue(LeftPad(Decimal(n), w, '0')) == n
  {
    var d := Decimal(n);
    DecimalLength(n, w);
    DecimalValue(n);
    if |d| < w {
      LeadingZerosValue(w - |d|, d);
    } else if |d| == w {
      assert d[..w] == d;
    }
  }

  /** `LPAD` cuts a text longer than `w` on the right, so from 10^w on a
      value pads like the value with its last digit dropped. */
  lemma PadDropsLastDigit(n: nat, w: nat)
    requires w >= 1 && n >= Pow10(w)
    ensures LeftPad(Decimal(n), w, '0') == LeftPad(Decimal(n / 10), w, '0')
  {
    var d, e := Decimal(n), Decimal(n / 10);
    assert d == e + [DigitChar(n % 10)];
    assert n / 10 >= Pow10(w - 1);
    DecimalLengthLower(n / 10, w - 1);
    assert d[..w] == e[..w];
  }

  // ---------------------------------------------------------------------
  // Whitespace, as String.prototype.trim() strips it (ASCII part).

  predicate IsSpace(c: char)
  {
    c == ' ' || c == '\t' || c == '\n' || c == '\r' || c == '\U{000B}' || c == '\U{000C}'
  }

  /** `s.trim() === ""`. */
  predicate Blank(s: string)
  {
    forall i :: 0 <= i < |s| ==> IsSpace(s[i])
  }

  /** `parts.join(sep)`. */
  function Join(parts: seq<string>, sep: string): string
  {
    if parts == [] then ""
    else if |parts| == 1 then parts[0]
    else parts[0] + sep + Join(parts[1..], sep)
  }
}
