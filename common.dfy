// Small shared vocabulary: optional values, numeric helpers that mirror the
// Python built-ins the analytics services use (round, slicing, max/min),
// decimal rendering of naturals, and substring search.

module Common {

  datatype Option<T> = None | Some(value: T)

  function MaxInt(a: int, b: int): int { if a >= b then a else b }
  function MaxReal(a: real, b: real): real { if a >= b then a else b }
  function MinReal(a: real, b: real): real { if a <= b then a else b }
  function AbsReal(x: real): real { if x >= 0.0 then x else -x }

  function Pow10(n: nat): (r: nat)
    ensures r >= 1
  {
    if n == 0 then 1 else 10 * Pow10(n - 1)
  }

  /** Rounds x to the nearest multiple of 1/p, halves rounded up. */
  function RoundScaled(x: real, p: real): real
    requires p > 0.0
  {
    ((x * p + 0.5).Floor as real) / p
  }

  /** Python's `round(x, n)` on exact reals: the nearest multiple of 10^-n,
      halves rounded up. Binary floating point is not modelled. */
  function Round(x: real, n: nat): real
  {
    RoundScaled(x, Pow10(n) as real)
  }

  lemma RoundScaledMonotone(x: real, y: real, p: real)
    requires x <= y && p > 0.0
    ensures RoundScaled(x, p) <= RoundScaled(y, p)
  {
    ScaleMonotone(x, y, p);
    var u, v := x * p + 0.5, y * p + 0.5;
    FloorMonotone(u, v);
    var a := u.Floor as real;
    var b := v.Floor as real;
    DivideMonotone(a, b, p);
    RoundScaledUnfold(x, p);
    RoundScaledUnfold(y, p);
  }

  lemma FloorMonotone(u: real, v: real)
    requires u <= v
    ensures u.Floor <= v.Floor
  {
    assert u.Floor as real <= u;
    assert v < v.Floor as real + 1.0;
  }

  lemma ScaleMonotone(x: real, y: real, p: real)
    requires x <= y && p > 0.0
    ensures x * p <= y * p && x * p + 0.5 <= y * p + 0.5
  {
    assert y * p - x * p == (y - x) * p;
  }

  lemma DivideMonotone(a: real, b: real, p: real)
    requires a <= b && p > 0.0
    ensures a / p <= b / p
  {
    assert b / p - a / p == (b - a) / p;
    assert ((b - a) / p) * p == b - a;
  }

  lemma RoundMonotone(x: real, y: real, n: nat)
    requires x <= y
    ensures Round(x, n) <= Round(y, n)
  {
    RoundScaledMonotone(x, y, Pow10(n) as real);
  }

  lemma RoundScaledExact(k: int, p: real)
    requires p > 0.0
    ensures RoundScaled(k as real / p, p) == k as real / p
  {
    var x := k as real / p;
    assert x * p == k as real;
    assert (x * p + 0.5).Floor == k;
    RoundScaledUnfold(x, p);
  }

  lemma RoundScaledUnfold(x: real, p: real)
    requires p > 0.0
    ensures RoundScaled(x, p) == ((x * p + 0.5).Floor as real) / p
  {
  }

  /** A value that already has at most n decimals is left as it is. */
  lemma RoundExact(k: int, n: nat)
    ensures Round(k as real / Pow10(n) as real, n) == k as real / Pow10(n) as real
  {
    RoundScaledExact(k, Pow10(n) as real);
  }

  /** Python's `s[:n]`: a negative n counts from the end. */
  function PyTake<T>(s: seq<T>, n: int): (r: seq<T>)
    ensures n >= 0 ==> |r| == if n <= |s| then n else |s|
    ensures n < 0 ==> |r| == if -n <= |s| then |s| + n else 0
    ensures r == s[..|r|]
  {
    if n >= 0 then (if n <= |s| then s[..n] else s)
    else if -n <= |s| then s[..|s| + n] else []
  }

  /** Python's `s[a:]` for a non-negative a. */
  function PyDrop<T>(s: seq<T>, a: nat): (r: seq<T>)
    ensures |r| == if a <= |s| then |s| - a else 0
    ensures forall i :: 0 <= i < |r| ==> r[i] == s[a + i]
  {
    if a <= |s| then s[a..] else []
  }

  function DigitChar(d: nat): char
    requires d < 10
  {
    "0123456789"[d]
  }

  function DigitValue(c: char): int
  {
    c as int - '0' as int
  }

  /** Decimal rendering of a natural number, as Python's f-string prints it. */
  function NatToString(n: nat): (r: string)
    ensures |r| > 0
    ensures forall i :: 0 <= i < |r| ==> '0' <= r[i] <= '9'
    decreases n
  {
    if n < 10 then [DigitChar(n)] else NatToString(n / 10) + [DigitChar(n % 10)]
  }

  function DecimalValue(s: string): int
  {
    if s == [] then 0 else 10 * DecimalValue(s[..|s| - 1]) + DigitValue(s[|s| - 1])
  }

  lemma {:induction false} DecimalRoundTrip(n: nat)
    ensures DecimalValue(NatToString(n)) == n
    decreases n
  {
    var r := NatToString(n);
    if n < 10 {
      assert r[..|r| - 1] == [];
    } else {
      DecimalRoundTrip(n / 10);
      assert r[..|r| - 1] == NatToString(n / 10);
    }
  }

  predicate IsAt(s: string, sub: string, i: int)
  {
    0 <= i <= |s| - |sub| && s[i..i + |sub|] == sub
  }

  /** Python's `sub in s` for strings. */
  predicate Contains(s: string, sub: string)
  {
    exists i :: 0 <= i <= |s| - |sub| && IsAt(s, sub, i)
  }
}
