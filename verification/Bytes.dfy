/** Bytes, flattened sequences, and the little-endian numbers used by block headers and nonces. */
module Bytes {

  type byte = b: int | 0 <= b < 256

  datatype Option<+T> = None | Some(value: T)

  // The errors a byte-stream read can end with; Corrupt is a failed authentication.
  datatype ReadError = EOF | UnexpectedEOF | Corrupt

  function Pow256(n: nat): (p: nat)
    ensures p >= 1
  {
    if n == 0 then 1 else 256 * Pow256(n - 1)
  }

  /** The number a byte string denotes, least significant byte first. */
  function Value(s: seq<byte>): (v: nat)
    ensures v < Pow256(|s|)
  {
    if s == [] then 0 else s[0] + 256 * Value(s[1..])
  }

  /** The n low-order base-256 digits of v, least significant first. */
  function Digits(v: nat, n: nat): (s: seq<byte>)
    ensures |s| == n
  {
    if n == 0 then [] else [v % 256] + Digits(v / 256, n - 1)
  }

  lemma {:induction false} ValueDigits(v: nat, n: nat)
    ensures Value(Digits(v, n)) == v % Pow256(n)
  {
    if n > 0 {
      ValueDigits(v / 256, n - 1);
      assert Digits(v, n)[1..] == Digits(v / 256, n - 1);
      SplitMod(v, Pow256(n - 1));
    }
  }

  lemma SplitMod(v: nat, p: nat)
    requires p >= 1
    ensures v % (256 * p) == v % 256 + 256 * ((v / 256) % p)
  {
    var q, r := (v / 256) / p, (v / 256) % p;
    assert v / 256 == q * p + r;
    var low := v % 256 + 256 * r;
    assert v == q * (256 * p) + low by {
      assert v == 256 * (v / 256) + v % 256;
      assert 256 * (q * p) == q * (256 * p);
    }
    assert 0 <= low < 256 * p by { assert r <= p - 1; }
    ModUnique(v, 256 * p, q, low);
  }

  lemma ModUnique(v: int, m: int, q: int, r: int)
    requires 0 <= r < m && v == q * m + r
    ensures v % m == r && v / m == q
  {
    MultipleApart(q - v / m, m);
    assert v == (v / m) * m + v % m;
    assert (q - v / m) * m == v % m - r;
  }

  lemma MultipleApart(d: int, m: int)
    requires m > 0
    ensures d == 0 || d * m >= m || d * m <= -m
  {
    if d > 0 {
      ProductNat(d - 1, m);
      assert d * m == (d - 1) * m + m;
    } else if d < 0 {
      ProductNat(-d - 1, m);
      assert d * m == -((-d - 1) * m) - m;
    }
  }

  lemma ProductNat(a: int, b: int)
    requires a >= 0 && b >= 0
    ensures a * b >= 0
  {
  }

  lemma {:induction false} DigitsValue(s: seq<byte>)
    ensures Digits(Value(s), |s|) == s
  {
    if s != [] {
      var v := Value(s);
      assert v % 256 == s[0] && v / 256 == Value(s[1..]);
      DigitsValue(s[1..]);
    }
  }

  /** Two counters have the same n-byte encoding exactly when they agree modulo 256^n. */
  lemma DigitsEqual(v: nat, w: nat, n: nat)
    ensures Digits(v, n) == Digits(w, n) <==> v % Pow256(n) == w % Pow256(n)
  {
    ValueDigits(v, n);
    ValueDigits(w, n);
    DigitsValue(Digits(v, n));
    DigitsValue(Digits(w, n));
  }

  function Flatten<T>(ss: seq<seq<T>>): seq<T>
  {
    if ss == [] then [] else ss[0] + Flatten(ss[1..])
  }

  lemma {:induction false} FlattenConcat<T>(a: seq<seq<T>>, b: seq<seq<T>>)
    ensures Flatten(a + b) == Flatten(a) + Flatten(b)
  {
    if a == [] {
      assert a + b == b;
    } else {
      FlattenConcat(a[1..], b);
      assert (a + b)[1..] == a[1..] + b && (a + b)[0] == a[0];
      Associative(a[0], Flatten(a[1..]), Flatten(b));
    }
  }

  lemma FlattenPush<T>(a: seq<seq<T>>, x: seq<T>)
    ensures Flatten(a + [x]) == Flatten(a) + x
  {
    FlattenConcat(a, [x]);
    assert Flatten([x]) == x + Flatten([x][1..]) == x;
  }

  lemma FlattenMonotone<T>(a: seq<seq<T>>, b: seq<seq<T>>)
    requires a <= b
    ensures Flatten(a) <= Flatten(b)
  {
    assert b == a + b[|a|..];
    FlattenConcat(a, b[|a|..]);
  }

  lemma Associative<T>(a: seq<T>, b: seq<T>, c: seq<T>)
    ensures a + (b + c) == (a + b) + c
  {
  }

  lemma CutAt<T>(w: seq<T>, e: seq<T>, tail: seq<T>, c: nat, d: nat)
    requires w == e + tail && |e| + d == c <= |w|
    ensures d <= |tail| && w[..c] == e + tail[..d]
  {
  }

  lemma CutWithin<T>(e: seq<T>, tail: seq<T>, c: nat)
    requires c <= |e|
    ensures (e + tail)[..c] == e[..c]
  {
  }

  lemma SliceParts(a: array<byte>, lo: nat, hi: nat, n: nat)
    requires lo + n <= hi <= a.Length
    ensures a[lo..hi][..n] == a[lo..lo + n] && a[lo..hi][n..] == a[lo + n..hi]
    ensures a[lo..hi] == a[lo..lo + n] + a[lo + n..hi]
  {
  }

  lemma SliceOfTail(a: array<byte>, lo: nat, n: nat)
    requires lo + n <= a.Length
    ensures a[lo..][..n] == a[lo..lo + n]
  {
  }

  lemma FrontOf(a: array<byte>, m: nat, n: nat)
    requires m <= n <= a.Length
    ensures a[..n] == a[..m] + a[m..n]
  {
  }
}
