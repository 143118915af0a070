/** Number theory behind the prime pipeline: primes by trial division, streams
    of integers closed by the end marker, and the removal of multiples. */
module Primes {

  // The marker that closes every stream of the pipeline.
  const END := -1

  predicate Divides(d: int, n: int) {
    d != 0 && n % d == 0
  }

  predicate IsPrime(n: int) {
    n >= 2 && forall d :: 2 <= d < n ==> !Divides(d, n)
  }

  /** Some element of ps, at least 2, divides q. */
  ghost predicate HasFactor(ps: seq<int>, q: int) {
    exists k :: 0 <= k < |ps| && 2 <= ps[k] && Divides(ps[k], q)
  }

  /** The primes in 2..n, ascending. */
  function PrimesUpTo(n: int): seq<int>
    decreases if n < 2 then 0 else n
  {
    if n < 2 then []
    else if IsPrime(n) then PrimesUpTo(n - 1) + [n]
    else PrimesUpTo(n - 1)
  }

  /** The integers lo, lo+1, ..., hi. */
  function Numbers(lo: int, hi: int): (r: seq<int>)
    ensures |r| == if lo <= hi then hi - lo + 1 else 0
    ensures forall i :: 0 <= i < |r| ==> r[i] == lo + i
    decreases if lo <= hi then hi - lo + 1 else 0
  {
    if lo > hi then [] else Numbers(lo, hi - 1) + [hi]
  }

  /** What the source sends: 2..max and the end marker. */
  function Stream(max: int): seq<int> {
    Numbers(2, max) + [END]
  }

  /** The test a filter for p applies to each value. */
  predicate Keeps(p: int, v: int) {
    v == END || !Divides(p, v)
  }

  function FilterOut(p: int, s: seq<int>): seq<int> {
    if s == [] then []
    else FilterOut(p, s[..|s|-1]) + if Keeps(p, s[|s|-1]) then [s[|s|-1]] else []
  }

  /** The stream after one filter for each element of ps, in order. */
  function Sift(ps: seq<int>, s: seq<int>): seq<int> {
    if ps == [] then s else FilterOut(ps[|ps|-1], Sift(ps[..|ps|-1], s))
  }

  // ---- Divisibility -----------------------------------------------------

  lemma DividesTransitive(p: int, d: int, n: int)
    requires p > 0 && d > 0 && Divides(p, d) && Divides(d, n)
    ensures Divides(p, n)
  {
    var a, b := d / p, n / d;
    assert n == p * (a * b) by { assert d == p * a; assert n == d * b; assert (p * a) * b == p * (a * b); }
    MultipleIsDivisible(p, a * b);
  }

  lemma MultipleIsDivisible(p: int, k: int)
    requires p > 0
    ensures (p * k) % p == 0
  {
    var q, r := (p * k) / p, (p * k) % p;
    assert p * (k - q) == r;
    if k - q >= 1 {
      ProductBound(p, k - q);
    } else if k - q <= -1 {
      ProductBound(p, q - k);
    }
  }

  lemma ProductBound(p: int, k: int)
    requires p > 0 && k >= 1
    ensures p * k >= p
  {
    assert p * k == p * (k - 1) + p;
  }

  lemma {:induction false} PrimesUpToMembers(n: int, q: int)
    ensures q in PrimesUpTo(n) <==> q <= n && IsPrime(q)
    decreases if n < 2 then 0 else n
  {
    if n >= 2 { PrimesUpToMembers(n - 1, q); }
  }

  lemma {:induction false} NoPrimesBetween(m: int, n: int)
    requires m <= n
    requires forall q :: m < q <= n ==> !IsPrime(q)
    ensures PrimesUpTo(n) == PrimesUpTo(m)
    decreases n - m
  {
    if m == n {
    } else {
      NoPrimesBetween(m, n - 1);
    }
  }

  // ---- Streams ------------------------------------------------------------

  /** Closed by END, everything before it ascending and at least 2. */
  ghost predicate Shape(s: seq<int>) {
    && |s| >= 1
    && s[|s|-1] == END
    && (forall i :: 0 <= i < |s| - 1 ==> s[i] >= 2)
    && (forall i, j :: 0 <= i < j < |s| - 1 ==> s[i] < s[j])
  }

  lemma {:induction false} FilterOutMembers(p: int, s: seq<int>, v: int)
    ensures v in FilterOut(p, s) <==> v in s && Keeps(p, v)
  {
    if s == [] {
    } else {
      FilterOutMembers(p, s[..|s|-1], v);
      assert s == s[..|s|-1] + [s[|s|-1]];
    }
  }

  lemma {:induction false} FilterOutAppend(p: int, a: seq<int>, b: seq<int>)
    ensures FilterOut(p, a + b) == FilterOut(p, a) + FilterOut(p, b)
    ensures |FilterOut(p, b)| <= |b|
  {
    if b == [] {
      assert a + b == a;
    } else {
      var c := b[..|b|-1];
      FilterOutAppend(p, a, c);
      assert (a + b)[..|a + b|-1] == a + c;
    }
  }

  /** A longer input gives a longer output: filtering respects prefixes. */
  lemma FilterOutPrefix(p: int, a: seq<int>, s: seq<int>)
    requires a <= s
    ensures FilterOut(p, a) <= FilterOut(p, s)
  {
    FilterOutAppend(p, a, s[|a|..]);
    assert a + s[|a|..] == s;
  }

  ghost predicate Ascending(s: seq<int>) {
    && (forall i :: 0 <= i < |s| ==> s[i] >= 2)
    && (forall i, j :: 0 <= i < j < |s| ==> s[i] < s[j])
  }

  lemma {:induction false} FilterOutAscending(p: int, s: seq<int>)
    requires Ascending(s)
    ensures Ascending(FilterOut(p, s))
    ensures forall v :: v in FilterOut(p, s) ==> v in s
  {
    forall v ensures v in FilterOut(p, s) ==> v in s { FilterOutMembers(p, s, v); }
    if s == [] {
    } else {
      var t := s[..|s|-1];
      FilterOutAscending(p, t);
      var f := FilterOut(p, t);
      forall i | 0 <= i < |f| ensures f[i] < s[|s|-1] {
        assert f[i] in t;
      }
    }
  }

  lemma FilterOutShape(p: int, s: seq<int>)
    requires Shape(s)
    ensures Shape(FilterOut(p, s))
  {
    var t := s[..|s|-1];
    FilterOutAscending(p, t);
    assert FilterOut(p, s) == FilterOut(p, t) + [END];
  }

  lemma {:induction false} SiftShape(ps: seq<int>, max: int)
    ensures Shape(Sift(ps, Stream(max)))
  {
    if ps == [] {
    } else {
      SiftShape(ps[..|ps|-1], max);
      FilterOutShape(ps[|ps|-1], Sift(ps[..|ps|-1], Stream(max)));
    }
  }

  /** What a sifted stream carries: exactly the numbers that no element of ps divides. */
  lemma {:induction false} SiftMembers(ps: seq<int>, max: int, v: int)
    ensures v in Sift(ps, Stream(max)) <==>
            v == END || (2 <= v <= max && forall k :: 0 <= k < |ps| ==> !Divides(ps[k], v))
  {
    if ps == [] {
      if 2 <= v <= max { assert Stream(max)[v - 2] == v; }
      assert Stream(max)[|Stream(max)|-1] == END;
    } else {
      SiftMembers(ps[..|ps|-1], max, v);
      FilterOutMembers(ps[|ps|-1], Sift(ps[..|ps|-1], Stream(max)), v);
      assert forall k :: 0 <= k < |ps| - 1 ==> ps[..|ps|-1][k] == ps[k];
    }
  }

  lemma SiftLength(ps: seq<int>, max: int)
    ensures 1 <= |Sift(ps, Stream(max))| <= |Stream(max)|
    decreases |ps|
  {
    SiftShape(ps, max);
    if ps != [] {
      SiftLength(ps[..|ps|-1], max);
      FilterOutAppend(ps[|ps|-1], [], Sift(ps[..|ps|-1], Stream(max)));
    }
  }

  // ---- The sieve's arithmetic ----------------------------------------------

  /** The head of the stream sifted by all primes up to m is the next prime. */
  lemma HeadIsNextPrime(m: int, max: int)
    requires Sift(PrimesUpTo(m), Stream(max)) != []
    requires Sift(PrimesUpTo(m), Stream(max))[0] != END
    requires m >= 1
    ensures var n := Sift(PrimesUpTo(m), Stream(max))[0];
            m < n <= max && PrimesUpTo(n) == PrimesUpTo(m) + [n]
  {
    var ps := PrimesUpTo(m);
    var s := Sift(ps, Stream(max));
    var n := s[0];
    SiftShape(ps, max);
    SiftMembers(ps, max, n);
    forall q | 2 <= q < n ensures HasFactor(ps, q) {
      BelowHeadHasFactor(m, max, q);
    }
    NoFactorIsPrime(ps, n);
    PrimesUpToMembers(m, n);
    SelfDivides(n);
    assert n > m;
    forall q | m < q <= n - 1 ensures !IsPrime(q) {
      FactorNotPrime(m, q);
    }
    NoPrimesBetween(m, n - 1);
  }

  /** Once only the end marker is left, every prime up to max is known. */
  lemma NothingLeft(m: int, max: int)
    requires Sift(PrimesUpTo(m), Stream(max)) != []
    requires Sift(PrimesUpTo(m), Stream(max))[0] == END
    requires m >= 1 && (m == 1 || m <= max)
    ensures PrimesUpTo(max) == PrimesUpTo(m)
  {
    var ps := PrimesUpTo(m);
    var s := Sift(ps, Stream(max));
    SiftShape(ps, max);
    forall q | m < q <= max ensures !IsPrime(q) {
      SiftMembers(ps, max, q);
      assert |s| == 1;
      assert q !in s;
      var k :| 0 <= k < |ps| && Divides(ps[k], q);
      PrimesUpToMembers(m, ps[k]);
    }
    if m <= max { NoPrimesBetween(m, max); }
  }

  lemma SelfDivides(n: int)
    requires n > 0
    ensures Divides(n, n)
  {
    MultipleIsDivisible(n, 1);
  }

  lemma FactorNotPrime(m: int, q: int)
    requires m < q && HasFactor(PrimesUpTo(m), q)
    ensures !IsPrime(q)
  {
    var ps := PrimesUpTo(m);
    var k :| 0 <= k < |ps| && 2 <= ps[k] && Divides(ps[k], q);
    PrimesUpToMembers(m, ps[k]);
  }

  lemma BelowHeadHasFactor(m: int, max: int, q: int)
    requires Sift(PrimesUpTo(m), Stream(max)) != []
    requires Sift(PrimesUpTo(m), Stream(max))[0] != END
    requires 2 <= q < Sift(PrimesUpTo(m), Stream(max))[0]
    ensures HasFactor(PrimesUpTo(m), q)
  {
    var ps := PrimesUpTo(m);
    var s := Sift(ps, Stream(max));
    SiftShape(ps, max);
    SiftMembers(ps, max, q);
    SiftMembers(ps, max, s[0]);
    assert q !in s;
    var k :| 0 <= k < |ps| && Divides(ps[k], q);
    PrimesUpToMembers(m, ps[k]);
  }

  lemma NoFactorIsPrime(ps: seq<int>, n: int)
    requires n >= 2
    requires forall k :: 0 <= k < |ps| ==> !Divides(ps[k], n)
    requires forall q :: 2 <= q < n ==> HasFactor(ps, q)
    ensures IsPrime(n)
  {
    forall d | 2 <= d < n ensures !Divides(d, n) {
      if Divides(d, n) {
        assert HasFactor(ps, d);
        var k :| 0 <= k < |ps| && 2 <= ps[k] && Divides(ps[k], d);
        DividesTransitive(ps[k], d, n);
        assert false;
      }
    }
  }
}
