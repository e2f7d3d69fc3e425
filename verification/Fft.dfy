/** The in-place radix-2 transform computes the discrete Fourier transform. Floating-point numbers
    are reals, and the twiddle tables hold the powers of some w with w^(n/2) = -1. */
module Fft {
  import opened Wrappers
  import opened Arithmetic

  // ----- complex numbers -----

  datatype Complex = Complex(re: real, im: real)

  const ZERO := Complex(0.0, 0.0)
  const ONE := Complex(1.0, 0.0)
  const MINUS_ONE := Complex(-1.0, 0.0)

  function Add(a: Complex, b: Complex): Complex { Complex(a.re + b.re, a.im + b.im) }
  function Sub(a: Complex, b: Complex): Complex { Complex(a.re - b.re, a.im - b.im) }
  function Mul(a: Complex, b: Complex): Complex {
    Complex(Prod(a.re, b.re) - Prod(a.im, b.im), Prod(a.re, b.im) + Prod(a.im, b.re))
  }

  function Prod(x: real, y: real): real { x * y }

  lemma ProdLinear(x: real, y: real, z: real)
    ensures Prod(x + y, z) == Prod(x, z) + Prod(y, z) && Prod(z, x + y) == Prod(z, x) + Prod(z, y)
    ensures Prod(x - y, z) == Prod(x, z) - Prod(y, z) && Prod(z, x - y) == Prod(z, x) - Prod(z, y)
  {
  }

  lemma ProdAssoc(x: real, y: real, z: real)
    ensures Prod(Prod(x, y), z) == Prod(x, Prod(y, z))
  {
  }

  lemma Ring(a: Complex, b: Complex, c: Complex)
    ensures Mul(a, b) == Mul(b, a)
    ensures Mul(a, Add(b, c)) == Add(Mul(a, b), Mul(a, c))
    ensures Mul(a, ZERO) == ZERO && Mul(ONE, a) == a && Mul(MINUS_ONE, a) == Sub(ZERO, a)
    ensures Add(Add(a, b), c) == Add(a, Add(b, c)) && Add(a, b) == Add(b, a) && Add(a, ZERO) == a
    ensures Add(a, Sub(ZERO, b)) == Sub(a, b)
  {
  }

  lemma MulAssoc(a: Complex, b: Complex, c: Complex)
    ensures Mul(Mul(a, b), c) == Mul(a, Mul(b, c))
  {
    hide Prod;
    Expand(a.re, a.im, b.re, b.im, c.re);
    Expand(a.re, a.im, b.re, b.im, c.im);
    Expand(b.re, b.im, c.re, c.im, a.re);
    Expand(b.re, b.im, c.re, c.im, a.im);
  }

  /** Multiplying out the product of p + qi and r + si, by t on either side. */
  lemma Expand(p: real, q: real, r: real, s: real, t: real)
    ensures Prod(Prod(p, r) - Prod(q, s), t) == Prod(p, Prod(r, t)) - Prod(q, Prod(s, t))
    ensures Prod(Prod(p, s) + Prod(q, r), t) == Prod(p, Prod(s, t)) + Prod(q, Prod(r, t))
    ensures Prod(t, Prod(p, r) - Prod(q, s)) == Prod(t, Prod(p, r)) - Prod(t, Prod(q, s))
    ensures Prod(t, Prod(p, s) + Prod(q, r)) == Prod(t, Prod(p, s)) + Prod(t, Prod(q, r))
  {
    hide Prod;
    ProdLinear(Prod(p, r), Prod(q, s), t);
    ProdLinear(Prod(p, s), Prod(q, r), t);
    ProdAssoc(p, r, t);
    ProdAssoc(q, s, t);
    ProdAssoc(p, s, t);
    ProdAssoc(q, r, t);
  }

  function Times(a: nat, b: nat): nat { a * b }

  function Pow(w: Complex, k: nat): Complex { if k == 0 then ONE else Mul(w, Pow(w, k - 1)) }

  lemma {:induction false} PowAdd(w: Complex, a: nat, b: nat)
    ensures Pow(w, a + b) == Mul(Pow(w, a), Pow(w, b))
    decreases a
  {
    hide Mul;
    if a == 0 {
      Ring(Pow(w, b), ONE, ONE);
    } else {
      PowAdd(w, a - 1, b);
      MulAssoc(w, Pow(w, a - 1), Pow(w, b));
    }
  }

  /** Every multiple of a period is a period. */
  lemma {:induction false} PowPeriod(w: Complex, n: nat, t: nat)
    requires Pow(w, n) == ONE
    ensures Pow(w, Times(n, t)) == ONE
    decreases t
  {
    hide *;
    OneMore(n, t);
    PowZero(w);
    if t > 0 {
      PowPeriod(w, n, t - 1);
      PowAdd(w, n, Times(n, t - 1));
      OneByOne();
    }
  }

  lemma OneByOne()
    ensures Mul(ONE, ONE) == ONE
  {
    Ring(ONE, ONE, ONE);
  }

  lemma PowZero(w: Complex)
    ensures Pow(w, 0) == ONE
  {
  }

  lemma OneMore(n: nat, t: nat)
    ensures Times(n, t) == if t == 0 then 0 else n + Times(n, t - 1)
  {
  }

  // ----- the transform as a sum -----

  function At(x: seq<real>, i: int): Complex { if 0 <= i < |x| then Complex(x[i], 0.0) else ZERO }

  /** The sum over t < m of x[off + t*stride] * w^(stride*j*t). */
  function D(x: seq<real>, w: Complex, off: nat, stride: nat, m: nat, j: nat): Complex {
    if m == 0 then ZERO
    else Add(D(x, w, off, stride, m - 1, j), Term(x, w, off, stride, m - 1, j))
  }

  function Term(x: seq<real>, w: Complex, off: nat, stride: nat, t: nat, j: nat): Complex {
    Mul(At(x, off + Times(t, stride)), Pow(w, Times(Times(stride, j), t)))
  }

  /** The discrete Fourier transform: X[k] is the sum over t of x[t] * w^(k*t). */
  function Dft(x: seq<real>, w: Complex, k: nat): Complex { D(x, w, 0, 1, |x|, k) }

  lemma EvenTerm(x: seq<real>, w: Complex, off: nat, stride: nat, t: nat, j: nat)
    ensures Term(x, w, off, stride, 2 * t, j) == Term(x, w, off, 2 * stride, t, j)
  {
    assert Times(2 * t, stride) == Times(t, 2 * stride);
    assert Times(Times(stride, j), 2 * t) == Times(Times(2 * stride, j), t) by { Shuffle(stride, j, t); }
  }

  lemma Shuffle(s: nat, j: nat, t: nat)
    ensures (s * j) * (2 * t) == ((2 * s) * j) * t
    ensures (s * j) * (2 * t + 1) == s * j + ((2 * s) * j) * t
    ensures (2 * t + 1) * s == s + t * (2 * s)
  {
    assert (2 * s) * j == 2 * (s * j);
    var p := s * j;
    assert p * (2 * t) == (2 * p) * t;
    assert p * (2 * t + 1) == p + p * (2 * t);
  }

  lemma OddTerm(x: seq<real>, w: Complex, off: nat, stride: nat, t: nat, j: nat)
    ensures Term(x, w, off, stride, 2 * t + 1, j)
            == Mul(Pow(w, Times(stride, j)), Term(x, w, off + stride, 2 * stride, t, j))
  {
    hide Mul, Pow;
    Shuffle(stride, j, t);
    var a := At(x, off + Times(2 * t + 1, stride));
    var p, q := Times(stride, j), Times(Times(2 * stride, j), t);
    assert a == At(x, off + stride + Times(t, 2 * stride));
    PowAdd(w, p, q);
    Ring(Pow(w, p), a, a);
    MulAssoc(a, Pow(w, p), Pow(w, q));
    MulAssoc(Pow(w, p), a, Pow(w, q));
  }

  /** Splitting a transform into those of the even and of the odd samples. */
  lemma {:induction false} Split(x: seq<real>, w: Complex, off: nat, stride: nat, m: nat, j: nat)
    ensures D(x, w, off, stride, 2 * m, j)
            == Add(D(x, w, off, 2 * stride, m, j),
                   Mul(Pow(w, Times(stride, j)), D(x, w, off + stride, 2 * stride, m, j)))
    decreases m
  {
    hide Mul, Pow, Term, Add;
    var tw := Pow(w, Times(stride, j));
    if m == 0 {
      Ring(tw, ZERO, ZERO);
      Ring(ZERO, ZERO, ZERO);
    } else {
      Split(x, w, off, stride, m - 1, j);
      var e, o := D(x, w, off, 2 * stride, m - 1, j), D(x, w, off + stride, 2 * stride, m - 1, j);
      var et, ot := Term(x, w, off, 2 * stride, m - 1, j), Term(x, w, off + stride, 2 * stride, m - 1, j);
      EvenTerm(x, w, off, stride, m - 1, j);
      OddTerm(x, w, off, stride, m - 1, j);
      assert D(x, w, off, stride, 2 * m, j)
             == Add(Add(D(x, w, off, stride, 2 * (m - 1), j), Term(x, w, off, stride, 2 * (m - 1), j)),
                    Term(x, w, off, stride, 2 * (m - 1) + 1, j));
      Ring(tw, o, ot);
      Interchange(e, Mul(tw, o), et, Mul(tw, ot));
    }
  }

  lemma Interchange(a: Complex, b: Complex, c: Complex, d: Complex)
    ensures Add(Add(Add(a, b), c), d) == Add(Add(a, c), Add(b, d))
  {
  }

  /** A sub-transform of m samples is periodic in its frequency, with period m. */
  lemma {:induction false} Periodic(x: seq<real>, w: Complex, off: nat, stride: nat, m: nat, j: nat, s: nat)
    requires Pow(w, Times(stride, s)) == ONE
    ensures D(x, w, off, stride, m, j + s) == D(x, w, off, stride, m, j)
    decreases m
  {
    hide Term, Pow;
    if m > 0 {
      Periodic(x, w, off, stride, m - 1, j, s);
      PeriodicTerm(x, w, off, stride, m - 1, j, s);
    }
  }

  lemma PeriodicTerm(x: seq<real>, w: Complex, off: nat, stride: nat, t: nat, j: nat, s: nat)
    requires Pow(w, Times(stride, s)) == ONE
    ensures Term(x, w, off, stride, t, j + s) == Term(x, w, off, stride, t, j)
  {
    hide Mul, Pow;
    assert Times(Times(stride, j + s), t) == Times(Times(stride, j), t) + Times(Times(stride, s), t) by {
      Distribute3(stride, j, s, t);
    }
    PowAdd(w, Times(Times(stride, j), t), Times(Times(stride, s), t));
    PowPeriod(w, Times(stride, s), t);
    Ring(Pow(w, Times(Times(stride, j), t)), ONE, ONE);
  }

  lemma Distribute3(a: nat, j: nat, s: nat, t: nat)
    ensures (a * (j + s)) * t == (a * j) * t + (a * s) * t
  {
    assert a * (j + s) == a * j + a * s;
  }

  // ----- bit reversal -----

  function Two(b: nat): (p: nat)
    ensures p >= 1
  {
    if b == 0 then 1 else 2 * Two(b - 1)
  }

  function Rev(x: nat, b: nat): nat { if b == 0 then 0 else (if x % 2 == 1 then Two(b - 1) else 0) + Rev(x / 2, b - 1) }

  lemma {:induction false} RevBound(x: nat, b: nat)
    ensures Rev(x, b) < Two(b)
  {
    if b > 0 { RevBound(x / 2, b - 1); }
  }

  function Bit(h: nat, p: nat): nat { if h == 1 then p else 0 }

  /** Reversing moves the top bit to the bottom. */
  lemma {:induction false} RevTop(h: nat, y: nat, b: nat)
    requires b >= 1 && h <= 1 && y < Two(b - 1)
    ensures Rev(Bit(h, Two(b - 1)) + y, b) == 2 * Rev(y, b - 1) + h
    decreases b
  {
    var x := Bit(h, Two(b - 1)) + y;
    if b == 1 {
      assert Rev(x / 2, 0) == 0;
    } else {
      assert x % 2 == y % 2 && x / 2 == Bit(h, Two(b - 2)) + y / 2;
      RevTop(h, y / 2, b - 1);
    }
  }

  /** bitReverse is its own inverse, and so a permutation. */
  lemma {:induction false} RevInvolution(x: nat, b: nat)
    requires x < Two(b)
    ensures Rev(x, b) < Two(b) && Rev(Rev(x, b), b) == x
    decreases b
  {
    RevBound(x, b);
    if b > 0 {
      RevBound(x / 2, b - 1);
      RevInvolution(x / 2, b - 1);
      RevTop(x % 2, Rev(x / 2, b - 1), b);
    }
  }

  method BitReverse(x0: nat, bits: nat) returns (r: nat)
    ensures r == Rev(x0, bits)
  {
    var x := x0;
    r := 0;
    var i := 0;
    while i < bits
      invariant 0 <= i <= bits
      invariant r * Two(bits - i) + Rev(x, bits - i) == Rev(x0, bits)
    {
      Doubled(r, x % 2, Two(bits - i - 1));
      r := r * 2 + x % 2;
      x := x / 2;
      i := i + 1;
    }
  }

  lemma Doubled(r: nat, d: nat, p: nat)
    requires d <= 1
    ensures r * (2 * p) + (if d == 1 then p else 0) == (r * 2 + d) * p
  {
    assert d == 0 || d == 1;
  }

  lemma {:induction false} TwoAdd(a: nat, b: nat)
    ensures Two(a + b) == Times(Two(a), Two(b))
    decreases a
  {
    if a > 0 { TwoAdd(a - 1, b); }
  }

  /** Reversing a multiple of 2^i reverses the quotient in the remaining bits. */
  lemma {:induction false} RevShift(c: nat, i: nat, b: nat)
    requires i <= b
    ensures Rev(Times(c, Two(i)), b) == Rev(c, b - i)
    decreases i
  {
    if i > 0 {
      var y := Times(c, Two(i - 1));
      assert Times(c, Two(i)) == 2 * y;
      RevShift(c, i - 1, b - 1);
    }
  }

  /** The two halves of a block of 2^(i+1) entries start at samples 2^(b-i-1) apart. */
  lemma RevHalf(start: nat, i: nat, b: nat)
    requires i < b && start % Two(i + 1) == 0
    ensures Rev(start + Two(i), b) == Rev(start, b) + Two(b - i - 1)
  {
    hide Rev;
    var q := start / Two(i + 1);
    Halves(start, Two(i));
    RevShift(2 * q, i, b);
    RevShift(2 * q + 1, i, b);
    RevOdd(q, b - i);
  }

  lemma Halves(start: nat, s: nat)
    requires s > 0 && start % (2 * s) == 0
    ensures start == Times(2 * (start / (2 * s)), s) && start + s == Times(2 * (start / (2 * s)) + 1, s)
  {
    var q := start / (2 * s);
    assert start == q * (2 * s);
    assert q * (2 * s) == (2 * q) * s;
    assert (2 * q + 1) * s == (2 * q) * s + s;
  }

  lemma RevOdd(q: nat, b: nat)
    requires b > 0
    ensures Rev(2 * q + 1, b) == Rev(2 * q, b) + Two(b - 1)
  {
  }

  // ----- the block invariant -----

  /** Where the block of m entries that holds p starts. */
  function Start(p: nat, m: nat): nat
    requires m > 0
  {
    if p % m <= p then p - p % m else 0
  }

  /** Entry p when blocks of 2^i entries are transformed: the block's sub-transform at p's place in it. */
  function Blk(x: seq<real>, w: Complex, b: nat, i: nat, p: nat): Complex
    requires i <= b
  {
    D(x, w, Rev(Start(p, Two(i)), b), Two(b - i), Two(i), p % Two(i))
  }

  predicate IsRoot(w: Complex, b: nat) { b > 0 ==> Pow(w, Two(b - 1)) == MINUS_ONE }

  lemma InBlock(start: nat, m: nat, p: nat)
    requires m > 0 && start % m == 0 && start <= p < start + m
    ensures p % m == p - start
  {
    var q := start / m;
    assert p == q * m + (p - start);
    Quotient(q, m, p - start, p);
  }

  lemma HalfAligned(start: nat, i: nat)
    requires start % Two(i + 1) == 0
    ensures start % Two(i) == 0 && (start + Two(i)) % Two(i) == 0
  {
    var q := start / Two(i + 1);
    assert start == (2 * q) * Two(i) + 0;
    Quotient(2 * q, Two(i), 0, start);
    assert start + Two(i) == (2 * q + 1) * Two(i) + 0;
    Quotient(2 * q + 1, Two(i), 0, start + Two(i));
  }

  lemma BlkAt(x: seq<real>, w: Complex, b: nat, i: nat, start: nat, k: nat)
    requires i <= b && start % Two(i) == 0 && k < Two(i)
    ensures Blk(x, w, b, i, start + k) == D(x, w, Rev(start, b), Two(b - i), Two(i), k)
  {
    hide D, Rev, Two;
    InBlock(start, Two(i), start + k);
  }

  /** One butterfly joins two blocks' entries into two entries of the block twice the size. */
  lemma Butterfly(x: seq<real>, w: Complex, b: nat, i: nat, start: nat, k: nat)
    requires i < b && start % Two(i + 1) == 0 && k < Two(i) && IsRoot(w, b)
    ensures var tw := Pow(w, Times(Two(b - i - 1), k));
            var lo, hi := Blk(x, w, b, i, start + k), Blk(x, w, b, i, start + k + Two(i));
            && Blk(x, w, b, i + 1, start + k) == Add(lo, Mul(tw, hi))
            && Blk(x, w, b, i + 1, start + k + Two(i)) == Sub(lo, Mul(tw, hi))
  {
    hide Mul, Pow, D, Add, Sub, Blk, Rev, IsRoot;
    var s := Two(i);
    HalfAligned(start, i);
    RevHalf(start, i, b);
    BlkAt(x, w, b, i, start, k);
    BlkAt(x, w, b, i, start + s, k);
    BlkAt(x, w, b, i + 1, start, k);
    BlkAt(x, w, b, i + 1, start, k + s);
    assert start + s + k == start + k + s;
    Joined(x, w, b, i, Rev(start, b), k);
  }

  lemma Joined(x: seq<real>, w: Complex, b: nat, i: nat, off: nat, k: nat)
    requires i < b && IsRoot(w, b)
    ensures var s, step := Two(i), Two(b - i - 1);
            var tw := Pow(w, Times(step, k));
            var lo, hi := D(x, w, off, 2 * step, s, k), D(x, w, off + step, 2 * step, s, k);
            && D(x, w, off, step, 2 * s, k) == Add(lo, Mul(tw, hi))
            && D(x, w, off, step, 2 * s, k + s) == Sub(lo, Mul(tw, hi))
  {
    hide Mul, Pow, D, Add, Sub, Two, Times;
    var s, step := Two(i), Two(b - i - 1);
    Split(x, w, off, step, s, k);
    Split(x, w, off, step, s, k + s);
    HalfTurn(w, b, i, k);
    Periodic(x, w, off, 2 * step, s, k, s);
    Periodic(x, w, off + step, 2 * step, s, k, s);
    var lo, hi := D(x, w, off, 2 * step, s, k), D(x, w, off + step, 2 * step, s, k);
    var tw := Pow(w, Times(step, k));
    MulAssoc(MINUS_ONE, tw, hi);
    Ring(Mul(tw, hi), lo, lo);
    Ring(lo, Mul(tw, hi), lo);
  }

  /** Half a period on, the twiddle factor changes sign; a whole one is 1. */
  lemma HalfTurn(w: Complex, b: nat, i: nat, k: nat)
    requires i < b && IsRoot(w, b)
    ensures var step := Two(b - i - 1);
            && Pow(w, Times(step, k + Two(i))) == Mul(MINUS_ONE, Pow(w, Times(step, k)))
            && Pow(w, Times(2 * step, Two(i))) == ONE
  {
    hide *;
    var step := Two(b - i - 1);
    Exponents(b, i, k);
    RootOf(w, b);
    PowAdd(w, Two(b - 1), Times(step, k));
    PowAdd(w, Two(b - 1), Two(b - 1));
    Squared();
  }

  lemma RootOf(w: Complex, b: nat)
    requires IsRoot(w, b) && b > 0
    ensures Pow(w, Two(b - 1)) == MINUS_ONE
  {
  }

  lemma Exponents(b: nat, i: nat, k: nat)
    requires i < b
    ensures var step := Two(b - i - 1);
            && Times(step, k + Two(i)) == Two(b - 1) + Times(step, k)
            && Times(2 * step, Two(i)) == Two(b - 1) + Two(b - 1)
  {
    hide Two;
    TwoAdd(b - i - 1, i);
    Spread(Two(b - i - 1), k, Two(i));
  }

  lemma Spread(p: nat, k: nat, s: nat)
    ensures Times(p, k + s) == Times(p, s) + Times(p, k) && Times(2 * p, s) == Times(p, s) + Times(p, s)
  {
  }

  lemma Squared()
    ensures Mul(MINUS_ONE, MINUS_ONE) == ONE
  {
  }

  // ----- the plan -----

  predicate PowerOfTwo(n: int) { n == 1 || (n > 1 && n % 2 == 0 && PowerOfTwo(n / 2)) }

  lemma {:induction false} PowerIsTwo(n: int, b: nat)
    requires PowerOfTwo(n) && Two(b) >= n && (b > 0 ==> Two(b - 1) < n)
    ensures Two(b) == n
    decreases b
  {
    if n > 1 { PowerIsTwo(n / 2, b - 1); }
  }

  /** The tables hold the powers of w below n/2. */
  ghost predicate Twiddles(cos: seq<real>, sin: seq<real>, w: Complex) {
    |cos| == |sin| && forall k :: 0 <= k < |cos| ==> Complex(cos[k], sin[k]) == Pow(w, k)
  }

  class Plan {
    const n: nat
    const bits: nat
    const rev: array<nat>
    const cos: array<real>
    const sin: array<real>

    ghost predicate Valid(w: Complex)
      reads rev, cos, sin
    {
      && n == Two(bits) && rev.Length == n && cos.Length == sin.Length == n / 2
      && (forall i :: 0 <= i < n ==> rev[i] == Rev(i, bits))
      && Twiddles(cos[..], sin[..], w) && IsRoot(w, bits)
    }

    constructor (n: nat, bits: nat, rev: array<nat>, cos: array<real>, sin: array<real>)
      ensures this.n == n && this.bits == bits && this.rev == rev && this.cos == cos && this.sin == sin
    {
      this.n, this.bits, this.rev, this.cos, this.sin := n, bits, rev, cos, sin;
    }

    /** One pass of the butterflies of a block. */
    method Join(re: array<real>, im: array<real>, ghost x: seq<real>, ghost w: Complex, ghost i: nat, start: nat, span: nat, step: nat)
      requires Valid(w) && i < bits && span == Two(i) && step == Two(bits - i - 1)
      requires start % Two(i + 1) == 0 && start + 2 * span <= n
      requires re.Length == im.Length == n && re != im && re !in {cos, sin} && im !in {cos, sin}
      requires forall p :: start <= p < n ==> Complex(re[p], im[p]) == Blk(x, w, bits, i, p)
      modifies re, im
      ensures forall p :: start <= p < start + 2 * span ==> Complex(re[p], im[p]) == Blk(x, w, bits, i + 1, p)
      ensures forall p :: 0 <= p < n && !(start <= p < start + 2 * span) ==> re[p] == old(re[p]) && im[p] == old(im[p])
    {
      hide Blk, Pow, Rev, Two, IsRoot, Add, Sub, Mul;
      var k := 0;
      var j := start;
      while j < start + span
        invariant start <= j <= start + span && k == Times(step, j - start)
        invariant forall p :: start <= p < j ==> Complex(re[p], im[p]) == Blk(x, w, bits, i + 1, p)
        invariant forall p :: start + span <= p < j + span ==> Complex(re[p], im[p]) == Blk(x, w, bits, i + 1, p)
        invariant forall p :: j <= p < start + span || j + span <= p < n ==> Complex(re[p], im[p]) == Blk(x, w, bits, i, p)
        invariant forall p :: 0 <= p < n && !(start <= p < start + 2 * span) ==> re[p] == old(re[p]) && im[p] == old(im[p])
      {
        TwiddleIndex(bits, i, j - start);
        Butterfly(x, w, bits, i, start, j - start);
        assert Complex(cos[..][k], sin[..][k]) == Pow(w, k);
        Cross(re, im, j, j + span, cos[k], sin[k]);
        k := k + step;
        j := j + 1;
      }
    }

    /** The body of the inner loop: one butterfly between entries j and l. */
    method Cross(re: array<real>, im: array<real>, j: nat, l: nat, wr: real, wi: real)
      requires j < l < re.Length == im.Length && re != im
      modifies re, im
      ensures var lo, hi := old(Complex(re[j], im[j])), old(Complex(re[l], im[l]));
              && Complex(re[j], im[j]) == Add(lo, Mul(Complex(wr, wi), hi))
              && Complex(re[l], im[l]) == Sub(lo, Mul(Complex(wr, wi), hi))
      ensures forall p :: 0 <= p < re.Length && p != j && p != l ==> re[p] == old(re[p]) && im[p] == old(im[p])
    {
      var tr := wr * re[l] - wi * im[l];
      var ti := wr * im[l] + wi * re[l];
      re[l] := re[j] - tr;
      im[l] := im[j] - ti;
      re[j] := re[j] + tr;
      im[j] := im[j] + ti;
    }

    /** One stage: every block of the doubled size. */
    method Stage(re: array<real>, im: array<real>, ghost x: seq<real>, ghost w: Complex, ghost i: nat, span: nat)
      requires Valid(w) && i < bits && span == Two(i)
      requires re.Length == im.Length == n && re != im && re !in {cos, sin} && im !in {cos, sin}
      requires forall p :: 0 <= p < n ==> Complex(re[p], im[p]) == Blk(x, w, bits, i, p)
      modifies re, im
      ensures forall p :: 0 <= p < n ==> Complex(re[p], im[p]) == Blk(x, w, bits, i + 1, p)
    {
      hide Blk, Pow, Rev, IsRoot;
      StepIs(bits, i);
      var step := n / (span * 2);
      var start := 0;
      while start < n
        invariant 0 <= start <= n && start % Two(i + 1) == 0
        invariant forall p :: 0 <= p < start ==> Complex(re[p], im[p]) == Blk(x, w, bits, i + 1, p)
        invariant forall p :: start <= p < n ==> Complex(re[p], im[p]) == Blk(x, w, bits, i, p)
      {
        Fits(start, bits, i);
        Join(re, im, x, w, i, start, span, step);
        start := start + span * 2;
      }
    }

    /** powerSpectrum: `re` and `im` end as the transform of the input, `out` as its squared modulus. */
    method PowerSpectrum(input: array<real>, out: array<real>, re: array<real>, im: array<real>, ghost w: Complex)
      requires Valid(w) && input.Length == re.Length == im.Length == n && out.Length == n / 2 + 1
      requires re != im && out != re && out != im && re !in {cos, sin, input} && im !in {cos, sin, input}
      requires out !in {cos, sin, input}
      modifies out, re, im
      ensures input[..] == old(input[..])
      ensures forall k :: 0 <= k < n ==> Complex(re[k], im[k]) == Dft(input[..], w, k)
      ensures forall k :: 0 <= k <= n / 2 ==> out[k] == SquaredModulus(Dft(input[..], w, k))
    {
      hide Blk, Pow, Rev, IsRoot, D, Dft;
      ghost var x := input[..];
      Load(input, re, im, w);
      var span := 1;
      ghost var stage := 0;
      while span < n
        invariant stage <= bits && span == Two(stage) && input[..] == x
        invariant forall p :: 0 <= p < n ==> Complex(re[p], im[p]) == Blk(x, w, bits, stage, p)
        decreases n - span
      {
        TwoGrows(stage, bits);
        Stage(re, im, x, w, stage, span);
        span := span * 2;
        stage := stage + 1;
      }
      TwoGrows(stage, bits);
      forall k | 0 <= k < n ensures Complex(re[k], im[k]) == Dft(x, w, k) { Whole(x, w, bits, k); }
      var k := 0;
      while k <= n / 2
        invariant 0 <= k <= n / 2 + 1 && input[..] == x
        invariant forall p :: 0 <= p < n ==> Complex(re[p], im[p]) == Dft(x, w, p)
        invariant forall p :: 0 <= p < k ==> out[p] == SquaredModulus(Dft(x, w, p))
      {
        out[k] := re[k] * re[k] + im[k] * im[k];
        k := k + 1;
      }
    }

    /** Loads the samples in bit-reversed order: blocks of one entry. */
    method Load(input: array<real>, re: array<real>, im: array<real>, ghost w: Complex)
      requires Valid(w) && input.Length == re.Length == im.Length == n
      requires re != im && re !in {cos, sin, input} && im !in {cos, sin, input}
      modifies re, im
      ensures forall p :: 0 <= p < n ==> Complex(re[p], im[p]) == Blk(input[..], w, bits, 0, p)
    {
      hide Blk, Pow, Rev, IsRoot, D, Two;
      var i := 0;
      while i < n
        invariant 0 <= i <= n
        invariant forall p :: 0 <= p < i ==> Complex(re[p], im[p]) == Blk(input[..], w, bits, 0, p)
      {
        RevBound(i, bits);
        Single(input[..], w, bits, i);
        re[i] := input[rev[i]];
        im[i] := 0.0;
        i := i + 1;
      }
    }
  }

  /** newFFTPlan for a size and its twiddle tables; None is the panic on a bad size. */
  method NewPlan(n: int, cos: array<real>, sin: array<real>, ghost w: Complex) returns (plan: Option<Plan>)
    requires PowerOfTwo(n) ==> cos.Length == sin.Length == n / 2 && Twiddles(cos[..], sin[..], w)
    requires n > 1 ==> Pow(w, n / 2) == MINUS_ONE
    ensures plan.None? <==> !PowerOfTwo(n)
    ensures plan.Some? ==> plan.value.n == n && plan.value.Valid(w)
  {
    hide Pow, Rev;
    if n <= 0 || !PowerOfTwo(n) { return None; }
    var bits := 0;
    var p := 1;
    while p < n
      invariant p == Two(bits) && (bits > 0 ==> Two(bits - 1) < n)
      decreases n - p
    {
      bits := bits + 1;
      p := p * 2;
    }
    PowerIsTwo(n, bits);
    var rev := new nat[n];
    var i := 0;
    while i < n
      invariant 0 <= i <= n
      invariant forall k :: 0 <= k < i ==> rev[k] == Rev(k, bits)
    {
      var r := BitReverse(i, bits);
      rev[i] := r;
      i := i + 1;
    }
    var made := new Plan(n, bits, rev, cos, sin);
    return Some(made);
  }

  function SquaredModulus(c: Complex): real { c.re * c.re + c.im * c.im }

  lemma StepIs(b: nat, i: nat)
    requires i < b
    ensures Two(b) / (Two(i) * 2) == Two(b - i - 1)
  {
    TwoAdd(b - i - 1, i + 1);
    Quotient(Two(b - i - 1), Two(i + 1), 0, Two(b));
  }

  /** A block that starts inside the array ends inside it, and the next one is aligned too. */
  lemma Fits(start: nat, b: nat, i: nat)
    requires i < b && start < Two(b) && start % Two(i + 1) == 0
    ensures start + 2 * Two(i) <= Two(b) && (start + 2 * Two(i)) % Two(i + 1) == 0
  {
    hide Two, Times;
    TwoAdd(b - i - 1, i + 1);
    Halved(i);
    NextBlock(start, Two(b - i - 1), Two(i + 1));
  }

  lemma NextBlock(start: nat, t: nat, m: nat)
    requires m > 0 && start % m == 0 && start < Times(t, m)
    ensures start + m <= Times(t, m) && (start + m) % m == 0
  {
    var q := start / m;
    assert start == q * m + start % m;
    NextMultiple(q, t, m);
  }

  lemma Halved(i: nat)
    ensures Two(i + 1) == 2 * Two(i)
  {
  }

  /** Below t*m, the multiple of m after q*m is at most t*m. */
  lemma NextMultiple(q: nat, t: nat, m: nat)
    requires m > 0 && q * m < t * m
    ensures q * m + m <= t * m && (q * m + m) % m == 0
  {
    Distribute(q, t, m);
    if q > t { AtLeast(q - t, m); }
    assert q != t;
    AtLeast(t - q, m);
    Divided(q + 1, m, 0);
    assert (q + 1) * m == q * m + m;
  }

  lemma {:induction false} TwoGrows(i: nat, b: nat)
    ensures i < b ==> Two(i) < Two(b)
    ensures i > b ==> Two(i) > Two(b)
    decreases i + b
  {
    if i > 0 && b > 0 {
      TwoGrows(i - 1, b - 1);
    } else if b > 0 {
      TwoGrows(0, b - 1);
    } else if i > 0 {
      TwoGrows(i - 1, 0);
    }
  }

  /** A block of one entry is a sample. */
  lemma Single(x: seq<real>, w: Complex, b: nat, p: nat)
    requires |x| == Two(b) && Rev(p, b) < |x|
    ensures Blk(x, w, b, 0, p) == Complex(x[Rev(p, b)], 0.0)
  {
    hide Rev, D, Two;
    OneTerm(x, w, Rev(p, b), Two(b));
    assert p % 1 == 0;
    assert Two(0) == 1 by { TwoZero(); }
  }

  lemma TwoZero()
    ensures Two(0) == 1
  {
  }

  lemma OneTerm(x: seq<real>, w: Complex, off: nat, stride: nat)
    ensures D(x, w, off, stride, 1, 0) == At(x, off)
  {
    hide Mul, Times, At, Add;
    var v := At(x, off);
    Zeros(stride);
    PowZero(w);
    Ring(v, ONE, ONE);
    Ring(ONE, v, v);
    Ring(v, ZERO, ZERO);
    assert D(x, w, off, stride, 0, 0) == ZERO;
  }

  lemma Zeros(stride: nat)
    ensures Times(0, stride) == 0 && Times(stride, 0) == 0 && Times(0, 0) == 0
  {
  }

  /** The block of all entries is the whole transform. */
  lemma Whole(x: seq<real>, w: Complex, b: nat, k: nat)
    requires |x| == Two(b) && k < |x|
    ensures Blk(x, w, b, b, k) == Dft(x, w, k)
  {
    hide D;
    RevZero(b);
    BlkAt(x, w, b, b, 0, k);
  }

  lemma {:induction false} RevZero(b: nat)
    ensures Rev(0, b) == 0
  {
    if b > 0 { RevZero(b - 1); }
  }

  lemma Below(step: nat, s: nat, d: nat)
    requires step >= 1 && d < s
    ensures Times(step, d) < Times(step, s) && Times(step, d + 1) == Times(step, d) + step
  {
    AtLeast(s - d, step);
    Distribute(s, d, step);
  }

  lemma TwiddleIndex(b: nat, i: nat, d: nat)
    requires i < b && d < Two(i)
    ensures Times(Two(b - i - 1), d) < Two(b) / 2
    ensures Times(Two(b - i - 1), d + 1) == Times(Two(b - i - 1), d) + Two(b - i - 1)
  {
    hide Times;
    TwoAdd(b - i - 1, i);
    Below(Two(b - i - 1), Two(i), d);
  }
}
