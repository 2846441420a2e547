/** The roots of unity FIPS 203 fixes, and its transform as residues (section 4.3 and appendix A). */
module Unity {
  import opened ModQ
  import opened Ring

  // ---------------------------------------------------------------- the standard

  /** The primitive 256th root of unity. */
  const ZETA := 17

  function Power(x: int, n: nat): int { if n == 0 then 1 else x * Power(x, n - 1) }

  /** The bits of k, the lowest at place p, the next at p / 2, and so on. */
  function BitRev(k: nat, p: nat): (r: nat)
    ensures p == 0 ==> r == 0
    ensures p > 0 ==> r < 2 * p
    decreases p
  {
    if p == 0 then 0 else (if k % 2 == 0 then 0 else p) + BitRev(k / 2, p / 2)
  }

  /** The seven bits of k in the opposite order. */
  function BitRev7(k: nat): (r: nat)
    ensures r < 128
  {
    BitRev(k, 64)
  }

  /** The root of node k is zeta to the power BitRev7(k). */
  function StandardRoots(): Roots {
    seq(128, k requires 0 <= k < 128 => Power(ZETA, BitRev7(k)))
  }

  ghost predicate CongRoots(g: Roots, h: Roots) { forall k :: 1 <= k < 128 ==> Cong(g[k], h[k]) }

  /** f[i] + f[i + n] c + f[i + 2n] c^2 + ... with t terms. */
  function Evaluated(f: Poly, i: nat, n: nat, c: int, t: nat): int
    requires i < n && n * t <= 256
  {
    if t == 0 then 0
    else
      TermInside(i, n, t);
      Evaluated(f, i, n, c, t - 1) + f[i + n * (t - 1)] * Power(c, t - 1)
  }

  lemma TermInside(i: nat, n: nat, t: nat)
    requires i < n && 0 < t && n * t <= 256
    ensures n * (t - 1) <= n * t <= 256 && i + n * (t - 1) < 256
  {
    assert n * t == n * (t - 1) + n;
  }

  /** Coefficient k of f modulo X^2 - c: X^(2j + k) is c^j X^k. */
  function Remainder(f: Poly, c: int, k: nat): int
    requires k < 2
  {
    Evaluated(f, k, 2, c, 128)
  }

  /** The constant of the i-th of the 128 moduli. */
  function Modulus(i: nat): int { Power(ZETA, 2 * BitRev7(i) + 1) }

  // ---------------------------------------------------------------- powers

  lemma {:induction false} PowerAdds(x: int, a: nat, b: nat)
    ensures Power(x, a + b) == Power(x, a) * Power(x, b)
  {
    if a > 0 {
      PowerAdds(x, a - 1, b);
      Regroup(x, Power(x, a - 1), Power(x, b));
    }
  }

  lemma Regroup(x: int, y: int, z: int)
    ensures x * (y * z) == (x * y) * z
  {
  }

  lemma {:induction false} PowerCong(x: int, y: int, n: nat)
    requires Cong(x, y)
    ensures Cong(Power(x, n), Power(y, n))
  {
    hide Cong;
    if n == 0 { CongWitness(1, 1, 0); } else {
      PowerCong(x, y, n - 1);
      CongMul(x, y, Power(x, n - 1), Power(y, n - 1));
    }
  }

  lemma {:induction false} SquarePower(r: int, n: nat)
    ensures Power(r, 2 * n) == Power(r * r, n)
  {
    if n > 0 {
      SquarePower(r, n - 1);
      assert Power(r, 2 * n) == r * Power(r, 2 * n - 1) && Power(r, 2 * n - 1) == r * Power(r, 2 * n - 2);
      Regroup(r, r, Power(r, 2 * n - 2));
    }
  }

  /** The repeated squares of 17. */
  lemma Squarings()
    ensures Cong(Power(17, 1), 17) && Cong(Power(17, 2), 289) && Cong(Power(17, 4), 296) && Cong(Power(17, 8), 1062)
    ensures Cong(Power(17, 16), 2642) && Cong(Power(17, 32), 2580) && Cong(Power(17, 64), 1729) && Cong(Power(17, 128), 3328)
  {
    assert Power(17, 1) == 17 * Power(17, 0);
    CongWitness(17, 17, 0);
    SquareStep(1, 17, 289);
    SquareStep(2, 289, 296);
    SquareStep(4, 296, 1062);
    SquareStep(8, 1062, 2642);
    SquareStep(16, 2642, 2580);
    SquareStep(32, 2580, 1729);
    SquareStep(64, 1729, 3328);
  }

  /** 17 has order 256: its 128th power is -1. */
  lemma HalfTurn()
    ensures Cong(Power(ZETA, 128), -1)
  {
    hide Power;
    Squarings();
    CongWitness(3328, -1, 1);
    CongTrans(Power(17, 128), 3328, -1);
  }

  lemma SquareStep(n: nat, x: int, y: int)
    requires Cong(Power(17, n), x) && Cong(x * x, y)
    ensures Cong(Power(17, 2 * n), y)
  {
    PowerAdds(17, n, n);
    CongMul(Power(17, n), x, Power(17, n), x);
    CongTrans(Power(17, n) * Power(17, n), x * x, y);
  }

  // ---------------------------------------------------------------- residues layer by layer

  /** The last term of a sum, and the last two of a sum twice as long. */
  lemma LastTerm(f: Poly, i: nat, n: nat, c: int, t: nat)
    requires i < n && 0 < t && n * t <= 256
    ensures n * (t - 1) <= 256 && i + n * (t - 1) < 256
    ensures Evaluated(f, i, n, c, t) == Evaluated(f, i, n, c, t - 1) + f[i + n * (t - 1)] * Power(c, t - 1)
  {
    TermInside(i, n, t);
  }

  lemma LastPair(f: Poly, i: nat, m: nat, r: int, u: nat, a: nat)
    requires i < m && a == (2 * m) * u && a + 2 * m <= 256
    ensures m * (2 * u) == a && m * (2 * u + 2) <= 256
    ensures Evaluated(f, i, m, r, 2 * u + 2)
         == Evaluated(f, i, m, r, 2 * u) + f[i + a] * Power(r, 2 * u) + f[i + a + m] * (r * Power(r, 2 * u))
  {
    assert m * (2 * u) == a && m * (2 * u + 1) == a + m && m * (2 * u + 2) == a + m + m;
    LastTerm(f, i, m, r, 2 * u + 2);
    LastTerm(f, i, m, r, 2 * u + 1);
    assert Power(r, 2 * u + 1) == r * Power(r, 2 * u);
  }

  /** One splitting step on sums: even and odd powers of a root of c. */
  lemma {:induction false} Halves(f: Poly, i: nat, m: nat, r: int, c: int, t: nat)
    requires i < m && (2 * m) * t <= 256 && Cong(r * r, c)
    ensures m * (2 * t) <= 256
    ensures Cong(Evaluated(f, i, 2 * m, c, t) + r * Evaluated(f, m + i, 2 * m, c, t), Evaluated(f, i, m, r, 2 * t))
    decreases t, 1
  {
    hide Cong, Evaluated, Power;
    assert m * (2 * t) == (2 * m) * t;
    if t == 0 { NoTerms(f, i, m, r, c); } else { HalvesStep(f, i, m, r, c, t - 1); }
  }

  lemma NoTerms(f: Poly, i: nat, m: nat, r: int, c: int)
    requires i < m
    ensures Cong(Evaluated(f, i, 2 * m, c, 0) + r * Evaluated(f, m + i, 2 * m, c, 0), Evaluated(f, i, m, r, 0))
  {
    CongWitness(0, 0, 0);
  }

  lemma {:induction false} HalvesStep(f: Poly, i: nat, m: nat, r: int, c: int, u: nat)
    requires i < m && (2 * m) * (u + 1) <= 256 && Cong(r * r, c)
    ensures m * (2 * u + 2) <= 256
    ensures Cong(Evaluated(f, i, 2 * m, c, u + 1) + r * Evaluated(f, m + i, 2 * m, c, u + 1), Evaluated(f, i, m, r, 2 * u + 2))
    decreases u + 1, 0
  {
    hide Cong, Evaluated, Power;
    var a := (2 * m) * u;
    assert (2 * m) * (u + 1) == a + 2 * m;
    LastTerm(f, i, 2 * m, c, u + 1);
    LastTerm(f, m + i, 2 * m, c, u + 1);
    LastPair(f, i, m, r, u, a);
    Halves(f, i, m, r, c, u);
    SquarePower(r, u);
    PowerCong(r * r, c, u);
    LastTerms(Evaluated(f, i, 2 * m, c, u), Evaluated(f, m + i, 2 * m, c, u), Evaluated(f, i, m, r, 2 * u), f[i + a], f[i + a + m], r,
              Power(c, u), Power(r, 2 * u));
  }

  lemma LastTerms(a: int, b: int, e: int, x: int, y: int, r: int, p: int, q: int)
    requires Cong(a + r * b, e) && Cong(q, p)
    ensures Cong((a + x * p) + r * (b + y * p), (e + x * q) + y * (r * q))
  {
    hide Cong;
    CongWitness(x, x, 0);
    CongWitness(r * y, r * y, 0);
    CongFlip(q, p);
    CongMul(x, x, p, q);
    CongMul(r * y, r * y, p, q);
    CongAdd(a + r * b, e, x * p, x * q);
    CongAdd((a + r * b) + x * p, e + x * q, (r * y) * p, (r * y) * q);
    Spread(r, b, y, p);
    Swap(r, y, q);
  }

  lemma CongFlip(a: int, b: int)
    requires Cong(a, b)
    ensures Cong(b, a)
  {
  }

  lemma Spread(r: int, b: int, y: int, p: int)
    ensures r * (b + y * p) == r * b + (r * y) * p
  {
    Regroup(r, y, p);
  }

  lemma Swap(r: int, y: int, q: int)
    ensures (r * y) * q == y * (r * q)
  {
    Regroup(y, r, q);
  }

  /** After layer l, block b holds f modulo X^n minus the constant of its node. */
  ghost predicate ResidueAt(g: Roots, f: Poly, l: nat, b: nat, i: nat)
    requires l <= 7 && b < Blocks(l) && i < Width(l)
  {
    Terms(l);
    Cong(Forward(g, f, l)[Base(l, b) + i], Evaluated(f, i, Width(l), NodeConst(g, Blocks(l) + b), Blocks(l)))
  }

  lemma Terms(l: nat)
    requires l <= 7
    ensures Width(l) * Blocks(l) == 256 && Blocks(l) <= 128
  {
  }

  lemma {:induction false} LayerResidue(g: Roots, f: Poly, l: nat, b: nat, i: nat)
    requires l <= 7 && b < Blocks(l) && i < Width(l) && RootsSplit(g)
    ensures ResidueAt(g, f, l, b, i)
  {
    hide Span, Blocks, Base, BlockOf, Within, Split, NodeConst, Cong, ResidueAt;
    if l == 0 {
      assert b == 0 by { OneBlock(); }
      WholeResidue(g, f, i);
    } else {
      ParentBlock(l, b);
      ChildBlocks(l, b / 2);
      LayerResidue(g, f, l - 1, b / 2, i);
      LayerResidue(g, f, l - 1, b / 2, Span(l) + i);
      SplitResidue(g, f, l, b, i);
    }
  }

  lemma OneBlock()
    ensures Blocks(0) == 1
  {
  }

  lemma SplitResidue(g: Roots, f: Poly, l: nat, b: nat, i: nat)
    requires 1 <= l <= 7 && b < Blocks(l) && i < Span(l) && RootsSplit(g)
    requires b / 2 < Blocks(l - 1) && Span(l) + i < Width(l - 1)
    requires ResidueAt(g, f, l - 1, b / 2, i) && ResidueAt(g, f, l - 1, b / 2, Span(l) + i)
    ensures ResidueAt(g, f, l, b, i)
  {
    hide Span, Blocks, Base, BlockOf, Within, Split, NodeConst, Cong, RootsSplit;
    var p := b / 2;
    ParentBlock(l, b);
    ChildBlocks(l, p);
    ChildConst(g, l, p);
    var m, o, k := Span(l), Base(l - 1, p), Blocks(l - 1) + p;
    SplitAt(g, Forward(g, f, l - 1), l, p, i);
    RootSquares(g, k);
    var r, x, y := if b == 2 * p then g[k] else -g[k], Forward(g, f, l - 1)[o + i], Forward(g, f, l - 1)[o + m + i];
    NegTimes(g[k], -g[k], y);
    Terms(l);
    Terms(l - 1);
    ChildResidue(f, x, y, i, m, r, NodeConst(g, k), Blocks(l - 1));
    assert Forward(g, f, l)[Base(l, b) + i] == x + r * y;
  }

  lemma WholeResidue(g: Roots, f: Poly, i: nat)
    requires i < 256
    ensures ResidueAt(g, f, 0, 0, i)
  {
    TermInside(i, 256, 1);
    assert Evaluated(f, i, 256, -1, 0) == 0;
    assert Power(-1, 0) == 1;
    CongWitness(f[i], f[i], 0);
  }

  /** Splitting modulo X^2m - c at a root r of c. */
  lemma ChildResidue(f: Poly, x: int, y: int, i: nat, m: nat, r: int, c: int, t: nat)
    requires i < m && (2 * m) * t <= 256 && Cong(r * r, c)
    requires Cong(x, Evaluated(f, i, 2 * m, c, t)) && Cong(y, Evaluated(f, m + i, 2 * m, c, t))
    ensures m * (2 * t) <= 256 && Cong(x + r * y, Evaluated(f, i, m, r, 2 * t))
  {
    hide Evaluated, Cong;
    Halves(f, i, m, r, c, t);
    var a, b := Evaluated(f, i, 2 * m, c, t), Evaluated(f, m + i, 2 * m, c, t);
    CongWitness(r, r, 0);
    CongMul(r, r, y, b);
    CongAdd(x, a, r * y, r * b);
    CongTrans(x + r * y, a + r * b, Evaluated(f, i, m, r, 2 * t));
  }

  lemma ParentBlock(l: nat, b: nat)
    requires 1 <= l <= 7 && b < Blocks(l)
    ensures b / 2 < Blocks(l - 1) && (b == 2 * (b / 2) || b == 2 * (b / 2) + 1) && 1 <= Blocks(l - 1) + b / 2 < 128
  {
  }

  lemma RootSquares(g: Roots, k: nat)
    requires RootsSplit(g) && 1 <= k < 128
    ensures Cong(g[k] * g[k], NodeConst(g, k))
  {
  }

  lemma {:induction false} EvaluatedCong(f: Poly, i: nat, n: nat, c: int, d: int, t: nat)
    requires i < n && n * t <= 256 && Cong(c, d)
    ensures Cong(Evaluated(f, i, n, c, t), Evaluated(f, i, n, d, t))
  {
    hide Cong;
    if t == 0 { CongWitness(0, 0, 0); } else {
      TermInside(i, n, t);
      EvaluatedCong(f, i, n, c, d, t - 1);
      PowerCong(c, d, t - 1);
      var w := f[i + n * (t - 1)];
      CongWitness(w, w, 0);
      CongMul(w, w, Power(c, t - 1), Power(d, t - 1));
      CongAdd(Evaluated(f, i, n, c, t - 1), Evaluated(f, i, n, d, t - 1), w * Power(c, t - 1), w * Power(d, t - 1));
    }
  }

  // ---------------------------------------------------------------- the 128 moduli

  predicate IsPlace(p: nat) { p in {1, 2, 4, 8, 16, 32, 64} }

  lemma BitRevStep(k: nat, p: nat)
    requires p > 0
    ensures BitRev(k, p) == (if k % 2 == 0 then 0 else p) + BitRev(k / 2, p / 2)
  {
  }

  /** A top bit adds its own place. */
  lemma {:induction false} TopPlace(j: nat, t: nat, u: nat, p: nat)
    requires j < t && p == t * u && IsPlace(t) && IsPlace(p)
    ensures BitRev(j + t, p) == BitRev(j, p) + u
    decreases t
  {
    hide BitRev;
    BitRevStep(j + t, p);
    BitRevStep(j, p);
    if t == 1 {
      NoBits(p / 2);
    } else {
      var h := t / 2;
      assert t == 2 * h && IsPlace(h);
      assert p == 2 * (h * u);
      TopPlace(j / 2, h, u, p / 2);
    }
  }

  lemma {:induction false} NoBits(p: nat)
    ensures BitRev(0, p) == 0
    decreases p
  {
    if p > 0 { NoBits(p / 2); }
  }

  /** One place more doubles the reversal of a number that needs no more places. */
  lemma {:induction false} DoubledPlaces(j: nat, p: nat)
    requires IsPlace(p) && p < 64 && j < 2 * p
    ensures BitRev(j, 2 * p) == 2 * BitRev(j, p)
    decreases p
  {
    hide BitRev;
    BitRevStep(j, 2 * p);
    BitRevStep(j, p);
    if p == 1 {
      BitRevStep(j / 2, 1);
    } else {
      assert p == 2 * (p / 2);
      DoubledPlaces(j / 2, p / 2);
    }
  }

  lemma LeafBits(i: nat)
    requires i < 128
    ensures var e := BitRev7(64 + i / 2);
      2 * BitRev7(i) + 1 == if i % 2 == 0 then e else 128 + e
  {
    var j := i / 2;
    TopPlace(j, 64, 1, 64);
    DoubledPlaces(j, 32);
    BitRevStep(i, 64);
    hide BitRev;
  }

  /** The constants of the last layer are the standard's, in the standard's order. */
  lemma LeafModulus(g: Roots, i: nat)
    requires i < 128 && CongRoots(g, StandardRoots())
    ensures Cong(NodeConst(g, 128 + i), Modulus(i))
  {
    hide BitRev7, Power, Cong;
    var k := 64 + i / 2;
    LeafBits(i);
    var w := Power(ZETA, BitRev7(k));
    assert Cong(g[k], StandardRoots()[k]) && StandardRoots()[k] == w;
    if i % 2 == 1 {
      HalfTurn();
      PowerAdds(ZETA, 128, BitRev7(k));
      CongMul(Power(ZETA, 128), -1, w, w) by { CongWitness(w, w, 0); }
      Negated(g[k], w, Modulus(i));
    }
  }

  lemma Negated(a: int, w: int, m: int)
    requires Cong(a, w) && Cong(m, -1 * w)
    ensures Cong(-a, m)
  {
  }

  /** Words 2i and 2i + 1 of the transform are f modulo X^2 - zeta^(2 BitRev7(i) + 1). */
  lemma NttIsStandard(g: Roots, f: Poly, i: nat, k: nat)
    requires i < 128 && k < 2 && RootsSplit(g) && CongRoots(g, StandardRoots())
    ensures Cong(Ntt(g, f)[2 * i + k], Remainder(f, Modulus(i), k))
  {
    hide Forward, Evaluated, Modulus, Cong, RootsSplit, CongRoots, NodeConst;
    LayerResidue(g, f, 7, i, k);
    LeafModulus(g, i);
    EvaluatedCong(f, k, 2, NodeConst(g, 128 + i), Modulus(i), 128);
    CongTrans(Ntt(g, f)[2 * i + k], Evaluated(f, k, 2, NodeConst(g, 128 + i), 128), Remainder(f, Modulus(i), k));
  }

  // ---------------------------------------------------------------- only residues of the roots matter

  lemma NodeCong(g: Roots, h: Roots, k: nat)
    requires 1 <= k < 256 && CongRoots(g, h)
    ensures Cong(NodeConst(g, k), NodeConst(h, k))
  {
    hide Cong;
    CongWitness(-1, -1, 0);
    if k > 1 {
      assert Cong(g[k / 2], h[k / 2]);
      CongNegated(g[k / 2], h[k / 2]);
    }
  }

  lemma CongNegated(a: int, b: int)
    requires Cong(a, b)
    ensures Cong(-a, -b)
  {
  }

  lemma ScaledTerm(r: int, s: int, a: int, b: int, x: int, y: int)
    requires Cong(r, s) && Cong(a, x) && Cong(b, y)
    ensures Cong(a + r * b, x + s * y) && Cong(a - r * b, x - s * y)
  {
    CongMul(r, s, b, y);
    CongAdd(a, x, r * b, s * y);
    CongSub(a, x, r * b, s * y);
  }

  lemma SplitCoeffRoots(g: Roots, h: Roots, u: Poly, v: Poly, l: nat, a: nat)
    requires 1 <= l <= 7 && a < 256 && CongRoots(g, h) && CongPoly(u, v)
    ensures Cong(SplitCoeff(g, u, l, a), SplitCoeff(h, v, l, a))
  {
    hide Span, Blocks, Base, BlockOf, Within, Cong;
    var b, m := BlockOf(l - 1, a), Span(l);
    ChildBlocks(l, b);
    var lo := if Within(l - 1, a) < m then a else a - m;
    var k := Blocks(l - 1) + b;
    assert Cong(g[k], h[k]) && Cong(u[lo], v[lo]) && Cong(u[lo + m], v[lo + m]);
    ScaledTerm(g[k], h[k], u[lo], u[lo + m], v[lo], v[lo + m]);
  }

  lemma {:induction false} ForwardRoots(g: Roots, h: Roots, x: Poly, y: Poly, l: nat)
    requires l <= 7 && CongRoots(g, h) && CongPoly(x, y)
    ensures CongPoly(Forward(g, x, l), Forward(h, y, l))
  {
    hide SplitCoeff, Cong, CongRoots;
    if l > 0 {
      ForwardRoots(g, h, x, y, l - 1);
      var u, v := Forward(g, x, l - 1), Forward(h, y, l - 1);
      forall a: nat | a < 256 ensures Cong(Split(g, u, l)[a], Split(h, v, l)[a]) { SplitCoeffRoots(g, h, u, v, l, a); }
    }
  }

  lemma MulNttRoots(g: Roots, h: Roots, x: Poly, x': Poly, y: Poly, y': Poly)
    requires CongRoots(g, h) && CongPoly(x, x') && CongPoly(y, y')
    ensures CongPoly(MulNtt(g, x, y), MulNtt(h, x', y'))
  {
    hide Cong, NodeConst, CongRoots;
    forall a: nat | a < 256 ensures Cong(MulNtt(g, x, y)[a], MulNtt(h, x', y')[a]) {
      var p := a - a % 2;
      NodeCong(g, h, 128 + a / 2);
      assert Cong(x[p], x'[p]) && Cong(x[p + 1], x'[p + 1]) && Cong(y[p], y'[p]) && Cong(y[p + 1], y'[p + 1]);
      CongMul(x[p], x'[p], y[p], y'[p]);
      CongMul(x[p + 1], x'[p + 1], y[p + 1], y'[p + 1]);
      CongMul(x[p], x'[p], y[p + 1], y'[p + 1]);
      CongMul(x[p + 1], x'[p + 1], y[p], y'[p]);
      CongAdd(x[p] * y[p + 1], x'[p] * y'[p + 1], x[p + 1] * y[p], x'[p + 1] * y'[p]);
      ScaledTerm(NodeConst(g, 128 + a / 2), NodeConst(h, 128 + a / 2), x[p] * y[p], x[p + 1] * y[p + 1], x'[p] * y'[p], x'[p + 1] * y'[p + 1]);
    }
  }

  lemma MergeCoeffRoots(g: Roots, h: Roots, u: Poly, v: Poly, l: nat, a: nat)
    requires 1 <= l <= 7 && a < 256 && CongRoots(g, h) && CongPoly(u, v)
    ensures Cong(MergeCoeff(g, u, l, a), MergeCoeff(h, v, l, a))
  {
    hide Span, Blocks, Base, BlockOf, Within, Cong;
    var b, m := BlockOf(l - 1, a), Span(l);
    ChildBlocks(l, b);
    BackRootInside(l, b);
    var lo := if Within(l - 1, a) < m then a else a - m;
    assert Cong(u[lo], v[lo]) && Cong(u[lo + m], v[lo + m]) && Cong(BackRoot(g, l, b), BackRoot(h, l, b));
    CongAdd(u[lo], v[lo], u[lo + m], v[lo + m]);
    CongSub(u[lo + m], v[lo + m], u[lo], v[lo]);
    CongMul(BackRoot(g, l, b), BackRoot(h, l, b), u[lo + m] - u[lo], v[lo + m] - v[lo]);
  }

  lemma {:induction false} BackwardRoots(g: Roots, h: Roots, x: Poly, y: Poly, l: nat)
    requires l <= 7 && CongRoots(g, h) && CongPoly(x, y)
    ensures CongPoly(Backward(g, x, l), Backward(h, y, l))
    decreases 7 - l
  {
    hide MergeCoeff, Cong, CongRoots;
    if l < 7 {
      var n := l + 1;
      BackwardRoots(g, h, x, y, n);
      var u, v := Backward(g, x, n), Backward(h, y, n);
      forall a: nat | a < 256 ensures Cong(Merge(g, u, n)[a], Merge(h, v, n)[a]) { MergeCoeffRoots(g, h, u, v, n, a); }
    }
  }

  lemma BackRootInside(l: nat, b: nat)
    requires 1 <= l <= 7 && b < Blocks(l - 1)
    ensures 1 <= Blocks(l) - 1 - b < 128
  {
  }

  lemma InvNttRoots(g: Roots, h: Roots, x: Poly, y: Poly)
    requires CongRoots(g, h) && CongPoly(x, y)
    ensures CongPoly(InvNtt(g, x), InvNtt(h, y))
  {
    hide Backward, Cong, CongRoots;
    BackwardRoots(g, h, x, y, 0);
    forall a: nat | a < 256 ensures Cong(InvNtt(g, x)[a], InvNtt(h, y)[a]) {
      assert Cong(Backward(g, x, 0)[a], Backward(h, y, 0)[a]);
      CongWitness(3303, 3303, 0);
      CongMul(3303, 3303, Backward(g, x, 0)[a], Backward(h, y, 0)[a]);
    }
  }

  lemma SplitRoots(g: Roots, h: Roots)
    requires CongRoots(g, h) && RootsSplit(g)
    ensures RootsSplit(h)
  {
    hide Cong, NodeConst;
    forall k | 1 <= k < 128 ensures Cong(h[k] * h[k], NodeConst(h, k)) {
      assert Cong(g[k], h[k]) && Cong(g[k] * g[k], NodeConst(g, k));
      CongMul(g[k], h[k], g[k], h[k]);
      NodeCong(g, h, k);
      CongFlip(g[k] * g[k], h[k] * h[k]);
      CongTrans(h[k] * h[k], g[k] * g[k], NodeConst(g, k));
      CongTrans(h[k] * h[k], NodeConst(g, k), NodeConst(h, k));
    }
  }

  lemma PairRoots(g: Roots, h: Roots)
    requires CongRoots(g, h) && RootsPair(g)
    ensures RootsPair(h)
  {
    hide Cong, Blocks;
    forall l: nat, b: nat | 1 <= l <= 7 && b < Blocks(l - 1) ensures PairAt(h, l, b) {
      var k := Blocks(l - 1) + b;
      ChildBlocks(l, b);
      BackRootInside(l, b);
      assert PairAt(g, l, b);
      assert Cong(g[k], h[k]) && Cong(BackRoot(g, l, b), BackRoot(h, l, b));
      CongMul(g[k], h[k], BackRoot(g, l, b), BackRoot(h, l, b));
      CongFlip(g[k] * BackRoot(g, l, b), h[k] * BackRoot(h, l, b));
      CongTrans(h[k] * BackRoot(h, l, b), g[k] * BackRoot(g, l, b), -1);
    }
  }
}
