/** The ring behind the kernel: Z[X]/(X^256 + 1), its tree of quotients and multiplication.

  Layer l of the transform holds 2^l blocks of 256/2^l coefficients.  Block b is the
  image of the input modulo X^n - c, where c is the constant of tree node 2^l + b. */
module Ring {
  import opened ModQ

  type Poly = f: seq<int> | |f| == 256 witness seq(256, _ => 0)

  /** Root constants, one for each inner node 1..127 of the tree. */
  type Roots = g: seq<int> | |g| == 128 witness seq(128, _ => 0)

  /** The modulus constant of a node: X^256 + 1 at node 1, X^n -+ root below. */
  function NodeConst(g: Roots, k: nat): int
    requires 1 <= k < 256
  {
    if k == 1 then -1 else if k % 2 == 0 then g[k / 2] else -g[k / 2]
  }

  /** Every inner node splits: its root squares to its modulus constant. */
  ghost predicate RootsSplit(g: Roots) {
    forall k :: 1 <= k < 128 ==> Cong(g[k] * g[k], NodeConst(g, k))
  }

  // ---------------------------------------------------------------- products of windows

  /** Term i of coefficient k of the product modulo X^n - c, of two n-coefficient windows. */
  function ConvTerm(f: Poly, g: Poly, base: nat, n: nat, c: int, k: nat, i: int): int
    requires base + n <= 256 && k < n
  {
    if !(0 <= i < n) then 0
    else if i <= k then f[base + i] * g[base + k - i]
    else c * (f[base + i] * g[base + n + k - i])
  }

  function ConvUpTo(f: Poly, g: Poly, base: nat, n: nat, c: int, k: nat, terms: nat): int
    requires base + n <= 256 && k < n
  {
    if terms == 0 then 0
    else ConvUpTo(f, g, base, n, c, k, terms - 1) + ConvTerm(f, g, base, n, c, k, terms - 1)
  }

  /** Coefficient k of the product modulo X^n - c of the windows at `base`. */
  function Conv(f: Poly, g: Poly, base: nat, n: nat, c: int, k: nat): int
    requires base + n <= 256 && k < n
  {
    ConvUpTo(f, g, base, n, c, k, n)
  }

  /** Multiplication in Z[X]/(X^256 + 1). */
  function RingMul(f: Poly, g: Poly): (h: Poly) {
    seq(256, k requires 0 <= k < 256 => Conv(f, g, 0, 256, -1, k))
  }

  // ---------------------------------------------------------------- the layered transform

  /** Half-block length and first tree node of layer l = 1..7. */
  function Span(l: nat): (m: nat)
    requires 1 <= l <= 7
    ensures 2 <= m <= 128
  {
    if l == 1 then 128 else if l == 2 then 64 else if l == 3 then 32 else if l == 4 then 16
    else if l == 5 then 8 else if l == 6 then 4 else 2
  }

  function Blocks(l: nat): (m: nat)
    requires 0 <= l <= 7
    ensures 1 <= m <= 128 && (l < 7 ==> m <= 64)
  {
    if l == 0 then 1 else if l == 1 then 2 else if l == 2 then 4 else if l == 3 then 8 else if l == 4 then 16
    else if l == 5 then 32 else if l == 6 then 64 else 128
  }

  /** Coefficients per block after layer l. */
  function Width(l: nat): (n: nat)
    requires l <= 7
  {
    if l == 0 then 256 else Span(l)
  }

  /** First address of block b of layer l. */
  function Base(l: nat, b: nat): (o: nat)
    requires l <= 7 && b < Blocks(l)
    ensures o + Width(l) <= 256
  {
    if l == 0 then 0 else if l == 1 then 128 * b else if l == 2 then 64 * b else if l == 3 then 32 * b
    else if l == 4 then 16 * b else if l == 5 then 8 * b else if l == 6 then 4 * b else 2 * b
  }

  /** Block of layer l that holds address a, and the place of a inside it. */
  function BlockOf(l: nat, a: nat): (b: nat)
    requires l <= 7 && a < 256
    ensures b < Blocks(l)
  {
    if l == 0 then 0 else if l == 1 then a / 128 else if l == 2 then a / 64 else if l == 3 then a / 32
    else if l == 4 then a / 16 else if l == 5 then a / 8 else if l == 6 then a / 4 else a / 2
  }

  function Within(l: nat, a: nat): (i: nat)
    requires l <= 7 && a < 256
    ensures i < Width(l)
    ensures a == Base(l, BlockOf(l, a)) + i
  {
    if l == 0 then a else if l == 1 then a % 128 else if l == 2 then a % 64 else if l == 3 then a % 32
    else if l == 4 then a % 16 else if l == 5 then a % 8 else if l == 6 then a % 4 else a % 2
  }

  lemma AddressParts(l: nat, b: nat, i: nat)
    requires l <= 7 && b < Blocks(l) && i < Width(l)
    ensures BlockOf(l, Base(l, b) + i) == b && Within(l, Base(l, b) + i) == i
  {
    if l == 0 {} else if l == 1 {} else if l == 2 {} else if l == 3 {} else if l == 4 {} else if l == 5 {}
    else if l == 6 {} else {}
  }

  /** Block b of layer l - 1 is blocks 2b and 2b + 1 of layer l, end to end. */
  lemma ChildBlocks(l: nat, b: nat)
    requires 1 <= l <= 7 && b < Blocks(l - 1)
    ensures Width(l - 1) == 2 * Span(l) && Blocks(l) == 2 * Blocks(l - 1) && 2 * b + 1 < Blocks(l)
    ensures Base(l, 2 * b) == Base(l - 1, b)
    ensures Base(l, 2 * b + 1) == Base(l - 1, b) + Span(l)
  {
  }

  /** f mod (X^m - root) next to f mod (X^m + root), for every block of layer l - 1. */
  function Split(g: Roots, f: Poly, l: nat): (r: Poly)
    requires 1 <= l <= 7
  {
    seq(256, a requires 0 <= a < 256 => SplitCoeff(g, f, l, a))
  }

  function SplitCoeff(g: Roots, f: Poly, l: nat, a: nat): int
    requires 1 <= l <= 7 && a < 256
  {
    var m := Span(l);
    var root := g[Blocks(l - 1) + BlockOf(l - 1, a)];
    if Within(l - 1, a) < m then f[a] + root * f[a + m] else f[a - m] - root * f[a]
  }

  function Forward(g: Roots, f: Poly, l: nat): (r: Poly)
    requires l <= 7
  {
    if l == 0 then f else Split(g, Forward(g, f, l - 1), l)
  }

  /** The full forward transform: 128 residues of degree one. */
  function Ntt(g: Roots, f: Poly): Poly { Forward(g, f, 7) }

  lemma SplitAt(g: Roots, f: Poly, l: nat, b: nat, i: nat)
    requires 1 <= l <= 7 && b < Blocks(l - 1) && i < Span(l)
    ensures var m := Span(l); var o := Base(l - 1, b);
      && o + 2 * m <= 256
      && Split(g, f, l)[o + i] == f[o + i] + g[Blocks(l - 1) + b] * f[o + m + i]
      && Split(g, f, l)[o + m + i] == f[o + i] - g[Blocks(l - 1) + b] * f[o + m + i]
  {
    hide Span, Blocks, Base, BlockOf, Within;
    ChildBlocks(l, b);
    AddressParts(l - 1, b, i);
    AddressParts(l - 1, b, Span(l) + i);
  }

  // ---------------------------------------------------------------- splitting is multiplicative

  /** One pair of terms, for a modulus constant c congruent to the square of the root r. */
  lemma TermSplitLow(c: int, r: int, f0: int, f1: int, g0: int, g1: int)
    requires Cong(r * r, c)
    ensures Cong((f0 * g0 + c * (f1 * g1)) + r * (f0 * g1 + f1 * g0), (f0 + r * f1) * (g0 + r * g1))
  {
    var p := f1 * g1;
    assert (f0 + r * f1) * (g0 + r * g1) == f0 * g0 + r * (f0 * g1 + f1 * g0) + (r * r) * p;
    CongMul(c, r * r, p, p);
  }

  lemma TermSplitHigh(c: int, r: int, f0: int, f1: int, g0: int, g1: int)
    requires Cong(r * r, c)
    ensures Cong((c * (f0 * g1) + c * (f1 * g0)) + r * (f0 * g0 + c * (f1 * g1)),
                 r * ((f0 + r * f1) * (g0 + r * g1)))
  {
    var s, p, q := f0 * g1 + f1 * g0, f1 * g1, f0 * g0;
    Expand(c, r, f0, f1, g0, g1);
    CongMul(c, r * r, s, s);
    CongMul(c, r * r, p, p);
    hide Cong;
    CongWitness(q, q, 0);
    CongWitness(r, r, 0);
    CongAdd(q, q, c * p, (r * r) * p);
    CongMul(r, r, q + c * p, q + (r * r) * p);
    CongAdd(c * s, (r * r) * s, r * (q + c * p), r * (q + (r * r) * p));
  }

  lemma Expand(c: int, r: int, f0: int, f1: int, g0: int, g1: int)
    ensures c * (f0 * g1) + c * (f1 * g0) == c * (f0 * g1 + f1 * g0)
    ensures r * ((f0 + r * f1) * (g0 + r * g1)) == (r * r) * (f0 * g1 + f1 * g0) + r * (f0 * g0 + (r * r) * (f1 * g1))
  {
    var s, p, q := f0 * g1 + f1 * g0, f1 * g1, f0 * g0;
    Distribute(c, f0 * g1, f1 * g0);
    Binomials(f0, r * f1, g0, r * g1);
    Commute(f0, r, g1);
    Commute(g0, r, f1);
    Squares(r, f1, g1);
    Distribute(r, f0 * g1, f1 * g0);
    Nested(r, q + (r * r) * p, s);
  }

  lemma Binomials(a: int, u: int, b: int, v: int)
    ensures (a + u) * (b + v) == a * b + a * v + b * u + u * v
  {
  }

  lemma Commute(a: int, r: int, b: int)
    ensures a * (r * b) == r * (a * b)
  {
  }

  lemma Squares(r: int, x: int, y: int)
    ensures (r * x) * (r * y) == (r * r) * (x * y)
  {
    assert (r * x) * (r * y) == r * (x * (r * y));
    Commute(x, r, y);
  }

  lemma Distribute(r: int, x: int, y: int)
    ensures r * x + r * y == r * (x + y)
  {
  }

  lemma Nested(r: int, x: int, s: int)
    ensures r * (x + r * s) == (r * r) * s + r * x
  {
  }

  /** The modulus constants of two layers agree at a node and its two children. */
  lemma ChildConst(g: Roots, l: nat, b: nat)
    requires 1 <= l <= 7 && b < Blocks(l - 1)
    ensures var k := Blocks(l - 1) + b;
      && NodeConst(g, Blocks(l) + 2 * b) == g[k]
      && NodeConst(g, Blocks(l) + 2 * b + 1) == -g[k]
  {
    ChildBlocks(l, b);
  }

  /** h is, block by block of layer l, congruent to the product of f and g. */
  ghost predicate Products(r: Roots, f: Poly, g: Poly, h: Poly, l: nat)
    requires l <= 7
  {
    forall b: nat, k: nat :: b < Blocks(l) && k < Width(l) ==> ProductAt(r, f, g, h, l, b, k)
  }

  ghost predicate ProductAt(r: Roots, f: Poly, g: Poly, h: Poly, l: nat, b: nat, k: nat)
    requires l <= 7 && b < Blocks(l) && k < Width(l)
  {
    var o := Base(l, b);
    Cong(h[o + k], Conv(f, g, o, Width(l), NodeConst(r, Blocks(l) + b), k))
  }

  /** The window of f' at o' is the window of f at o, reduced modulo X^m - r. */
  ghost predicate Folded(f: Poly, f': Poly, o: nat, o': nat, m: nat, r: int)
    requires o + 2 * m <= 256 && o' + m <= 256
  {
    forall i: nat :: i < m ==> FoldedAt(f, f', o, o', m, r, i)
  }

  ghost predicate FoldedAt(f: Poly, f': Poly, o: nat, o': nat, m: nat, r: int, i: nat)
    requires o + 2 * m <= 256 && o' + m <= 256 && i < m
  {
    f'[o' + i] == f[o + i] + r * f[o + m + i]
  }

  /** The four terms that meet in one term of the folded product. */
  lemma FourTerms(f: Poly, g: Poly, o: nat, m: nat, c: int, k: nat, i: nat, j: nat)
    requires 0 < m && o + 2 * m <= 256 && k < m && i < m && j == if i <= k then k - i else m + k - i
    ensures i <= k ==>
      && ConvTerm(f, g, o, 2 * m, c, k, i) == f[o + i] * g[o + j]
      && ConvTerm(f, g, o, 2 * m, c, k, m + i) == c * (f[o + m + i] * g[o + m + j])
      && ConvTerm(f, g, o, 2 * m, c, m + k, i) == f[o + i] * g[o + m + j]
      && ConvTerm(f, g, o, 2 * m, c, m + k, m + i) == f[o + m + i] * g[o + j]
    ensures i > k ==>
      && ConvTerm(f, g, o, 2 * m, c, k, i) == c * (f[o + i] * g[o + m + j])
      && ConvTerm(f, g, o, 2 * m, c, k, m + i) == c * (f[o + m + i] * g[o + j])
      && ConvTerm(f, g, o, 2 * m, c, m + k, i) == f[o + i] * g[o + j]
      && ConvTerm(f, g, o, 2 * m, c, m + k, m + i) == c * (f[o + m + i] * g[o + m + j])
  {
  }

  lemma WindowTerm(f: Poly, g: Poly, f': Poly, g': Poly, o: nat, o': nat, m: nat, c: int, r: int, k: nat, i: nat)
    requires 0 < m && o + 2 * m <= 256 && o' + m <= 256 && k < m && i < m
    requires Cong(r * r, c) && Folded(f, f', o, o', m, r) && Folded(g, g', o, o', m, r)
    ensures Cong(ConvTerm(f, g, o, 2 * m, c, k, i) + ConvTerm(f, g, o, 2 * m, c, k, m + i)
                 + r * (ConvTerm(f, g, o, 2 * m, c, m + k, i) + ConvTerm(f, g, o, 2 * m, c, m + k, m + i)),
                 ConvTerm(f', g', o', m, r, k, i))
  {
    hide Cong;
    var j := if i <= k then k - i else m + k - i;
    var f0, f1, g0, g1 := f[o + i], f[o + m + i], g[o + j], g[o + m + j];
    assert FoldedAt(f, f', o, o', m, r, i) && FoldedAt(g, g', o, o', m, r, j);
    FourTerms(f, g, o, m, c, k, i, j);
    TermSplitLow(c, r, f0, f1, g0, g1);
    TermSplitHigh(c, r, f0, f1, g0, g1);
  }

  /** The first t terms of a product of 2m-windows together with their partners m further on. */
  function Paired(f: Poly, g: Poly, o: nat, m: nat, c: int, k: nat, t: nat): int
    requires o + 2 * m <= 256 && k < 2 * m
  {
    ConvUpTo(f, g, o, 2 * m, c, k, t) + (ConvUpTo(f, g, o, 2 * m, c, k, m + t) - ConvUpTo(f, g, o, 2 * m, c, k, m))
  }

  lemma PairedStep(f: Poly, g: Poly, o: nat, m: nat, c: int, k: nat, t: nat)
    requires o + 2 * m <= 256 && k < 2 * m && t < m
    ensures Paired(f, g, o, m, c, k, t + 1)
         == Paired(f, g, o, m, c, k, t) + (ConvTerm(f, g, o, 2 * m, c, k, t) + ConvTerm(f, g, o, 2 * m, c, k, m + t))
  {
    assert m + (t + 1) - 1 == m + t;
  }

  lemma {:induction false} WindowSum(f: Poly, g: Poly, f': Poly, g': Poly, o: nat, o': nat, m: nat, c: int, r: int, k: nat, t: nat)
    requires 0 < m && o + 2 * m <= 256 && o' + m <= 256 && k < m && t <= m
    requires Cong(r * r, c) && Folded(f, f', o, o', m, r) && Folded(g, g', o, o', m, r)
    ensures Cong(Paired(f, g, o, m, c, k, t) + r * Paired(f, g, o, m, c, m + k, t),
                 ConvUpTo(f', g', o', m, r, k, t))
  {
    hide Cong, ConvTerm, Folded, Paired;
    if t == 0 {
      WindowNone(f, g, o, m, c, r, k);
    } else {
      WindowSum(f, g, f', g', o, o', m, c, r, k, t - 1);
      WindowTerm(f, g, f', g', o, o', m, c, r, k, t - 1);
      PairedStep(f, g, o, m, c, k, t - 1);
      PairedStep(f, g, o, m, c, m + k, t - 1);
      WeightedSum(Paired(f, g, o, m, c, k, t - 1), Paired(f, g, o, m, c, m + k, t - 1),
                  ConvTerm(f, g, o, 2 * m, c, k, t - 1) + ConvTerm(f, g, o, 2 * m, c, k, m + (t - 1)),
                  ConvTerm(f, g, o, 2 * m, c, m + k, t - 1) + ConvTerm(f, g, o, 2 * m, c, m + k, m + (t - 1)),
                  r, ConvUpTo(f', g', o', m, r, k, t - 1), ConvTerm(f', g', o', m, r, k, t - 1));
    }
  }

  lemma WindowNone(f: Poly, g: Poly, o: nat, m: nat, c: int, r: int, k: nat)
    requires 0 < m && o + 2 * m <= 256 && k < m
    ensures Cong(Paired(f, g, o, m, c, k, 0) + r * Paired(f, g, o, m, c, m + k, 0), 0)
  {
    assert Paired(f, g, o, m, c, k, 0) == 0 && Paired(f, g, o, m, c, m + k, 0) == 0;
  }

  lemma WeightedSum(p: int, q: int, a: int, b: int, r: int, x: int, y: int)
    requires Cong(p + r * q, x) && Cong(a + r * b, y)
    ensures Cong((p + a) + r * (q + b), x + y)
  {
    assert r * (q + b) == r * q + r * b;
  }

  /** The residue of a product modulo X^m - r is the product of the residues. */
  lemma WindowSplit(f: Poly, g: Poly, f': Poly, g': Poly, o: nat, o': nat, m: nat, c: int, r: int, k: nat)
    requires 0 < m && o + 2 * m <= 256 && o' + m <= 256 && k < m
    requires Cong(r * r, c) && Folded(f, f', o, o', m, r) && Folded(g, g', o, o', m, r)
    ensures Cong(Conv(f, g, o, 2 * m, c, k) + r * Conv(f, g, o, 2 * m, c, m + k), Conv(f', g', o', m, r, k))
  {
    WindowSum(f, g, f', g', o, o', m, c, r, k, m);
  }

  // ---------------------------------------------------------------- the transform is multiplicative

  lemma SplitFoldsAt(r: Roots, f: Poly, l: nat, b: nat, m: nat, o: nat, root: int, neg: int, i: nat)
    requires 1 <= l <= 7 && b < Blocks(l - 1) && i < m
    requires m == Span(l) && o == Base(l - 1, b) && root == r[Blocks(l - 1) + b] && neg == -root
    ensures o + 2 * m <= 256
    ensures FoldedAt(f, Split(r, f, l), o, o, m, root, i)
    ensures FoldedAt(f, Split(r, f, l), o, o + m, m, neg, i)
  {
    hide Span, Blocks, Base, BlockOf, Within, Split;
    SplitAt(r, f, l, b, i);
    NegTimes(root, neg, f[o + m + i]);
  }

  lemma NegTimes(a: int, neg: int, b: int)
    requires neg == -a
    ensures neg * b == -(a * b) && neg * neg == a * a
  {
  }

  lemma CongChain(a: int, b: int, x: int, y: int, z: int)
    requires Cong(a, b) && Cong(x, y) && Cong(b + y, z)
    ensures Cong(a + x, z)
  {
  }

  lemma SplitFolds(r: Roots, f: Poly, l: nat, b: nat, m: nat, o: nat, root: int, neg: int)
    requires 1 <= l <= 7 && b < Blocks(l - 1)
    requires m == Span(l) && o == Base(l - 1, b) && root == r[Blocks(l - 1) + b] && neg == -root
    ensures o + 2 * m <= 256
    ensures Folded(f, Split(r, f, l), o, o, m, root)
    ensures Folded(f, Split(r, f, l), o, o + m, m, neg)
  {
    hide Span, Blocks, Base, BlockOf, Within, Split, FoldedAt;
    ChildBlocks(l, b);
    forall i: nat | i < m ensures FoldedAt(f, Split(r, f, l), o, o, m, root, i) {
      SplitFoldsAt(r, f, l, b, m, o, root, neg, i);
    }
    var o2 := o + m;
    forall i: nat | i < m ensures FoldedAt(f, Split(r, f, l), o, o2, m, neg, i) {
      SplitFoldsAt(r, f, l, b, m, o, root, neg, i);
    }
  }

  lemma ChildProduct(f: Poly, g: Poly, h: Poly, f': Poly, g': Poly, h': Poly, o: nat, o': nat, m: nat, c: int, root: int, k: nat)
    requires 0 < m && o + 2 * m <= 256 && o' + m <= 256 && k < m
    requires Cong(root * root, c) && Folded(f, f', o, o', m, root) && Folded(g, g', o, o', m, root)
    requires h'[o' + k] == h[o + k] + root * h[o + m + k]
    requires Cong(h[o + k], Conv(f, g, o, 2 * m, c, k)) && Cong(h[o + m + k], Conv(f, g, o, 2 * m, c, m + k))
    ensures Cong(h'[o' + k], Conv(f', g', o', m, root, k))
  {
    hide Conv, Folded;
    var lo, hi := Conv(f, g, o, 2 * m, c, k), Conv(f, g, o, 2 * m, c, m + k);
    CongMul(root, root, h[o + m + k], hi);
    WindowSplit(f, g, f', g', o, o', m, c, root, k);
    CongChain(h[o + k], lo, root * h[o + m + k], root * hi, Conv(f', g', o', m, root, k));
  }

  /** Splitting three blocks keeps the product relation between them, one coefficient at a time. */
  lemma ProductSplits(r: Roots, f: Poly, g: Poly, h: Poly, l: nat, b: nat, k: nat)
    requires 1 <= l <= 7 && b < Blocks(l - 1) && k < Span(l)
    requires RootsSplit(r) && Products(r, f, g, h, l - 1)
    ensures 2 * b + 1 < Blocks(l)
    ensures ProductAt(r, Split(r, f, l), Split(r, g, l), Split(r, h, l), l, 2 * b, k)
    ensures ProductAt(r, Split(r, f, l), Split(r, g, l), Split(r, h, l), l, 2 * b + 1, k)
  {
    hide Span, Blocks, Base, BlockOf, Within, Split, Conv, NodeConst, Folded;
    ChildBlocks(l, b);
    ChildConst(r, l, b);
    var m, o, c, root := Span(l), Base(l - 1, b), NodeConst(r, Blocks(l - 1) + b), r[Blocks(l - 1) + b];
    assert Cong(root * root, c);
    var neg := -root;
    SplitFolds(r, f, l, b, m, o, root, neg);
    SplitFolds(r, g, l, b, m, o, root, neg);
    SplitAt(r, h, l, b, k);
    assert ProductAt(r, f, g, h, l - 1, b, k) && ProductAt(r, f, g, h, l - 1, b, m + k);
    NegTimes(root, neg, h[o + m + k]);
    var f', g', h' := Split(r, f, l), Split(r, g, l), Split(r, h, l);
    ChildProduct(f, g, h, f', g', h', o, o, m, c, root, k);
    var o2 := o + m;
    ChildProduct(f, g, h, f', g', h', o, o2, m, c, neg, k);
  }

  lemma WholeProduct(r: Roots, f: Poly, g: Poly)
    ensures Products(r, f, g, RingMul(f, g), 0)
  {
  }

  lemma {:induction false} ForwardProducts(r: Roots, f: Poly, g: Poly, l: nat)
    requires l <= 7 && RootsSplit(r)
    ensures Products(r, Forward(r, f, l), Forward(r, g, l), Forward(r, RingMul(f, g), l), l)
  {
    hide Base, BlockOf, Within, Split, ProductAt;
    if l == 0 {
      WholeProduct(r, f, g);
    } else {
      ForwardProducts(r, f, g, l - 1);
      var f', g', h' := Forward(r, f, l - 1), Forward(r, g, l - 1), Forward(r, RingMul(f, g), l - 1);
      forall b: nat, k: nat | b < Blocks(l) && k < Width(l)
        ensures ProductAt(r, Forward(r, f, l), Forward(r, g, l), Forward(r, RingMul(f, g), l), l, b, k)
      {
        ChildBlocks(l, b / 2);
        ProductSplits(r, f', g', h', l, b / 2, k);
        assert b == 2 * (b / 2) || b == 2 * (b / 2) + 1;
      }
    }
  }

  /** The 128 products of degree-one residues modulo X^2 - c. */
  function MulNtt(r: Roots, f: Poly, g: Poly): Poly {
    seq(256, a requires 0 <= a < 256 =>
      var p := a - a % 2;
      var c := NodeConst(r, 128 + a / 2);
      if a % 2 == 0 then f[p] * g[p] + c * (f[p + 1] * g[p + 1]) else f[p] * g[p + 1] + f[p + 1] * g[p])
  }

  /** The transform turns multiplication in Z_q[X]/(X^256 + 1) into 128 small products. */
  lemma NttMultiplicative(r: Roots, f: Poly, g: Poly)
    requires RootsSplit(r)
    ensures forall a :: 0 <= a < 256 ==> Cong(Ntt(r, RingMul(f, g))[a], MulNtt(r, Ntt(r, f), Ntt(r, g))[a])
  {
    hide Forward, Conv, NodeConst;
    ForwardProducts(r, f, g, 7);
    var f', g' := Ntt(r, f), Ntt(r, g);
    forall a | 0 <= a < 256 ensures Cong(Ntt(r, RingMul(f, g))[a], MulNtt(r, f', g')[a]) {
      assert ProductAt(r, f', g', Ntt(r, RingMul(f, g)), 7, a / 2, a % 2);
      SmallConv(f', g', a - a % 2, NodeConst(r, 128 + a / 2), a % 2);
    }
  }

  lemma SmallConv(f: Poly, g: Poly, p: nat, c: int, k: nat)
    requires p + 2 <= 256 && k < 2
    ensures Conv(f, g, p, 2, c, k)
         == if k == 0 then f[p] * g[p] + c * (f[p + 1] * g[p + 1]) else f[p] * g[p + 1] + f[p + 1] * g[p]
  {
    assert ConvUpTo(f, g, p, 2, c, k, 0) == 0;
    assert ConvUpTo(f, g, p, 2, c, k, 1) == ConvTerm(f, g, p, 2, c, k, 0);
    assert ConvUpTo(f, g, p, 2, c, k, 2) == ConvTerm(f, g, p, 2, c, k, 0) + ConvTerm(f, g, p, 2, c, k, 1);
  }

  // ---------------------------------------------------------------- the inverse transform

  ghost predicate CongPoly(f: Poly, g: Poly) {
    forall a: nat :: a < 256 ==> Cong(f[a], g[a])
  }

  function Scaled(s: int, f: Poly): Poly {
    seq(256, a requires 0 <= a < 256 => s * f[a])
  }

  function Plus(f: Poly, g: Poly): Poly {
    seq(256, a requires 0 <= a < 256 => f[a] + g[a])
  }

  function Minus(f: Poly, g: Poly): Poly {
    seq(256, a requires 0 <= a < 256 => f[a] - g[a])
  }

  /** The constant block b of layer l uses on the way back: the roots in descending order. */
  function BackRoot(g: Roots, l: nat, b: nat): int
    requires 1 <= l <= 7 && b < Blocks(l - 1)
  {
    ChildBlocks(l, b);
    g[Blocks(l) - 1 - b]
  }

  /** Forward and backward constants of one block multiply to -1. */
  ghost predicate RootsPair(g: Roots) {
    forall l: nat, b: nat :: 1 <= l <= 7 && b < Blocks(l - 1) ==> PairAt(g, l, b)
  }

  ghost predicate PairAt(g: Roots, l: nat, b: nat)
    requires 1 <= l <= 7 && b < Blocks(l - 1)
  {
    Cong(g[Blocks(l - 1) + b] * BackRoot(g, l, b), -1)
  }

  function Merge(g: Roots, f: Poly, l: nat): (r: Poly)
    requires 1 <= l <= 7
  {
    seq(256, a requires 0 <= a < 256 => MergeCoeff(g, f, l, a))
  }

  function MergeCoeff(g: Roots, f: Poly, l: nat, a: nat): int
    requires 1 <= l <= 7 && a < 256
  {
    var m := Span(l);
    if Within(l - 1, a) < m then f[a] + f[a + m] else BackRoot(g, l, BlockOf(l - 1, a)) * (f[a] - f[a - m])
  }

  /** Layers 7 down to l + 1 of the inverse transform, unscaled. */
  function Backward(g: Roots, f: Poly, l: nat): (r: Poly)
    requires l <= 7
    decreases 7 - l
  {
    if l == 7 then f else Merge(g, Backward(g, f, l + 1), l + 1)
  }

  /** The inverse transform: 3303 is the inverse of 128 modulo Q. */
  function InvNtt(g: Roots, f: Poly): Poly { Scaled(3303, Backward(g, f, 0)) }

  lemma MergeAt(g: Roots, f: Poly, l: nat, b: nat, i: nat)
    requires 1 <= l <= 7 && b < Blocks(l - 1) && i < Span(l)
    ensures var m := Span(l); var o := Base(l - 1, b);
      && o + 2 * m <= 256
      && Merge(g, f, l)[o + i] == f[o + i] + f[o + m + i]
      && Merge(g, f, l)[o + m + i] == BackRoot(g, l, b) * (f[o + m + i] - f[o + i])
  {
    hide Span, Blocks, Base, BlockOf, Within;
    ChildBlocks(l, b);
    AddressParts(l - 1, b, i);
    AddressParts(l - 1, b, Span(l) + i);
  }

  /** One butterfly there and back doubles both coefficients. */
  lemma ButterflyReturns(root: int, back: int, a: int, b: int)
    requires Cong(root * back, -1)
    ensures Cong(back * ((a - root * b) - (a + root * b)), 2 * b)
  {
    assert back * ((a - root * b) - (a + root * b)) == (root * back) * (-2 * b);
    CongMul(root * back, -1, -2 * b, -2 * b);
  }

  lemma MergeSplitAt(g: Roots, f: Poly, l: nat, b: nat, i: nat)
    requires 1 <= l <= 7 && b < Blocks(l - 1) && i < Span(l) && RootsPair(g)
    ensures var m := Span(l); var o := Base(l - 1, b);
      && o + 2 * m <= 256
      && Cong(Merge(g, Split(g, f, l), l)[o + i], 2 * f[o + i])
      && Cong(Merge(g, Split(g, f, l), l)[o + m + i], 2 * f[o + m + i])
  {
    hide Span, Blocks, Base, BlockOf, Within, Split, Merge;
    ChildBlocks(l, b);
    SplitAt(g, f, l, b, i);
    MergeAt(g, Split(g, f, l), l, b, i);
    assert PairAt(g, l, b);
    ButterflyReturns(g[Blocks(l - 1) + b], BackRoot(g, l, b), f[Base(l - 1, b) + i], f[Base(l - 1, b) + Span(l) + i]);
  }

  lemma MergeSplit(g: Roots, f: Poly, l: nat)
    requires 1 <= l <= 7 && RootsPair(g)
    ensures CongPoly(Merge(g, Split(g, f, l), l), Scaled(2, f))
  {
    hide Span, Blocks, Base, BlockOf, Within, Split, Merge, RootsPair;
    forall a: nat | a < 256 ensures Cong(Merge(g, Split(g, f, l), l)[a], Scaled(2, f)[a]) {
      var b, w, m := BlockOf(l - 1, a), Within(l - 1, a), Span(l);
      ChildBlocks(l, b);
      MergeSplitAt(g, f, l, b, if w < m then w else w - m);
    }
  }

  lemma ScaledSum(a: int, b: int, s: int, x: int, y: int)
    requires Cong(a, s * x) && Cong(b, s * y)
    ensures Cong(a + b, s * (x + y))
  {
    assert s * (x + y) == s * x + s * y;
  }

  lemma ScaledDifference(w: int, a: int, b: int, s: int, x: int, y: int)
    requires Cong(a, s * x) && Cong(b, s * y)
    ensures Cong(w * (a - b), s * (w * (x - y)))
  {
    CongMul(w, w, a - b, s * x - s * y);
    assert s * x - s * y == s * (x - y);
    assert w * (s * (x - y)) == s * (w * (x - y));
  }

  /** Merging commutes with scaling, up to congruence. */
  lemma MergeScaled(g: Roots, x: Poly, s: int, y: Poly, l: nat)
    requires 1 <= l <= 7 && CongPoly(x, Scaled(s, y))
    ensures CongPoly(Merge(g, x, l), Scaled(s, Merge(g, y, l)))
  {
    hide Span, Blocks, Base, BlockOf, Within, Split, BackRoot;
    forall a: nat | a < 256 ensures Cong(Merge(g, x, l)[a], Scaled(s, Merge(g, y, l))[a]) {
      var b, w, m := BlockOf(l - 1, a), Within(l - 1, a), Span(l);
      ChildBlocks(l, b);
      if w < m {
        assert Cong(x[a], s * y[a]) && Cong(x[a + m], s * y[a + m]);
        ScaledSum(x[a], x[a + m], s, y[a], y[a + m]);
      } else {
        assert Cong(x[a], s * y[a]) && Cong(x[a - m], s * y[a - m]);
        ScaledDifference(BackRoot(g, l, b), x[a], x[a - m], s, y[a], y[a - m]);
      }
    }
  }

  lemma {:induction false} BackwardScaled(g: Roots, x: Poly, s: int, y: Poly, l: nat)
    requires l <= 7 && CongPoly(x, Scaled(s, y))
    ensures CongPoly(Backward(g, x, l), Scaled(s, Backward(g, y, l)))
    decreases 7 - l
  {
    hide Merge;
    if l < 7 {
      BackwardScaled(g, x, s, y, l + 1);
      MergeScaled(g, Backward(g, x, l + 1), s, Backward(g, y, l + 1), l + 1);
    }
  }

  /** Layer by layer, the way back undoes the way forth and doubles once per layer. */
  lemma {:induction false} BackwardForward(g: Roots, f: Poly, l: nat)
    requires l <= 7 && RootsPair(g)
    ensures CongPoly(Backward(g, Ntt(g, f), l), Scaled(Blocks(7 - l), Forward(g, f, l)))
    decreases 7 - l
  {
    hide Merge, Split, RootsPair, Cong;
    if l == 7 {
      OnceItself(Forward(g, f, 7));
    } else {
      BackwardForward(g, f, l + 1);
      var s, y := Blocks(6 - l), Forward(g, f, l);
      MergeScaled(g, Backward(g, Ntt(g, f), l + 1), s, Split(g, y, l + 1), l + 1);
      MergeSplit(g, y, l + 1);
      forall a: nat | a < 256
        ensures Cong(Backward(g, Ntt(g, f), l)[a], Scaled(Blocks(7 - l), y)[a])
      {
        var u := Merge(g, Split(g, y, l + 1), l + 1)[a];
        assert Cong(Backward(g, Ntt(g, f), l)[a], s * u) && Cong(u, Scaled(2, y)[a]);
        CongWitness(s, s, 0);
        CongMul(s, s, u, 2 * y[a]);
        CongTrans(Backward(g, Ntt(g, f), l)[a], s * u, s * (2 * y[a]));
        assert Blocks(7 - l) == 2 * s && s * (2 * y[a]) == (2 * s) * y[a];
      }
    }
  }

  /** The inverse transform inverts the forward one. */
  lemma InvNttNtt(g: Roots, f: Poly)
    requires RootsPair(g)
    ensures CongPoly(InvNtt(g, Ntt(g, f)), f)
  {
    hide RootsPair, Forward, Backward, Cong;
    BackwardForward(g, f, 0);
    ForwardZero(g, f);
    forall a: nat | a < 256 ensures Cong(InvNtt(g, Ntt(g, f))[a], f[a]) {
      var u := Backward(g, Ntt(g, f), 0)[a];
      assert Cong(u, Scaled(128, f)[a]);
      Unscaled(u, f[a]);
    }
  }

  /** 3303 is the inverse of 128. */
  lemma Unscaled(u: int, v: int)
    requires Cong(u, 128 * v)
    ensures Cong(3303 * u, v)
  {
    hide Cong;
    CongWitness(3303, 3303, 0);
    CongMul(3303, 3303, u, 128 * v);
    CongWitness(3303 * (128 * v), v, 127 * v);
    CongTrans(3303 * u, 3303 * (128 * v), v);
  }

  lemma ForwardZero(g: Roots, f: Poly)
    ensures Forward(g, f, 0) == f
  {
  }

  lemma InvNttCong(g: Roots, x: Poly, s: int, y: Poly)
    requires CongPoly(x, Scaled(s, y))
    ensures CongPoly(InvNtt(g, x), Scaled(s, InvNtt(g, y)))
  {
    hide Backward;
    BackwardScaled(g, x, s, y, 0);
    forall a: nat | a < 256 ensures Cong(InvNtt(g, x)[a], Scaled(s, InvNtt(g, y))[a]) {
      var u, v := Backward(g, x, 0)[a], Backward(g, y, 0)[a];
      assert Cong(u, Scaled(s, Backward(g, y, 0))[a]);
      CongMul(3303, 3303, u, s * v);
      assert 3303 * (s * v) == s * (3303 * v);
    }
  }

  // ---------------------------------------------------------------- and the other way round

  /** One butterfly back and there doubles both coefficients as well. */
  lemma ButterflyGoes(root: int, back: int, a: int, b: int)
    requires Cong(root * back, -1)
    ensures Cong((a + b) + root * (back * (b - a)), 2 * a)
    ensures Cong((a + b) - root * (back * (b - a)), 2 * b)
  {
    hide Cong;
    assert root * (back * (b - a)) == (root * back) * (b - a);
    CongWitness(b - a, b - a, 0);
    CongMul(root * back, -1, b - a, b - a);
    CongWitness(a + b, a + b, 0);
    CongAdd(a + b, a + b, (root * back) * (b - a), -1 * (b - a));
    CongSub(a + b, a + b, (root * back) * (b - a), -1 * (b - a));
  }

  lemma SplitMergeAt(g: Roots, f: Poly, l: nat, b: nat, i: nat)
    requires 1 <= l <= 7 && b < Blocks(l - 1) && i < Span(l) && RootsPair(g)
    ensures var m := Span(l); var o := Base(l - 1, b);
      && o + 2 * m <= 256
      && Cong(Split(g, Merge(g, f, l), l)[o + i], 2 * f[o + i])
      && Cong(Split(g, Merge(g, f, l), l)[o + m + i], 2 * f[o + m + i])
  {
    hide Span, Blocks, Base, BlockOf, Within, Split, Merge;
    ChildBlocks(l, b);
    SplitAt(g, Merge(g, f, l), l, b, i);
    MergeAt(g, f, l, b, i);
    assert PairAt(g, l, b);
    ButterflyGoes(g[Blocks(l - 1) + b], BackRoot(g, l, b), f[Base(l - 1, b) + i], f[Base(l - 1, b) + Span(l) + i]);
  }

  lemma SplitMerge(g: Roots, f: Poly, l: nat)
    requires 1 <= l <= 7 && RootsPair(g)
    ensures CongPoly(Split(g, Merge(g, f, l), l), Scaled(2, f))
  {
    hide Span, Blocks, Base, BlockOf, Within, Split, Merge, RootsPair;
    forall a: nat | a < 256 ensures Cong(Split(g, Merge(g, f, l), l)[a], Scaled(2, f)[a]) {
      var b, w, m := BlockOf(l - 1, a), Within(l - 1, a), Span(l);
      ChildBlocks(l, b);
      SplitMergeAt(g, f, l, b, if w < m then w else w - m);
    }
  }

  lemma ScaledPair(w: int, a: int, b: int, s: int, x: int, y: int)
    requires Cong(a, s * x) && Cong(b, s * y)
    ensures Cong(a + w * b, s * (x + w * y)) && Cong(a - w * b, s * (x - w * y))
  {
    CongMul(w, w, b, s * y);
    assert s * (x + w * y) == s * x + w * (s * y) && s * (x - w * y) == s * x - w * (s * y);
  }

  /** Splitting commutes with scaling, up to congruence. */
  lemma SplitScaledAt(g: Roots, x: Poly, s: int, y: Poly, l: nat, a: nat)
    requires 1 <= l <= 7 && a < 256 && CongPoly(x, Scaled(s, y))
    ensures Cong(SplitCoeff(g, x, l, a), s * SplitCoeff(g, y, l, a))
  {
    hide Span, Blocks, Base, BlockOf, Within, Cong;
    var b, m := BlockOf(l - 1, a), Span(l);
    ChildBlocks(l, b);
    var lo := if Within(l - 1, a) < m then a else a - m;
    assert Cong(x[lo], s * y[lo]) && Cong(x[lo + m], s * y[lo + m]);
    ScaledPair(g[Blocks(l - 1) + b], x[lo], x[lo + m], s, y[lo], y[lo + m]);
  }

  lemma {:induction false} ForwardScaled(g: Roots, x: Poly, s: int, y: Poly, l: nat)
    requires l <= 7 && CongPoly(x, Scaled(s, y))
    ensures CongPoly(Forward(g, x, l), Scaled(s, Forward(g, y, l)))
  {
    hide SplitCoeff, Cong;
    if l > 0 {
      ForwardScaled(g, x, s, y, l - 1);
      var u, v := Forward(g, x, l - 1), Forward(g, y, l - 1);
      forall a: nat | a < 256 ensures Cong(Forward(g, x, l)[a], Scaled(s, Forward(g, y, l))[a]) { SplitScaledAt(g, u, s, v, l, a); }
    }
  }

  /** Layer by layer, the way forth undoes the way back and doubles once per layer. */
  lemma {:induction false} ForwardBackward(g: Roots, f: Poly, l: nat)
    requires l <= 7 && RootsPair(g)
    ensures CongPoly(Forward(g, Backward(g, f, 0), l), Scaled(Blocks(l), Backward(g, f, l)))
  {
    hide Merge, SplitCoeff, RootsPair, Cong;
    if l == 0 {
      OnceItself(Backward(g, f, 0));
    } else {
      ForwardBackward(g, f, l - 1);
      var s, y := Blocks(l - 1), Backward(g, f, l);
      var x := Forward(g, Backward(g, f, 0), l - 1);
      SplitMerge(g, y, l);
      forall a: nat | a < 256 ensures Cong(Split(g, x, l)[a], Scaled(Blocks(l), y)[a]) {
        SplitScaledAt(g, x, s, Merge(g, y, l), l, a);
        var u := Split(g, Merge(g, y, l), l)[a];
        assert Cong(u, Scaled(2, y)[a]);
        CongWitness(s, s, 0);
        CongMul(s, s, u, 2 * y[a]);
        CongTrans(Split(g, x, l)[a], s * u, s * (2 * y[a]));
        assert Blocks(l) == 2 * s && s * (2 * y[a]) == (2 * s) * y[a];
      }
    }
  }

  lemma OnceItself(f: Poly)
    ensures CongPoly(f, Scaled(Blocks(0), f))
  {
  }

  /** The inverse transform is inverted by the forward one. */
  lemma NttInvNtt(g: Roots, f: Poly)
    requires RootsPair(g)
    ensures CongPoly(Ntt(g, InvNtt(g, f)), f)
  {
    hide RootsPair, Forward, Backward, Cong, Scaled;
    var b := Backward(g, f, 0);
    Same(Scaled(3303, b));
    ForwardScaled(g, InvNtt(g, f), 3303, b, 7);
    ForwardBackward(g, f, 7);
    BackwardNone(g, f);
    forall a: nat | a < 256 ensures Cong(Ntt(g, InvNtt(g, f))[a], f[a]) {
      Tripled(Ntt(g, InvNtt(g, f)), 3303, Forward(g, b, 7), f, a);
    }
  }

  lemma Same(f: Poly)
    ensures CongPoly(f, f)
  {
  }

  lemma BackwardNone(g: Roots, f: Poly)
    ensures Backward(g, f, 7) == f
  {
  }

  lemma Tripled(x: Poly, s: int, u: Poly, f: Poly, a: nat)
    requires a < 256 && s == 3303 && CongPoly(x, Scaled(s, u)) && CongPoly(u, Scaled(128, f))
    ensures Cong(x[a], f[a])
  {
    hide Cong;
    assert Cong(x[a], Scaled(s, u)[a]) && Cong(u[a], Scaled(128, f)[a]);
    Unscaled(u[a], f[a]);
    CongTrans(x[a], 3303 * u[a], f[a]);
  }
}
