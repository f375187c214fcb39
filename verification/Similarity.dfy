/** Cosine similarity of embeddings, and the ranking built on it. Vectors hold exact reals. */
module Similarity {
  import opened Reals
  import opened Sorting

  function Dot(a: seq<real>, b: seq<real>, n: nat): real
    requires n <= |a| && n <= |b|
  {
    if n == 0 then 0.0 else Dot(a, b, n - 1) + Times(a[n - 1], b[n - 1])
  }

  function Shorter(a: seq<real>, b: seq<real>): nat {
    if |a| <= |b| then |a| else |b|
  }

  /** `sqrt` as a function on the exact reals. */
  ghost predicate IsRoot(sqrt: real -> real) {
    forall x: real | x >= 0.0 :: sqrt(x) >= 0.0 && Times(sqrt(x), sqrt(x)) == x
  }

  /** The two magnitudes are taken over the common prefix only. */
  function Cosine(a: seq<real>, b: seq<real>, sqrt: real -> real): real {
    var n := Shorter(a, b);
    var denom := Times(sqrt(Dot(a, a, n)), sqrt(Dot(b, b, n)));
    if denom == 0.0 then 0.0 else Dot(a, b, n) / denom
  }

  // ---- Products and squares ------------------------------------------------------------------

  lemma ProductPositive(a: real, b: real)
    requires a >= 0.0 && b >= 0.0
    ensures Times(a, b) >= 0.0
  {
    if a > 0.0 && b > 0.0 {
      PositiveProduct(a, b);
    } else {
      assert a == 0.0 || b == 0.0;
    }
  }

  /** Of two numbers that are not negative, the one with the larger square is larger. */
  lemma SquaresOrder(u: real, v: real)
    requires v >= 0.0 && Times(u, u) <= Times(v, v)
    ensures -v <= u <= v
  {
    if u > v {
      PositiveProduct(u - v, u + v);
      Conjugates(u, v);
    } else if u < -v {
      PositiveProduct(-u - v, v - u);
      Conjugates(-u, v);
    }
  }

  lemma Conjugates(u: real, v: real)
    ensures Times(u - v, u + v) == Times(u, u) - Times(v, v) && Times(-u, -u) == Times(u, u) && u + v == v + u
  {
  }

  // ---- The inequality of Cauchy and Schwarz ----------------------------------------------------

  lemma {:induction false} MagnitudePositive(a: seq<real>, n: nat)
    requires n <= |a|
    ensures Dot(a, a, n) >= 0.0
  {
    if n > 0 {
      MagnitudePositive(a, n - 1);
      SquarePositive(a[n - 1]);
    }
    hide Times;
  }

  /** One more coordinate keeps the inequality. */
  lemma OneMoreCoordinate(d: real, p: real, q: real, x: real, y: real)
    requires p >= 0.0 && q >= 0.0 && Times(d, d) <= Times(p, q)
    ensures Times(d + Times(x, y), d + Times(x, y)) <= Times(p + Times(x, x), q + Times(y, y))
  {
    var cross := Times(p, Times(y, y)) + Times(q, Times(x, x)) - 2.0 * Times(d, Times(x, y));
    Crossing(d, p, q, x, y);
    Expand(d, p, q, x, y);
    hide Times;
  }

  lemma Expand(d: real, p: real, q: real, x: real, y: real)
    ensures Times(p + Times(x, x), q + Times(y, y)) - Times(d + Times(x, y), d + Times(x, y))
         == Times(p, q) - Times(d, d) + (Times(p, Times(y, y)) + Times(q, Times(x, x)) - 2.0 * Times(d, Times(x, y)))
  {
  }

  lemma Crossing(d: real, p: real, q: real, x: real, y: real)
    requires p >= 0.0 && q >= 0.0 && Times(d, d) <= Times(p, q)
    ensures 2.0 * Times(d, Times(x, y)) <= Times(p, Times(y, y)) + Times(q, Times(x, x))
  {
    var cross := Times(p, Times(y, y)) + Times(q, Times(x, x)) - 2.0 * Times(d, Times(x, y));
    SquarePositive(x);
    if p == 0.0 {
      NoMagnitude(d, q);
      ProductPositive(q, Times(x, x));
      assert Times(0.0, Times(y, y)) == 0.0 && Times(0.0, Times(x, y)) == 0.0;
    } else {
      SquarePositive(Times(p, y) - Times(d, x));
      ProductPositive(Times(p, q) - Times(d, d), Times(x, x));
      CompleteSquare(d, p, q, x, y);
      if cross < 0.0 {
        PositiveProduct(p, -cross);
        Negated(p, cross);
      }
    }
    hide Times;
  }

  lemma Negated(p: real, c: real)
    ensures Times(p, -c) == -Times(p, c)
  {
  }

  lemma NoMagnitude(d: real, q: real)
    requires Times(d, d) <= Times(0.0, q)
    ensures d == 0.0
  {
    assert Times(0.0, q) == 0.0;
    hide Times;
    SquarePositive(d);
  }

  lemma CompleteSquare(d: real, p: real, q: real, x: real, y: real)
    ensures Times(p, Times(p, Times(y, y)) + Times(q, Times(x, x)) - 2.0 * Times(d, Times(x, y)))
         == Times(Times(p, y) - Times(d, x), Times(p, y) - Times(d, x)) + Times(Times(p, q) - Times(d, d), Times(x, x))
  {
  }

  lemma {:induction false} CauchySchwarz(a: seq<real>, b: seq<real>, n: nat)
    requires n <= |a| && n <= |b|
    ensures Times(Dot(a, b, n), Dot(a, b, n)) <= Times(Dot(a, a, n), Dot(b, b, n))
  {
    if n > 0 {
      CauchySchwarz(a, b, n - 1);
      MagnitudePositive(a, n - 1);
      MagnitudePositive(b, n - 1);
      hide Times;
      OneMoreCoordinate(Dot(a, b, n - 1), Dot(a, a, n - 1), Dot(b, b, n - 1), a[n - 1], b[n - 1]);
    }
  }

  /** The loop: after every coordinate the product of the magnitudes bounds the square of the dot. */
  method ComputeCosine(a: seq<real>, b: seq<real>, sqrt: real -> real) returns (score: real)
    ensures score == Cosine(a, b, sqrt)
  {
    var dot, magA, magB := 0.0, 0.0, 0.0;
    var len := Shorter(a, b);
    for i := 0 to len
      invariant dot == Dot(a, b, i) && magA == Dot(a, a, i) && magB == Dot(b, b, i)
      invariant Times(dot, dot) <= Times(magA, magB)
    {
      CauchySchwarz(a, b, i + 1);
      dot := dot + Times(a[i], b[i]);
      magA := magA + Times(a[i], a[i]);
      magB := magB + Times(b[i], b[i]);
    }
    var denom := Times(sqrt(magA), sqrt(magB));
    score := if denom == 0.0 then 0.0 else dot / denom;
  }

  lemma RootsMultiply(sqrt: real -> real, p: real, q: real)
    requires IsRoot(sqrt) && p >= 0.0 && q >= 0.0
    ensures var d := Times(sqrt(p), sqrt(q)); d >= 0.0 && Times(d, d) == Times(p, q)
  {
    var u, v := sqrt(p), sqrt(q);
    ProductPositive(u, v);
    assert Times(Times(u, v), Times(u, v)) == Times(Times(u, u), Times(v, v));
  }

  lemma Quotient(dot: real, denom: real)
    requires denom > 0.0
    ensures Times(dot / denom, denom) == dot
    ensures -denom <= dot <= denom ==> -1.0 <= dot / denom <= 1.0
  {
    var s := dot / denom;
    assert s * denom == dot;
    if s > 1.0 {
      PositiveProduct(s - 1.0, denom);
      assert Times(s - 1.0, denom) == dot - denom;
    } else if s < -1.0 {
      PositiveProduct(-s - 1.0, denom);
      assert Times(-s - 1.0, denom) == -dot - denom;
    }
  }

  /** Scores lie between -1 and 1 and do not depend on the order of the two vectors. */
  lemma CosineBounded(a: seq<real>, b: seq<real>, sqrt: real -> real)
    requires IsRoot(sqrt)
    ensures -1.0 <= Cosine(a, b, sqrt) <= 1.0
  {
    var n := Shorter(a, b);
    MagnitudePositive(a, n);
    MagnitudePositive(b, n);
    CauchySchwarz(a, b, n);
    RootsMultiply(sqrt, Dot(a, a, n), Dot(b, b, n));
    hide Times, Dot;
    var denom := Times(sqrt(Dot(a, a, n)), sqrt(Dot(b, b, n)));
    if denom != 0.0 {
      SquaresOrder(Dot(a, b, n), denom);
      Quotient(Dot(a, b, n), denom);
    }
  }

  lemma {:induction false} DotSymmetric(a: seq<real>, b: seq<real>, n: nat)
    requires n <= |a| && n <= |b|
    ensures Dot(a, b, n) == Dot(b, a, n)
  {
    if n > 0 {
      DotSymmetric(a, b, n - 1);
      Commutes(a[n - 1], b[n - 1]);
    }
    hide Times;
  }

  lemma Commutes(a: real, b: real)
    ensures Times(a, b) == Times(b, a)
  {
  }

  lemma CosineSymmetric(a: seq<real>, b: seq<real>, sqrt: real -> real)
    ensures Cosine(a, b, sqrt) == Cosine(b, a, sqrt)
  {
    var n := Shorter(a, b);
    DotSymmetric(a, b, n);
    Commutes(sqrt(Dot(a, a, n)), sqrt(Dot(b, b, n)));
    hide Times, Dot;
  }

  /** A vector that is not all zeros has similarity one to itself. */
  lemma {:induction false} CosineOfItself(a: seq<real>, sqrt: real -> real)
    requires IsRoot(sqrt) && Dot(a, a, |a|) != 0.0
    ensures Cosine(a, a, sqrt) == 1.0
  {
    MagnitudePositive(a, |a|);
    hide Times, Dot;
    Quotient(Dot(a, a, |a|), Dot(a, a, |a|));
  }

  // ---- The top of the ranking ------------------------------------------------------------------

  type Id = nat

  datatype Scored = Scored(product: Id, score: real)

  function ByFallingScore(x: Scored, y: Scored): bool { x.score >= y.score }

  datatype Embedding = Embedding(product: Id, vector: seq<real>)

  /** The products not purchased, each with its score, in the order of the query. */
  function Candidates(embeddings: seq<Embedding>, purchased: set<Id>, profile: seq<real>, sqrt: real -> real): seq<Scored> {
    if embeddings == [] then []
    else
      var rest := Candidates(embeddings[1..], purchased, profile, sqrt);
      if embeddings[0].product in purchased then rest
      else [Scored(embeddings[0].product, Cosine(profile, embeddings[0].vector, sqrt))] + rest
  }

  function TopK(candidates: seq<Scored>, limit: nat): seq<Scored> {
    Top(candidates, ByFallingScore, limit)
  }

  lemma {:induction false} CandidatesFit(embeddings: seq<Embedding>, purchased: set<Id>, profile: seq<real>, sqrt: real -> real, x: Scored)
    ensures x in Candidates(embeddings, purchased, profile, sqrt) <==>
              x.product !in purchased
              && exists i :: 0 <= i < |embeddings| && embeddings[i].product == x.product
                             && x.score == Cosine(profile, embeddings[i].vector, sqrt)
  {
    hide Cosine;
    if embeddings != [] {
      CandidatesFit(embeddings[1..], purchased, profile, sqrt, x);
      assert forall i | 0 < i < |embeddings| :: embeddings[i] == embeddings[1..][i - 1];
      if x in Candidates(embeddings[1..], purchased, profile, sqrt) {
        var i :| 0 <= i < |embeddings[1..]| && embeddings[1..][i].product == x.product
                 && x.score == Cosine(profile, embeddings[1..][i].vector, sqrt);
        assert embeddings[i + 1].product == x.product;
      }
    }
  }

  /** The slice holds as many candidates as there are, up to the limit, and none of the purchased
      products; together with what it omits it is the candidates, and it dominates what it omits. */
  lemma {:induction false} TopKDominates(embeddings: seq<Embedding>, purchased: set<Id>, profile: seq<real>, sqrt: real -> real, limit: nat)
    ensures var candidates := Candidates(embeddings, purchased, profile, sqrt);
            var top := TopK(candidates, limit);
            && |top| == (if |candidates| <= limit then |candidates| else limit)
            && (forall x | x in top :: x.product !in purchased)
            && exists omitted: seq<Scored> ::
                 && multiset(top) + multiset(omitted) == multiset(candidates)
                 && Ordered(top + omitted, ByFallingScore)
                 && (forall i, j | 0 <= i < j < |top| :: top[i].score >= top[j].score)
                 && (forall x, y | x in top && y in omitted :: x.score >= y.score)
  {
    var candidates := Candidates(embeddings, purchased, profile, sqrt);
    var top := TopK(candidates, limit);
    forall x | x in top ensures x.product !in purchased {
      SortElements(candidates, ByFallingScore, x);
      CandidatesFit(embeddings, purchased, profile, sqrt, x);
    }
    var omitted := TopDominates(candidates, ByFallingScore, limit);
    Before(top, omitted, ByFallingScore);
  }

  // ---- What a score is -----------------------------------------------------------------------------

  lemma Squared(c: real, r: real, q: real, d: real)
    requires Times(c, Times(r, q)) == d
    ensures Times(Times(c, c), Times(Times(r, r), Times(q, q))) == Times(d, d)
  {
    Regrouped(c, r, q);
    hide Times;
  }

  lemma Regrouped(c: real, r: real, q: real)
    ensures Times(Times(c, c), Times(Times(r, r), Times(q, q))) == Times(Times(c, Times(r, q)), Times(c, Times(r, q)))
  {
  }

  lemma Signs(c: real, m: real, d: real)
    requires m > 0.0 && Times(c, m) == d
    ensures (c > 0.0 <==> d > 0.0) && (c < 0.0 <==> d < 0.0)
  {
    if c > 0.0 {
      PositiveProduct(c, m);
    } else if c < 0.0 {
      PositiveProduct(-c, m);
      Negates(c, m);
    } else {
      assert Times(0.0, m) == 0.0;
    }
    hide Times;
  }

  lemma Negates(c: real, m: real)
    ensures Times(-c, m) == -Times(c, m)
  {
  }

  /** The square of the score times the squares of the two magnitudes is the square of the dot product, and
      it has its sign; without a magnitude the score is zero. */
  lemma {:induction false} CosineMeaning(a: seq<real>, b: seq<real>, sqrt: real -> real)
    requires IsRoot(sqrt)
    ensures var n := if |a| <= |b| then |a| else |b|;
            var (c, d, p, q) := (Cosine(a, b, sqrt), Dot(a, b, n), Dot(a, a, n), Dot(b, b, n));
            && (p == 0.0 || q == 0.0 ==> c == 0.0)
            && (p > 0.0 && q > 0.0 ==> Times(Times(c, c), Times(p, q)) == Times(d, d) && (c > 0.0 <==> d > 0.0) && (c < 0.0 <==> d < 0.0))
  {
    var n := Shorter(a, b);
    var p, q, d := Dot(a, a, n), Dot(b, b, n), Dot(a, b, n);
    MagnitudePositive(a, n);
    MagnitudePositive(b, n);
    Roots(p, q, sqrt);
    var m := Times(sqrt(p), sqrt(q));
    hide Times, Dot;
    if p > 0.0 && q > 0.0 {
      var c := Cosine(a, b, sqrt);
      Share(d, m);
      assert c == d / m;
      Squared(c, sqrt(p), sqrt(q), d);
      Signs(c, m, d);
    }
  }

  lemma Share(d: real, m: real)
    requires m > 0.0
    ensures Times(d / m, m) == d
  {
  }

  lemma Roots(p: real, q: real, sqrt: real -> real)
    requires IsRoot(sqrt) && p >= 0.0 && q >= 0.0
    ensures p == 0.0 || q == 0.0 ==> Times(sqrt(p), sqrt(q)) == 0.0
    ensures p > 0.0 && q > 0.0 ==> Times(sqrt(p), sqrt(q)) > 0.0
    ensures Times(sqrt(p), sqrt(p)) == p && Times(sqrt(q), sqrt(q)) == q
  {
    RootOf(p, sqrt);
    RootOf(q, sqrt);
    if p > 0.0 && q > 0.0 {
      PositiveProduct(sqrt(p), sqrt(q));
    } else if p == 0.0 {
      assert Times(0.0, sqrt(q)) == 0.0;
    } else {
      assert Times(sqrt(p), 0.0) == 0.0;
    }
    hide Times;
  }

  lemma RootOf(p: real, sqrt: real -> real)
    requires IsRoot(sqrt) && p >= 0.0
    ensures Times(sqrt(p), sqrt(p)) == p && sqrt(p) >= 0.0 && (p == 0.0 <==> sqrt(p) == 0.0)
  {
    assert Times(0.0, 0.0) == 0.0;
    if sqrt(p) > 0.0 {
      PositiveProduct(sqrt(p), sqrt(p));
    }
  }
}
