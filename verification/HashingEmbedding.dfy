/** The local embedding model (feature hashing), over exact reals. */
module HashingEmbedding {
  import opened Sequences
  import opened Tokenizer

  /** The dimension, and what is taken as given: lower-casing, the two parts of the SHA-1 digest of
      a token that are used, and the square root. */
  datatype Model = Model(dimension: nat, lower: string -> string,
                         word: string -> nat, odd: string -> bool, sqrt: real -> real)
  {
    predicate Valid() {
      dimension > 0
    }

    function Bucket(token: string): nat
      requires Valid()
    {
      word(token) % dimension
    }

    function Sign(token: string): real {
      if odd(token) then 1.0 else -1.0
    }
  }

  function Share(m: Model, token: string, bucket: nat): real
    requires m.Valid()
  {
    if m.Bucket(token) == bucket then m.Sign(token) else 0.0
  }

  /** The sum of the signs of the tokens that fall into a bucket. */
  function Weight(m: Model, tokens: seq<string>, bucket: nat): real
    requires m.Valid()
  {
    if tokens == [] then 0.0
    else
      var n := |tokens| - 1;
      Weight(m, tokens[..n], bucket) + Share(m, tokens[n], bucket)
  }

  function Weights(m: Model, tokens: seq<string>): seq<real>
    requires m.Valid()
  {
    seq(m.dimension, i requires 0 <= i < m.dimension => Weight(m, tokens, i))
  }

  function Times(x: real, y: real): real {
    x * y
  }

  function Square(x: real): real {
    Times(x, x)
  }

  function SumSquares(v: seq<real>): real {
    if v == [] then 0.0 else SumSquares(v[..|v| - 1]) + Square(v[|v| - 1])
  }

  function Divided(v: seq<real>, d: real): seq<real>
    requires d != 0.0
  {
    seq(|v|, i requires 0 <= i < |v| => v[i] / d)
  }

  function Embedded(m: Model, tokens: seq<string>): seq<real>
    requires m.Valid()
  {
    var v := Weights(m, tokens);
    var norm := m.sqrt(SumSquares(v));
    if norm == 0.0 then Divided(v[0 := 1.0], 1.0) else Divided(v, norm)
  }

  function Embed(m: Model, text: string): seq<real>
    requires m.Valid()
  {
    Embedded(m, Tokens(m.lower(text)))
  }

  /** `_embed_one`. */
  method EmbedOne(m: Model, text: string) returns (embedding: seq<real>)
    requires m.Valid()
    ensures embedding == Embed(m, text)
  {
    var tokens := Tokens(m.lower(text));
    var vector := new real[m.dimension](_ => 0.0);
    for n := 0 to |tokens|
      invariant forall i :: 0 <= i < m.dimension ==> vector[i] == Weight(m, tokens[..n], i)
    {
      assert tokens[..n + 1][..n] == tokens[..n];
      var index := m.word(tokens[n]) % m.dimension;
      var sign := if m.odd(tokens[n]) then 1.0 else -1.0;
      vector[index] := vector[index] + sign;
    }
    assert tokens[..|tokens|] == tokens;
    assert vector[..] == Weights(m, tokens);
    var norm := m.sqrt(SumSquares(vector[..]));
    if norm == 0.0 {
      vector[0] := 1.0;
      norm := 1.0;
    }
    embedding := Divided(vector[..], norm);
  }

  // ---- Embeddings have length one ----

  ghost predicate RootsAreExact(m: Model) {
    forall x :: x >= 0.0 ==> m.sqrt(x) >= 0.0 && Square(m.sqrt(x)) == x
  }

  lemma {:induction false} PositiveProduct(x: real, y: real)
    requires x > 0.0 && y > 0.0
    ensures Times(x, y) > 0.0
  {
  }

  lemma {:induction false} SquareSign(x: real)
    ensures Square(x) >= 0.0
    ensures Square(x) == 0.0 <==> x == 0.0
  {
    if x > 0.0 {
      PositiveProduct(x, x);
    } else if x < 0.0 {
      PositiveProduct(-x, -x);
      assert Square(x) == Times(-x, -x);
    }
  }

  lemma {:induction false} OnlyOneKeeps(q: real, total: real)
    requires total > 0.0 && Times(q, total) == total
    ensures q == 1.0
  {
    assert Times(q - 1.0, total) == Times(q, total) - total;
    assert Times(1.0 - q, total) == total - Times(q, total);
    if q > 1.0 {
      PositiveProduct(q - 1.0, total);
    } else if q < 1.0 {
      PositiveProduct(1.0 - q, total);
    }
  }

  lemma {:induction false} SquareOfQuotient(a: real, d: real)
    requires d != 0.0
    ensures Times(Square(a / d), Square(d)) == Square(a)
  {
    var q := a / d;
    assert q * d == a;
    assert (q * q) * (d * d) == (q * d) * (q * d);
  }

  lemma {:induction false} Distribute(a: real, b: real, c: real)
    ensures Times(a + b, c) == Times(a, c) + Times(b, c)
  {
  }

  lemma {:induction false} SumSquaresDivided(v: seq<real>, d: real)
    requires d != 0.0
    ensures Times(SumSquares(Divided(v, d)), Square(d)) == SumSquares(v)
  {
    if v != [] {
      var n := |v| - 1;
      SumSquaresDivided(v[..n], d);
      assert Divided(v, d)[..n] == Divided(v[..n], d);
      SquareOfQuotient(v[n], d);
      Distribute(SumSquares(Divided(v[..n], d)), Square(v[n] / d), Square(d));
    }
  }

  lemma {:induction false} SumSquaresNonNegative(v: seq<real>)
    ensures SumSquares(v) >= 0.0
  {
    if v != [] {
      SumSquaresNonNegative(v[..|v| - 1]);
      SquareSign(v[|v| - 1]);
    }
  }

  lemma {:induction false} ZeroSquares(v: seq<real>, i: nat)
    requires SumSquares(v) == 0.0 && i < |v|
    ensures v[i] == 0.0
  {
    var n := |v| - 1;
    SumSquaresNonNegative(v[..n]);
    SquareSign(v[n]);
    if i < n {
      ZeroSquares(v[..n], i);
    }
  }

  lemma {:induction false} SumSquaresOfUnit(v: seq<real>)
    requires v != [] && v[0] == 1.0 && forall i :: 1 <= i < |v| ==> v[i] == 0.0
    ensures SumSquares(v) == 1.0
  {
    var n := |v| - 1;
    if n > 0 {
      SumSquaresOfUnit(v[..n]);
    } else {
      assert v[..0] == [];
    }
  }

  /** Every embedding has the model's dimension and length one, also that of a text without tokens
      or whose tokens cancel out. */
  lemma {:induction false} EmbeddingIsUnit(m: Model, text: string)
    requires m.Valid() && RootsAreExact(m)
    ensures |Embed(m, text)| == m.dimension && SumSquares(Embed(m, text)) == 1.0
  {
    var v := Weights(m, Tokens(m.lower(text)));
    SumSquaresNonNegative(v);
    var total := SumSquares(v);
    var norm := m.sqrt(total);
    if norm == 0.0 {
      var unit := v[0 := 1.0];
      forall i | 1 <= i < |v| ensures unit[i] == 0.0 {
        ZeroSquares(v, i);
      }
      SumSquaresOfUnit(unit);
      SumSquaresDivided(unit, 1.0);
    } else {
      SumSquaresDivided(v, norm);
      SquareSign(norm);
      OnlyOneKeeps(SumSquares(Divided(v, norm)), total);
    }
  }

  // ---- What an embedding depends on ----

  lemma {:induction false} WithoutInit(tokens: seq<string>, j: nat)
    requires j < |tokens| - 1
    ensures |Without(tokens, j)| == |tokens| - 1 && Without(tokens, j)[|tokens| - 2] == tokens[|tokens| - 1]
    ensures Without(tokens, j)[..|tokens| - 2] == Without(tokens[..|tokens| - 1], j)
  {
  }

  lemma {:induction false} WeightWithout(m: Model, tokens: seq<string>, j: nat, bucket: nat)
    requires m.Valid() && j < |tokens|
    ensures Weight(m, tokens, bucket) == Weight(m, Without(tokens, j), bucket) + Share(m, tokens[j], bucket)
  {
    var n := |tokens| - 1;
    if j == n {
      assert Without(tokens, j) == tokens[..n];
    } else {
      WeightWithout(m, tokens[..n], j, bucket);
      WithoutInit(tokens, j);
    }
  }

  lemma {:induction false} WeightIgnoresOrder(m: Model, a: seq<string>, b: seq<string>, bucket: nat)
    requires m.Valid() && multiset(a) == multiset(b)
    ensures Weight(m, a, bucket) == Weight(m, b, bucket)
  {
    if a == [] {
      assert |multiset(b)| == 0;
    } else {
      var n := |a| - 1;
      assert a[n] in multiset(b);
      var j :| 0 <= j < |b| && b[j] == a[n];
      assert Without(a, n) == a[..n];
      MultisetWithout(a, n);
      MultisetWithout(b, j);
      WeightWithout(m, b, j, bucket);
      WeightIgnoresOrder(m, a[..n], Without(b, j), bucket);
    }
  }

  /** An embedding depends on which tokens a text has and how often, not on their order. */
  lemma {:induction false} EmbeddingIgnoresOrder(m: Model, a: string, b: string)
    requires m.Valid() && multiset(Tokens(m.lower(a))) == multiset(Tokens(m.lower(b)))
    ensures Embed(m, a) == Embed(m, b)
  {
    var s, t := Tokens(m.lower(a)), Tokens(m.lower(b));
    forall i | 0 <= i < m.dimension ensures Weight(m, s, i) == Weight(m, t, i) {
      WeightIgnoresOrder(m, s, t, i);
    }
    assert Weights(m, s) == Weights(m, t);
  }

  lemma {:induction false} EmbeddingNormalizes(m: Model, q1: string, q2: string)
    requires m.Valid() && Normalize(m.lower, q1) == Normalize(m.lower, q2)
    ensures Embed(m, q1) == Embed(m, q2)
  {
    TokensOfNormalized(m.lower, q1, q2);
  }

  // ---- What tokens do to an embedding ----

  /** A token adds its sign, given by the fifth byte of its digest, to the entry that the first four
      bytes name, and leaves every other entry alone. */
  lemma {:induction false} TokenChangesOneEntry(m: Model, tokens: seq<string>, token: string)
    requires m.Valid()
    ensures Weights(m, []) == seq(m.dimension, _ => 0.0)
    ensures var i, before := m.word(token) % m.dimension, Weights(m, tokens);
            Weights(m, tokens + [token]) == before[i := before[i] + (if m.odd(token) then 1.0 else -1.0)]
  {
    var before, after, i := Weights(m, tokens), Weights(m, tokens + [token]), m.word(token) % m.dimension;
    assert (tokens + [token])[..|tokens|] == tokens;
    assert forall b :: 0 <= b < m.dimension ==> after[b] == before[b] + Share(m, token, b);
  }

  /** An embedding is the sum of the tokens' signs, scaled down to length one, or the first unit
      vector if that sum is zero. */
  lemma {:induction false} EmbeddingScalesWeights(m: Model, text: string)
    requires m.Valid() && RootsAreExact(m)
    ensures var v, e := Weights(m, Tokens(m.lower(text))), Embed(m, text);
            if SumSquares(v) == 0.0 then
              (forall i :: 0 <= i < m.dimension ==> v[i] == 0.0 && e[i] == if i == 0 then 1.0 else 0.0)
            else
              exists norm: real :: norm > 0.0 && Square(norm) == SumSquares(v)
                                && forall i :: 0 <= i < m.dimension ==> v[i] == Times(norm, e[i])
  {
    var v, e := Weights(m, Tokens(m.lower(text))), Embed(m, text);
    SumSquaresNonNegative(v);
    var norm := m.sqrt(SumSquares(v));
    SquareSign(norm);
    if SumSquares(v) == 0.0 {
      forall i | 0 <= i < m.dimension ensures v[i] == 0.0 {
        ZeroSquares(v, i);
      }
    } else {
      forall i | 0 <= i < m.dimension ensures v[i] == Times(norm, e[i]) {
        assert e[i] == v[i] / norm;
        TimesQuotient(v[i], norm);
      }
    }
  }

  lemma {:induction false} TimesQuotient(a: real, d: real)
    requires d != 0.0
    ensures Times(d, a / d) == a
  {
  }

  lemma {:induction false} SumSquaresOfOne(v: seq<real>, i: nat)
    requires i < |v| && forall j :: 0 <= j < |v| && j != i ==> v[j] == 0.0
    ensures SumSquares(v) == Square(v[i])
  {
    var n := |v| - 1;
    if i < n {
      SumSquaresOfOne(v[..n], i);
    } else {
      SumSquaresOfZero(v[..n]);
    }
  }

  lemma {:induction false} SumSquaresOfZero(v: seq<real>)
    requires forall j :: 0 <= j < |v| ==> v[j] == 0.0
    ensures SumSquares(v) == 0.0
  {
    if v != [] {
      SumSquaresOfZero(v[..|v| - 1]);
    }
  }

  /** The embedding of a text of one token is the unit vector of its entry, with its sign. */
  lemma {:induction false} OneTokenEmbedding(m: Model, text: string, token: string)
    requires m.Valid() && RootsAreExact(m) && Tokens(m.lower(text)) == [token]
    ensures forall i :: 0 <= i < m.dimension ==>
              Embed(m, text)[i] == if i != m.word(token) % m.dimension then 0.0 else if m.odd(token) then 1.0 else -1.0
  {
    var v, b := Weights(m, [token]), m.word(token) % m.dimension;
    assert [] + [token] == [token];
    TokenChangesOneEntry(m, [], token);
    SumSquaresOfOne(v, b);
    assert Square(v[b]) == 1.0;
    var norm := m.sqrt(1.0);
    RootOfOne(norm);
    assert Embed(m, text) == Divided(v, norm);
  }

  lemma {:induction false} RootOfOne(x: real)
    requires x >= 0.0 && Square(x) == 1.0
    ensures x == 1.0
  {
    if x > 1.0 {
      PositiveProduct(x - 1.0, x);
    } else if x < 1.0 {
      PositiveProduct(1.0 - x, 1.0 + x);
    }
  }

  // ---- Texts that share tokens ----

  function Dot(v: seq<real>, w: seq<real>): real
    requires |v| == |w|
  {
    if v == [] then 0.0
    else
      var n := |v| - 1;
      Dot(v[..n], w[..n]) + Times(v[n], w[n])
  }

  lemma {:induction false} DotUpdate(v: seq<real>, w: seq<real>, i: nat, x: real)
    requires |v| == |w| && i < |v|
    ensures Dot(v[i := v[i] + x], w) == Dot(v, w) + Times(x, w[i])
  {
    var n := |v| - 1;
    var u := v[i := v[i] + x];
    if i < n {
      assert u[..n] == v[..n][i := v[..n][i] + x];
      DotUpdate(v[..n], w[..n], i, x);
    } else {
      assert u[..n] == v[..n];
      Distribute(v[n], x, w[n]);
    }
  }

  lemma {:induction false} DotCommutes(v: seq<real>, w: seq<real>)
    requires |v| == |w|
    ensures Dot(v, w) == Dot(w, v)
  {
    if v != [] {
      DotCommutes(v[..|v| - 1], w[..|v| - 1]);
    }
  }

  lemma {:induction false} DotScales(v: seq<real>, w: seq<real>, d: real)
    requires |v| == |w| && d != 0.0
    ensures Times(d, Dot(Divided(v, d), w)) == Dot(v, w)
  {
    if v != [] {
      var n := |v| - 1;
      DotScales(v[..n], w[..n], d);
      assert Divided(v, d)[..n] == Divided(v[..n], d);
      ScaledProduct(v[n], w[n], d);
      Distribute(Dot(Divided(v[..n], d), w[..n]), Times(v[n] / d, w[n]), d);
    }
  }

  lemma {:induction false} ScaledProduct(a: real, b: real, d: real)
    requires d != 0.0
    ensures Times(d, Times(a / d, b)) == Times(a, b)
  {
    var q := a / d;
    assert q * d == a;
    assert d * (q * b) == (q * d) * b;
  }

  function Count(tokens: seq<string>, token: string): nat {
    if tokens == [] then 0 else Count(tokens[..|tokens| - 1], token) + (if tokens[|tokens| - 1] == token then 1 else 0)
  }

  lemma {:induction false} CountIsPositive(tokens: seq<string>, token: string)
    ensures Count(tokens, token) > 0 <==> token in tokens
  {
    if tokens != [] {
      CountIsPositive(tokens[..|tokens| - 1], token);
      assert tokens == tokens[..|tokens| - 1] + [tokens[|tokens| - 1]];
    }
  }

  /** In how many ways a token of the one text can be paired with the same token of the other. */
  function SharedPairs(a: seq<string>, b: seq<string>): nat {
    if a == [] then 0 else SharedPairs(a[..|a| - 1], b) + Count(b, a[|a| - 1])
  }

  lemma {:induction false} SharedPairsIsPositive(a: seq<string>, b: seq<string>)
    ensures SharedPairs(a, b) > 0 <==> exists t :: t in a && t in b
  {
    if a != [] {
      var n := |a| - 1;
      SharedPairsIsPositive(a[..n], b);
      CountIsPositive(b, a[n]);
      assert a == a[..n] + [a[n]];
    }
  }

  /** No two different tokens of the two texts share an entry. */
  ghost predicate NoCollisions(m: Model, a: seq<string>, b: seq<string>)
    requires m.Valid()
  {
    forall s, t :: s in a && t in b && m.word(s) % m.dimension == m.word(t) % m.dimension ==> s == t
  }

  lemma {:induction false} WeightWithoutCollisions(m: Model, tokens: seq<string>, token: string)
    requires m.Valid() && NoCollisions(m, [token], tokens)
    ensures Weight(m, tokens, m.Bucket(token)) == Times(m.Sign(token), Count(tokens, token) as real)
  {
    if tokens != [] {
      var n := |tokens| - 1;
      assert tokens[n] in tokens && token in [token];
      WeightWithoutCollisions(m, tokens[..n], token);
      Distribute(Count(tokens[..n], token) as real, 1.0, m.Sign(token));
    }
  }

  /** Without collisions the products of the two vectors count the shared tokens. */
  lemma {:induction false} ProductCountsShared(m: Model, a: seq<string>, b: seq<string>)
    requires m.Valid() && NoCollisions(m, a, b)
    ensures Dot(Weights(m, a), Weights(m, b)) == SharedPairs(a, b) as real
  {
    var w := Weights(m, b);
    if a == [] {
      TokenChangesOneEntry(m, [], "");
      DotOfZero(m.dimension, w);
    } else {
      var n := |a| - 1;
      var token := a[n];
      assert a == a[..n] + [token];
      ProductCountsShared(m, a[..n], b);
      TokenChangesOneEntry(m, a[..n], token);
      DotUpdate(Weights(m, a[..n]), w, m.Bucket(token), m.Sign(token));
      WeightWithoutCollisions(m, b, token);
      assert Times(m.Sign(token), Times(m.Sign(token), Count(b, token) as real)) == Count(b, token) as real;
    }
  }

  lemma {:induction false} DotOfZero(n: nat, w: seq<real>)
    requires |w| == n
    ensures Dot(seq(n, _ => 0.0), w) == 0.0
  {
    if n > 0 {
      DotOfZero(n - 1, w[..n - 1]);
      assert seq(n, _ => 0.0)[..n - 1] == seq(n - 1, _ => 0.0);
    }
  }

  /** The cosine similarity of two texts is positive if they share a token and zero if they do not,
      as long as no two different tokens collide and neither sum of signs is zero. */
  lemma {:induction false} SimilarExactlyWhenShared(m: Model, a: string, b: string)
    requires m.Valid() && RootsAreExact(m)
    requires NoCollisions(m, Tokens(m.lower(a)), Tokens(m.lower(b)))
    requires SumSquares(Weights(m, Tokens(m.lower(a)))) != 0.0 && SumSquares(Weights(m, Tokens(m.lower(b)))) != 0.0
    ensures |Embed(m, a)| == |Embed(m, b)|
    ensures Dot(Embed(m, a), Embed(m, b)) >= 0.0
    ensures Dot(Embed(m, a), Embed(m, b)) > 0.0 <==>
              exists t :: t in Tokens(m.lower(a)) && t in Tokens(m.lower(b))
  {
    var s, t := Tokens(m.lower(a)), Tokens(m.lower(b));
    var v, w := Weights(m, s), Weights(m, t);
    SumSquaresNonNegative(v);
    SumSquaresNonNegative(w);
    var x, y := m.sqrt(SumSquares(v)), m.sqrt(SumSquares(w));
    SquareSign(x);
    SquareSign(y);
    ProductCountsShared(m, s, t);
    SharedPairsIsPositive(s, t);
    DotScales(v, Divided(w, y), x);
    DotScales(w, v, y);
    DotCommutes(v, w);
    DotCommutes(v, Divided(w, y));
    SameSign(x, Dot(Divided(v, x), Divided(w, y)));
    SameSign(y, Dot(v, Divided(w, y)));
  }

  lemma {:induction false} SameSign(d: real, x: real)
    requires d > 0.0
    ensures Times(d, x) > 0.0 <==> x > 0.0
    ensures Times(d, x) >= 0.0 <==> x >= 0.0
  {
    if x > 0.0 {
      PositiveProduct(d, x);
    } else if x < 0.0 {
      PositiveProduct(d, -x);
      assert Times(d, x) == -Times(d, -x);
    }
  }

  /** Collisions matter: if two tokens share an entry with opposite signs, the one and a text with the
      other twice besides have opposite directions although they share a token. */
  lemma {:induction false} CollisionsCanHideSharing(m: Model, s: string, t: string)
    requires m.Valid() && m.word(s) % m.dimension == m.word(t) % m.dimension && m.odd(s) != m.odd(t)
    ensures Dot(Weights(m, [s]), Weights(m, [s, t, t])) == -1.0
  {
    var i, x := m.Bucket(s), m.Sign(s);
    TokenChangesOneEntry(m, [], s);
    TokenChangesOneEntry(m, [s], t);
    TokenChangesOneEntry(m, [s, t], t);
    assert [] + [s] == [s] && [s] + [t] == [s, t] && [s, t] + [t] == [s, t, t];
    var w := Weights(m, [s, t, t]);
    assert w[i] == -x;
    DotOfZero(m.dimension, w);
    DotUpdate(Weights(m, []), w, i, x);
    assert Times(x, -x) == -1.0;
  }
}
