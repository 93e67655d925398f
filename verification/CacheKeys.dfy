/** The keys of the search cache. */
module CacheKeys {
  import opened Wrappers
  import opened Tokenizer

  const DIGITS := "0123456789"

  /** `str(n)`. */
  function Decimal(n: nat): (s: string)
    ensures s != ""
  {
    if n < 10 then [DIGITS[n]] else Decimal(n / 10) + [DIGITS[n % 10]]
  }

  /** `str(uuid)`: identifiers have different texts, which contain no bar and are not "*". */
  ghost predicate IsUuidText(uuid: int -> string) {
    && (forall a, b :: uuid(a) == uuid(b) ==> a == b)
    && (forall a :: '|' !in uuid(a) && uuid(a) != "*")
  }

  function CollectionText(uuid: int -> string, collection: Option<int>): string {
    if collection.Some? then uuid(collection.value) else "*"
  }

  /** What is hashed. */
  function Material(uuid: int -> string, lower: string -> string, tenant: int, collection: Option<int>, text: string,
                    topK: nat): string
  {
    uuid(tenant) + "|" + (CollectionText(uuid, collection) + "|" + (Decimal(topK) + "|" + Normalize(lower, text)))
  }

  /** A key: "search:", the tenant, and the SHA-256 digest, which as SHA-256 is taken to be
      collision free is modelled by what is hashed. */
  datatype CacheKey = CacheKey(tenant: string, hashed: string)

  /** `build_cache_key`. */
  function BuildCacheKey(uuid: int -> string, lower: string -> string, tenant: int, collection: Option<int>, text: string,
                         topK: nat): CacheKey
  {
    CacheKey(uuid(tenant), Material(uuid, lower, tenant, collection, text, topK))
  }

  lemma {:induction false} DigitsDiffer(a: nat, b: nat)
    requires a < 10 && b < 10 && DIGITS[a] == DIGITS[b]
    ensures a == b
  {
  }

  lemma {:induction false} DecimalHasNoBar(n: nat)
    ensures '|' !in Decimal(n)
  {
    if n >= 10 {
      DecimalHasNoBar(n / 10);
    }
  }

  lemma {:induction false} DecimalIsInjective(a: nat, b: nat)
    requires Decimal(a) == Decimal(b)
    ensures a == b
  {
    var s, t := Decimal(a), Decimal(b);
    if a >= 10 && b >= 10 {
      assert s[|s| - 1] == DIGITS[a % 10] && t[|t| - 1] == DIGITS[b % 10];
      assert s[..|s| - 1] == Decimal(a / 10) && t[..|t| - 1] == Decimal(b / 10);
      DecimalIsInjective(a / 10, b / 10);
      DigitsDiffer(a % 10, b % 10);
    } else if a < 10 && b < 10 {
      DigitsDiffer(a, b);
    }
  }

  lemma {:induction false} FirstBar(a: string, x: string)
    requires '|' !in a
    ensures (a + "|" + x)[|a|] == '|' && forall i :: 0 <= i < |a| ==> (a + "|" + x)[i] != '|'
  {
    forall i | 0 <= i < |a| ensures (a + "|" + x)[i] != '|' {
      assert a[i] in a;
    }
  }

  /** What stands before the first bar and what stands after it. */
  lemma {:induction false} SplitAtBar(a: string, x: string, b: string, y: string)
    requires '|' !in a && '|' !in b && a + "|" + x == b + "|" + y
    ensures a == b && x == y
  {
    var s := a + "|" + x;
    FirstBar(a, x);
    FirstBar(b, y);
    assert a == s[..|a|] && b == s[..|b|];
    assert x == s[|a| + 1..] && y == s[|b| + 1..];
  }

  lemma {:induction false} UuidTextFacts(uuid: int -> string, a: int, b: int)
    requires IsUuidText(uuid)
    ensures uuid(a) == uuid(b) ==> a == b
    ensures '|' !in uuid(a) && uuid(a) != "*"
  {
  }

  lemma {:induction false} CollectionTextIsInjective(uuid: int -> string, a: Option<int>, b: Option<int>)
    requires IsUuidText(uuid) && CollectionText(uuid, a) == CollectionText(uuid, b)
    ensures a == b
  {
    if a.Some? {
      UuidTextFacts(uuid, a.value, if b.Some? then b.value else 0);
    } else if b.Some? {
      UuidTextFacts(uuid, b.value, 0);
    }
  }

  lemma {:induction false} CollectionTextHasNoBar(uuid: int -> string, collection: Option<int>)
    requires IsUuidText(uuid)
    ensures '|' !in CollectionText(uuid, collection)
  {
    if collection.Some? {
      UuidTextFacts(uuid, collection.value, 0);
    }
  }

  /** Two searches share a cache entry if and only if they are of the same tenant, the same
      collection filter, the same top_k and, in lower case, the same words; so no result crosses a
      tenant or collection boundary. */
  lemma {:induction false} KeysAreExact(uuid: int -> string, lower: string -> string,
                                        tenant1: int, collection1: Option<int>, text1: string, topK1: nat,
                                        tenant2: int, collection2: Option<int>, text2: string, topK2: nat)
    requires IsUuidText(uuid)
    ensures BuildCacheKey(uuid, lower, tenant1, collection1, text1, topK1)
         == BuildCacheKey(uuid, lower, tenant2, collection2, text2, topK2)
       <==> tenant1 == tenant2 && collection1 == collection2 && topK1 == topK2
            && Normalize(lower, text1) == Normalize(lower, text2)
    ensures Normalize(lower, text1) == Normalize(lower, text2) <==> Words(lower(text1)) == Words(lower(text2))
  {
    SameNormalFormExactlyWhen(lower, text1, text2);
    if BuildCacheKey(uuid, lower, tenant1, collection1, text1, topK1)
       == BuildCacheKey(uuid, lower, tenant2, collection2, text2, topK2) {
      var n1, n2 := Normalize(lower, text1), Normalize(lower, text2);
      var c1, c2 := CollectionText(uuid, collection1), CollectionText(uuid, collection2);
      SplitAtBar(uuid(tenant1), c1 + "|" + (Decimal(topK1) + "|" + n1), uuid(tenant2), c2 + "|" + (Decimal(topK2) + "|" + n2));
      CollectionTextHasNoBar(uuid, collection1);
      CollectionTextHasNoBar(uuid, collection2);
      SplitAtBar(c1, Decimal(topK1) + "|" + n1, c2, Decimal(topK2) + "|" + n2);
      CollectionTextIsInjective(uuid, collection1, collection2);
      DecimalHasNoBar(topK1);
      DecimalHasNoBar(topK2);
      SplitAtBar(Decimal(topK1), n1, Decimal(topK2), n2);
      DecimalIsInjective(topK1, topK2);
    }
  }
}
