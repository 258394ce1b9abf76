/**
 * Sub-category learning on complaint submission (complaintRoutes.ts):
 * the free-text sub-category is sent to a text-generation endpoint for a
 * standard form, with a cached bearer token that is invalidated once on
 * a 401, and both strings are folded into the category's two growing
 * vocabularies.
 *
 * The endpoint and the command that mints tokens are oracles:
 * `vertex(attempt, token)` is the reply to the fetch made on that attempt
 * with that token, and `gcloud(k)` is what the command prints the k-th
 * time it runs during one call.
 */
module SubCategory {
  import opened Wrappers
  import opened Text

  /** HTTP status of the reply and the first candidate's first text part, if any. */
  datatype Reply = Reply(status: int, text: Option<string>)

  /** `Response.ok`. */
  predicate IsOk(status: int) {
    200 <= status <= 299
  }

  /** The value returned once a reply is final: the trimmed model text, or the raw input. */
  function Settle(reply: Reply, raw: string): (r: string)
    ensures r == raw || (r != "" && IsTrimmed(r))
    ensures !IsOk(reply.status) ==> r == raw
  {
    if !IsOk(reply.status) || reply.text.None? then raw
    else
      var t := Trim(reply.text.value);
      if t == "" then raw else t
  }

  /**
   * One call of the standardiser, as the pair (value returned, token
   * cached afterwards). The empty token stands for "no cached token": the
   * code tests the cache only for truthiness, so the two are alike.
   */
  function Standardized(raw: string, cached: string, gcloud: nat -> string, vertex: (nat, string) -> Reply): (string, string)
  {
    var t0 := if cached != "" then cached else Trim(gcloud(0));
    var r0 := vertex(0, t0);
    if r0.status != 401 then (Settle(r0, raw), t0)
    else
      var t1 := Trim(gcloud(if cached != "" then 0 else 1));
      (Settle(vertex(1, t1), raw), t1)
  }

  /** The result is always either the raw input or non-empty trimmed model text. */
  lemma StandardizedIsRawOrModelText(raw: string, cached: string, gcloud: nat -> string, vertex: (nat, string) -> Reply)
    ensures var r := Standardized(raw, cached, gcloud, vertex).0;
            r == raw || (r != "" && IsTrimmed(r))
  {
  }

  /** With a cached token and no 401, no token is minted: the outcome does not depend on the minting command. */
  lemma CachedTokenReused(raw: string, cached: string, g1: nat -> string, g2: nat -> string, vertex: (nat, string) -> Reply)
    requires cached != "" && vertex(0, cached).status != 401
    ensures Standardized(raw, cached, g1, vertex) == Standardized(raw, cached, g2, vertex)
    ensures Standardized(raw, cached, g1, vertex).1 == cached
  {
  }

  /** Only attempts 0 and 1 are ever made: endpoints that agree on those give the same outcome. */
  lemma AtMostTwoAttempts(raw: string, cached: string, gcloud: nat -> string, v1: (nat, string) -> Reply, v2: (nat, string) -> Reply)
    requires forall t :: v1(0, t) == v2(0, t) && v1(1, t) == v2(1, t)
    ensures Standardized(raw, cached, gcloud, v1) == Standardized(raw, cached, gcloud, v2)
  {
  }

  /** A 401 on the first attempt replaces the token; a 401 on the second returns the input. */
  lemma UnauthorizedTwiceFallsBack(raw: string, cached: string, gcloud: nat -> string, vertex: (nat, string) -> Reply)
    requires vertex(0, if cached != "" then cached else Trim(gcloud(0))).status == 401
    requires vertex(1, Trim(gcloud(if cached != "" then 0 else 1))).status == 401
    ensures Standardized(raw, cached, gcloud, vertex) == (raw, Trim(gcloud(if cached != "" then 0 else 1)))
  {
  }

  /** Holder of the module-level cached token. */
  class TokenCache {
    var cached: string

    constructor ()
      ensures cached == ""
    {
      cached := "";
    }

    /** `getVertexToken`: mint (and trim) only when nothing is cached. */
    method GetToken(minted: string) returns (t: string)
      modifies this
      ensures old(cached) != "" ==> t == old(cached)
      ensures old(cached) == "" ==> t == Trim(minted)
      ensures cached == t
    {
      if cached == "" {
        cached := Trim(minted);
      }
      t := cached;
    }

    /** `invalidateToken`. */
    method Invalidate()
      modifies this
      ensures cached == ""
    {
      cached := "";
    }

    /** `standardizeSubCategory`: at most two attempts, retrying only after a first-attempt 401. */
    method Standardize(raw: string, gcloud: nat -> string, vertex: (nat, string) -> Reply) returns (r: string)
      modifies this
      ensures (r, cached) == Standardized(raw, old(cached), gcloud, vertex)
    {
      ghost var t0 := if cached != "" then cached else Trim(gcloud(0));
      ghost var t1 := Trim(gcloud(if cached != "" then 0 else 1));
      ghost var expected := Standardized(raw, old(cached), gcloud, vertex);
      var mints: nat := 0;
      var attempt: nat := 0;
      while attempt < 2
        invariant attempt <= 1
        invariant attempt == 0 ==> cached == old(cached) && mints == 0
        invariant attempt == 1 ==> cached == "" && Trim(gcloud(mints)) == t1
        invariant attempt == 0 && vertex(0, t0).status != 401 ==> expected == (Settle(vertex(0, t0), raw), t0)
        invariant attempt == 1 ==> expected == (Settle(vertex(1, t1), raw), t1)
        decreases 2 - attempt
      {
        var wasEmpty := cached == "";
        var token := GetToken(gcloud(mints));
        if wasEmpty {
          mints := mints + 1;
        }
        var reply := vertex(attempt, token);
        if reply.status == 401 && attempt == 0 {
          Invalidate();
          attempt := attempt + 1;
          continue;
        }
        // a non-2xx reply or an empty text falls back to the input
        return Settle(reply, raw);
      }
      // unreachable: the second attempt always returns from inside the loop
      assert false;
    }
  }

  // ---------------------------------------------------------------- vocabulary growth

  predicate NoDuplicates<T(==)>(s: seq<T>) {
    forall i, j :: 0 <= i < j < |s| ==> s[i] != s[j]
  }

  /** `Array.from(new Set(s))`: the first occurrence of each element, in order. */
  function Dedup(s: seq<string>): (r: seq<string>)
    ensures NoDuplicates(r)
    ensures forall x :: x in r <==> x in s
    ensures |r| <= |s|
  {
    if s == [] then []
    else
      var d := Dedup(s[..|s| - 1]);
      var x := s[|s| - 1];
      assert forall y :: y in s <==> y in s[..|s| - 1] || y == x;
      if x in d then d else d + [x]
  }

  /** Position of the first occurrence of `x` in `s`. */
  function FirstIndex(s: seq<string>, x: string): (k: nat)
    requires x in s
    ensures k < |s| && s[k] == x && x !in s[..k]
  {
    if s[0] == x then 0
    else
      assert x in s[1..];
      var k := FirstIndex(s[1..], x);
      assert s[..k + 1] == [s[0]] + s[1..][..k];
      k + 1
  }

  /** Any position at which `x` occurs for the first time is `FirstIndex`. */
  lemma FirstIndexUnique(s: seq<string>, x: string, k: nat)
    requires k < |s| && s[k] == x && x !in s[..k]
    ensures FirstIndex(s, x) == k
  {
  }

  /** `Dedup` lists the elements in the order of their first occurrence in the input. */
  lemma {:induction false} DedupKeepsFirstOccurrenceOrder(s: seq<string>)
    ensures forall i, j :: 0 <= i < j < |Dedup(s)| ==> FirstIndex(s, Dedup(s)[i]) < FirstIndex(s, Dedup(s)[j])
  {
    if s != [] {
      var init := s[..|s| - 1];
      var x := s[|s| - 1];
      var d := Dedup(init);
      DedupKeepsFirstOccurrenceOrder(init);
      forall y | y in init
        ensures FirstIndex(s, y) == FirstIndex(init, y) < |s| - 1
      {
        var k := FirstIndex(init, y);
        assert s[..k] == init[..k];
        FirstIndexUnique(s, y, k);
      }
      if x !in d {
        assert x !in init;
        assert s[..|s| - 1] == init;
        FirstIndexUnique(s, x, |s| - 1);
      }
    }
  }

  /** A list without duplicates passes through the set unchanged. */
  lemma {:induction false} DedupOfDistinct(s: seq<string>)
    requires NoDuplicates(s)
    ensures Dedup(s) == s
  {
    if s != [] {
      var init := s[..|s| - 1];
      assert NoDuplicates(init);
      DedupOfDistinct(init);
      assert s[|s| - 1] !in init;
      assert init + [s[|s| - 1]] == s;
    }
  }

  /** `[...new Set([...xs, x])]`: the old list, deduplicated, with `x` appended only if it was absent. */
  function AddUnique(xs: seq<string>, x: string): (r: seq<string>)
    ensures r == Dedup(xs) + (if x in xs then [] else [x])
  {
    assert (xs + [x])[..|xs|] == xs;
    Dedup(xs + [x])
  }

  /** For a list without duplicates nothing is reordered or removed, and `x` is appended iff absent. */
  lemma AddUniqueKeepsOrder(xs: seq<string>, x: string)
    requires NoDuplicates(xs)
    ensures AddUnique(xs, x) == if x in xs then xs else xs + [x]
  {
    DedupOfDistinct(xs);
  }

  datatype Category = Category(name: string, assignedDepartment: string,
                               subCategories: seq<string>, learnedSubCategories: seq<string>)

  /** The category row after one submission with raw sub-category `raw` standardised to `standardized`. */
  function Learn(c: Category, raw: string, standardized: string): (r: Category)
    ensures r.name == c.name && r.assignedDepartment == c.assignedDepartment
    ensures forall x :: x in r.subCategories <==> x in c.subCategories || x == raw
    ensures forall x :: x in r.learnedSubCategories <==> x in c.learnedSubCategories || x == standardized
    ensures NoDuplicates(r.subCategories) && NoDuplicates(r.learnedSubCategories)
  {
    c.(subCategories := AddUnique(c.subCategories, raw),
       learnedSubCategories := AddUnique(c.learnedSubCategories, standardized))
  }

  /** Learning twice from the same submission changes nothing the second time. */
  lemma LearnIdempotent(c: Category, raw: string, standardized: string)
    ensures Learn(Learn(c, raw, standardized), raw, standardized) == Learn(c, raw, standardized)
  {
    var once := Learn(c, raw, standardized);
    AddUniqueKeepsOrder(once.subCategories, raw);
    AddUniqueKeepsOrder(once.learnedSubCategories, standardized);
  }

  /** When the endpoint fails, the raw string lands in both vocabularies. */
  lemma FailedStandardisationLearnsRaw(c: Category, raw: string, cached: string,
                                       gcloud: nat -> string, vertex: (nat, string) -> Reply)
    requires var t0 := if cached != "" then cached else Trim(gcloud(0));
             vertex(0, t0).status != 401 && !IsOk(vertex(0, t0).status)
    ensures var std := Standardized(raw, cached, gcloud, vertex).0;
            std == raw && raw in Learn(c, raw, std).subCategories && raw in Learn(c, raw, std).learnedSubCategories
  {
  }

  type CategoryId = string

  datatype Submission = Learned(categoryId: CategoryId, standardized: string) | UnknownCategory

  /** The category table touched by `POST /newcomplaint`. */
  class CategoryTable {
    var categories: map<CategoryId, Category>

    /**
     * Finds the category by name ignoring case, standardises the
     * sub-category, and folds both strings into that category. An unknown
     * name is answered with 400 before the endpoint is called.
     */
    method Submit(categoryName: string, raw: string, cache: TokenCache,
                  gcloud: nat -> string, vertex: (nat, string) -> Reply) returns (r: Submission)
      modifies this, cache
      ensures r.UnknownCategory? <==> forall id :: id in old(categories) ==> ToLower(old(categories)[id].name) != ToLower(categoryName)
      ensures r.UnknownCategory? ==> categories == old(categories) && cache.cached == old(cache.cached)
      ensures r.Learned? ==>
        && r.categoryId in old(categories)
        && ToLower(old(categories)[r.categoryId].name) == ToLower(categoryName)
        && (r.standardized, cache.cached) == Standardized(raw, old(cache.cached), gcloud, vertex)
        && categories == old(categories)[r.categoryId := Learn(old(categories)[r.categoryId], raw, r.standardized)]
    {
      if id :| id in categories && ToLower(categories[id].name) == ToLower(categoryName) {
        var std := cache.Standardize(raw, gcloud, vertex);
        categories := categories[id := Learn(categories[id], raw, std)];
        r := Learned(id, std);
      } else {
        r := UnknownCategory;
      }
    }
  }
}
