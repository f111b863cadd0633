/** Operations the recommendation engine applies to lists of products: deduplication by
    internal id (a `filter` whose predicate fills a `Set`), the stable sort by price of
    `Array.prototype.sort`, and the random shuffle, whose random choices are an input. */
module ProductLists {
  import opened Wrappers
  import opened Seqs
  import opened Schema

  /** The internal ids occurring in a list. */
  function Ids(xs: seq<Product>): set<int> {
    set p | p in xs :: p.id
  }

  /** No internal id occurs twice. */
  predicate DistinctIds(xs: seq<Product>) {
    forall i, j :: 0 <= i < j < |xs| ==> xs[i].id != xs[j].id
  }

  lemma IdsAppend(xs: seq<Product>, x: Product)
    ensures Ids(xs + [x]) == Ids(xs) + {x.id}
  {
    assert forall p :: p in xs + [x] <==> p in xs || p == x;
  }

  // ---------------------------------------------------------------- dedup

  /** The products of `xs` whose id does not occur earlier in `xs`, in their order: the
      list that the source's `filter` with a growing `Set` of seen ids keeps. */
  function Dedup(xs: seq<Product>): (r: seq<Product>)
    ensures |r| <= |xs|
  {
    if xs == [] then []
    else
      var init, last := xs[..|xs| - 1], xs[|xs| - 1];
      if last.id in Ids(init) then Dedup(init) else Dedup(init) + [last]
  }

  /** Deduplication loses no id and keeps only ids of the input. */
  lemma {:induction false} DedupIds(xs: seq<Product>)
    ensures Ids(Dedup(xs)) == Ids(xs)
  {
    if xs != [] {
      var init, last := xs[..|xs| - 1], xs[|xs| - 1];
      assert xs == init + [last];
      DedupIds(init);
      IdsAppend(init, last);
      if last.id !in Ids(init) {
        IdsAppend(Dedup(init), last);
      }
    }
  }

  /** The result has pairwise-distinct ids. */
  lemma {:induction false} DedupDistinct(xs: seq<Product>)
    ensures DistinctIds(Dedup(xs))
  {
    if xs != [] {
      var init, last := xs[..|xs| - 1], xs[|xs| - 1];
      DedupDistinct(init);
      DedupIds(init);
      if last.id !in Ids(init) {
        var d := Dedup(init);
        assert forall i :: 0 <= i < |d| ==> d[i] in d && d[i].id in Ids(d);
      }
    }
  }

  /** `p` is the first product of its id in `xs`. */
  ghost predicate FirstOfItsId(xs: seq<Product>, p: Product) {
    FirstIndex(xs, ProductIdIs(p.id)).Some? && xs[FirstIndex(xs, ProductIdIs(p.id)).value] == p
  }

  /** An id absent from a list has no first index in it. */
  lemma NoIndexOfAbsentId(xs: seq<Product>, id: int)
    requires id !in Ids(xs)
    ensures FirstIndex(xs, ProductIdIs(id)).None?
  {
    forall k | 0 <= k < |xs| ensures xs[k].id != id {
      assert xs[k] in xs;
    }
  }

  /** A product that is the first of its id stays so when the list grows at its end. */
  lemma FirstOfItsIdAppend(xs: seq<Product>, x: Product, p: Product)
    requires FirstOfItsId(xs, p)
    ensures FirstOfItsId(xs + [x], p)
    ensures FirstIndex(xs + [x], ProductIdIs(p.id)) == FirstIndex(xs, ProductIdIs(p.id))
  {
    FirstIndexAppend(xs, x, ProductIdIs(p.id));
  }

  /** Each kept product is the first product of its id in the input. */
  lemma {:induction false} DedupKeepsFirsts(xs: seq<Product>)
    ensures forall p :: p in Dedup(xs) ==> FirstOfItsId(xs, p)
  {
    if xs != [] {
      var init, last := xs[..|xs| - 1], xs[|xs| - 1];
      assert xs == init + [last];
      DedupKeepsFirsts(init);
      forall p | p in Dedup(init) ensures FirstOfItsId(xs, p) {
        FirstOfItsIdAppend(init, last, p);
      }
      if last.id !in Ids(init) {
        NoIndexOfAbsentId(init, last.id);
        FirstIndexAppend(init, last, ProductIdIs(last.id));
      }
    }
  }

  /** The positions of `xs` where an id occurs for the first time, in increasing order. */
  ghost function FirstPositions(xs: seq<Product>): (f: seq<nat>)
    ensures forall i :: 0 <= i < |f| ==> f[i] < |xs|
  {
    if xs == [] then []
    else
      var init := xs[..|xs| - 1];
      if xs[|xs| - 1].id in Ids(init) then FirstPositions(init) else FirstPositions(init) + [|xs| - 1]
  }

  /** The first positions increase, and each is the first position of its id. */
  lemma {:induction false} FirstPositionsAreFirst(xs: seq<Product>)
    ensures forall i, j :: 0 <= i < j < |FirstPositions(xs)| ==> FirstPositions(xs)[i] < FirstPositions(xs)[j]
    ensures forall i, j :: 0 <= i < |FirstPositions(xs)| && 0 <= j < FirstPositions(xs)[i] ==>
              xs[j].id != xs[FirstPositions(xs)[i]].id
  {
    if xs != [] {
      var init, last := xs[..|xs| - 1], xs[|xs| - 1];
      FirstPositionsAreFirst(init);
      var f, F := FirstPositions(init), FirstPositions(xs);
      assert F == if last.id in Ids(init) then f else f + [|init|];
      forall i, j | 0 <= i < j < |F| ensures F[i] < F[j] {
        assert F[i] == f[i] < |init|;
        if j < |f| {
          assert F[j] == f[j];
        } else {
          assert F[j] == |init|;
        }
      }
      forall i, j | 0 <= i < |F| && 0 <= j < F[i] ensures xs[j].id != xs[F[i]].id {
        if i < |f| {
          assert F[i] == f[i] < |init|;
          assert xs[j] == init[j] && xs[F[i]] == init[f[i]];
        } else {
          assert F[i] == |init| && last.id !in Ids(init);
          assert xs[j] == init[j] && init[j] in init;
        }
      }
    }
  }

  /** Dedup keeps the products at the first positions, one each. */
  lemma {:induction false} DedupAtFirstPositions(xs: seq<Product>)
    ensures |Dedup(xs)| == |FirstPositions(xs)|
    ensures forall i :: 0 <= i < |FirstPositions(xs)| ==> Dedup(xs)[i] == xs[FirstPositions(xs)[i]]
  {
    if xs != [] {
      var init := xs[..|xs| - 1];
      DedupAtFirstPositions(init);
      var f := FirstPositions(init);
      assert forall i :: 0 <= i < |f| ==> xs[f[i]] == init[f[i]];
    }
  }

  /** Dedup keeps exactly the products at the first positions of their ids, in the order
      of those positions. */
  lemma DedupInFirstOrder(xs: seq<Product>)
    ensures var f, r := FirstPositions(xs), Dedup(xs);
      && |r| == |f|
      && (forall i :: 0 <= i < |f| ==> r[i] == xs[f[i]])
      && (forall i, j :: 0 <= i < j < |f| ==> f[i] < f[j])
      && (forall i, j :: 0 <= i < |f| && 0 <= j < f[i] ==> xs[j].id != xs[f[i]].id)
  {
    FirstPositionsAreFirst(xs);
    DedupAtFirstPositions(xs);
  }

  /** Everything kept comes from the input. */
  lemma {:induction false} DedupFromInput(xs: seq<Product>)
    ensures forall p :: p in Dedup(xs) ==> p in xs
  {
    if xs != [] {
      var init := xs[..|xs| - 1];
      DedupFromInput(init);
      assert forall p :: p in init ==> p in xs;
    }
  }

  /** A list whose ids are already distinct is left as it is. */
  lemma {:induction false} DedupOfDistinct(xs: seq<Product>)
    requires DistinctIds(xs)
    ensures Dedup(xs) == xs
  {
    if xs != [] {
      var init, last := xs[..|xs| - 1], xs[|xs| - 1];
      DedupOfDistinct(init);
      assert last.id !in Ids(init) by {
        forall p | p in init ensures p.id != last.id {
          var i :| 0 <= i < |init| && init[i] == p;
          assert xs[i] == p;
        }
      }
      assert xs == init + [last];
    }
  }

  /** The source's deduplication: one pass, keeping a product iff its id has not been
      seen, and adding the id to the seen set. */
  method DedupById(products: seq<Product>) returns (unique: seq<Product>)
    ensures unique == Dedup(products)
  {
    var seen: set<int> := {};
    unique := [];
    var i := 0;
    while i < |products|
      invariant 0 <= i <= |products|
      invariant seen == Ids(products[..i])
      invariant unique == Dedup(products[..i])
    {
      var product := products[i];
      assert products[..i + 1] == products[..i] + [product];
      IdsAppend(products[..i], product);
      if product.id !in seen {
        seen := seen + {product.id};
        unique := unique + [product];
      }
      i := i + 1;
    }
    assert products[..|products|] == products;
  }

  // ---------------------------------------------------------------- sort by price

  datatype Direction = Ascending | Descending

  /** `a` may precede `b` in a list sorted by price in direction `d`. */
  predicate InOrder(d: Direction, a: Product, b: Product) {
    if d == Ascending then a.fields.price <= b.fields.price else a.fields.price >= b.fields.price
  }

  predicate SortedBy(d: Direction, xs: seq<Product>) {
    forall i, j :: 0 <= i < j < |xs| ==> InOrder(d, xs[i], xs[j])
  }

  /** An element that may precede the head of a sorted list may precede all of it. */
  lemma SortedCons(d: Direction, x: Product, xs: seq<Product>)
    requires SortedBy(d, xs)
    requires xs != [] ==> InOrder(d, x, xs[0])
    ensures SortedBy(d, [x] + xs)
  {
    var r := [x] + xs;
    forall i, j | 0 <= i < j < |r| ensures InOrder(d, r[i], r[j]) {
      if i == 0 && j > 1 {
        assert InOrder(d, xs[0], xs[j - 1]);
      }
    }
  }

  /** Inserts `x` after every element that does not strictly follow it, which keeps equal
      prices in their original order. */
  function Insert(d: Direction, x: Product, sorted: seq<Product>): (r: seq<Product>)
    requires SortedBy(d, sorted)
    ensures SortedBy(d, r)
    ensures multiset(r) == multiset(sorted) + multiset{x}
    ensures r[0] == x || r[0] == sorted[0]
  {
    if sorted == [] || !InOrder(d, sorted[0], x) then
      SortedCons(d, x, sorted);
      [x] + sorted
    else
      var rest := Insert(d, x, sorted[1..]);
      InsertBehindHead(d, x, sorted, rest);
      [sorted[0]] + rest
  }

  /** The step of `Insert` that keeps the head in front of the insertion into the tail. */
  lemma InsertBehindHead(d: Direction, x: Product, sorted: seq<Product>, rest: seq<Product>)
    requires SortedBy(d, sorted) && sorted != [] && InOrder(d, sorted[0], x)
    requires SortedBy(d, rest) && multiset(rest) == multiset(sorted[1..]) + multiset{x}
    requires rest[0] == x || rest[0] == sorted[1]
    ensures SortedBy(d, [sorted[0]] + rest)
    ensures multiset([sorted[0]] + rest) == multiset(sorted) + multiset{x}
  {
    assert sorted == [sorted[0]] + sorted[1..];
    SortedCons(d, sorted[0], rest);
  }

  /** `xs.sort((a, b) => a.price - b.price)` for `Ascending`, `b.price - a.price` for
      `Descending`: a stable insertion sort by price. */
  function SortByPrice(d: Direction, xs: seq<Product>): (r: seq<Product>)
    ensures SortedBy(d, r)
    ensures multiset(r) == multiset(xs)
  {
    if xs == [] then []
    else
      var init, last := xs[..|xs| - 1], xs[|xs| - 1];
      assert xs == init + [last];
      Insert(d, last, SortByPrice(d, init))
  }

  /** An element that every element of a sorted list may precede goes to the end. */
  lemma {:induction false} InsertAtEnd(d: Direction, x: Product, sorted: seq<Product>)
    requires SortedBy(d, sorted)
    requires forall i :: 0 <= i < |sorted| ==> InOrder(d, sorted[i], x)
    ensures Insert(d, x, sorted) == sorted + [x]
    decreases |sorted|
  {
    if sorted != [] {
      InsertAtEnd(d, x, sorted[1..]);
      assert [sorted[0]] + (sorted[1..] + [x]) == sorted + [x];
    }
  }

  /** Sorting a list that is already in order changes nothing. */
  lemma {:induction false} SortByPriceOfSorted(d: Direction, xs: seq<Product>)
    requires SortedBy(d, xs)
    ensures SortByPrice(d, xs) == xs
  {
    if xs != [] {
      var init, last := xs[..|xs| - 1], xs[|xs| - 1];
      assert SortedBy(d, init);
      SortByPriceOfSorted(d, init);
      InsertAtEnd(d, last, init);
      assert init + [last] == xs;
    }
  }

  /** The products of price `c`. */
  function PriceIs(c: int): Product -> bool {
    (p: Product) => p.fields.price == c
  }

  /** `x` goes behind every product of its own price, and all those are in front of the
      insertion point. */
  lemma {:induction false} InsertFilterPrice(d: Direction, x: Product, sorted: seq<Product>, c: int)
    requires SortedBy(d, sorted)
    ensures Filter(Insert(d, x, sorted), PriceIs(c)) ==
              Filter(sorted, PriceIs(c)) + (if x.fields.price == c then [x] else [])
    decreases |sorted|
  {
    var P := PriceIs(c);
    var X := if x.fields.price == c then [x] else [];
    if sorted == [] || !InOrder(d, sorted[0], x) {
      assert Insert(d, x, sorted) == [x] + sorted;
      InsertedInFront(d, x, sorted, c);
    } else {
      var rest := Insert(d, x, sorted[1..]);
      var tail := Filter(sorted[1..], P);
      var h := if P(sorted[0]) then [sorted[0]] else [];
      assert SortedBy(d, sorted[1..]);
      InsertFilterPrice(d, x, sorted[1..], c);
      assert Insert(d, x, sorted) == [sorted[0]] + rest;
      FilterFront(sorted[0], rest, P);
      assert Filter(Insert(d, x, sorted), P) == h + (tail + X);
      HeadTail(sorted);
      FilterFront(sorted[0], sorted[1..], P);
      assert Filter(sorted, P) == h + tail;
      ConcatAssoc(h, tail, X);
    }
  }

  /** A product put in front of a sorted list strictly precedes all of it, so none of
      them has its price and it is the first of its price. */
  lemma InsertedInFront(d: Direction, x: Product, sorted: seq<Product>, c: int)
    requires SortedBy(d, sorted) && (sorted == [] || !InOrder(d, sorted[0], x))
    ensures Filter([x] + sorted, PriceIs(c)) ==
              Filter(sorted, PriceIs(c)) + (if x.fields.price == c then [x] else [])
  {
    var P := PriceIs(c);
    FilterFront(x, sorted, P);
    if x.fields.price == c {
      forall y | y in sorted ensures !P(y) {
        var i :| 0 <= i < |sorted| && sorted[i] == y;
        if i > 0 {
          assert InOrder(d, sorted[0], sorted[i]);
        }
      }
      FilterNothing(sorted, P);
    }
  }

  /** The sort is stable: the products of any one price keep their input order. */
  lemma {:induction false} SortByPriceStable(d: Direction, xs: seq<Product>, c: int)
    ensures Filter(SortByPrice(d, xs), PriceIs(c)) == Filter(xs, PriceIs(c))
  {
    if xs != [] {
      var init, last := xs[..|xs| - 1], xs[|xs| - 1];
      SortByPriceStable(d, init, c);
      InsertFilterPrice(d, last, SortByPrice(d, init), c);
      FrontLast(xs);
      FilterSnoc(init, last, PriceIs(c));
    }
  }

  // ---------------------------------------------------------------- shuffle

  /** A shuffle driven by given random choices: each choice picks, modulo the number of
      elements left, the next element to output. `sort(() => 0.5 - Math.random())`
      yields some permutation of its input; which one is left to the choices. */
  function Shuffle<T>(xs: seq<T>, picks: seq<nat>): (r: seq<T>)
    ensures multiset(r) == multiset(xs)
    decreases |xs|
  {
    if xs == [] then []
    else
      var k := if picks == [] then 0 else picks[0] % |xs|;
      var rest := xs[..k] + xs[k + 1..];
      MultisetRemoveAt(xs, k);
      [xs[k]] + Shuffle(rest, if picks == [] then [] else picks[1..])
  }
}
