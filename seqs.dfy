/** Generic sequence operations standing for the JavaScript array methods the source
    uses: `slice(0, n)`, `filter`, and `find` / `findIndex`. */
module Seqs {
  import opened Wrappers

  /** `xs.slice(0, n)`. */
  function Take<T>(xs: seq<T>, n: nat): (r: seq<T>)
    ensures |r| == if n < |xs| then n else |xs|
    ensures r == xs[..|r|]
  {
    if n < |xs| then xs[..n] else xs
  }

  /** A prefix of a prefix is a prefix. */
  lemma PrefixOfPrefix<T>(xs: seq<T>, ys: seq<T>, zs: seq<T>)
    requires |ys| <= |xs| && ys == xs[..|ys|]
    requires |zs| <= |ys| && zs == ys[..|zs|]
    ensures zs == xs[..|zs|]
  {
    assert xs[..|ys|][..|zs|] == xs[..|zs|];
  }

  /** A non-empty sequence is its head followed by its tail. */
  lemma HeadTail<T>(xs: seq<T>)
    requires xs != []
    ensures xs == [xs[0]] + xs[1..]
  {
  }

  /** A non-empty sequence is its front followed by its last element. */
  lemma FrontLast<T>(xs: seq<T>)
    requires xs != []
    ensures xs == xs[..|xs| - 1] + [xs[|xs| - 1]]
  {
  }

  lemma ConcatAssoc<T>(a: seq<T>, b: seq<T>, c: seq<T>)
    ensures a + (b + c) == (a + b) + c
  {
  }

  /** Removing the element at `k` takes one occurrence of it out of the multiset. */
  lemma MultisetRemoveAt<T>(xs: seq<T>, k: nat)
    requires k < |xs|
    ensures multiset(xs) == multiset(xs[..k] + xs[k + 1..]) + multiset{xs[k]}
  {
    assert xs == xs[..k] + [xs[k]] + xs[k + 1..];
  }

  /** `xs.findIndex(P)`, with `None` for -1. */
  function FirstIndex<T>(xs: seq<T>, P: T -> bool): (r: Option<nat>)
    ensures r.Some? ==> r.value < |xs| && P(xs[r.value])
    ensures r.Some? ==> forall j :: 0 <= j < r.value ==> !P(xs[j])
    ensures r.None? ==> forall j :: 0 <= j < |xs| ==> !P(xs[j])
  {
    if xs == [] then None
    else if P(xs[0]) then Some(0)
    else
      match FirstIndex(xs[1..], P)
      case None => None
      case Some(i) => Some(i + 1)
  }

  /** `xs.find(P)`, with `None` for `undefined`. */
  function Find<T>(xs: seq<T>, P: T -> bool): Option<T> {
    match FirstIndex(xs, P)
    case None => None
    case Some(i) => Some(xs[i])
  }

  /** `r` is what `find` must give: the earliest element satisfying `P`, or nothing when
      none does. */
  ghost predicate IsEarliest<T>(xs: seq<T>, P: T -> bool, r: Option<T>) {
    && (r.None? <==> forall j :: 0 <= j < |xs| ==> !P(xs[j]))
    && (r.Some? ==> exists i :: 0 <= i < |xs| && xs[i] == r.value && P(xs[i])
                                && forall j :: 0 <= j < i ==> !P(xs[j]))
  }

  lemma FindIsEarliest<T>(xs: seq<T>, P: T -> bool)
    ensures IsEarliest(xs, P, Find(xs, P))
  {
    var i := FirstIndex(xs, P);
    if i.Some? {
      assert xs[i.value] == Find(xs, P).value;
    }
  }

  /** Appending an element to the end can only change a `findIndex` that found nothing. */
  lemma FirstIndexAppend<T>(xs: seq<T>, x: T, P: T -> bool)
    ensures FirstIndex(xs + [x], P) == if FirstIndex(xs, P).Some? then FirstIndex(xs, P)
                                       else if P(x) then Some(|xs|) else None
  {
    var ys := xs + [x];
    var i := FirstIndex(xs, P);
    var k := FirstIndex(ys, P);
    if i.Some? {
      assert P(ys[i.value]);
      assert k.Some? && k.value == i.value;
    } else if P(x) {
      assert P(ys[|xs|]);
      assert k.Some? && k.value == |xs|;
    } else {
      assert forall j :: 0 <= j < |ys| ==> !P(ys[j]);
    }
  }

  /** Appending an element to the end can only change a `find` that found nothing. */
  lemma FindAppend<T>(xs: seq<T>, x: T, P: T -> bool)
    ensures Find(xs + [x], P) == if Find(xs, P).Some? then Find(xs, P)
                                 else if P(x) then Some(x) else None
  {
    FirstIndexAppend(xs, x, P);
  }

  /** `xs.filter(P)`: the elements that satisfy `P`, in their original order. */
  function Filter<T>(xs: seq<T>, P: T -> bool): (r: seq<T>)
    ensures |r| <= |xs|
  {
    if xs == [] then []
    else
      var rest := Filter(xs[..|xs| - 1], P);
      if P(xs[|xs| - 1]) then rest + [xs[|xs| - 1]] else rest
  }

  /** The filter keeps exactly the elements that satisfy `P`. */
  lemma {:induction false} FilterMembers<T>(xs: seq<T>, P: T -> bool)
    ensures forall x :: x in Filter(xs, P) <==> x in xs && P(x)
  {
    if xs != [] {
      var init := xs[..|xs| - 1];
      FilterMembers(init, P);
      assert xs == init + [xs[|xs| - 1]];
    }
  }

  /** Filtering a list extended at its end. */
  lemma FilterSnoc<T>(xs: seq<T>, x: T, P: T -> bool)
    ensures Filter(xs + [x], P) == if P(x) then Filter(xs, P) + [x] else Filter(xs, P)
  {
    assert (xs + [x])[..|xs|] == xs;
  }

  /** One step of a filter computed element by element: `x` is kept. */
  lemma FilterKeep<T>(xs: seq<T>, x: T, P: T -> bool, before: seq<T>)
    requires Filter(xs, P) == before && P(x)
    ensures Filter(xs + [x], P) == before + [x]
  {
    FilterSnoc(xs, x, P);
  }

  /** One step of a filter computed element by element: `x` is dropped. */
  lemma FilterDrop<T>(xs: seq<T>, x: T, P: T -> bool, before: seq<T>)
    requires Filter(xs, P) == before && !P(x)
    ensures Filter(xs + [x], P) == before
  {
    FilterSnoc(xs, x, P);
  }

  /** Filtering a list extended at its front. */
  lemma FilterFront<T>(x: T, xs: seq<T>, P: T -> bool)
    ensures Filter([x] + xs, P) == (if P(x) then [x] else []) + Filter(xs, P)
  {
    FilterAppend([x], xs, P);
    assert [x][..0] == [];
  }

  /** A filter that no element passes is empty. */
  lemma FilterNothing<T>(xs: seq<T>, P: T -> bool)
    requires forall x :: x in xs ==> !P(x)
    ensures Filter(xs, P) == []
  {
    FilterMembers(xs, P);
  }

  lemma {:induction false} FilterAppend<T>(xs: seq<T>, ys: seq<T>, P: T -> bool)
    ensures Filter(xs + ys, P) == Filter(xs, P) + Filter(ys, P)
    decreases |ys|
  {
    if ys == [] {
      assert xs + ys == xs;
    } else {
      var zs := xs + ys;
      var ys' := ys[..|ys| - 1];
      assert zs[..|zs| - 1] == xs + ys';
      assert zs[|zs| - 1] == ys[|ys| - 1];
      FilterAppend(xs, ys', P);
      if P(ys[|ys| - 1]) {
        calc {
          Filter(zs, P);
          Filter(xs + ys', P) + [ys[|ys| - 1]];
          Filter(xs, P) + Filter(ys', P) + [ys[|ys| - 1]];
          Filter(xs, P) + (Filter(ys', P) + [ys[|ys| - 1]]);
        }
      }
    }
  }

  /** Filtering a sequence whose elements all satisfy `P` changes nothing. */
  lemma {:induction false} FilterAll<T>(xs: seq<T>, P: T -> bool)
    requires forall x :: x in xs ==> P(x)
    ensures Filter(xs, P) == xs
  {
    if xs != [] {
      FilterAll(xs[..|xs| - 1], P);
    }
  }
}
