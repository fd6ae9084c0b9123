/**
  * List helpers shared by the three grid screens (sections in ACSView, cards in
  * SectionDetailView and UCSView): order-preserving filtering, the
  * favourites-first ordering behind the star button, and the Photos-like
  * delete selection.
  */
module Lists {
  import opened Common

  /** `compactMap`: the results of `f` that are present, in the order of `xs`. */
  function CompactMap<T, U>(xs: seq<T>, f: T -> Option<U>): (r: seq<U>)
    ensures |r| <= |xs|
  {
    if xs == [] then []
    else CompactMap(xs[..|xs| - 1], f) + OptionToSeq(f(xs[|xs| - 1]))
  }

  /** `compactMap` distributes over concatenation. */
  lemma {:induction false} CompactMapAppend<T, U>(a: seq<T>, b: seq<T>, f: T -> Option<U>)
    ensures CompactMap(a + b, f) == CompactMap(a, f) + CompactMap(b, f)
  {
    if b == [] {
      assert a + b == a;
    } else {
      var b' := b[..|b| - 1];
      assert (a + b)[..|a + b| - 1] == a + b';
      assert (a + b)[|a + b| - 1] == b[|b| - 1];
      CompactMapAppend(a, b', f);
    }
  }

  /** An element mapped to nothing can be dropped from the input without changing the result. */
  lemma {:induction false} CompactMapSkip<T, U>(xs: seq<T>, i: nat, f: T -> Option<U>)
    requires i < |xs| && f(xs[i]).None?
    ensures CompactMap(xs, f) == CompactMap(xs[..i] + xs[i + 1..], f)
  {
    var before, x, after := xs[..i], xs[i], xs[i + 1..];
    assert xs == (before + [x]) + after;
    assert CompactMap([x], f) == [] by {
      assert [x][..0] == [];
    }
    calc {
      CompactMap(xs, f);
      { CompactMapAppend(before + [x], after, f); }
      CompactMap(before + [x], f) + CompactMap(after, f);
      { CompactMapAppend(before, [x], f); }
      CompactMap(before, f) + CompactMap(after, f);
      { CompactMapAppend(before, after, f); }
      CompactMap(before + after, f);
    }
  }

  /** The elements of `xs` that satisfy `p`, in their original order. */
  function Filter<T>(xs: seq<T>, p: T -> bool): (r: seq<T>)
    ensures |r| <= |xs|
    ensures forall x :: x in r ==> x in xs && p(x)
    ensures forall x :: x in xs && p(x) ==> x in r
  {
    if xs == [] then []
    else if p(xs[0]) then [xs[0]] + Filter(xs[1..], p)
    else Filter(xs[1..], p)
  }

  /** Filtering distributes over concatenation, so it never reorders. */
  lemma {:induction false} FilterAppend<T>(a: seq<T>, b: seq<T>, p: T -> bool)
    ensures Filter(a + b, p) == Filter(a, p) + Filter(b, p)
  {
    if a != [] {
      assert (a + b)[0] == a[0];
      assert (a + b)[1..] == a[1..] + b;
      FilterAppend(a[1..], b, p);
    } else {
      assert a + b == b;
    }
  }

  /** `sub` can be obtained from `xs` by deleting elements. */
  predicate IsSubsequence<T(==)>(sub: seq<T>, xs: seq<T>)
    decreases |xs|
  {
    sub == [] ||
    (xs != [] && ((sub[0] == xs[0] && IsSubsequence(sub[1..], xs[1..])) || IsSubsequence(sub, xs[1..])))
  }

  /** Filtering keeps an order-preserving sublist. */
  lemma {:induction false} FilterIsSubsequence<T>(xs: seq<T>, p: T -> bool)
    ensures IsSubsequence(Filter(xs, p), xs)
  {
    if xs != [] {
      FilterIsSubsequence(xs[1..], p);
    }
  }

  /** With nothing failing `p`, filtering is the identity. */
  lemma {:induction false} FilterAll<T>(xs: seq<T>, p: T -> bool)
    requires forall x :: x in xs ==> p(x)
    ensures Filter(xs, p) == xs
  {
    if xs != [] {
      FilterAll(xs[1..], p);
    }
  }

  /** Filtering by `p` and by its negation splits the multiset of `xs` in two. */
  lemma {:induction false} FilterSplit<T>(xs: seq<T>, p: T -> bool)
    ensures multiset(Filter(xs, p)) + multiset(Filter(xs, x => !p(x))) == multiset(xs)
  {
    if xs != [] {
      FilterSplit(xs[1..], p);
      assert xs == [xs[0]] + xs[1..];
    }
  }

  /** A filter keeps every copy of an element that passes: none of its duplicates is dropped. */
  lemma FilterKeepsEveryCopy<T>(xs: seq<T>, p: T -> bool)
    ensures forall x :: p(x) ==> multiset(Filter(xs, p))[x] == multiset(xs)[x]
  {
    FilterSplit(xs, p);
    forall x | p(x) ensures multiset(Filter(xs, p))[x] == multiset(xs)[x] {
      assert x !in Filter(xs, y => !p(y));
    }
  }

  /**
    * `sorted { lhs, rhs in lhs.isFavorite && !rhs.isFavorite }` when the star is on:
    * favourites, then the rest. Each group keeps its incoming order.
    */
  function FavouritesFirst<T>(xs: seq<T>, isFavorite: T -> bool): seq<T> {
    Filter(xs, isFavorite) + Filter(xs, x => !isFavorite(x))
  }

  /** The star ordering is a permutation with every favourite before every non-favourite. */
  lemma FavouritesFirstSpec<T>(xs: seq<T>, isFavorite: T -> bool)
    ensures multiset(FavouritesFirst(xs, isFavorite)) == multiset(xs)
    ensures forall i, j :: 0 <= i < j < |FavouritesFirst(xs, isFavorite)| && isFavorite(FavouritesFirst(xs, isFavorite)[j]) ==>
              isFavorite(FavouritesFirst(xs, isFavorite)[i])
  {
    FilterSplit(xs, isFavorite);
    var favs := Filter(xs, isFavorite);
    var rest := Filter(xs, x => !isFavorite(x));
    var r := favs + rest;
    forall i, j | 0 <= i < j < |r| && isFavorite(r[j]) ensures isFavorite(r[i]) {
      assert r[i] in favs;
    }
  }

  /**
    * `displayedSections` / `displayedCards`: the incoming order with the star off; with it on,
    * a permutation with every favourite ahead of every other element.
    */
  function Displayed<T>(xs: seq<T>, starOn: bool, isFavorite: T -> bool): (r: seq<T>)
    ensures !starOn ==> r == xs
    ensures multiset(r) == multiset(xs)
    ensures starOn ==> forall i, j :: 0 <= i < j < |r| && isFavorite(r[j]) ==> isFavorite(r[i])
  {
    FavouritesFirstSpec(xs, isFavorite);
    if starOn then FavouritesFirst(xs, isFavorite) else xs
  }

  /** `toggleDeleteSelection`: flips the membership of `x` and of nothing else. */
  function Toggle<T>(s: set<T>, x: T): (r: set<T>)
    ensures x in r <==> x !in s
    ensures r - {x} == s - {x}
  {
    if x in s then s - {x} else s + {x}
  }

  /** Toggling the same element twice restores the selection. */
  lemma ToggleTwice<T>(s: set<T>, x: T)
    ensures Toggle(Toggle(s, x), x) == s
  {
  }

  /** What `performDelete…` leaves in the list: the elements whose id is not selected, in order. */
  function WithoutSelected<T(!new)>(xs: seq<T>, selected: set<Id>, idOf: T -> Id): (r: seq<T>)
    ensures forall x :: x in r <==> x in xs && idOf(x) !in selected
    ensures IsSubsequence(r, xs)
    ensures selected == {} ==> r == xs
    ensures forall x :: idOf(x) !in selected ==> multiset(r)[x] == multiset(xs)[x]
  {
    FilterIsSubsequence(xs, x => idOf(x) !in selected);
    FilterKeepsEveryCopy(xs, x => idOf(x) !in selected);
    assert selected == {} ==> Filter(xs, x => idOf(x) !in selected) == xs by {
      if selected == {} {
        FilterAll(xs, x => idOf(x) !in selected);
      }
    }
    Filter(xs, x => idOf(x) !in selected)
  }
}
