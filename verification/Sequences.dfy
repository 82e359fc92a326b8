/** Lists the way paged code handles them: filtered, split into pages and joined again. */
module Sequences {

  /** The elements of `s` that satisfy `keep`, in order. */
  function Filter<T(!new)>(keep: T -> bool, s: seq<T>): seq<T>
  {
    if s == [] then []
    else
      var rest := Filter(keep, s[..|s| - 1]);
      var last := s[|s| - 1];
      if keep(last) then rest + [last] else rest
  }

  lemma {:induction false} FilterMembers<T(!new)>(keep: T -> bool, s: seq<T>)
    ensures forall x :: x in Filter(keep, s) <==> x in s && keep(x)
  {
    if s != [] {
      FilterMembers(keep, s[..|s| - 1]);
      assert s == s[..|s| - 1] + [s[|s| - 1]];
    }
  }

  lemma FilterMore<T(!new)>(keep: T -> bool, s: seq<T>, x: T)
    ensures Filter(keep, s + [x]) == if keep(x) then Filter(keep, s) + [x] else Filter(keep, s)
  {
    assert (s + [x])[..|s|] == s;
  }

  lemma {:induction false} FilterConcat<T(!new)>(keep: T -> bool, a: seq<T>, b: seq<T>)
    ensures Filter(keep, a + b) == Filter(keep, a) + Filter(keep, b)
  {
    if b == [] {
      assert a + b == a;
    } else {
      var init, last := b[..|b| - 1], b[|b| - 1];
      FilterConcat(keep, a, init);
      FilterMore(keep, a + init, last);
      FilterMore(keep, init, last);
      LastMoves(a, b);
      Reassociate(Filter(keep, a), Filter(keep, init), [last]);
    }
  }

  lemma LastMoves<T>(a: seq<T>, b: seq<T>)
    requires b != []
    ensures (a + b[..|b| - 1]) + [b[|b| - 1]] == a + b && b[..|b| - 1] + [b[|b| - 1]] == b
  {
  }

  /**
   Filtering first by a weaker test changes nothing; by any test at all, exactly when every kept element
   passes it.
   */
  lemma {:induction false} FilterTwice<T(!new)>(first: T -> bool, second: T -> bool, s: seq<T>)
    ensures Filter(second, Filter(first, s)) == Filter(second, s) <==> forall x :: x in s && second(x) ==> first(x)
  {
    if s != [] {
      var init, last := s[..|s| - 1], s[|s| - 1];
      assert s == init + [last];
      FilterTwice(first, second, init);
      FilterMore(second, Filter(first, init), last);
      FilterShrinks(first, second, init);
      SameBeforeLast(Filter(second, Filter(first, init)), Filter(second, init), last);
      assert forall z :: z in s <==> z in init || z == last;
    }
  }

  lemma SameBeforeLast<T>(x: seq<T>, y: seq<T>, last: T)
    ensures x + [last] == y + [last] <==> x == y
  {
    assert (x + [last])[..|x|] == x && (y + [last])[..|y|] == y;
  }

  lemma {:induction false} FilterShrinks<T(!new)>(first: T -> bool, second: T -> bool, s: seq<T>)
    ensures |Filter(second, Filter(first, s))| <= |Filter(second, s)|
  {
    if s != [] {
      var init, last := s[..|s| - 1], s[|s| - 1];
      FilterShrinks(first, second, init);
      FilterMore(second, Filter(first, init), last);
    }
  }

  /** Two elements that pass are both kept. */
  lemma {:induction false} FilterTwo<T(!new)>(keep: T -> bool, s: seq<T>, i: nat, j: nat)
    requires i < j < |s| && keep(s[i]) && keep(s[j])
    ensures |Filter(keep, s)| >= 2
  {
    var init, last := s[..|s| - 1], s[|s| - 1];
    if j < |s| - 1 {
      FilterTwo(keep, init, i, j);
    } else {
      FilterMembers(keep, init);
      assert init[i] in init;
      assert s[i] in Filter(keep, init);
    }
  }

  lemma {:induction false} FilterNone<T(!new)>(keep: T -> bool, s: seq<T>)
    requires forall x :: x in s ==> !keep(x)
    ensures Filter(keep, s) == []
  {
    if s != [] {
      FilterNone(keep, s[..|s| - 1]);
    }
  }

  /** The only element that passes is all that is kept. */
  lemma {:induction false} FilterOnly<T(!new)>(keep: T -> bool, s: seq<T>, i: nat)
    requires i < |s| && keep(s[i]) && forall j :: 0 <= j < |s| && keep(s[j]) ==> j == i
    ensures Filter(keep, s) == [s[i]]
  {
    var init := s[..|s| - 1];
    if i < |s| - 1 {
      FilterOnly(keep, init, i);
    } else {
      FilterNone(keep, init);
    }
  }

  /** Where two kept elements come from. */
  lemma KeptTwo<T(!new)>(keep: T -> bool, s: seq<T>) returns (i: nat, j: nat)
    requires |Filter(keep, s)| >= 2
    ensures i < j < |s| && keep(s[i]) && keep(s[j])
  {
    FilterMembers(keep, s);
    assert Filter(keep, s)[0] in s;
    i :| i < |s| && keep(s[i]);
    if forall k :: 0 <= k < |s| && keep(s[k]) ==> k == i {
      FilterOnly(keep, s, i);
    }
    j :| 0 <= j < |s| && keep(s[j]) && j != i;
    if j < i {
      i, j := j, i;
    }
  }

  /** A filter keeps all copies of the elements it keeps. */
  lemma {:induction false} FilterMultiset<T(!new)>(keep: T -> bool, s: seq<T>)
    ensures forall x :: multiset(Filter(keep, s))[x] == if keep(x) then multiset(s)[x] else 0
  {
    if s != [] {
      var init, last := s[..|s| - 1], s[|s| - 1];
      FilterMultiset(keep, init);
      assert s == init + [last];
    }
  }

  lemma FilterPermutation<T(!new)>(keep: T -> bool, a: seq<T>, b: seq<T>)
    requires multiset(a) == multiset(b)
    ensures multiset(Filter(keep, a)) == multiset(Filter(keep, b)) && |Filter(keep, a)| == |Filter(keep, b)|
  {
    FilterMultiset(keep, a);
    FilterMultiset(keep, b);
    assert multiset(Filter(keep, a)) == multiset(Filter(keep, b));
    assert |Filter(keep, a)| == |multiset(Filter(keep, a))| && |Filter(keep, b)| == |multiset(Filter(keep, b))|;
  }

  function Flatten<T>(pages: seq<seq<T>>): seq<T> {
    if pages == [] then [] else Flatten(pages[..|pages| - 1]) + pages[|pages| - 1]
  }

  lemma FlattenMore<T>(pages: seq<seq<T>>, page: seq<T>)
    ensures Flatten(pages + [page]) == Flatten(pages) + page
  {
    assert (pages + [page])[..|pages|] == pages;
  }

  function FilterEach<T(!new)>(keep: T -> bool, pages: seq<seq<T>>): seq<seq<T>> {
    seq(|pages|, i requires 0 <= i < |pages| => Filter(keep, pages[i]))
  }

  /** Filtering page by page is filtering the whole list once. */
  lemma {:induction false} FilterPages<T(!new)>(keep: T -> bool, pages: seq<seq<T>>)
    ensures Flatten(FilterEach(keep, pages)) == Filter(keep, Flatten(pages))
  {
    if pages != [] {
      var init, last := pages[..|pages| - 1], pages[|pages| - 1];
      FilterPages(keep, init);
      FilterConcat(keep, Flatten(init), last);
      assert FilterEach(keep, pages) == FilterEach(keep, init) + [Filter(keep, last)];
      FlattenMore(FilterEach(keep, init), Filter(keep, last));
    }
  }

  lemma {:induction false} FlattenConcat<T>(a: seq<seq<T>>, b: seq<seq<T>>)
    ensures Flatten(a + b) == Flatten(a) + Flatten(b)
  {
    if b == [] {
      assert a + b == a;
    } else {
      var init, last := b[..|b| - 1], b[|b| - 1];
      FlattenConcat(a, init);
      assert a + b == (a + init) + [last];
      FlattenMore(a + init, last);
      Reassociate(Flatten(a), Flatten(init), last);
    }
  }

  function Map<S, T>(f: S -> T, s: seq<S>): (r: seq<T>)
    ensures |r| == |s| && forall i :: 0 <= i < |s| ==> r[i] == f(s[i])
  {
    seq(|s|, i requires 0 <= i < |s| => f(s[i]))
  }

  lemma MapConcat<S, T>(f: S -> T, a: seq<S>, b: seq<S>)
    ensures Map(f, a + b) == Map(f, a) + Map(f, b)
  {
  }

  function MapEach<S, T>(f: S -> T, pages: seq<seq<S>>): (r: seq<seq<T>>)
    ensures |r| == |pages| && forall i :: 0 <= i < |pages| ==> r[i] == Map(f, pages[i])
  {
    seq(|pages|, i requires 0 <= i < |pages| => Map(f, pages[i]))
  }

  /** Mapping page by page is mapping the whole list once. */
  lemma {:induction false} MapPages<S, T>(f: S -> T, pages: seq<seq<S>>)
    ensures Flatten(MapEach(f, pages)) == Map(f, Flatten(pages))
  {
    if pages != [] {
      var init, last := pages[..|pages| - 1], pages[|pages| - 1];
      MapPages(f, init);
      assert MapEach(f, pages) == MapEach(f, init) + [Map(f, last)];
      FlattenMore(MapEach(f, init), Map(f, last));
      MapConcat(f, Flatten(init), last);
    }
  }

  lemma FlattenOne<T>(page: seq<T>)
    ensures Flatten([page]) == page
  {
    assert [page][..0] == [];
  }

  lemma Reassociate<T>(x: seq<T>, y: seq<T>, z: seq<T>)
    ensures (x + y) + z == x + (y + z)
  {
  }

  /** `s` lists every element of the set once, in some order. */
  ghost predicate Enumerates<T(!new)>(s: seq<T>, elements: set<T>) {
    |s| == |elements| && forall x :: x in s <==> x in elements
  }

  lemma EnumeratesMore<T(!new)>(s: seq<T>, elements: set<T>, x: T)
    requires Enumerates(s, elements) && x !in elements
    ensures Enumerates(s + [x], elements + {x})
  {
  }

  ghost function SomeOrder<T(!new)>(elements: set<T>): (order: seq<T>)
    ensures Enumerates(order, elements)
  {
    if elements == {} then []
    else
      var x :| x in elements;
      EnumeratesMore(SomeOrder(elements - {x}), elements - {x}, x);
      assert elements - {x} + {x} == elements;
      SomeOrder(elements - {x}) + [x]
  }

  lemma EnumeratesBoth<T(!new)>(a: seq<T>, x: set<T>, b: seq<T>, y: set<T>)
    requires Enumerates(a, x) && Enumerates(b, y) && x !! y
    ensures Enumerates(a + b, x + y)
  {
  }
}
