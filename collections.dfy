/**
 * The two array transforms every list screen applies to its state:
 * `xs.filter(keep)` and the keyed update `xs.map(x => hit(x) ? update(x) : x)`.
 */
module Collections {

  /** `xs.filter(keep)`: the kept elements, each as often as in `xs`, in `xs` order. */
  function Filter<T(!new)>(xs: seq<T>, keep: T -> bool): (r: seq<T>)
    ensures |r| <= |xs|
    ensures forall x :: x in r <==> x in xs && keep(x)
    ensures forall x :: multiset(r)[x] == if keep(x) then multiset(xs)[x] else 0
    ensures forall i :: 0 <= i < |r| ==> keep(r[i])
  {
    if xs == [] then []
    else
      assert xs == [xs[0]] + xs[1..];
      (if keep(xs[0]) then [xs[0]] else []) + Filter(xs[1..], keep)
  }

  /** Filtering a list with a known first element: that element, if kept, then the rest filtered. */
  lemma FilterCons<T(!new)>(x: T, xs: seq<T>, keep: T -> bool)
    ensures Filter([x] + xs, keep) == (if keep(x) then [x] else []) + Filter(xs, keep)
  {
    assert ([x] + xs)[1..] == xs;
  }

  /** Concatenation regroups freely; stated apart so the step is not proved among `Filter` facts. */
  lemma AppendAssociative<T>(x: seq<T>, y: seq<T>, z: seq<T>)
    ensures x + (y + z) == (x + y) + z
  {
  }

  /** Prepending the empty list changes nothing. */
  lemma EmptyAppend<T>(s: seq<T>)
    ensures [] + s == s
  {
  }

  /** Filtering distributes over concatenation: relative order is kept. */
  lemma {:induction false} FilterAppend<T(!new)>(a: seq<T>, b: seq<T>, keep: T -> bool)
    ensures Filter(a + b, keep) == Filter(a, keep) + Filter(b, keep)
    decreases |a|
  {
    if a == [] {
      assert a + b == b;
    } else {
      var rest := a[1..];
      var head := if keep(a[0]) then [a[0]] else [];
      assert a == [a[0]] + rest;
      assert a + b == [a[0]] + (rest + b);
      calc {
        Filter(a + b, keep);
        { FilterCons(a[0], rest + b, keep); }
        head + Filter(rest + b, keep);
        { FilterAppend(rest, b, keep); }
        head + (Filter(rest, keep) + Filter(b, keep));
        { AppendAssociative(head, Filter(rest, keep), Filter(b, keep)); }
        (head + Filter(rest, keep)) + Filter(b, keep);
        { FilterCons(a[0], rest, keep); }
        Filter(a, keep) + Filter(b, keep);
      }
    }
  }

  /** When every element passes, the filter returns the list unchanged, in order. */
  lemma {:induction false} FilterAll<T(!new)>(xs: seq<T>, keep: T -> bool)
    requires forall x :: x in xs ==> keep(x)
    ensures Filter(xs, keep) == xs
    decreases |xs|
  {
    if xs != [] {
      var rest := xs[1..];
      assert xs == [xs[0]] + rest;
      assert keep(xs[0]) by {
        assert xs[0] in xs;
      }
      forall x | x in rest ensures keep(x) {
        assert x in xs;
      }
      FilterAll(rest, keep);
      FilterCons(xs[0], rest, keep);
    }
  }

  /** Re-filtering with the same test changes nothing. */
  lemma FilterIdempotent<T(!new)>(xs: seq<T>, keep: T -> bool)
    ensures Filter(Filter(xs, keep), keep) == Filter(xs, keep)
  {
    FilterAll(Filter(xs, keep), keep);
  }

  /**
   * `xs.map(x => hit(x) ? update(x) : x)`: the elements that `hit` are replaced by
   * their update, the others are kept; positions and length do not change.
   */
  function MapWhere<T>(xs: seq<T>, hit: T -> bool, update: T -> T): (r: seq<T>)
    ensures |r| == |xs|
    ensures forall i :: 0 <= i < |xs| && hit(xs[i]) ==> r[i] == update(xs[i])
    ensures forall i :: 0 <= i < |xs| && !hit(xs[i]) ==> r[i] == xs[i]
  {
    if xs == [] then []
    else [if hit(xs[0]) then update(xs[0]) else xs[0]] + MapWhere(xs[1..], hit, update)
  }

  /** The keyed update of a list with a known first element. */
  lemma MapWhereCons<T>(x: T, xs: seq<T>, hit: T -> bool, update: T -> T)
    ensures MapWhere([x] + xs, hit, update) == [if hit(x) then update(x) else x] + MapWhere(xs, hit, update)
  {
    assert ([x] + xs)[1..] == xs;
  }

  /**
   * When the update does not change whether an element is hit and undoes itself,
   * applying the keyed update twice gives back the original list.
   */
  lemma MapWhereTwice<T>(xs: seq<T>, hit: T -> bool, update: T -> T)
    requires forall x {:trigger update(x)} :: hit(update(x)) == hit(x)
    requires forall x {:trigger update(x)} :: update(update(x)) == x
    ensures MapWhere(MapWhere(xs, hit, update), hit, update) == xs
  {
    var once := MapWhere(xs, hit, update);
    var twice := MapWhere(once, hit, update);
    forall i | 0 <= i < |xs| ensures twice[i] == xs[i] {
      if hit(xs[i]) {
        assert hit(once[i]);
      }
    }
  }

  /** Filtering out every element that could be hit hides the keyed update entirely. */
  lemma {:induction false} MapWhereKeepsUnhit<T(!new)>(xs: seq<T>, hit: T -> bool, update: T -> T, keep: T -> bool)
    requires forall x :: keep(x) ==> !hit(x)
    requires forall x {:trigger update(x)} :: keep(update(x)) == keep(x)
    ensures Filter(MapWhere(xs, hit, update), keep) == Filter(xs, keep)
    decreases |xs|
  {
    if xs != [] {
      var r := MapWhere(xs, hit, update);
      assert r[1..] == MapWhere(xs[1..], hit, update);
      MapWhereKeepsUnhit(xs[1..], hit, update, keep);
      assert keep(r[0]) == keep(xs[0]) by {
        if hit(xs[0]) { assert r[0] == update(xs[0]); }
      }
    }
  }

  /**
   * When the update does not change whether an element is kept, updating then filtering
   * equals filtering then updating: a filtered view shows the update in place.
   */
  lemma {:induction false} FilterMapWhere<T(!new)>(xs: seq<T>, hit: T -> bool, update: T -> T, keep: T -> bool)
    requires forall x {:trigger update(x)} :: keep(update(x)) == keep(x)
    ensures Filter(MapWhere(xs, hit, update), keep) == MapWhere(Filter(xs, keep), hit, update)
    decreases |xs|
  {
    if xs != [] {
      var x, rest := xs[0], xs[1..];
      var y := if hit(x) then update(x) else x;
      assert xs == [x] + rest;
      assert keep(y) == keep(x);
      FilterMapWhere(rest, hit, update, keep);
      MapWhereCons(x, rest, hit, update);
      FilterCons(y, MapWhere(rest, hit, update), keep);
      FilterCons(x, rest, keep);
      if keep(x) {
        MapWhereCons(x, Filter(rest, keep), hit, update);
      } else {
        EmptyAppend(Filter(rest, keep));
        EmptyAppend(MapWhere(Filter(rest, keep), hit, update));
      }
    }
  }
}
