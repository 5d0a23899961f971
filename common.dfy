/** Small shared vocabulary: an optional value, integer minimum and
    maximum (JavaScript's Math.min / Math.max on two arguments), and the
    order-preserving filter that Array.prototype.filter performs. */
module Common {

  datatype Option<+T> = None | Some(value: T)

  function Min(a: int, b: int): (r: int)
    ensures r <= a && r <= b && (r == a || r == b)
  {
    if a <= b then a else b
  }

  function Max(a: int, b: int): (r: int)
    ensures r >= a && r >= b && (r == a || r == b)
  {
    if a >= b then a else b
  }

  /** The elements of `xs` that satisfy `keep`, in their original order. */
  function Filter<T>(xs: seq<T>, keep: T -> bool): (r: seq<T>)
    ensures |r| <= |xs|
  {
    if xs == [] then []
    else (if keep(xs[0]) then [xs[0]] else []) + Filter(xs[1..], keep)
  }

  /** An element survives the filter exactly when it was there and is kept. */
  lemma {:induction false} FilterMembership<T>(xs: seq<T>, keep: T -> bool, x: T)
    ensures x in Filter(xs, keep) <==> x in xs && keep(x)
  {
    if xs != [] {
      FilterMembership(xs[1..], keep, x);
      assert xs == [xs[0]] + xs[1..];
    }
  }

  /** Filtering distributes over concatenation, so relative order is kept. */
  lemma {:induction false} FilterConcat<T>(a: seq<T>, b: seq<T>, keep: T -> bool)
    ensures Filter(a + b, keep) == Filter(a, keep) + Filter(b, keep)
  {
    if a == [] {
      assert a + b == b;
    } else {
      var ab := a + b;
      assert ab != [] && ab[0] == a[0] && ab[1..] == a[1..] + b;
      FilterConcat(a[1..], b, keep);
      calc {
        Filter(ab, keep);
        (if keep(a[0]) then [a[0]] else []) + Filter(a[1..] + b, keep);
        (if keep(a[0]) then [a[0]] else []) + (Filter(a[1..], keep) + Filter(b, keep));
        ((if keep(a[0]) then [a[0]] else []) + Filter(a[1..], keep)) + Filter(b, keep);
      }
    }
  }

  /** Filtering a list whose every element is kept changes nothing. */
  lemma {:induction false} FilterAllKept<T>(xs: seq<T>, keep: T -> bool)
    requires forall i :: 0 <= i < |xs| ==> keep(xs[i])
    ensures Filter(xs, keep) == xs
  {
    if xs != [] {
      FilterAllKept(xs[1..], keep);
      assert xs == [xs[0]] + xs[1..];
    }
  }

  /** The result keeps every element it holds, so a second pass is a no-op. */
  lemma {:induction false} FilterIdempotent<T>(xs: seq<T>, keep: T -> bool)
    ensures Filter(Filter(xs, keep), keep) == Filter(xs, keep)
  {
    var r := Filter(xs, keep);
    forall i | 0 <= i < |r| ensures keep(r[i]) {
      FilterMembership(xs, keep, r[i]);
    }
    FilterAllKept(r, keep);
  }

  /** Appending one element extends the filtered list by at most that element. */
  lemma FilterSnoc<T>(xs: seq<T>, x: T, keep: T -> bool)
    ensures Filter(xs + [x], keep) == Filter(xs, keep) + (if keep(x) then [x] else [])
  {
    FilterConcat(xs, [x], keep);
    assert [x][1..] == [];
  }

  /** The loop shape of a forEach that acts only on the elements passing a
      test: `f` of each kept element, in order. */
  function FilterMap<T, U>(xs: seq<T>, keep: T -> bool, f: T -> U): (r: seq<U>)
    ensures |r| <= |xs|
  {
    if xs == [] then []
    else (if keep(xs[0]) then [f(xs[0])] else []) + FilterMap(xs[1..], keep, f)
  }

  /** FilterMap is `f` applied pointwise to the filtered list. */
  lemma {:induction false} FilterMapIsMapOfFilter<T, U>(xs: seq<T>, keep: T -> bool, f: T -> U)
    ensures |FilterMap(xs, keep, f)| == |Filter(xs, keep)|
    ensures forall i :: 0 <= i < |Filter(xs, keep)| ==> FilterMap(xs, keep, f)[i] == f(Filter(xs, keep)[i])
  {
    if xs != [] {
      FilterMapIsMapOfFilter(xs[1..], keep, f);
      var mapped, kept := FilterMap(xs[1..], keep, f), Filter(xs[1..], keep);
      if keep(xs[0]) {
        assert FilterMap(xs, keep, f) == [f(xs[0])] + mapped;
        assert Filter(xs, keep) == [xs[0]] + kept;
        forall i | 1 <= i < |Filter(xs, keep)|
          ensures FilterMap(xs, keep, f)[i] == f(Filter(xs, keep)[i])
        {
          assert FilterMap(xs, keep, f)[i] == mapped[i - 1];
          assert Filter(xs, keep)[i] == kept[i - 1];
        }
      } else {
        assert FilterMap(xs, keep, f) == mapped;
        assert Filter(xs, keep) == kept;
      }
    }
  }

  /** One more element adds at most its own image at the end. */
  lemma {:induction false} FilterMapSnoc<T, U>(xs: seq<T>, x: T, keep: T -> bool, f: T -> U)
    ensures FilterMap(xs + [x], keep, f) == FilterMap(xs, keep, f) + (if keep(x) then [f(x)] else [])
  {
    if xs == [] {
      assert [x][1..] == [];
    } else {
      var xsx := xs + [x];
      assert xsx != [] && xsx[0] == xs[0] && xsx[1..] == xs[1..] + [x];
      FilterMapSnoc(xs[1..], x, keep, f);
      var head := if keep(xs[0]) then [f(xs[0])] else [];
      var last := if keep(x) then [f(x)] else [];
      calc {
        FilterMap(xsx, keep, f);
        head + FilterMap(xs[1..] + [x], keep, f);
        head + (FilterMap(xs[1..], keep, f) + last);
        (head + FilterMap(xs[1..], keep, f)) + last;
      }
    }
  }
}
