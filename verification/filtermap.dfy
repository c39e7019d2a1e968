/**
 * Order-preserving filter-map over sequences: each element contributes
 * its image when it has one and nothing otherwise. The extractor's loop,
 * which skips some entries and appends one tool for each other, has this
 * shape.
 */
module FilterMaps {
  import opened Wrappers

  /** What one element contributes: its image, or nothing. */
  function Contribution<A, B>(f: A -> Option<B>, x: A): (ys: seq<B>)
    ensures |ys| <= 1
  {
    match f(x)
    case Some(y) => [y]
    case None => []
  }

  /** The images of the elements that have one, in the elements' order. */
  function FilterMap<A, B>(f: A -> Option<B>, xs: seq<A>): (ys: seq<B>)
    ensures |ys| <= |xs|
  {
    if |xs| == 0 then [] else Contribution(f, xs[0]) + FilterMap(f, xs[1..])
  }

  /** Filter-map distributes over concatenation. */
  lemma {:induction false} FilterMapConcat<A, B>(f: A -> Option<B>, a: seq<A>, b: seq<A>)
    ensures FilterMap(f, a + b) == FilterMap(f, a) + FilterMap(f, b)
  {
    if |a| == 0 {
      assert a + b == b;
    } else {
      var head := Contribution(f, a[0]);
      assert (a + b)[0] == a[0];
      assert (a + b)[1..] == a[1..] + b;
      FilterMapConcat(f, a[1..], b);
      assert head + (FilterMap(f, a[1..]) + FilterMap(f, b)) == (head + FilterMap(f, a[1..])) + FilterMap(f, b);
    }
  }

  /** A one-element sequence maps to that element's image. */
  lemma FilterMapSingle<A, B>(f: A -> Option<B>, x: A)
    ensures FilterMap(f, [x]) == Contribution(f, x)
  {
    assert [x][1..] == [];
    assert Contribution(f, x) + [] == Contribution(f, x);
  }

  /** A value is in the result exactly when it is the image of some element. */
  lemma {:induction false} FilterMapMembership<A, B>(f: A -> Option<B>, xs: seq<A>, y: B)
    ensures y in FilterMap(f, xs) <==> exists i :: 0 <= i < |xs| && f(xs[i]) == Some(y)
  {
    if |xs| > 0 {
      FilterMapMembership(f, xs[1..], y);
      assert y in FilterMap(f, xs) <==> y in Contribution(f, xs[0]) || y in FilterMap(f, xs[1..]);
      if exists i :: 0 <= i < |xs| && f(xs[i]) == Some(y) {
        var i :| 0 <= i < |xs| && f(xs[i]) == Some(y);
        if i > 0 {
          assert xs[1..][i - 1] == xs[i];
        }
      }
    }
  }

  /** When every element has an image, the result is the images one for one. */
  lemma {:induction false} FilterMapAllSome<A, B>(f: A -> Option<B>, xs: seq<A>)
    requires forall i :: 0 <= i < |xs| ==> f(xs[i]).Some?
    ensures |FilterMap(f, xs)| == |xs|
    ensures forall i :: 0 <= i < |xs| ==> Some(FilterMap(f, xs)[i]) == f(xs[i])
  {
    if |xs| > 0 {
      assert forall i :: 0 <= i < |xs| - 1 ==> xs[1..][i] == xs[i + 1];
      FilterMapAllSome(f, xs[1..]);
      assert FilterMap(f, xs) == [f(xs[0]).value] + FilterMap(f, xs[1..]);
    }
  }

  /** An element with an image has it between the images of the elements before and after it. */
  lemma FilterMapAround<A, B>(f: A -> Option<B>, xs: seq<A>, j: nat)
    requires j < |xs| && f(xs[j]).Some?
    ensures FilterMap(f, xs) == FilterMap(f, xs[..j]) + [f(xs[j]).value] + FilterMap(f, xs[j + 1..])
  {
    SliceAt(xs, j);
    FilterMapConcat(f, xs[..j], xs[j..]);
    assert FilterMap(f, xs[j..]) == [f(xs[j]).value] + FilterMap(f, xs[j + 1..]);
  }

  /** A sequence is its prefix up to `j` followed by its element at `j` and the rest. */
  lemma SliceAt<A>(xs: seq<A>, j: nat)
    requires j < |xs|
    ensures xs == xs[..j] + xs[j..]
    ensures xs[j..][0] == xs[j] && xs[j..][1..] == xs[j + 1..]
  {
  }

  /** Images keep the relative order of their elements: the positions of the two images. */
  lemma FilterMapOrder<A, B>(f: A -> Option<B>, xs: seq<A>, i: nat, j: nat) returns (p: nat, q: nat)
    requires i < j < |xs| && f(xs[i]).Some? && f(xs[j]).Some?
    ensures p < q < |FilterMap(f, xs)|
    ensures Some(FilterMap(f, xs)[p]) == f(xs[i]) && Some(FilterMap(f, xs)[q]) == f(xs[j])
  {
    var before := xs[..j];
    FilterMapAround(f, xs, j);
    var left := FilterMap(f, before);
    assert before[i] == xs[i];
    FilterMapMembership(f, before, f(xs[i]).value);
    p :| 0 <= p < |left| && left[p] == f(xs[i]).value;
    q := |left|;
    var all := FilterMap(f, xs);
    assert all[p] == left[p];
  }
}
