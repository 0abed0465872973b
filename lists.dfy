/** The "append unless already present" idiom the server uses to deduplicate
    usernames in first-occurrence order, and what it guarantees. */
module Lists {

  predicate NoDup<T(==)>(xs: seq<T>) {
    forall i, j :: 0 <= i < j < |xs| ==> xs[i] != xs[j]
  }

  /** Appends each element of `xs` to `acc`, in order, unless it is already
      present. */
  function AppendNew<T(==)>(acc: seq<T>, xs: seq<T>): seq<T>
    decreases |xs|
  {
    if xs == [] then acc
    else AppendNew(if xs[0] in acc then acc else acc + [xs[0]], xs[1..])
  }

  lemma {:induction false} NoDupSnoc<T>(acc: seq<T>, x: T)
    requires NoDup(acc) && x !in acc
    ensures NoDup(acc + [x])
  {
    var r := acc + [x];
    forall i, j | 0 <= i < j < |r| ensures r[i] != r[j] {
      assert r[i] == acc[i];
      if j < |acc| { assert r[j] == acc[j]; }
    }
  }

  lemma {:induction false} NoDupCons<T>(x: T, xs: seq<T>)
    requires NoDup(xs) && x !in xs
    ensures NoDup([x] + xs)
  {
    var r := [x] + xs;
    forall i, j | 0 <= i < j < |r| ensures r[i] != r[j] {
      assert r[j] == xs[j - 1];
      if i > 0 { assert r[i] == xs[i - 1]; }
    }
  }

  lemma TailSnoc<T>(a: seq<T>, x: T)
    requires a != []
    ensures (a + [x])[1..] == a[1..] + [x]
  {
    var l := (a + [x])[1..];
    var r := a[1..] + [x];
    forall k | 0 <= k < |l| ensures l[k] == r[k] {
      if k < |a| - 1 {
        assert l[k] == a[k + 1];
      }
    }
  }

  /** The elements of `xs` that are first occurrences: `xs[i]` is kept iff it
      is neither in `acc` nor in `xs[..i]`. Defined from the last element, as
      a reference for `AppendNew`, which works from the first. */
  function FirstOccurrences<T(==)>(acc: seq<T>, xs: seq<T>): seq<T>
    decreases |xs|
  {
    if xs == [] then []
    else
      var init := xs[..|xs| - 1];
      var x := xs[|xs| - 1];
      if x in acc || x in init then FirstOccurrences(acc, init)
      else FirstOccurrences(acc, init) + [x]
  }

  /** An element ends up in the accumulated list iff it was in `acc` or in `xs`. */
  lemma {:induction false} AppendNewMembers<T>(acc: seq<T>, xs: seq<T>, x: T)
    ensures x in AppendNew(acc, xs) <==> x in acc || x in xs
    decreases |xs|
  {
    if xs != [] {
      var acc' := if xs[0] in acc then acc else acc + [xs[0]];
      AppendNewMembers(acc', xs[1..], x);
      assert x in acc' <==> x in acc || x == xs[0];
      assert xs == [xs[0]] + xs[1..];
    }
  }

  /** The idiom appends exactly the first occurrences of the new elements, in
      the order they first occur. */
  lemma {:induction false} AppendNewFirstOccurrences<T>(acc: seq<T>, xs: seq<T>)
    ensures AppendNew(acc, xs) == acc + FirstOccurrences(acc, xs)
    decreases |xs|
  {
    if xs != [] {
      var init := xs[..|xs| - 1];
      var x := xs[|xs| - 1];
      assert init + [x] == xs;
      AppendNewFirstOccurrences(acc, init);
      AppendNewConcat(acc, init, [x]);
      AppendNewMembers(acc, init, x);
      var r := AppendNew(acc, init);
      assert AppendNew(r, [x]) == if x in r then r else r + [x] by {
        var r' := if x in r then r else r + [x];
        assert [x][1..] == [];
        assert AppendNew(r, [x]) == AppendNew(r', []);
      }
    }
  }

  /** The accumulated list keeps its contents and order, gains no duplicate,
      ends up holding exactly the elements of `acc` and `xs`, and appends
      the new ones in first-occurrence order. */
  lemma {:induction false} AppendNewSpec<T>(acc: seq<T>, xs: seq<T>)
    requires NoDup(acc)
    ensures var r := AppendNew(acc, xs);
      && NoDup(r)
      && |acc| <= |r| && r[..|acc|] == acc
      && (forall x :: x in r <==> x in acc || x in xs)
      && r == acc + FirstOccurrences(acc, xs)
    decreases |xs|
  {
    AppendNewFirstOccurrences(acc, xs);
    if xs != [] {
      var acc' := if xs[0] in acc then acc else acc + [xs[0]];
      if xs[0] !in acc {
        NoDupSnoc(acc, xs[0]);
      }
      AppendNewSpec(acc', xs[1..]);
      var r := AppendNew(acc', xs[1..]);
      assert r == AppendNew(acc, xs);
      assert r[..|acc|] == acc by {
        assert acc'[..|acc|] == acc;
        assert r[..|acc|] == r[..|acc'|][..|acc|];
      }
      forall x ensures x in r <==> x in acc || x in xs {
        assert x in acc' <==> x in acc || x == xs[0];
        assert x in xs <==> x == xs[0] || x in xs[1..] by {
          assert xs == [xs[0]] + xs[1..];
        }
      }
    }
  }

  /** Running the idiom over `xs` and then `ys` is running it over `xs + ys`:
      everything from the first source is placed before anything new from the second. */
  lemma {:induction false} AppendNewConcat<T>(acc: seq<T>, xs: seq<T>, ys: seq<T>)
    ensures AppendNew(AppendNew(acc, xs), ys) == AppendNew(acc, xs + ys)
    decreases |xs|
  {
    if xs != [] {
      var acc' := if xs[0] in acc then acc else acc + [xs[0]];
      AppendNewConcat(acc', xs[1..], ys);
      assert (xs + ys)[0] == xs[0];
      assert (xs + ys)[1..] == xs[1..] + ys;
    } else {
      assert xs + ys == ys;
    }
  }

  /** On input with no repeats (and nothing in common with `acc`) nothing is dropped. */
  lemma {:induction false} AppendNewOfDistinct<T>(acc: seq<T>, xs: seq<T>)
    requires NoDup(acc + xs)
    ensures AppendNew(acc, xs) == acc + xs
    decreases |xs|
  {
    if xs != [] {
      assert xs[0] == (acc + xs)[|acc|];
      assert xs[0] !in acc by {
        forall i | 0 <= i < |acc| ensures acc[i] != xs[0] {
          assert acc[i] == (acc + xs)[i];
        }
      }
      assert acc + xs == (acc + [xs[0]]) + xs[1..];
      AppendNewOfDistinct(acc + [xs[0]], xs[1..]);
    }
  }
}
