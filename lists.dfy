/**
 * `Array.prototype.filter` and `Array.prototype.find` with an arbitrary test, and the
 * facts about them that the callers share.
 */
module Lists {
  import opened Text

  /** `xs.filter(f)`: the elements that pass, in their order. */
  function Keep<T>(xs: seq<T>, f: T -> bool): seq<T> {
    if xs == [] then [] else (if f(xs[0]) then [xs[0]] else []) + Keep(xs[1..], f)
  }

  /** Filtering a concatenation filters each side: the kept elements stay in order. */
  lemma {:induction false} KeepAppend<T>(a: seq<T>, b: seq<T>, f: T -> bool)
    ensures Keep(a + b, f) == Keep(a, f) + Keep(b, f)
  {
    var kb := Keep(b, f);
    if a == [] {
      assert a + b == b && Keep(a, f) == [];
      assert [] + kb == kb;
    } else {
      var h := if f(a[0]) then [a[0]] else [];
      var ka := Keep(a[1..], f);
      KeepAppend(a[1..], b, f);
      assert (a + b)[0] == a[0] && (a + b)[1..] == a[1..] + b;
      assert Keep(a + b, f) == h + (ka + kb);
      assert Keep(a, f) == h + ka;
      assert h + (ka + kb) == (h + ka) + kb;
    }
  }

  /** Exactly the elements that pass are kept, and the result is no longer than the input. */
  lemma {:induction false} KeepMembers<T(!new)>(xs: seq<T>, f: T -> bool)
    ensures forall y :: y in Keep(xs, f) <==> y in xs && f(y)
    ensures |Keep(xs, f)| <= |xs|
  {
    if xs != [] {
      KeepMembers(xs[1..], f);
      assert forall y :: y in xs <==> y == xs[0] || y in xs[1..];
    }
  }

  /** A list whose every element passes is kept whole. */
  lemma {:induction false} KeepAll<T>(xs: seq<T>, f: T -> bool)
    requires forall i :: 0 <= i < |xs| ==> f(xs[i])
    ensures Keep(xs, f) == xs
  {
    if xs != [] {
      KeepAll(xs[1..], f);
    }
  }

  /** A list none of whose elements passes is filtered down to nothing. */
  lemma {:induction false} KeepNone<T>(xs: seq<T>, f: T -> bool)
    requires forall i :: 0 <= i < |xs| ==> !f(xs[i])
    ensures Keep(xs, f) == []
  {
    if xs != [] {
      KeepNone(xs[1..], f);
    }
  }

  /** Two tests that agree everywhere keep the same elements. */
  lemma {:induction false} KeepSame<T>(xs: seq<T>, f: T -> bool, g: T -> bool)
    requires forall y :: f(y) == g(y)
    ensures Keep(xs, f) == Keep(xs, g)
  {
    if xs != [] {
      KeepSame(xs[1..], f, g);
    }
  }

  /** `xs.find(f)`: the first element that passes, or nothing when none does. */
  function Find<T>(xs: seq<T>, f: T -> bool): (r: Option<T>)
    ensures r.None? <==> forall i :: 0 <= i < |xs| ==> !f(xs[i])
    ensures r.Some? ==> exists i :: 0 <= i < |xs| && xs[i] == r.value && f(r.value)
                          && forall k :: 0 <= k < i ==> !f(xs[k])
  {
    if xs == [] then None
    else if f(xs[0]) then Some(xs[0])
    else
      var r := Find(xs[1..], f);
      assert forall k :: 0 < k < |xs| ==> xs[k] == xs[1..][k - 1];
      if r.Some? then
        ghost var i :| 0 <= i < |xs[1..]| && xs[1..][i] == r.value && f(r.value)
                 && forall k :: 0 <= k < i ==> !f(xs[1..][k]);
        assert xs[i + 1] == r.value;
        r
      else r
  }
}
