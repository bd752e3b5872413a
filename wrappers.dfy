/** Option and Result values for Python's `None` returns and raised exceptions. */
module Wrappers {

  datatype Option<+T> = None | Some(value: T) {
    /** The wrapped value, or `default` when there is none (Python's `x if x is not None else default`). */
    function GetOr(default: T): T {
      match this
      case Some(v) => v
      case None => default
    }
  }

  /** A call that either returns a value or raises an exception of kind `E`. */
  datatype Result<+T, +E> = Ok(value: T) | Err(error: E)

  /** The values of the present entries, in order (a filter, written as a list of options). */
  function Somes<T>(os: seq<Option<T>>): seq<T> {
    if |os| == 0 then []
    else Somes(os[..|os| - 1]) + (if os[|os| - 1].Some? then [os[|os| - 1].value] else [])
  }

  /** Filtering distributes over a leading entry. */
  lemma {:induction false} SomesCons<T>(o: Option<T>, os: seq<Option<T>>)
    ensures Somes([o] + os) == (if o.Some? then [o.value] else []) + Somes(os)
  {
    if |os| > 0 {
      var init := os[..|os| - 1];
      SomesCons(o, init);
      assert ([o] + os)[..|os|] == [o] + init;
    }
  }

  /** Every value kept is that of some entry. */
  lemma {:induction false} SomesSound<T>(os: seq<Option<T>>, k: nat)
    requires k < |Somes(os)|
    ensures exists i :: 0 <= i < |os| && os[i] == Some(Somes(os)[k])
  {
    var init := os[..|os| - 1];
    if k < |Somes(init)| {
      SomesSound(init, k);
      var i :| 0 <= i < |init| && init[i] == Some(Somes(init)[k]);
      assert os[i] == init[i];
    } else {
      assert os[|os| - 1] == Some(Somes(os)[k]);
    }
  }

  /** Every present entry is kept. */
  lemma {:induction false} SomesComplete<T>(os: seq<Option<T>>, i: nat)
    requires i < |os| && os[i].Some?
    ensures os[i].value in Somes(os)
  {
    var init := os[..|os| - 1];
    if i < |init| {
      SomesComplete(init, i);
      assert os[i] == init[i];
    }
  }

  /** The elements of `xs` that satisfy `p`, in their order in `xs`. */
  function Filter<T>(xs: seq<T>, p: T -> bool): seq<T> {
    if |xs| == 0 then []
    else Filter(xs[..|xs| - 1], p) + (if p(xs[|xs| - 1]) then [xs[|xs| - 1]] else [])
  }

  /** Filtering keeps exactly the elements that satisfy the test. */
  lemma {:induction false} FilterMembers<T>(xs: seq<T>, p: T -> bool)
    ensures forall x :: x in Filter(xs, p) <==> x in xs && p(x)
  {
    if |xs| > 0 {
      FilterMembers(xs[..|xs| - 1], p);
      assert xs == xs[..|xs| - 1] + [xs[|xs| - 1]];
    }
  }

  /** Filtering a concatenation filters each part: the order of `xs` is kept. */
  lemma {:induction false} FilterAppend<T>(xs: seq<T>, ys: seq<T>, p: T -> bool)
    ensures Filter(xs + ys, p) == Filter(xs, p) + Filter(ys, p)
  {
    if |ys| > 0 {
      var init := ys[..|ys| - 1];
      FilterAppend(xs, init, p);
      assert (xs + ys)[..|xs + ys| - 1] == xs + init;
    } else {
      assert xs + ys == xs;
    }
  }
}
