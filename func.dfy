/** The iteration combinators of src/common/func.py.

    A Python callback may have effects and may raise. The model describes one
    invocation of a callback by an `Attempt`: the effects it performed, in order,
    and how it then ended. `on_each` becomes `OnEach`, whose result is the list of
    effects of every invocation it made and the error it let escape, if any. */
module Func {
  import opened Wrappers

  /** One invocation of a callback: what it did, then whether it raised. */
  datatype Attempt<E> = Attempt(effects: seq<E>, outcome: Outcome)

  /** The effects of calling `callback` on each of `xs`, in order. */
  function FlatMap<T, E>(callback: T -> Attempt<E>, xs: seq<T>): seq<E>
    decreases |xs|
  {
    if xs == [] then [] else FlatMap(callback, xs[..|xs| - 1]) + callback(xs[|xs| - 1]).effects
  }

  /** The index of the first element whose callback raises, or |xs| if none does. */
  function FirstFailure<T, E>(callback: T -> Attempt<E>, xs: seq<T>): (k: nat)
    ensures k <= |xs|
    ensures forall j :: 0 <= j < k ==> callback(xs[j]).outcome.Pass?
    ensures k < |xs| ==> callback(xs[k]).outcome.Fail?
    decreases |xs|
  {
    if xs == [] then 0
    else if callback(xs[0]).outcome.Fail? then 0
    else 1 + FirstFailure(callback, xs[1..])
  }

  /** How many elements `on_each` hands to the callback: all of them when
      ignoring exceptions, otherwise those up to and including the first one
      whose callback raises. */
  function Processed<T, E>(callback: T -> Attempt<E>, xs: seq<T>, ignoreExceptions: bool): (n: nat)
    ensures n <= |xs|
  {
    var k := FirstFailure(callback, xs);
    if ignoreExceptions || k == |xs| then |xs| else k + 1
  }

  /** The effects `on_each` performs. */
  function OnEachEffects<T, E>(iterable: Stream<T>, callback: T -> Attempt<E>, ignoreExceptions: bool): seq<E>
  {
    FlatMap(callback, iterable.items[..Processed(callback, iterable.items, ignoreExceptions)])
  }

  /** The error `on_each` lets escape: the first callback error unless they are
      ignored, and otherwise whatever the iterable itself raises. */
  function OnEachRaised<T, E>(iterable: Stream<T>, callback: T -> Attempt<E>, ignoreExceptions: bool): Option<Error>
  {
    var k := FirstFailure(callback, iterable.items);
    if !ignoreExceptions && k < |iterable.items| then Some(callback(iterable.items[k]).outcome.error)
    else iterable.fault
  }

  /** on_each(iterable, callback, ignore_exceptions): calls the callback on every
      element in iteration order; a callback error is swallowed when
      `ignoreExceptions` holds and otherwise ends the loop and propagates. An
      error of the iterable itself is outside the try and always propagates. */
  method OnEach<T, E>(iterable: Stream<T>, callback: T -> Attempt<E>, ignoreExceptions: bool := false)
    returns (effects: seq<E>, raised: Option<Error>)
    ensures effects == OnEachEffects(iterable, callback, ignoreExceptions)
    ensures raised == OnEachRaised(iterable, callback, ignoreExceptions)
  {
    var xs := iterable.items;
    effects := [];
    var i := 0;
    while i < |xs|
      invariant 0 <= i <= |xs|
      invariant effects == FlatMap(callback, xs[..i])
      invariant !ignoreExceptions ==> i <= FirstFailure(callback, xs)
    {
      var attempt := callback(xs[i]);
      assert xs[..i + 1][..i] == xs[..i];
      effects := effects + attempt.effects;
      if attempt.outcome.Fail? && !ignoreExceptions {
        raised := Some(attempt.outcome.error);
        return;
      }
      i := i + 1;
    }
    assert xs[..i] == xs;
    raised := iterable.fault;
  }

  /** An element before the first failure whose callback passes is not the
      first failure. */
  lemma FirstFailurePast<T, E>(callback: T -> Attempt<E>, xs: seq<T>, i: nat)
    requires i < |xs| && i <= FirstFailure(callback, xs) && callback(xs[i]).outcome.Pass?
    ensures i + 1 <= FirstFailure(callback, xs)
  {
  }

  lemma {:induction false} FlatMapAppend<T, E>(callback: T -> Attempt<E>, xs: seq<T>, ys: seq<T>)
    ensures FlatMap(callback, xs + ys) == FlatMap(callback, xs) + FlatMap(callback, ys)
    decreases |ys|
  {
    if ys == [] {
      assert xs + ys == xs;
    } else {
      var zs := xs + ys;
      assert zs[..|zs| - 1] == xs + ys[..|ys| - 1];
      FlatMapAppend(callback, xs, ys[..|ys| - 1]);
    }
  }

  /** With exceptions ignored, every element is processed whatever its callback
      does, and only the iterable's own error escapes. */
  lemma OnEachIgnoring<T, E>(iterable: Stream<T>, callback: T -> Attempt<E>)
    ensures OnEachEffects(iterable, callback, true) == FlatMap(callback, iterable.items)
    ensures OnEachRaised(iterable, callback, true) == iterable.fault
  {
    assert iterable.items[..|iterable.items|] == iterable.items;
  }

  /** Without ignoring, the first callback that raises ends the loop: the
      elements after it are never handed to the callback, and its error is the
      one that escapes. */
  lemma OnEachAborting<T, E>(iterable: Stream<T>, callback: T -> Attempt<E>, k: nat)
    requires k < |iterable.items| && callback(iterable.items[k]).outcome.Fail?
    requires forall j :: 0 <= j < k ==> callback(iterable.items[j]).outcome.Pass?
    ensures OnEachEffects(iterable, callback, false) == FlatMap(callback, iterable.items[..k + 1])
    ensures OnEachRaised(iterable, callback, false) == Some(callback(iterable.items[k]).outcome.error)
  {
    var f := FirstFailure(callback, iterable.items);
    assert f == k;
  }

  /** When no callback raises, ignoring exceptions makes no difference, and the
      run ends normally exactly when the iterable does not raise. */
  lemma OnEachNoFailure<T, E>(iterable: Stream<T>, callback: T -> Attempt<E>, ignoreExceptions: bool)
    requires forall x :: x in iterable.items ==> callback(x).outcome.Pass?
    ensures OnEachEffects(iterable, callback, ignoreExceptions) == FlatMap(callback, iterable.items)
    ensures OnEachRaised(iterable, callback, ignoreExceptions) == iterable.fault
  {
    var xs := iterable.items;
    assert xs[..|xs|] == xs;
  }

  /** and_do(funcs, *args): one result per function, in order, each function
      called with the same arguments. */
  function AndDo<A, R>(funcs: seq<A -> R>, args: A): (results: seq<R>)
    ensures |results| == |funcs|
    ensures forall i :: 0 <= i < |funcs| ==> results[i] == funcs[i](args)
  {
    if funcs == [] then [] else [funcs[0](args)] + AndDo(funcs[1..], args)
  }

  /** The integer-valued part of the and_do test: (+, *, -) applied to (1, 2). */
  lemma AndDoArithmetic()
    ensures AndDo([(p: (int, int)) => p.0 + p.1, (p: (int, int)) => p.0 * p.1,
                   (p: (int, int)) => p.0 - p.1], (1, 2)) == [3, 2, -1]
  {
  }

  function Flatten<T>(chunks: seq<seq<T>>): seq<T>
  {
    if chunks == [] then [] else chunks[0] + Flatten(chunks[1..])
  }

  /** The consecutive groups of `size` elements of `xs`, the last one possibly
      shorter: the reference partition that every_x must produce. */
  function Chunks<T>(xs: seq<T>, size: nat): seq<seq<T>>
    requires size > 0
    decreases |xs|
  {
    if xs == [] then []
    else if |xs| <= size then [xs]
    else [xs[..size]] + Chunks(xs[size..], size)
  }

  function Abs(x: int): nat
  {
    if x < 0 then -x else x
  }

  /** every_x(func, iterable, x): `func` is applied to each chunk of |x|
      consecutive elements, and to the shorter rest if one is left. Python's
      `index % x == 0` holds exactly when |x| divides the index, so a negative
      x behaves like -x; x == 0 raises ZeroDivisionError at the first element,
      before anything is yielded, and never on an empty input. */
  method EveryX<T, R>(func: seq<T> -> R, iterable: seq<T>, x: int := 5)
    returns (yielded: seq<R>, raised: Option<Error>)
    ensures x == 0 ==> yielded == [] && raised == (if iterable == [] then None else Some(ZeroDivisionError))
    ensures x != 0 ==> raised == None
    ensures x != 0 ==> |yielded| == |Chunks(iterable, Abs(x))|
    ensures x != 0 ==> forall i :: 0 <= i < |yielded| ==> yielded[i] == func(Chunks(iterable, Abs(x))[i])
  {
    yielded := [];
    raised := None;
    if x == 0 {
      if iterable != [] {
        raised := Some(ZeroDivisionError);
      }
      return;
    }
    var size := Abs(x);
    var store: seq<T> := [];
    var index := 0;
    ghost var done: seq<T> := [];
    ghost var full: nat := 0;
    while index < |iterable|
      invariant 0 <= index <= |iterable|
      invariant |store| < size
      invariant iterable[..index] == done + store
      invariant |done| == full * size
      invariant |yielded| == |Chunks(done, size)|
      invariant forall i :: 0 <= i < |yielded| ==> yielded[i] == func(Chunks(done, size)[i])
    {
      store := store + [iterable[index]];
      index := index + 1;
      assert iterable[..index] == done + store;
      assert (index % x == 0) == (index % size == 0);
      if |store| == size {
        DivModUnique(index, size, full + 1, 0);
      } else {
        DivModUnique(index, size, full, |store|);
      }
      if index % x == 0 {
        ChunksAppend(done, store, size, full);
        yielded := yielded + [func(store)];
        done, full := done + store, full + 1;
        store := [];
      }
    }
    assert iterable[..index] == iterable;
    if |store| > 0 {
      ChunksAppend(done, store, size, full);
      yielded := yielded + [func(store)];
    } else {
      assert done == iterable;
    }
  }

  lemma DivModUnique(n: int, size: int, k: int, r: int)
    requires size > 0 && 0 <= r < size && n == k * size + r
    ensures n % size == r
  {
    var q, m := n / size, n % size;
    assert n == q * size + m;
    assert (k - q) * size == m - r;
    if k - q >= 1 {
    } else if k - q <= -1 {
    }
  }

  /** A chunk of at most `size` elements appended to a whole number of full
      chunks becomes one more chunk. */
  lemma {:induction false} ChunksAppend<T>(done: seq<T>, rest: seq<T>, size: nat, full: nat)
    requires size > 0 && |done| == full * size && 0 < |rest| <= size
    ensures Chunks(done + rest, size) == Chunks(done, size) + [rest]
    decreases full
  {
    if full == 0 {
      assert done + rest == rest;
    } else {
      assert |done| == (full - 1) * size + size;
      var all := done + rest;
      assert all[..size] == done[..size];
      assert all[size..] == done[size..] + rest;
      ChunksAppend(done[size..], rest, size, full - 1);
      if full == 1 {
        assert done[size..] == [];
      }
    }
  }

  /** Concatenating the chunks gives back the input, in order. */
  lemma {:induction false} ChunksFlatten<T>(xs: seq<T>, size: nat)
    requires size > 0
    ensures Flatten(Chunks(xs, size)) == xs
    decreases |xs|
  {
    if |xs| > size {
      ChunksFlatten(xs[size..], size);
      assert xs == xs[..size] + xs[size..];
    }
  }

  /** Every chunk but the last has exactly `size` elements; the last one is
      non-empty and has at most `size`; and there are ceil(|xs| / size) chunks. */
  lemma ChunksShape<T>(xs: seq<T>, size: nat)
    requires size > 0
    ensures var c := Chunks(xs, size);
      && (forall i :: 0 <= i < |c| - 1 ==> |c[i]| == size)
      && (c != [] ==> 0 < |c[|c| - 1]| <= size)
      && (c == [] <==> xs == [])
      && (|c| - 1) * size < |xs| <= |c| * size
  {
    ChunksSizes(xs, size);
    ChunksCount(xs, size);
  }

  /** Every chunk but the last is full, and the last is not empty. */
  lemma {:induction false} ChunksSizes<T>(xs: seq<T>, size: nat)
    requires size > 0
    ensures var c := Chunks(xs, size);
      && (forall i :: 0 <= i < |c| - 1 ==> |c[i]| == size)
      && (c != [] ==> 0 < |c[|c| - 1]| <= size)
    decreases |xs|
  {
    if |xs| > size {
      ChunksSizes(xs[size..], size);
      var c := Chunks(xs, size);
      var r := Chunks(xs[size..], size);
      assert c == [xs[..size]] + r;
      assert forall i :: 1 <= i < |c| ==> c[i] == r[i - 1];
    }
  }

  /** There are just enough chunks to hold the elements. */
  lemma {:induction false} ChunksCount<T>(xs: seq<T>, size: nat)
    requires size > 0
    ensures var c := Chunks(xs, size);
      && (c == [] <==> xs == [])
      && (|c| - 1) * size < |xs| <= |c| * size
    decreases |xs|
  {
    if |xs| > size {
      ChunksCount(xs[size..], size);
      var n := |Chunks(xs[size..], size)|;
      assert |Chunks(xs, size)| == n + 1;
      MulSucc(n - 1, size);
      MulSucc(n, size);
    }
  }

  lemma MulSucc(n: int, size: int)
    ensures (n + 1) * size == n * size + size
  {
  }

  /** The every_x test: taking the first element of each chunk of 3. */
  lemma EveryXFirstElements()
    ensures Chunks([1, 2, 3, 4, 5, 6, 7, 8, 9], 3) == [[1, 2, 3], [4, 5, 6], [7, 8, 9]]
    ensures Chunks([1, 2, 3, 4, 5, 6, 7, 8], 3) == [[1, 2, 3], [4, 5, 6], [7, 8]]
  {
    var a := [1, 2, 3, 4, 5, 6, 7, 8, 9];
    assert a[..3] == [1, 2, 3] && a[3..] == [4, 5, 6, 7, 8, 9];
    assert a[3..][..3] == [4, 5, 6] && a[3..][3..] == [7, 8, 9];
    var b := [1, 2, 3, 4, 5, 6, 7, 8];
    assert b[..3] == [1, 2, 3] && b[3..] == [4, 5, 6, 7, 8];
    assert b[3..][..3] == [4, 5, 6] && b[3..][3..] == [7, 8];
  }
}
