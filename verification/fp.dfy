/** The fp-ts combinators the batching pipeline is assembled from: `Either`,
    `A.traverse(E.Applicative)` (fail-fast encoding of a whole list) and
    `A.chunksOf` (splitting the encoded list into batches). */
module Fp {

  datatype Option<+T> = None | Some(value: T)

  /** fp-ts `Either`: `Left` carries the error, `Right` the value. */
  datatype Either<+L, +R> = Left(left: L) | Right(right: R)

  /** Index of the first element that `fn` maps to a `Left`, or `|xs|` when
      every element maps to a `Right`. */
  function FirstLeft<T, L, R>(fn: T -> Either<L, R>, xs: seq<T>): (k: nat)
    ensures k <= |xs|
    ensures forall i :: 0 <= i < k ==> fn(xs[i]).Right?
    ensures k < |xs| ==> fn(xs[k]).Left?
    decreases |xs|
  {
    if |xs| == 0 then 0
    else if fn(xs[0]).Left? then 0
    else
      var k := FirstLeft(fn, xs[1..]);
      assert forall i :: 1 <= i < k + 1 ==> xs[i] == xs[1..][i - 1];
      1 + k
  }

  /** `FirstLeft` is the only index with its two properties. */
  lemma FirstLeftUnique<T, L, R>(fn: T -> Either<L, R>, xs: seq<T>, k: nat)
    requires k <= |xs|
    requires forall i :: 0 <= i < k ==> fn(xs[i]).Right?
    requires k < |xs| ==> fn(xs[k]).Left?
    ensures FirstLeft(fn, xs) == k
  {
  }

  /** `A.traverse(E.Applicative)(fn)(xs)`: the list of all the `Right` values,
      in order, or the first `Left` met from the front. */
  function Traverse<T, L, R>(fn: T -> Either<L, R>, xs: seq<T>): (r: Either<L, seq<R>>)
    ensures r.Right? <==> forall i :: 0 <= i < |xs| ==> fn(xs[i]).Right?
    ensures r.Right? <==> FirstLeft(fn, xs) == |xs|
    ensures r.Right? ==> |r.right| == |xs|
    ensures r.Right? ==> forall i :: 0 <= i < |xs| ==> r.right[i] == fn(xs[i]).right
    ensures r.Left? ==> r.left == fn(xs[FirstLeft(fn, xs)]).left
    decreases |xs|
  {
    if |xs| == 0 then Right([])
    else
      match fn(xs[0])
      case Left(e) => Left(e)
      case Right(y) =>
        var rest := Traverse(fn, xs[1..]);
        assert forall i :: 1 <= i < |xs| ==> xs[i] == xs[1..][i - 1];
        match rest
        case Left(e) => Left(e)
        case Right(ys) => Right([y] + ys)
  }

  /** Concatenation of a list of chunks. */
  function Flatten<T>(cs: seq<seq<T>>): seq<T>
  {
    if |cs| == 0 then [] else cs[0] + Flatten(cs[1..])
  }

  lemma {:induction false} FlattenAppend<T>(a: seq<seq<T>>, b: seq<seq<T>>)
    ensures Flatten(a + b) == Flatten(a) + Flatten(b)
    decreases |a|
  {
    if |a| == 0 {
      assert a + b == b;
    } else {
      assert (a + b)[1..] == a[1..] + b;
      FlattenAppend(a[1..], b);
    }
  }

  /** The chunks submitted before a stop form a prefix of the flattened whole. */
  lemma FlattenPrefix<T>(cs: seq<seq<T>>, k: nat)
    requires k <= |cs|
    ensures Flatten(cs[..k]) <= Flatten(cs)
  {
    assert cs == cs[..k] + cs[k..];
    FlattenAppend(cs[..k], cs[k..]);
  }

  /** Number of chunks of length `n` needed for `m` items: ceil(m / n). */
  function CeilDiv(m: nat, n: nat): nat
    requires n >= 1
  {
    (m + n - 1) / n
  }

  lemma MulMonotone(a: int, b: int, n: nat)
    requires a <= b
    ensures a * n <= b * n
  {
    assert b * n - a * n == (b - a) * n;
  }

  /** `k` is ceil(m / n) exactly when k chunks of n hold m items and k - 1 do not. */
  lemma CeilDivUnique(m: nat, n: nat, k: nat)
    requires n >= 1
    requires (k - 1) * n < m <= k * n
    ensures CeilDiv(m, n) == k
  {
    var q, r := (m + n - 1) / n, (m + n - 1) % n;
    assert m + n - 1 == q * n + r && 0 <= r < n;
    if q > k {
      assert (k + 1) * n == k * n + n;
      MulMonotone(k + 1, q, n);
      assert false;
    } else if q < k {
      assert (k - 1) * n == k * n - n;
      MulMonotone(q, k - 1, n);
      assert false;
    }
  }

  /** Chunk shape: every chunk non-empty, at most `n` long, exactly `n` long
      unless it is the last one. */
  ghost predicate WellChunked<T>(cs: seq<seq<T>>, n: nat)
  {
    && (forall i :: 0 <= i < |cs| ==> 1 <= |cs[i]| <= n)
    && (forall i :: 0 <= i < |cs| - 1 ==> |cs[i]| == n)
  }

  /** `A.chunksOf(n)(xs)`: consecutive chunks of `n` items, the last one
      possibly shorter; no chunk is empty and none are made for `[]`. */
  function ChunksOf<T>(xs: seq<T>, n: nat): (cs: seq<seq<T>>)
    requires n >= 1
    ensures Flatten(cs) == xs
    ensures WellChunked(cs, n)
    decreases |xs|
  {
    if |xs| == 0 then []
    else if |xs| <= n then [xs]
    else
      var rest := ChunksOf(xs[n..], n);
      assert xs == xs[..n] + xs[n..];
      assert ([xs[..n]] + rest)[1..] == rest;
      [xs[..n]] + rest
  }

  /** `k` chunks hold the items and `k - 1` would not. */
  lemma {:induction false} ChunkBounds<T>(xs: seq<T>, n: nat)
    requires n >= 1
    ensures (|ChunksOf(xs, n)| - 1) * n < |xs| <= |ChunksOf(xs, n)| * n
    decreases |xs|
  {
    if |xs| > n {
      var k := |ChunksOf(xs[n..], n)|;
      ChunkBounds(xs[n..], n);
      assert |ChunksOf(xs, n)| == k + 1;
      assert (k + 1) * n == k * n + n;
      assert (k - 1) * n == k * n - n;
    }
  }

  /** The number of chunks is ceil(|xs| / n). */
  lemma ChunkCount<T>(xs: seq<T>, n: nat)
    requires n >= 1
    ensures |ChunksOf(xs, n)| == CeilDiv(|xs|, n)
  {
    ChunkBounds(xs, n);
    CeilDivUnique(|xs|, n, |ChunksOf(xs, n)|);
  }

  /** The shape determines the chunking: any well-shaped list of chunks is
      what `ChunksOf` makes of its concatenation. */
  lemma {:induction false} ChunksOfUnique<T>(cs: seq<seq<T>>, n: nat)
    requires n >= 1
    requires WellChunked(cs, n)
    ensures ChunksOf(Flatten(cs), n) == cs
    decreases |cs|
  {
    if |cs| == 0 {
    } else if |cs| == 1 {
      assert Flatten(cs) == cs[0] + Flatten(cs[1..]);
      assert Flatten(cs) == cs[0];
    } else {
      var xs := Flatten(cs);
      assert xs == cs[0] + Flatten(cs[1..]);
      assert WellChunked(cs[1..], n) by {
        assert forall i :: 0 <= i < |cs| - 1 ==> cs[1..][i] == cs[i + 1];
      }
      ChunksOfUnique(cs[1..], n);
      assert |cs[0]| == n;
      assert |Flatten(cs[1..])| >= 1 by {
        assert Flatten(cs[1..]) == cs[1] + Flatten(cs[2..]);
      }
      assert xs[..n] == cs[0];
      assert xs[n..] == Flatten(cs[1..]);
      assert cs == [cs[0]] + cs[1..];
    }
  }

  /** An effectful run: its outcome and, in order, every input handed to the
      effect. */
  datatype Logged<E, A, S> = Logged(result: Either<E, A>, submitted: seq<S>)

  /** How many inputs a sequential run hands over when the first failure is
      at index `k` of `n`: up to and including that one, or all of them. */
  function Stop(k: nat, n: nat): nat
  {
    if k < n then k + 1 else n
  }

  function Prepend<E, A>(a: A, r: Either<E, seq<A>>): Either<E, seq<A>>
  {
    match r
    case Left(e) => Left(e)
    case Right(xs) => Right([a] + xs)
  }

  /** `A.sequence(TE.ApplicativeSeq)` over the tasks `run(x)`: run them one
      after another, stopping at the first failure. The outcome is that of
      the pure traversal, and the inputs handed over are exactly those up to
      and including the first one that fails. */
  function SequenceSeq<S, E, A>(run: S -> Either<E, A>, xs: seq<S>): (r: Logged<E, seq<A>, S>)
    ensures r.result == Traverse(run, xs)
    ensures r.submitted == xs[..Stop(FirstLeft(run, xs), |xs|)]
    decreases |xs|
  {
    if |xs| == 0 then Logged(Right([]), [])
    else
      match run(xs[0])
      case Left(e) => Logged(Left(e), [xs[0]])
      case Right(b) =>
        var rest := SequenceSeq(run, xs[1..]);
        var k := FirstLeft(run, xs[1..]);
        assert xs[..Stop(k + 1, |xs|)] == [xs[0]] + xs[1..][..Stop(k, |xs| - 1)];
        Logged(Prepend(b, rest.result), [xs[0]] + rest.submitted)
  }

  /** Input `k` fails and every input before it succeeds: the run returns
      that failure and hands over inputs `0..k` only. */
  lemma SequenceStopsAtFailure<S, E, A>(run: S -> Either<E, A>, xs: seq<S>, k: nat)
    requires k < |xs| && run(xs[k]).Left?
    requires forall j :: 0 <= j < k ==> run(xs[j]).Right?
    ensures SequenceSeq(run, xs) == Logged(Left(run(xs[k]).left), xs[..k + 1])
  {
  }

  /** Every input succeeds: all of them are handed over and the results come
      back in input order. */
  lemma SequenceAllSucceed<S, E, A>(run: S -> Either<E, A>, xs: seq<S>, ys: seq<A>)
    requires |ys| == |xs|
    requires forall j :: 0 <= j < |xs| ==> run(xs[j]) == Right(ys[j])
    ensures SequenceSeq(run, xs) == Logged(Right(ys), xs)
  {
    var r := Traverse(run, xs);
    assert r.Right? && |r.right| == |ys|;
    assert forall j :: 0 <= j < |xs| ==> r.right[j] == ys[j];
    assert r.right == ys;
  }

  /** `A.traverse(E.Applicative)(fn)` as a loop that returns at the first
      element that fails. */
  method TraverseLoop<T, L, R>(fn: T -> Either<L, R>, xs: seq<T>) returns (r: Either<L, seq<R>>)
    ensures r == Traverse(fn, xs)
  {
    var ys: seq<R> := [];
    var i := 0;
    while i < |xs|
      invariant i <= |xs|
      invariant |ys| == i
      invariant forall j :: 0 <= j < i ==> fn(xs[j]).Right? && ys[j] == fn(xs[j]).right
    {
      var y := fn(xs[i]);
      if y.Left? {
        assert FirstLeft(fn, xs) == i;
        return Left(y.left);
      }
      ys := ys + [y.right];
      i := i + 1;
    }
    var t := Traverse(fn, xs);
    assert t.Right? && |t.right| == |ys|;
    assert forall j :: 0 <= j < |ys| ==> t.right[j] == ys[j];
    assert t.right == ys;
    r := Right(ys);
  }

  lemma StopAtLast<S, E, A>(run: seq<S> -> Either<E, A>, chunks: seq<seq<S>>, submitted: seq<seq<S>>)
    requires 1 <= |submitted| && submitted <= chunks
    requires run(submitted[|submitted| - 1]).Left?
    requires forall j :: 0 <= j < |submitted| - 1 ==> run(submitted[j]).Right?
    ensures SequenceSeq(run, chunks) == Logged(Left(run(submitted[|submitted| - 1]).left), submitted)
  {
    assert chunks[..|submitted|] == submitted;
    SequenceStopsAtFailure(run, chunks, |submitted| - 1);
  }

  /** Chunking followed by the sequential run, as one loop: run the chunks
      of `ChunksOf(xs, n)` in order and return at the first failure. The
      chunks run are the leading ones; all but the last of them succeeded,
      and the last one failed with the returned error unless every chunk ran
      and succeeded. */
  method ChunkedLoop<S, E, A>(run: seq<S> -> Either<E, A>, n: nat, xs: seq<S>)
    returns (result: Either<E, seq<A>>, submitted: seq<seq<S>>)
    requires n >= 1
    ensures submitted <= ChunksOf(xs, n)
    ensures result.Right? ==> submitted == ChunksOf(xs, n) && |result.right| == |submitted|
    ensures result.Right? ==> forall j :: 0 <= j < |submitted| ==> run(submitted[j]) == Right(result.right[j])
    ensures result.Left? ==> 1 <= |submitted| && run(submitted[|submitted| - 1]) == Left(result.left)
    ensures result.Left? ==> forall j :: 0 <= j < |submitted| - 1 ==> run(submitted[j]).Right?
  {
    var chunks := ChunksOf(xs, n);
    var ys: seq<A> := [];
    var i := 0;
    while i < |chunks|
      invariant i <= |chunks|
      invariant |ys| == i
      invariant forall j :: 0 <= j < i ==> run(chunks[j]) == Right(ys[j])
    {
      var outcome := run(chunks[i]);
      if outcome.Left? {
        return Left(outcome.left), chunks[..i + 1];
      }
      ys := ys + [outcome.right];
      i := i + 1;
    }
    return Right(ys), chunks;
  }
}
