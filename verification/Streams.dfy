/** Stateful stream processors: what holds of any step function. */
module Streams {
  /** Feed xs to the processor, collecting one output per input. */
  function Run<S, I, O>(step: (S, I) -> (S, O), s: S, xs: seq<I>): (r: (S, seq<O>))
    ensures |r.1| == |xs|
  {
    if xs == [] then (s, [])
    else
      var before := Run(step, s, xs[..|xs| - 1]);
      var next := step(before.0, xs[|xs| - 1]);
      (next.0, before.1 + [next.1])
  }

  lemma RunSnoc<S, I, O>(step: (S, I) -> (S, O), s: S, xs: seq<I>, x: I)
    ensures var before := Run(step, s, xs);
            var next := step(before.0, x);
            Run(step, s, xs + [x]) == (next.0, before.1 + [next.1])
  {
    assert (xs + [x])[..|xs|] == xs;
  }

  /** Output n is produced by the state after the first n inputs. */
  lemma {:induction false} RunPrefix<S, I, O>(step: (S, I) -> (S, O), s: S, xs: seq<I>, n: nat)
    requires n < |xs|
    ensures Run(step, s, xs).1[..n] == Run(step, s, xs[..n]).1
    ensures Run(step, s, xs).1[n] == step(Run(step, s, xs[..n]).0, xs[n]).1
  {
    var k := |xs| - 1;
    if n < k {
      RunPrefix(step, s, xs[..k], n);
      assert xs[..k][..n] == xs[..n];
    }
  }

  /** Two calls are one call on the concatenation. */
  lemma {:induction false} RunConcat<S, I, O>(step: (S, I) -> (S, O), s: S, xs: seq<I>, ys: seq<I>)
    ensures var first := Run(step, s, xs);
            var second := Run(step, first.0, ys);
            Run(step, s, xs + ys) == (second.0, first.1 + second.1)
  {
    if ys == [] {
      assert xs + ys == xs;
      assert Run(step, s, xs).1 + [] == Run(step, s, xs).1;
    } else {
      var n := |ys| - 1;
      RunConcat(step, s, xs, ys[..n]);
      assert (xs + ys)[..|xs + ys| - 1] == xs + ys[..n];
      assert (xs + ys)[|xs + ys| - 1] == ys[n];
      var first := Run(step, s, xs);
      var before := Run(step, first.0, ys[..n]);
      assert Run(step, s, xs + ys[..n]) == (before.0, first.1 + before.1);
      var next := step(before.0, ys[n]);
      assert first.1 + (before.1 + [next.1]) == first.1 + before.1 + [next.1];
    }
  }

  /** A relation that one round of sender and receiver keeps holds after every stream. */
  lemma {:induction false} RunsInStep<S(!new), T(!new), I(!new), O, P>(
      send: (S, I) -> (S, O), receive: (T, O) -> (T, P), related: (S, T) -> bool, s: S, t: T, xs: seq<I>)
    requires related(s, t)
    requires forall s, t, x :: related(s, t) ==> related(send(s, x).0, receive(t, send(s, x).1).0)
    ensures var sent := Run(send, s, xs);
            related(sent.0, Run(receive, t, sent.1).0)
  {
    if xs != [] {
      var n := |xs| - 1;
      RunsInStep(send, receive, related, s, t, xs[..n]);
      var sent := Run(send, s, xs).1;
      assert sent[..n] == Run(send, s, xs[..n]).1;
    }
  }

  /** And what one round in related states guarantees of the received output holds at every position. */
  lemma OutputsInStep<S(!new), T(!new), I(!new), O, P>(
      send: (S, I) -> (S, O), receive: (T, O) -> (T, P), related: (S, T) -> bool, good: (S, I, P) -> bool,
      s: S, t: T, xs: seq<I>, n: nat)
    requires n < |xs| && related(s, t)
    requires forall s, t, x :: related(s, t) ==> related(send(s, x).0, receive(t, send(s, x).1).0)
    requires forall s, t, x :: related(s, t) ==> good(s, x, receive(t, send(s, x).1).1)
    ensures good(Run(send, s, xs[..n]).0, xs[n], Run(receive, t, Run(send, s, xs).1).1[n])
  {
    RunPrefix(send, s, xs, n);
    RunPrefix(receive, t, Run(send, s, xs).1, n);
    RunsInStep(send, receive, related, s, t, xs[..n]);
  }

  /** A step made of three stages in a row runs as the three streams in a row. */
  lemma {:induction false} RunStages<V(!new), S, T, R, I(!new), M, N, O>(
      whole: (V, I) -> (V, O), first: (S, I) -> (S, M), second: (T, M) -> (T, N), third: (R, N) -> (R, O),
      view: V -> (S, T, R), v: V, xs: seq<I>)
    requires forall v, x ::
      var a := first(view(v).0, x);
      var b := second(view(v).1, a.1);
      var c := third(view(v).2, b.1);
      view(whole(v, x).0) == (a.0, b.0, c.0) && whole(v, x).1 == c.1
    ensures var a := Run(first, view(v).0, xs);
            var b := Run(second, view(v).1, a.1);
            var c := Run(third, view(v).2, b.1);
            view(Run(whole, v, xs).0) == (a.0, b.0, c.0) && Run(whole, v, xs).1 == c.1
  {
    if xs != [] {
      var n := |xs| - 1;
      RunStages(whole, first, second, third, view, v, xs[..n]);
      var a := Run(first, view(v).0, xs).1;
      assert a[..n] == Run(first, view(v).0, xs[..n]).1;
      var b := Run(second, view(v).1, a).1;
      assert b[..n] == Run(second, view(v).1, a[..n]).1;
    }
  }

  /** A step that acts on part of the state as another step does. */
  lemma {:induction false} RunProject<V(!new), T, I(!new), O, P>(
      whole: (V, I) -> (V, O), part: (T, I) -> (T, P), view: V -> T, v: V, xs: seq<I>)
    requires forall v, x :: view(whole(v, x).0) == part(view(v), x).0
    ensures view(Run(whole, v, xs).0) == Run(part, view(v), xs).0
  {
    if xs != [] {
      RunProject(whole, part, view, v, xs[..|xs| - 1]);
    }
  }
}
