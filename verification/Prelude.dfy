/** Small shared datatypes. */
module Prelude {

  datatype Option<+T> = None | Some(value: T) {
    function GetOr(default: T): T {
      if Some? then value else default
    }
  }

  function Min(a: int, b: int): int {
    if a <= b then a else b
  }

  /** s without its k-th element. */
  function Without<T>(s: seq<T>, k: nat): (r: seq<T>)
    requires k < |s|
    ensures forall x :: x in r ==> x in s
    ensures forall x :: x in s && x != s[k] ==> x in r
  {
    assert forall x :: x in s ==> x in s[..k] || x == s[k] || x in s[k + 1..];
    s[..k] + s[k + 1..]
  }

  // ---------- Runs of a step function ----------

  function Run<S, A>(next: (S, A) -> S, s: S, steps: seq<A>): S {
    if steps == [] then s else next(Run(next, s, steps[..|steps| - 1]), steps[|steps| - 1])
  }

  lemma {:induction false} RunThen<S, A>(next: (S, A) -> S, s: S, steps: seq<A>, step: A)
    ensures Run(next, s, steps + [step]) == next(Run(next, s, steps), step)
  {
    assert (steps + [step])[..|steps|] == steps;
  }

  lemma {:induction false} RunOne<S, A>(next: (S, A) -> S, s: S, step: A)
    ensures Run(next, s, [step]) == next(s, step)
  {
    assert [] + [step] == [step];
    RunThen(next, s, [], step);
  }

  lemma {:induction false} RunConcat<S, A>(next: (S, A) -> S, s: S, a: seq<A>, b: seq<A>)
    ensures Run(next, s, a + b) == Run(next, Run(next, s, a), b)
  {
    if b == [] {
      assert a + b == a;
    } else {
      assert (a + b)[..|a + b| - 1] == a + b[..|b| - 1];
      RunConcat(next, s, a, b[..|b| - 1]);
    }
  }

  lemma {:induction false} RunFrom<S, A>(next: (S, A) -> S, s: S, step: A, steps: seq<A>)
    ensures Run(next, s, [step] + steps) == Run(next, next(s, step), steps)
  {
    RunOne(next, s, step);
    RunConcat(next, s, [step], steps);
  }

  lemma {:induction false} RunFour<S, A>(next: (S, A) -> S, s: S, a: A, b: A, c: A, d: A)
    ensures Run(next, s, [a, b, c, d]) == next(next(next(next(s, a), b), c), d)
  {
    assert [a, b] == [a] + [b] && [a, b, c] == [a, b] + [c] && [a, b, c, d] == [a, b, c] + [d];
    RunOne(next, s, a);
    RunThen(next, s, [a], b);
    RunThen(next, s, [a, b], c);
    RunThen(next, s, [a, b, c], d);
  }

  // ---------- Lists ----------

  function Listed<T>(o: Option<T>): seq<T> {
    if o.Some? then [o.value] else []
  }

  /** The images of the elements on which f is defined, in order. */
  function Pick<A, B>(s: seq<A>, f: A -> Option<B>): seq<B> {
    if s == [] then [] else Pick(s[..|s| - 1], f) + Listed(f(s[|s| - 1]))
  }

  /** first, followed by the parts 0 to n - 1. */
  function Glue<T>(first: seq<T>, parts: nat -> seq<T>, n: nat): seq<T> {
    if n == 0 then first else Glue(first, parts, n - 1) + parts(n - 1)
  }

  /** f(0) + ... + f(n - 1). */
  function Sum(f: nat -> int, n: nat): int {
    if n == 0 then 0 else Sum(f, n - 1) + f(n - 1)
  }

  lemma {:induction false} PickConcat<A, B>(a: seq<A>, b: seq<A>, f: A -> Option<B>)
    ensures Pick(a + b, f) == Pick(a, f) + Pick(b, f)
  {
    if b == [] {
      assert a + b == a;
    } else {
      assert (a + b)[..|a + b| - 1] == a + b[..|b| - 1];
      PickConcat(a, b[..|b| - 1], f);
    }
  }

  lemma {:induction false} PickAll<A, B>(s: seq<A>, f: A -> Option<B>, images: seq<B>)
    requires |s| == |images| && forall i :: 0 <= i < |s| ==> f(s[i]) == Some(images[i])
    ensures Pick(s, f) == images
  {
    if s == [] {
    } else {
      PickAll(s[..|s| - 1], f, images[..|s| - 1]);
    }
  }

  lemma {:induction false} PickSame<A, B, C>(a: seq<A>, f: A -> Option<C>, b: seq<B>, g: B -> Option<C>)
    requires |a| == |b| && forall i :: 0 <= i < |a| ==> f(a[i]) == g(b[i])
    ensures Pick(a, f) == Pick(b, g)
  {
    if a == [] {
    } else {
      PickSame(a[..|a| - 1], f, b[..|b| - 1], g);
    }
  }

  lemma {:induction false} PickNothing<A, B>(s: seq<A>, f: A -> Option<B>)
    requires forall i :: 0 <= i < |s| ==> f(s[i]).None?
    ensures Pick(s, f) == []
  {
    if s == [] {
    } else {
      PickNothing(s[..|s| - 1], f);
    }
  }
}
