/** Compute-once wrappers for callables and Gradle providers
    (`MemoizedCallable`, `memoize`, `memoized`, `memoizedProvider`). */
module Memoize {
  import opened Wrappers

  /** A callable whose code is not part of this model: its n-th invocation
      answers `results(n)`, a `Failure` standing for the exception it throws,
      and `invocations` counts how often it ran. A Gradle provider queried with
      `orNull` is one of these with optional results. */
  class Callable<V> {
    const results: nat -> Result<V, string>
    var invocations: nat

    constructor (results: nat -> Result<V, string>)
      ensures this.results == results && invocations == 0
    {
      this.results := results;
      invocations := 0;
    }

    method Call() returns (r: Result<V, string>)
      modifies this
      ensures invocations == old(invocations) + 1
      ensures r == results(old(invocations))
    {
      r := results(invocations);
      invocations := invocations + 1;
    }
  }

  /** `MemoizedCallable`: `lazyValue` is Kotlin's `lazy`, which keeps the
      first value the wrapped callable returns and never runs it again, but
      keeps nothing when the callable throws, so the next call runs it again.
      The wrapped callable may be shared with other code, which can run it
      in between. */
  class MemoizedCallable<V> {
    const callable: Callable<V>
    var lazyValue: Option<V>
    /** How often this wrapper ran the callable, and how many of those runs failed. */
    ghost var runs: nat
    ghost var failures: nat
    /** The invocation of the callable whose value `lazyValue` keeps. */
    ghost var filledBy: nat

    ghost predicate Valid()
      reads this
    {
      && runs == failures + (if lazyValue.Some? then 1 else 0)
      && (lazyValue.Some? ==> callable.results(filledBy) == Success(lazyValue.value))
    }

    /** Wrapping does not run the callable. */
    constructor (callable: Callable<V>)
      ensures this.callable == callable && lazyValue.None?
      ensures runs == 0 && failures == 0
      ensures Valid()
    {
      this.callable := callable;
      lazyValue := None;
      runs, failures, filledBy := 0, 0, 0;
    }

    /** A filled cache answers without running the callable. An empty one
        runs the callable once: a value is kept and returned, a failure is
        passed on and the cache stays empty. */
    method Call() returns (r: Result<V, string>)
      requires Valid()
      modifies this, callable
      ensures Valid()
      ensures old(lazyValue).Some? ==>
                && r == Success(old(lazyValue).value) && lazyValue == old(lazyValue)
                && callable.invocations == old(callable.invocations) && runs == old(runs)
      ensures old(lazyValue).None? ==>
                && r == callable.results(old(callable.invocations))
                && callable.invocations == old(callable.invocations) + 1 && runs == old(runs) + 1
                && (r.Success? ==> lazyValue == Some(r.value) && failures == old(failures))
                && (r.Failure? ==> lazyValue.None? && failures == old(failures) + 1)
    {
      if lazyValue.Some? {
        return Success(lazyValue.value);
      }
      filledBy := callable.invocations;
      r := callable.Call();
      runs := runs + 1;
      match r
      case Success(v) =>
        lazyValue := Some(v);
      case Failure(_) =>
        failures := failures + 1;
    }
  }

  /** A `Callable` as the source sees it: either a plain callable or one that
      is already memoized. */
  datatype AnyCallable<V> = Plain(callable: Callable<V>) | Wrapped(memoized: MemoizedCallable<V>)

  /** `memoize`: an already memoized callable is returned as it is; any other
      is wrapped, without being run. */
  method Memoize<V>(c: AnyCallable<V>) returns (r: AnyCallable<V>)
    requires c.Wrapped? ==> c.memoized.Valid()
    ensures c.Wrapped? ==> r == c
    ensures c.Plain? ==> r.Wrapped? && fresh(r.memoized) && r.memoized.callable == c.callable
                         && r.memoized.lazyValue.None? && r.memoized.runs == 0
    ensures r.Wrapped? && r.memoized.Valid()
  {
    match c
    case Wrapped(_) =>
      r := c;
    case Plain(callable) =>
      var m := new MemoizedCallable(callable);
      r := Wrapped(m);
  }

  /** Memoizing twice gives the same callable as memoizing once. */
  method MemoizeIdempotent<V>(c: AnyCallable<V>) returns (once: AnyCallable<V>, twice: AnyCallable<V>)
    requires c.Wrapped? ==> c.memoized.Valid()
    ensures twice == once
  {
    once := Memoize(c);
    twice := Memoize(once);
  }

  /** `memoized(provider)`: a provider over the memoized query of the given
      provider's value (`None` standing for null); the provider is not
      queried yet. */
  method Memoized<T>(provider: Callable<Option<T>>) returns (r: MemoizedCallable<Option<T>>)
    ensures fresh(r) && r.callable == provider && r.lazyValue.None?
    ensures provider.invocations == old(provider.invocations) && r.Valid()
  {
    r := new MemoizedCallable(provider);
  }

  /** `memoizedProvider(callable)`: a provider over `callable.memoize()`. */
  method MemoizedProvider<T>(c: AnyCallable<Option<T>>) returns (r: AnyCallable<Option<T>>)
    requires c.Wrapped? ==> c.memoized.Valid()
    ensures c.Wrapped? ==> r == c
    ensures c.Plain? ==> r.Wrapped? && fresh(r.memoized) && r.memoized.callable == c.callable
                         && r.memoized.lazyValue.None?
    ensures r.Wrapped? && r.memoized.Valid()
  {
    r := Memoize(c);
  }

  /** Two calls of a memoized callable: once a value has been returned, the
      second call returns it again without running the callable; a first run
      that fails is followed by a second run. */
  method CallTwice<V>(m: MemoizedCallable<V>) returns (first: Result<V, string>, second: Result<V, string>)
    requires m.Valid()
    modifies m, m.callable
    ensures m.Valid()
    ensures first.Success? ==> second == first
    ensures old(m.lazyValue).Some? ==> m.callable.invocations == old(m.callable.invocations)
    ensures old(m.lazyValue).None? && first.Success? ==>
              first == m.callable.results(old(m.callable.invocations))
              && m.callable.invocations == old(m.callable.invocations) + 1
    ensures first.Failure? ==>
              && first == m.callable.results(old(m.callable.invocations))
              && second == m.callable.results(old(m.callable.invocations) + 1)
              && m.callable.invocations == old(m.callable.invocations) + 2
  {
    first := m.Call();
    second := m.Call();
  }

  /** `memoizedProvider` called twice on one plain callable gives two
      wrappers; each runs the shared callable once and keeps its own value. */
  method MemoizeSharedCallable<T>(c: Callable<Option<T>>)
    returns (w1: AnyCallable<Option<T>>, w2: AnyCallable<Option<T>>, a: Result<Option<T>, string>, b: Result<Option<T>, string>)
    modifies c
    ensures w1.Wrapped? && w2.Wrapped? && w1.memoized != w2.memoized
    ensures a == c.results(old(c.invocations)) && b == c.results(old(c.invocations) + 1)
    ensures c.invocations == old(c.invocations) + 2
    ensures a.Success? ==> w1.memoized.lazyValue == Some(a.value)
    ensures b.Success? ==> w2.memoized.lazyValue == Some(b.value)
  {
    w1 := MemoizedProvider(Plain(c));
    w2 := MemoizedProvider(Plain(c));
    a := w1.memoized.Call();
    b := w2.memoized.Call();
  }
}
