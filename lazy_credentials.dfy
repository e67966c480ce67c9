/** `LazyAwsCredentialsProvider`: a credentials provider that builds its
    inner provider on first use and delegates every resolution to it. */
module LazyCredentials {
  import opened Wrappers
  import Credentials

  /** An AWS SDK credentials provider whose behaviour is not part of this
      model: its n-th resolution answers `answers(n)`. */
  class AwsCredentialsProvider {
    const answers: nat -> Result<Credentials.AwsCredentials, string>
    var resolutions: nat

    constructor (answers: nat -> Result<Credentials.AwsCredentials, string>)
      ensures this.answers == answers && resolutions == 0
    {
      this.answers := answers;
      resolutions := 0;
    }

    method ResolveCredentials() returns (r: Result<Credentials.AwsCredentials, string>)
      modifies this
      ensures resolutions == old(resolutions) + 1
      ensures r == answers(old(resolutions))
    {
      r := answers(resolutions);
      resolutions := resolutions + 1;
    }
  }

  /** The factory function: its n-th invocation builds `built(n)`, a
      `Failure` standing for the exception it throws. */
  class ProviderFactory {
    const built: nat -> Result<AwsCredentialsProvider, string>
    var invocations: nat

    constructor (built: nat -> Result<AwsCredentialsProvider, string>)
      ensures this.built == built && invocations == 0
    {
      this.built := built;
      invocations := 0;
    }

    method Invoke() returns (p: Result<AwsCredentialsProvider, string>)
      modifies this
      ensures invocations == old(invocations) + 1
      ensures p == built(old(invocations))
    {
      p := built(invocations);
      invocations := invocations + 1;
    }
  }

  /** `lazyProvider` is Kotlin's `lazy`: the first provider the factory
      builds is kept and the factory never runs again, but a factory that
      throws leaves nothing behind, so the next resolution runs it again. */
  class LazyAwsCredentialsProvider {
    const providerFactory: ProviderFactory
    var lazyProvider: Option<AwsCredentialsProvider>
    /** How often this wrapper ran the factory, and how many of those runs failed. */
    ghost var builds: nat
    ghost var failures: nat
    /** The invocation of the factory that built the kept provider. */
    ghost var builtBy: nat

    ghost predicate Valid()
      reads this
    {
      && builds == failures + (if lazyProvider.Some? then 1 else 0)
      && (lazyProvider.Some? ==> providerFactory.built(builtBy) == Success(lazyProvider.value))
    }

    /** The provider the next resolution asks: the kept one, or the one the
        factory's next invocation builds; `None` when that invocation fails. */
    ghost function Target(): Option<AwsCredentialsProvider>
      reads this, providerFactory
    {
      if lazyProvider.Some? then lazyProvider
      else match providerFactory.built(providerFactory.invocations)
        case Success(p) => Some(p)
        case Failure(_) => None
    }

    ghost function TargetSet(): set<object>
      reads this, providerFactory
    {
      if Target().Some? then {Target().value} else {}
    }

    /** Building the wrapper does not invoke the factory. */
    constructor (providerFactory: ProviderFactory)
      ensures this.providerFactory == providerFactory && lazyProvider.None?
      ensures builds == 0 && failures == 0
      ensures Valid()
    {
      this.providerFactory := providerFactory;
      lazyProvider := None;
      builds, failures, builtBy := 0, 0, 0;
    }

    /** Without a kept provider the factory is invoked: a failure is passed
        on and nothing is kept; a built provider is kept. Every resolution
        with a provider asks it again, so credentials are not cached. */
    method ResolveCredentials() returns (r: Result<Credentials.AwsCredentials, string>)
      requires Valid()
      modifies this, providerFactory, TargetSet()
      ensures Valid()
      ensures old(lazyProvider).Some? ==>
                lazyProvider == old(lazyProvider) && providerFactory.invocations == old(providerFactory.invocations)
                && builds == old(builds)
      ensures old(lazyProvider).None? ==>
                providerFactory.invocations == old(providerFactory.invocations) + 1 && builds == old(builds) + 1
      ensures old(Target()).None? ==>
                && r == Failure(providerFactory.built(old(providerFactory.invocations)).error)
                && lazyProvider.None? && failures == old(failures) + 1
      ensures old(Target()).Some? ==>
                && lazyProvider == old(Target()) && failures == old(failures)
                && lazyProvider.value.resolutions == old(Target().value.resolutions) + 1
                && r == lazyProvider.value.answers(old(Target().value.resolutions))
    {
      if lazyProvider.None? {
        builtBy := providerFactory.invocations;
        var built := providerFactory.Invoke();
        builds := builds + 1;
        if built.Failure? {
          failures := failures + 1;
          return Failure(built.error);
        }
        lazyProvider := Some(built.value);
      }
      assert lazyProvider == old(Target());
      assert lazyProvider.value.resolutions == old(Target().value.resolutions);
      r := lazyProvider.value.ResolveCredentials();
    }
  }

  /** Two resolutions: once a provider has been built, the second resolution
      asks it again without invoking the factory; a first build that fails is
      followed by a second invocation of the factory. */
  method ResolveTwice(lazy: LazyAwsCredentialsProvider)
    returns (first: Result<Credentials.AwsCredentials, string>, second: Result<Credentials.AwsCredentials, string>)
    requires lazy.Valid()
    requires lazy.Target().Some?
    modifies lazy, lazy.providerFactory, lazy.TargetSet()
    ensures lazy.Valid() && lazy.lazyProvider == old(lazy.Target())
    ensures lazy.providerFactory.invocations
            == old(lazy.providerFactory.invocations) + (if old(lazy.lazyProvider).None? then 1 else 0)
    ensures lazy.lazyProvider.value.resolutions == old(lazy.Target().value.resolutions) + 2
    ensures first == lazy.lazyProvider.value.answers(old(lazy.Target().value.resolutions))
    ensures second == lazy.lazyProvider.value.answers(old(lazy.Target().value.resolutions) + 1)
  {
    first := lazy.ResolveCredentials();
    second := lazy.ResolveCredentials();
  }

  /** A factory that fails on its first invocation is invoked again by the
      next resolution. */
  method ResolveAfterFailedBuild(lazy: LazyAwsCredentialsProvider)
    returns (first: Result<Credentials.AwsCredentials, string>)
    requires lazy.Valid() && lazy.lazyProvider.None?
    requires lazy.providerFactory.built(lazy.providerFactory.invocations).Failure?
    modifies lazy, lazy.providerFactory
    ensures lazy.Valid() && lazy.lazyProvider.None? && lazy.failures == old(lazy.failures) + 1
    ensures first == Failure(lazy.providerFactory.built(old(lazy.providerFactory.invocations)).error)
    ensures lazy.providerFactory.invocations == old(lazy.providerFactory.invocations) + 1
    ensures lazy.Target() == (match lazy.providerFactory.built(old(lazy.providerFactory.invocations) + 1)
                              case Success(p) => Some(p)
                              case Failure(_) => None)
  {
    first := lazy.ResolveCredentials();
  }
}
