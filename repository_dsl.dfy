/** The Kotlin DSL functions `codeArtifact(action)` and
    `codeArtifact(domain, domainOwner, repositoryName)` on a Maven
    repository. */
module RepositoryDsl {
  import opened Wrappers
  import opened RepositoryExtension

  /** A configuration block run on the extension, seen through what it does
      to the extension's fields. */
  type Action = Fields -> Fields

  /** The block can only assign the required properties a string, so one
      that was assigned stays assigned. */
  ghost predicate RespectsNotNull(action: Action) {
    forall f: Fields :: (f.domain.Some? ==> action(f).domain.Some?)
                        && (f.repositoryName.Some? ==> action(f).repositoryName.Some?)
  }

  /** `codeArtifact(action)`: the extension already attached to the
      repository is reused; otherwise exactly one is created, attached and
      starts unassigned. The block then runs once on it. */
  method CodeArtifact(repository: MavenRepository, action: Action) returns (extension: Extension)
    requires Attached(repository)
    requires RespectsNotNull(action)
    modifies repository, repository.codeArtifact
    ensures old(repository.codeArtifact) != null ==>
              extension == old(repository.codeArtifact)
              && extension.GetFields() == action(old(repository.codeArtifact.GetFields()))
    ensures old(repository.codeArtifact) == null ==>
              fresh(extension) && extension.GetFields() == action(Unassigned)
    ensures repository.codeArtifact == extension && Attached(repository)
    ensures repository.url == old(repository.url)
    ensures repository.allowInsecureProtocol == old(repository.allowInsecureProtocol)
  {
    var existing := repository.codeArtifact;
    if existing == null {
      extension := new Extension(repository);
      repository.codeArtifact := extension;
    } else {
      extension := existing;
    }
    var fields := action(extension.GetFields());
    extension.domain, extension.domainOwner, extension.repositoryName :=
      fields.domain, fields.domainOwner, fields.repositoryName;
  }

  /** The block of the three-argument overload. */
  function AssignAll(domain: string, domainOwner: Option<string>, repositoryName: string): (action: Action)
    ensures RespectsNotNull(action)
  {
    (f: Fields) => Fields(Some(domain), domainOwner, Some(repositoryName))
  }

  /** `codeArtifact(domain, domainOwner, repositoryName)`: the three fields
      become exactly the given values, whatever they were, so a null owner
      clears an earlier one and a later call overwrites an earlier one. */
  method CodeArtifactWith(repository: MavenRepository, domain: string, domainOwner: Option<string>, repositoryName: string)
    returns (extension: Extension)
    requires Attached(repository)
    modifies repository, repository.codeArtifact
    ensures old(repository.codeArtifact) != null ==> extension == old(repository.codeArtifact)
    ensures old(repository.codeArtifact) == null ==> fresh(extension)
    ensures repository.codeArtifact == extension && Attached(repository)
    ensures extension.GetFields() == Fields(Some(domain), domainOwner, Some(repositoryName))
    ensures extension.Complete()
    ensures repository.url == old(repository.url)
    ensures repository.allowInsecureProtocol == old(repository.allowInsecureProtocol)
  {
    extension := CodeArtifact(repository, AssignAll(domain, domainOwner, repositoryName));
  }

  /** Two DSL calls on one repository work on one extension, and the second
      call's values are what remains. */
  method CodeArtifactTwice(repository: MavenRepository, first: Fields, second: Fields)
    returns (e1: Extension, e2: Extension)
    requires Attached(repository)
    requires first.domain.Some? && first.repositoryName.Some?
    requires second.domain.Some? && second.repositoryName.Some?
    modifies repository, repository.codeArtifact
    ensures e1 == e2 && repository.codeArtifact == e2
    ensures e2.GetFields() == second
    ensures repository.url == old(repository.url)
    ensures repository.allowInsecureProtocol == old(repository.allowInsecureProtocol)
  {
    e1 := CodeArtifactWith(repository, first.domain.value, first.domainOwner, first.repositoryName.value);
    e2 := CodeArtifactWith(repository, second.domain.value, second.domainOwner, second.repositoryName.value);
  }
}
