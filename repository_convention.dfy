/** The Groovy DSL form `codeArtifact(domain: ..., repositoryName: ...)`
    (`DefaultAwsCodeArtifactMavenRepositoryConvention`). */
module RepositoryConvention {
  import opened Wrappers
  import opened RepositoryExtension
  import AwsParams

  /** The failure of `getByType` when the repository has no extension. */
  const UnknownExtensionMessage := "Extension of type 'AwsCodeArtifactMavenRepositoryExtension' does not exist."

  /** `codeArtifact(args)`: `domain` and `repositoryName` are assigned only
      when their keys are present and otherwise keep their state, while
      `domainOwner` is always assigned, to null when its key is absent. No
      other key has an effect. A repository without the extension fails.
      `args[key]?.toString()` is the lookup of the key's text, `None` for null. */
  method CodeArtifact(repository: MavenRepository, args: map<string, string>) returns (r: Outcome<string>)
    modifies repository.codeArtifact
    ensures r.Pass? <==> repository.codeArtifact != null
    ensures r.Fail? ==> r.error == UnknownExtensionMessage
    ensures repository.codeArtifact != null ==>
              var extension := repository.codeArtifact;
              && extension.domain == AwsParams.Lookup(args, "domain").OrElse(old(extension.domain))
              && extension.domainOwner == AwsParams.Lookup(args, "domainOwner")
              && extension.repositoryName == AwsParams.Lookup(args, "repositoryName").OrElse(old(extension.repositoryName))
    ensures repository.codeArtifact != null && "domain" in args && "repositoryName" in args ==>
              repository.codeArtifact.Complete()
  {
    var extension := repository.codeArtifact;
    if extension == null {
      return Fail(UnknownExtensionMessage);
    }
    var domain := AwsParams.Lookup(args, "domain");
    if domain.Some? {
      extension.SetDomain(domain.value);
    }
    extension.SetDomainOwner(AwsParams.Lookup(args, "domainOwner"));
    var repositoryName := AwsParams.Lookup(args, "repositoryName");
    if repositoryName.Some? {
      extension.SetRepositoryName(repositoryName.value);
    }
    r := Pass;
  }
}
