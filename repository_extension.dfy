/** The `codeArtifact` extension of a Maven repository
    (`DefaultAwsCodeArtifactMavenRepositoryExtension`): two required names
    and an optional owner, their validation, and the rewriting of the
    repository's URL to the local proxy when the plugin visits the
    repository (`handleCodeArtifactExtensions`). */
module RepositoryExtension {
  import opened Wrappers
  import ProxyService

  const ValidationMessagePrefix := "Required properties must be set on CodeArtifactRepositoryConfig: "

  /** The failure of reading a `Delegates.notNull()` property never assigned. */
  function NotInitializedMessage(propertyName: string): string {
    "Property " + propertyName + " should be initialized before get."
  }

  /** Kotlin's `joinToString(separator)`. */
  function JoinToString(items: seq<string>, separator: string): (r: string)
    ensures |items| == 0 ==> r == ""
    ensures |items| > 0 ==> |r| >= |items[0]| && r[..|items[0]|] == items[0]
    ensures |items| > 0 ==> |r| >= |items[|items| - 1]| && r[|r| - |items[|items| - 1]|..] == items[|items| - 1]
  {
    if |items| == 0 then ""
    else if |items| == 1 then items[0]
    else items[0] + separator + JoinToString(items[1..], separator)
  }

  /** Appending one more item adds the separator and the item at the end. */
  lemma {:induction false} JoinToStringAppend(items: seq<string>, item: string, separator: string)
    requires |items| > 0
    ensures JoinToString(items + [item], separator) == JoinToString(items, separator) + separator + item
  {
    if |items| > 1 {
      assert (items + [item])[1..] == items[1..] + [item];
      JoinToStringAppend(items[1..], item, separator);
    }
  }

  /** The required properties that were never assigned, `domain` first. */
  function MissingProperties(domain: Option<string>, repositoryName: Option<string>): (missing: seq<string>)
    ensures ("domain" in missing <==> domain.None?) && ("repositoryName" in missing <==> repositoryName.None?)
    ensures |missing| <= 2 && (|missing| == 2 ==> missing == ["domain", "repositoryName"])
    ensures forall name :: name in missing ==> name == "domain" || name == "repositoryName"
  {
    (if domain.None? then ["domain"] else []) + (if repositoryName.None? then ["repositoryName"] else [])
  }

  /** The message of a failed validation for the given missing properties. */
  function ValidationMessage(missing: seq<string>): string {
    ValidationMessagePrefix + JoinToString(missing, ", ")
  }

  /** Only the repository name set reports "domain"; nothing set reports both
      names, joined by ", "; the owner plays no part. */
  lemma ValidationMessages()
    ensures ValidationMessage(MissingProperties(None, Some("r"))) == ValidationMessagePrefix + "domain"
    ensures ValidationMessage(MissingProperties(Some("d"), None)) == ValidationMessagePrefix + "repositoryName"
    ensures ValidationMessage(MissingProperties(None, None)) == ValidationMessagePrefix + "domain, repositoryName"
  {
    assert MissingProperties(None, None) == ["domain", "repositoryName"];
  }

  /** A Maven repository: its URL, the insecure-protocol flag, and the slot of
      its extension container that holds the `codeArtifact` extension. */
  class MavenRepository {
    const name: string
    var url: Option<string>
    var allowInsecureProtocol: bool
    var codeArtifact: Extension?

    constructor (name: string)
      ensures this.name == name && url.None? && !allowInsecureProtocol && codeArtifact == null
    {
      this.name := name;
      url, allowInsecureProtocol, codeArtifact := None, false, null;
    }
  }

  /** The field values of an extension; `None` for a required property that
      was never assigned, or for a null owner. */
  datatype Fields = Fields(domain: Option<string>, domainOwner: Option<string>, repositoryName: Option<string>)

  const Unassigned := Fields(None, None, None)

  class Extension {
    const mavenArtifactRepository: MavenRepository
    var domain: Option<string>
    var domainOwner: Option<string>
    var repositoryName: Option<string>

    /** A new extension for the repository: nothing assigned, owner null. */
    constructor (mavenArtifactRepository: MavenRepository)
      ensures this.mavenArtifactRepository == mavenArtifactRepository
      ensures GetFields() == Unassigned
    {
      this.mavenArtifactRepository := mavenArtifactRepository;
      domain, domainOwner, repositoryName := None, None, None;
    }

    function GetFields(): Fields
      reads this
    {
      Fields(domain, domainOwner, repositoryName)
    }

    /** Both required properties are assigned. */
    predicate Complete()
      reads this
    {
      domain.Some? && repositoryName.Some?
    }

    /** Reading `domain` fails until it has been assigned. */
    method GetDomain() returns (r: Result<string, string>)
      ensures domain.Some? ==> r == Success(domain.value)
      ensures domain.None? ==> r == Failure(NotInitializedMessage("domain"))
    {
      if domain.Some? {
        r := Success(domain.value);
      } else {
        r := Failure(NotInitializedMessage("domain"));
      }
    }

    /** Reading `repositoryName` fails until it has been assigned. */
    method GetRepositoryName() returns (r: Result<string, string>)
      ensures repositoryName.Some? ==> r == Success(repositoryName.value)
      ensures repositoryName.None? ==> r == Failure(NotInitializedMessage("repositoryName"))
    {
      if repositoryName.Some? {
        r := Success(repositoryName.value);
      } else {
        r := Failure(NotInitializedMessage("repositoryName"));
      }
    }

    method SetDomain(value: string)
      modifies this
      ensures GetFields() == old(GetFields()).(domain := Some(value))
    {
      domain := Some(value);
    }

    method SetDomainOwner(value: Option<string>)
      modifies this
      ensures GetFields() == old(GetFields()).(domainOwner := value)
    {
      domainOwner := value;
    }

    method SetRepositoryName(value: string)
      modifies this
      ensures GetFields() == old(GetFields()).(repositoryName := Some(value))
    {
      repositoryName := Some(value);
    }

    /** `validate`: every missing required property reported at once, in the
        order domain, repositoryName; the owner is never required, and
        nothing is changed. */
    method Validate() returns (r: Outcome<string>)
      ensures r.Pass? <==> Complete()
      ensures r.Fail? ==> r.error == ValidationMessage(MissingProperties(domain, repositoryName))
    {
      var missingProps: seq<string> := [];
      var d := GetDomain();
      if d.Failure? {
        missingProps := missingProps + ["domain"];
      }
      var rn := GetRepositoryName();
      if rn.Failure? {
        missingProps := missingProps + ["repositoryName"];
      }
      if |missingProps| > 0 {
        r := Fail(ValidationMessagePrefix + JoinToString(missingProps, ", "));
      } else {
        r := Pass;
      }
    }

    /** The URL the repository receives from a proxy on the given port. */
    function ProxyUrl(actualPort: nat): string
      reads this
      requires Complete()
    {
      ProxyService.MavenUrl(actualPort, domain.value, domainOwner, repositoryName.value)
    }

    /** `configureMavenRepository`: the repository's URL becomes the proxy URL
        and insecure protocols are allowed. A required property that was never
        assigned fails the call before the repository is touched; `domain` is
        read first. */
    method ConfigureMavenRepository(actualPort: nat) returns (r: Outcome<string>)
      modifies mavenArtifactRepository
      ensures r.Pass? <==> Complete()
      ensures r.Pass? ==> mavenArtifactRepository.url == Some(ProxyUrl(actualPort))
                          && mavenArtifactRepository.allowInsecureProtocol
      ensures r.Fail? ==> unchanged(mavenArtifactRepository)
      ensures r.Fail? && domain.None? ==> r.error == NotInitializedMessage("domain")
      ensures r.Fail? && domain.Some? ==> r.error == NotInitializedMessage("repositoryName")
      ensures mavenArtifactRepository.codeArtifact == old(mavenArtifactRepository.codeArtifact)
    {
      var d := GetDomain();
      if d.Failure? {
        return Fail(d.error);
      }
      var owner := domainOwner;
      var rn := GetRepositoryName();
      if rn.Failure? {
        return Fail(rn.error);
      }
      var mavenUrl := ProxyService.MavenUrl(actualPort, d.value, owner, rn.value);
      mavenArtifactRepository.url := Some(mavenUrl);
      mavenArtifactRepository.allowInsecureProtocol := true;
      r := Pass;
    }
  }

  /** The extension, if any, belongs to the repository it is attached to. */
  ghost predicate Attached(repository: MavenRepository)
    reads repository, repository.codeArtifact
  {
    repository.codeArtifact != null ==> repository.codeArtifact.mavenArtifactRepository == repository
  }

  /** A repository with a complete extension pointing at the proxy. */
  ghost predicate Configured(repository: MavenRepository, actualPort: nat)
    reads repository, repository.codeArtifact
    requires repository.codeArtifact != null && repository.codeArtifact.Complete()
  {
    repository.url == Some(repository.codeArtifact.ProxyUrl(actualPort)) && repository.allowInsecureProtocol
  }

  /** The message of configuring an incomplete extension. */
  function FirstMissingMessage(extension: Extension): string
    reads extension
  {
    NotInitializedMessage(if extension.domain.None? then "domain" else "repositoryName")
  }

  /** `handleCodeArtifactExtensions` over the Maven repositories of a
      handler: each repository that has the extension is configured, the
      others are skipped and left unchanged. The first incomplete extension
      stops the sweep with its failure: the repositories before it are
      handled, it and those after it are untouched. */
  method HandleCodeArtifactExtensions(repositories: seq<MavenRepository>, actualPort: nat) returns (r: Outcome<string>)
    requires forall i, j :: 0 <= i < j < |repositories| ==> repositories[i] != repositories[j]
    requires forall i :: 0 <= i < |repositories| ==> Attached(repositories[i])
    modifies set i | 0 <= i < |repositories| :: repositories[i]
    ensures forall i :: 0 <= i < |repositories| ==>
              repositories[i].codeArtifact == old(repositories[i].codeArtifact)
    ensures r.Pass? <==>
              forall i :: 0 <= i < |repositories| && repositories[i].codeArtifact != null ==>
                repositories[i].codeArtifact.Complete()
    ensures r.Pass? ==>
              forall i :: 0 <= i < |repositories| ==>
                if repositories[i].codeArtifact != null then Configured(repositories[i], actualPort)
                else unchanged(repositories[i])
    ensures r.Fail? ==>
              exists k :: 0 <= k < |repositories| && repositories[k].codeArtifact != null
                && !repositories[k].codeArtifact.Complete()
                && r.error == FirstMissingMessage(repositories[k].codeArtifact)
                && (forall i :: 0 <= i < k && repositories[i].codeArtifact != null ==>
                      repositories[i].codeArtifact.Complete() && Configured(repositories[i], actualPort))
                && (forall i :: 0 <= i < |repositories| && (i >= k || repositories[i].codeArtifact == null) ==>
                      unchanged(repositories[i]))
  {
    var n := 0;
    while n < |repositories|
      invariant 0 <= n <= |repositories|
      invariant forall i :: 0 <= i < |repositories| ==>
                  repositories[i].codeArtifact == old(repositories[i].codeArtifact)
      invariant forall i :: 0 <= i < n && repositories[i].codeArtifact != null ==>
                  repositories[i].codeArtifact.Complete() && Configured(repositories[i], actualPort)
      invariant forall i :: 0 <= i < |repositories| && (i >= n || repositories[i].codeArtifact == null) ==>
                  unchanged(repositories[i])
    {
      var repository := repositories[n];
      var extension := repository.codeArtifact;
      if extension != null {
        var outcome := extension.ConfigureMavenRepository(actualPort);
        if outcome.Fail? {
          return outcome;
        }
      }
      n := n + 1;
    }
    r := Pass;
  }
}
