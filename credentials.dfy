/** The credentials provider that reads an explicit access key, secret and
    session token from three Gradle providers
    (`GradleProviderCredentialsProvider`). */
module Credentials {
  import opened Wrappers

  /** The two kinds of credentials the AWS SDK distinguishes. */
  datatype AwsCredentials =
    | AwsBasicCredentials(accessKeyId: string, secretAccessKey: string)
    | AwsSessionCredentials(accessKeyId: string, secretAccessKey: string, sessionToken: string)

  const NoAccessKeyIdMessage := "No value for access key ID"
  const NoSecretAccessKeyMessage := "No value for secret access key"

  /** The provider over three optional settings; `None` is a provider without
      a value (`orNull` gives null). */
  datatype GradleProviderCredentialsProvider = GradleProviderCredentialsProvider(
    accessKeyIdProvider: Option<string>,
    secretAccessKeyProvider: Option<string>,
    sessionTokenProvider: Option<string>)
  {
    /** The access key is required first, then the secret; a session token
        turns basic credentials into session credentials. A `Failure` is the
        `SdkClientException` the source throws. */
    function ResolveCredentials(): (r: Result<AwsCredentials, string>)
      ensures accessKeyIdProvider.None? ==> r == Failure(NoAccessKeyIdMessage)
      ensures accessKeyIdProvider.Some? && secretAccessKeyProvider.None? ==>
                r == Failure(NoSecretAccessKeyMessage)
      ensures r.Success? <==> accessKeyIdProvider.Some? && secretAccessKeyProvider.Some?
      ensures r.Success? ==>
                && r.value.accessKeyId == accessKeyIdProvider.value
                && r.value.secretAccessKey == secretAccessKeyProvider.value
                && (r.value.AwsSessionCredentials? <==> sessionTokenProvider.Some?)
                && (r.value.AwsSessionCredentials? ==> r.value.sessionToken == sessionTokenProvider.value)
    {
      match accessKeyIdProvider
      case None => Failure(NoAccessKeyIdMessage)
      case Some(accessKeyId) =>
        match secretAccessKeyProvider
        case None => Failure(NoSecretAccessKeyMessage)
        case Some(secretAccessKey) =>
          match sessionTokenProvider
          case Some(sessionToken) => Success(AwsSessionCredentials(accessKeyId, secretAccessKey, sessionToken))
          case None => Success(AwsBasicCredentials(accessKeyId, secretAccessKey))
    }
  }

  /** The provider values that describe exactly the given credentials. */
  function ProviderFor(c: AwsCredentials): GradleProviderCredentialsProvider {
    match c
    case AwsBasicCredentials(k, s) => GradleProviderCredentialsProvider(Some(k), Some(s), None)
    case AwsSessionCredentials(k, s, t) => GradleProviderCredentialsProvider(Some(k), Some(s), Some(t))
  }

  /** Every credential value is produced by exactly one choice of provider
      values: resolution and `ProviderFor` are inverse to each other. */
  lemma ResolveCredentialsInverse(p: GradleProviderCredentialsProvider, c: AwsCredentials)
    ensures p.ResolveCredentials() == Success(c) <==> p == ProviderFor(c)
  {
    if p == ProviderFor(c) {
      match c
      case AwsBasicCredentials(k, s) =>
      case AwsSessionCredentials(k, s, t) =>
    }
  }
}
