# AWS CodeArtifact Gradle plugin: a Dafny model of its core

This project models the core of the Gradle plugin that points Maven repositories at AWS
CodeArtifact through a local proxy. The core has five parts:

- **The `codeArtifact` repository extension.** It holds two required names, `domain` and
  `repositoryName`, and an optional `domainOwner`.
  - Its `validate` reports every missing name at once.
  - Its `configureMavenRepository` points the repository at the proxy URL and allows
    insecure protocols.
  - `handleCodeArtifactExtensions` visits every Maven repository of a handler and
    configures those that have the extension. The first incomplete extension stops the
    sweep.
- **The three DSL entry points that fill the extension:**
  - the Groovy map form, `codeArtifact(domain: …, repositoryName: …)`;
  - the Kotlin block form, `codeArtifact { … }`;
  - the Kotlin three-argument form, `codeArtifact(domain, domainOwner, repositoryName)`.
- **The AWS settings (`AwsParameters`).**
  - Each setting is resolved from, in this order: a Gradle property, a system property,
    an environment variable, then the AWS SDK default.
  - File settings are resolved against the root project directory.
  - The credentials provider chain is assembled from the settings: explicit keys, the
    profile, the container, then the instance profile.
  - `GradleProviderCredentialsProvider` turns the key, secret and token into basic or
    session credentials.
- **The proxy build service.**
  - It builds the Maven URL `http://localhost:{port}/{domain}/{owner or "default"}/{repository}`.
  - It builds the proxy server options: credentials, region, a token TTL of one hour by
    default, and a wiretap log level of DEBUG by default.
  - Its parameters are set from project properties. The wiretap log level name is
    case-insensitive.
- **Two compute-once wrappers:**
  - `MemoizedCallable` and the `memoize`, `memoized` and `memoizedProvider` helpers;
  - `LazyAwsCredentialsProvider`, which builds its inner provider on first use and
    delegates every resolution to it.

How each part is modelled:

- Pure logic is written as functions with lemmas:
  - resolution precedence;
  - URL building and its inverse;
  - log-level parsing;
  - the credentials resolution and its inverse.
- State that the source updates in place is written as classes with methods:
  - the extension and its repository;
  - the settings objects;
  - the memoizing wrappers, which use run counters to state that the wrapped code runs
    again only after a failure.
- A Gradle `Provider`/`Property` value is an `Option` (`None` when it has no value).
- A thrown exception is the `Failure` of a `Result`, or the `Fail` of an `Outcome`.

### Inputs

The following become inputs:

- the port the proxy server bound;
- the user's home directory, where the SDK's default profile files live;
- the maps of Gradle properties, system properties and environment variables.

### When an incomplete extension is reported

A repository is rewritten only when `handleCodeArtifactExtensions` visits it
(AwsCodeArtifactMavenRepositoryExtension.kt:79-96), and `validate` is not called on that
path. An incomplete extension therefore fails with the `Delegates.notNull` message of its
first missing name (`domain` is read first), not with the aggregated validation message.
`Extension.ConfigureMavenRepository` and `HandleCodeArtifactExtensions` state this.

### An observation about the service's parameters

A service whose parameters were never set from project properties cannot build its
options. Its `configFile` has no value, and `getAsProfileFile` fails on it with Gradle's
missing-value error. `AwsParams.AwsParameters.BuildProfileCredentialsProvider` states
this. After `setFromProjectProperties` both file settings have a value, so in this model,
where loading the profile files is left out, the credentials chain can then be built;
`AwsParams.AwsParameters.SetFromProjectProperties` states that.

## Model

Source paths are relative to the repository root.

| member | source | states |
|---|---|---|
| Credentials.GradleProviderCredentialsProvider.ResolveCredentials | src/main/kotlin/org/unbrokendome/gradle/plugins/aws/codeartifact/internal/aws/GradleProviderCredentialsProvider.kt:25-36 | A missing access key fails with "No value for access key ID" before the secret is looked at. A missing secret then fails with "No value for secret access key". Resolution succeeds exactly when both are present, and the result carries both values. It is session credentials exactly when a token is present, and then it carries that token. The values are carried as given: the SDK's trimming and blank check in `AwsBasicCredentials.create` are left out. |
| Credentials.ResolveCredentialsInverse | src/main/kotlin/org/unbrokendome/gradle/plugins/aws/codeartifact/internal/aws/GradleProviderCredentialsProvider.kt:27-35 | Resolution yields given credentials exactly when the provider values are the ones `ProviderFor` derives from them. So, in this model, resolution is injective and every basic or session credential is reachable. The SDK's trimming and blank check are left out, and they break both. |
| AwsParams.Sources | src/main/kotlin/org/unbrokendome/gradle/plugins/aws/codeartifact/internal/aws/AwsParameters.kt:70-73 | `listOfNotNull` gives three sources when the setting has a property name and one otherwise. The environment variable is always last. |
| AwsParams.ReduceOrElse | src/main/kotlin/org/unbrokendome/gradle/plugins/aws/codeartifact/internal/aws/AwsParameters.kt:74 | `reduceOrNull` is null exactly for an empty list of sources. |
| AwsParams.ReduceIsFirstPresent | src/main/kotlin/org/unbrokendome/gradle/plugins/aws/codeartifact/internal/aws/AwsParameters.kt:70-74 | The left fold of `orElse` over a non-empty list of sources equals the independent reference definition: the first source that has a value. |
| AwsParams.InitProperty | src/main/kotlin/org/unbrokendome/gradle/plugins/aws/codeartifact/internal/aws/AwsParameters.kt:66-82 | The property's value is the first source that has a value, converted, or else the default. `ReduceIsFirstPresent` is the proof. |
| AwsParams.InitPropertyPrecedence | src/main/kotlin/org/unbrokendome/gradle/plugins/aws/codeartifact/internal/aws/AwsParameters.kt:66-82 | A setting takes the Gradle property if present, otherwise the system property, otherwise the converted environment variable, otherwise the default. The converter is applied to the chosen string. The default is passed in as is, as at every call site at :92-104. |
| AwsParams.StringProperty | src/main/kotlin/org/unbrokendome/gradle/plugins/aws/codeartifact/internal/aws/AwsParameters.kt:84-87 | The `Property<String>` overload takes the raw string of the first source that has a value, or else the SDK default, unconverted. |
| AwsParams.ResolveToFile | src/main/kotlin/org/unbrokendome/gradle/plugins/aws/codeartifact/internal/aws/AwsParameters.kt:89-90 | An absolute path is kept unchanged. A relative path yields a file that starts with the root directory and ends with the path. An absolute root gives an absolute file. |
| AwsParams.FileProperty | src/main/kotlin/org/unbrokendome/gradle/plugins/aws/codeartifact/internal/aws/AwsParameters.kt:95-102 | A file setting always has a value, because its default is the SDK's file location. |
| AwsParams.AwsParameters.SetFromProjectProperties | src/main/kotlin/org/unbrokendome/gradle/plugins/aws/codeartifact/internal/aws/AwsParameters.kt:63-105 | Each of the seven properties becomes its resolution under its own SDK setting. The two file settings are resolved against the root directory and default to the SDK locations. Afterwards both file settings have a value, so the chain can be built as far as this model goes: loading the profile files is left out. |
| AwsParams.AwsParameters.GetAsProfileFile | src/main/kotlin/org/unbrokendome/gradle/plugins/aws/codeartifact/internal/aws/AwsParameters.kt:56-60 | It succeeds exactly when the property has a value, giving a profile file of the requested type at that path. Otherwise it fails with Gradle's missing-value error. |
| AwsParams.AwsParameters.BuildProfileCredentialsProvider | src/main/kotlin/org/unbrokendome/gradle/plugins/aws/codeartifact/internal/aws/AwsParameters.kt:41-53 | It succeeds exactly when both file properties have values. An unset config file fails first. The profile reads the configuration file, then the credentials file, and uses the configured profile or "default". |
| AwsParams.AwsParameters.BuildCredentialsProvider | src/main/kotlin/org/unbrokendome/gradle/plugins/aws/codeartifact/internal/aws/AwsParameters.kt:27-38 | The chain has exactly four sources: explicit keys from the three key properties, the profile, the container, then the instance profile. Reuse of the last provider is enabled. It fails exactly when the profile source fails. |
| AwsParams.GradlePropertyKeysResolveToBasicCredentials | src/main/kotlin/org/unbrokendome/gradle/plugins/aws/codeartifact/internal/aws/AwsParameters.kt:92-94 | A key and a secret given as Gradle properties, with no session token anywhere, make the explicit-keys source resolve to basic credentials with exactly those values. Whatever the system properties and environment hold does not change this. This holds in the model, which carries credential values untrimmed and does not reject blank ones. |
| AwsParams.ProfileDefaultsToDefault | src/main/kotlin/org/unbrokendome/gradle/plugins/aws/codeartifact/internal/aws/AwsParameters.kt:103 | With no profile named by any source, the profile setting is "default", the SDK default. |
| ProxyService.DecimalRoundTrip | src/main/kotlin/org/unbrokendome/gradle/plugins/aws/codeartifact/internal/proxy/CodeArtifactMavenProxyService.kt:51 | The decimal rendering of the port in the URL template reads back as the same number. |
| ProxyService.MavenUrl | src/main/kotlin/org/unbrokendome/gradle/plugins/aws/codeartifact/internal/proxy/CodeArtifactMavenProxyService.kt:50-52 | The URL starts with `http://localhost:` and ends with `/` and the repository name. `MavenUrlRoundTrip` shows every part can be read back. |
| ProxyService.MavenUrlRoundTrip | src/main/kotlin/org/unbrokendome/gradle/plugins/aws/codeartifact/internal/proxy/CodeArtifactMavenProxyService.kt:50-53 | The URL is `http://localhost:` followed by four slash-separated segments. When no name contains a slash, parsing it gives back the port, the domain, the owner (or "default") and the repository. |
| ProxyService.AbsentOwnerIsDefault | src/main/kotlin/org/unbrokendome/gradle/plugins/aws/codeartifact/internal/proxy/CodeArtifactMavenProxyService.kt:51 | A null owner gives the same URL as an owner named "default". |
| ProxyService.ValueOf | src/main/kotlin/org/unbrokendome/gradle/plugins/aws/codeartifact/internal/proxy/CodeArtifactMavenProxyService.kt:86 | `LogLevel.valueOf` returns a constant only if that constant's name is exactly the argument. It fails only when no constant has that name. |
| ProxyService.UpperCase | src/main/kotlin/org/unbrokendome/gradle/plugins/aws/codeartifact/internal/proxy/CodeArtifactMavenProxyService.kt:86 | `toUpperCase` keeps the length, leaves no lower-case ASCII letter, and gives a string equal to its input ignoring case. |
| ProxyService.ParseLogLevel | src/main/kotlin/org/unbrokendome/gradle/plugins/aws/codeartifact/internal/proxy/CodeArtifactMavenProxyService.kt:85-87 | A level is selected only by a name equal to it ignoring case. An unknown name fails with `valueOf`'s message for the upper-cased name. |
| ProxyService.ParseLogLevelIgnoresCase | src/main/kotlin/org/unbrokendome/gradle/plugins/aws/codeartifact/internal/proxy/CodeArtifactMavenProxyService.kt:85-87 | The property value selects a level exactly when it spells that level's name in any mix of upper and lower case. |
| ProxyService.ServiceParameters.WiretapLogLevel | src/main/kotlin/org/unbrokendome/gradle/plugins/aws/codeartifact/internal/proxy/CodeArtifactMavenProxyService.kt:82-88 | An absent Gradle property leaves the level without a value. A present one maps to the parsed level, and fails exactly when parsing fails. |
| ProxyService.ServiceParameters.SetFromProjectProperties | src/main/kotlin/org/unbrokendome/gradle/plugins/aws/codeartifact/internal/proxy/CodeArtifactMavenProxyService.kt:77-89 | The AWS settings are set as `AwsParameters.setFromProjectProperties` sets them. The log level comes from the Gradle property `aws.codeartifact.proxy.wiretapLogLevel`. The token TTL is untouched. Building the options then fails only on a bad log-level name. |
| ProxyService.ServiceParameters.BuildOptions | src/main/kotlin/org/unbrokendome/gradle/plugins/aws/codeartifact/internal/proxy/CodeArtifactMavenProxyService.kt:56-66 | The options carry the credentials chain and the region when one is set. The token TTL defaults to one hour and the log level to DEBUG. It fails exactly when the chain or the log level fails, and a chain failure is reported first. |
| RepositoryExtension.MissingProperties | src/main/kotlin/org/unbrokendome/gradle/plugins/aws/codeartifact/dsl/AwsCodeArtifactMavenRepositoryExtension.kt:45-55 | A name is listed exactly when it was never assigned. Only the two required names can appear, and `domain` comes before `repositoryName`. |
| RepositoryExtension.JoinToString | src/main/kotlin/org/unbrokendome/gradle/plugins/aws/codeartifact/dsl/AwsCodeArtifactMavenRepositoryExtension.kt:60 | `joinToString` of no items is empty. Otherwise the text starts with the first item and ends with the last. |
| RepositoryExtension.JoinToStringAppend | src/main/kotlin/org/unbrokendome/gradle/plugins/aws/codeartifact/dsl/AwsCodeArtifactMavenRepositoryExtension.kt:60 | Appending an item to a non-empty list appends the separator and the item to the joined text. |
| RepositoryExtension.ValidationMessages | src/main/kotlin/org/unbrokendome/gradle/plugins/aws/codeartifact/dsl/AwsCodeArtifactMavenRepositoryExtension.kt:57-61 | The concrete messages are the fixed prefix followed by "domain", by "repositoryName", or by "domain, repositoryName". |
| RepositoryExtension.Extension.constructor | src/main/kotlin/org/unbrokendome/gradle/plugins/aws/codeartifact/dsl/AwsCodeArtifactMavenRepositoryExtension.kt:34-41 | A new extension belongs to its repository. Both required names are unassigned and the owner is null. |
| RepositoryExtension.Extension.GetDomain | src/main/kotlin/org/unbrokendome/gradle/plugins/aws/codeartifact/dsl/AwsCodeArtifactMavenRepositoryExtension.kt:39 | Reading `domain` gives its value, or fails with the "should be initialized before get" message until it has been assigned. |
| RepositoryExtension.Extension.GetRepositoryName | src/main/kotlin/org/unbrokendome/gradle/plugins/aws/codeartifact/dsl/AwsCodeArtifactMavenRepositoryExtension.kt:41 | Reading `repositoryName` gives its value, or fails with the "should be initialized before get" message until it has been assigned. |
| RepositoryExtension.Extension.SetDomain | src/main/kotlin/org/unbrokendome/gradle/plugins/aws/codeartifact/dsl/AwsCodeArtifactMavenRepositoryExtension.kt:39 | Assigning `domain` changes that field only. |
| RepositoryExtension.Extension.SetDomainOwner | src/main/kotlin/org/unbrokendome/gradle/plugins/aws/codeartifact/dsl/AwsCodeArtifactMavenRepositoryExtension.kt:40 | Assigning the owner, null included, changes that field only. |
| RepositoryExtension.Extension.SetRepositoryName | src/main/kotlin/org/unbrokendome/gradle/plugins/aws/codeartifact/dsl/AwsCodeArtifactMavenRepositoryExtension.kt:41 | Assigning `repositoryName` changes that field only. |
| RepositoryExtension.Extension.Validate | src/main/kotlin/org/unbrokendome/gradle/plugins/aws/codeartifact/dsl/AwsCodeArtifactMavenRepositoryExtension.kt:44-63 | Validation passes exactly when both required names are assigned. Otherwise it fails with the prefix followed by every missing name, joined by ", " and in declaration order. |
| RepositoryExtension.Extension.ConfigureMavenRepository | src/main/kotlin/org/unbrokendome/gradle/plugins/aws/codeartifact/dsl/AwsCodeArtifactMavenRepositoryExtension.kt:66-70 | When both names are assigned, the repository's URL becomes the proxy URL and insecure protocols are allowed. Otherwise it fails with the message for `domain` if that is unset, else for `repositoryName`, and the repository is unchanged. |
| RepositoryExtension.HandleCodeArtifactExtensions | src/main/kotlin/org/unbrokendome/gradle/plugins/aws/codeartifact/dsl/AwsCodeArtifactMavenRepositoryExtension.kt:74-97 | It succeeds exactly when every extension present is complete. Every repository with an extension is then configured, and those without one are untouched. Otherwise the first incomplete extension's error is returned. The repositories before it are configured, and it and all later ones are untouched. |
| RepositoryConvention.CodeArtifact | src/main/kotlin/org/unbrokendome/gradle/plugins/aws/codeartifact/dsl/AwsCodeArtifactMavenRepositoryConvention.kt:45-52 | A repository without the extension fails. `domain` and `repositoryName` are assigned only when their keys are present, and otherwise keep their previous state. `domainOwner` is always assigned, to null when its key is absent. Both required keys present make the extension complete. |
| RepositoryDsl.CodeArtifact | src/main/kotlin/org/gradle/kotlin/dsl/MavenArtifactRepositoryExtensions.kt:10-20 | An extension already attached is reused. Otherwise exactly one new, unassigned extension is created and attached. The block then runs once on it, and the repository's URL and flag are untouched. |
| RepositoryDsl.AssignAll | src/main/kotlin/org/gradle/kotlin/dsl/MavenArtifactRepositoryExtensions.kt:24-28 | The block of the three-argument form never unassigns a required name. |
| RepositoryDsl.CodeArtifactWith | src/main/kotlin/org/gradle/kotlin/dsl/MavenArtifactRepositoryExtensions.kt:23-29 | The three fields become exactly the given values, whatever they were, so a null owner clears an earlier one. The extension is then complete, and the repository's URL and insecure-protocol flag are unchanged. |
| RepositoryDsl.CodeArtifactTwice | src/main/kotlin/org/gradle/kotlin/dsl/MavenArtifactRepositoryExtensions.kt:10-29 | Two calls on one repository work on one shared extension, and the second call's values remain. The repository's URL and flag are unchanged. |
| Memoize.MemoizedCallable.constructor | src/main/kotlin/org/unbrokendome/gradle/plugins/aws/codeartifact/internal/util/MemoizedProvider.kt:8-12 | Wrapping a callable does not run it. |
| Memoize.MemoizedCallable.Call | src/main/kotlin/org/unbrokendome/gradle/plugins/aws/codeartifact/internal/util/MemoizedProvider.kt:12-15 | A filled cache is returned without running the callable and is never replaced. An empty cache runs the callable once: a value is kept and returned, and a failure (the exception `lazy` does not keep) is passed on with the cache left empty, so the next call runs the callable again. The wrapper's runs are its failed runs plus at most one, and the kept value is what the callable returned on the run that filled it. Other users of the callable are not constrained. |
| Memoize.Memoize | src/main/kotlin/org/unbrokendome/gradle/plugins/aws/codeartifact/internal/util/MemoizedProvider.kt:19-20 | An already memoized callable is returned as it is. Any other is wrapped in a fresh, unrun memoizing wrapper around it. |
| Memoize.MemoizeIdempotent | src/main/kotlin/org/unbrokendome/gradle/plugins/aws/codeartifact/internal/util/MemoizedProvider.kt:19-20 | Memoizing twice gives the same callable as memoizing once. |
| Memoize.Memoized | src/main/kotlin/org/unbrokendome/gradle/plugins/aws/codeartifact/internal/util/MemoizedProvider.kt:23-26 | The result is a fresh memoizing wrapper around the provider's nullable query, and the provider is not queried yet. A query that throws is a failure of the wrapped callable. |
| Memoize.MemoizedProvider | src/main/kotlin/org/unbrokendome/gradle/plugins/aws/codeartifact/internal/util/MemoizedProvider.kt:29-30 | The provider is over `callable.memoize()`: a memoized callable is kept, and any other is freshly wrapped without being run. |
| Memoize.CallTwice | src/main/kotlin/org/unbrokendome/gradle/plugins/aws/codeartifact/internal/util/MemoizedProvider.kt:12-15 | Once a call has returned a value, the next returns it again without running the callable. After a failed first run, the second call runs the callable again and returns its next result. |
| Memoize.MemoizeSharedCallable | src/main/kotlin/org/unbrokendome/gradle/plugins/aws/codeartifact/internal/util/MemoizedProvider.kt:29-30 | `memoizedProvider` applied twice to one plain callable gives two distinct wrappers. Each runs the shared callable once and keeps its own result. |
| LazyCredentials.LazyAwsCredentialsProvider.constructor | src/main/kotlin/org/unbrokendome/gradle/plugins/aws/codeartifact/internal/aws/LazyAwsCredentialsProvider.kt:7-12 | Building the wrapper does not invoke the provider factory. |
| LazyCredentials.LazyAwsCredentialsProvider.ResolveCredentials | src/main/kotlin/org/unbrokendome/gradle/plugins/aws/codeartifact/internal/aws/LazyAwsCredentialsProvider.kt:12-15 | A kept provider is asked again without invoking the factory, and it is never replaced. Without one, the factory is invoked once. If it throws, the failure is passed on and nothing is kept, so the next resolution invokes it again. If it builds a provider, that provider is kept and asked. Each resolution returns the provider's next answer, so credentials are not cached. The wrapper's factory runs are its failed runs plus at most one. |
| LazyCredentials.ResolveTwice | src/main/kotlin/org/unbrokendome/gradle/plugins/aws/codeartifact/internal/aws/LazyAwsCredentialsProvider.kt:7-16 | When a provider is kept or the next build succeeds, two resolutions invoke the factory at most once and ask that one provider twice, returning its two successive answers. |
| LazyCredentials.ResolveAfterFailedBuild | src/main/kotlin/org/unbrokendome/gradle/plugins/aws/codeartifact/internal/aws/LazyAwsCredentialsProvider.kt:12-15 | A factory that throws leaves the wrapper empty, so the next resolution targets the provider of the factory's next invocation. |

## Left out

- **Starting, joining and closing the proxy server.**
  - This covers `CompletableFuture`, `getActualPort` and `close`.
  - The server's bound port is an input of `MavenUrl`, `ConfigureMavenRepository` and
    `HandleCodeArtifactExtensions`.
  - `configureMavenRepository` gets the service before it reads the names. Creating the
    service runs `buildOptions`, so a service whose options cannot be built fails the call
    before any name is read. A server that fails to start is noticed only when
    `getActualPort` joins its future, after the names are read. The model captures
    neither failure: the port is always available.
- Credentials.GradleProviderCredentialsProvider.ResolveCredentials,
  Credentials.ResolveCredentialsInverse and
  AwsParams.GradlePropertyKeysResolveToBasicCredentials: the foreign call
  `AwsBasicCredentials.create` (GradleProviderCredentialsProvider.kt:35) is a plain
  constructor here. The SDK trims the key and the secret and rejects a blank one
  ("Access key ID cannot be blank.", "Secret access key cannot be blank."). An empty
  `AWS_ACCESS_KEY_ID` therefore fails in the program but succeeds in the model, and
  " k" and "k" give the same credentials in the program but different ones in the model.
- **AWS SDK internals.** Out of scope:
  - loading the profile files: the SDK rejects a profile file that does not exist, so
    the program's `buildCredentialsProvider` can fail where the model's succeeds;
  - how the credentials chain, the profile files, and the container and instance-profile
    providers are evaluated;
  - `Region.of` validation.

  The chain and its sources are values recording what they were built from.
- **The proxy server's `LogLevel` enum.** Its constants other than DEBUG are assumed to be
  TRACE, INFO, WARN and ERROR, because that enum is not part of this model.
- **Gradle laziness.**
  - A `Property` is modelled by its current value.
  - `forUseAtConfigurationTime`, live `.all` collections and provider chaining after
    configuration are not modelled.
  - `HandleCodeArtifactExtensions` sweeps the Maven repositories present when it runs, and
    `withType` filtering is assumed done by the caller.
- **Concurrency.** The thread safety of Kotlin's `lazy` in `MemoizedCallable` and
  `LazyAwsCredentialsProvider` is not modelled. Exceptions thrown by the wrapped code are
  modelled as `Failure` results.
- **Logging** in `handleCodeArtifactExtensions`.
- **`URI` validation and path normalisation.**
  - `MavenUrl` is the string that `getMavenUrl` hands to `URI`, not a parsed `URI`.
  - `ResolveToFile` models POSIX `File.resolve` only, with no `..` or Windows roots.
- ProxyService.UpperCase: only ASCII letters are upper-cased; locale-dependent case
  mapping is not modelled.
- ProxyService.ParseLogLevel and ProxyService.ParseLogLevelIgnoresCase inherit this: under
  a locale such as Turkish, `"info".toUpperCase()` is `"İNFO"` and the program rejects it,
  while the model accepts it.
- AwsParams.InitProperty: the default argument of the generic `initProperty` (the SDK
  default mapped through the converter, AwsParameters.kt:68) is not modelled. No call
  site uses it, because every call at :92-104 passes a default of its own or goes through
  the `Property<String>` overload.
- RepositoryConvention.CodeArtifact: the arguments are strings; Groovy values of other
  types (`toString`) are not modelled, and a key mapped to null behaves as an absent key.
- **The wording of Gradle's own messages** for `getByType` and `Property.get` is
  approximate; only their occurrence is modelled.
- AwsParams.FileProperty: the default locations are `userHome/.aws/config` and
  `userHome/.aws/credentials`; the SDK's own resolution of these defaults is not
  modelled.
- RepositoryDsl.CodeArtifact: the `Action` block is a function on the three field
  values. It is assumed to assign only strings to the required names. A block that
  reads an unassigned name and throws is not modelled.
- **The plugin classes** (`AwsCodeArtifactPlugin`, the settings, project and init plugins)
  only register the service and call the operations above. They are not part of this
  model.
