/** The AWS settings of the plugin (`AwsParameters`): how each one is resolved
    from Gradle properties, system properties, environment variables and a
    default, and how the credentials provider chain is assembled from them. */
module AwsParams {
  import opened Wrappers
  import Credentials

  /** An AWS SDK `SystemSetting`: the optional system/Gradle property name,
      the environment variable and the SDK's default value. */
  datatype SystemSetting = SystemSetting(
    property: Option<string>,
    environmentVariable: string,
    defaultValue: Option<string>)

  // The settings used by the plugin, with the names and defaults of the AWS SDK.
  const AwsAccessKeyId := SystemSetting(Some("aws.accessKeyId"), "AWS_ACCESS_KEY_ID", None)
  const AwsSecretAccessKey := SystemSetting(Some("aws.secretAccessKey"), "AWS_SECRET_ACCESS_KEY", None)
  const AwsSessionToken := SystemSetting(Some("aws.sessionToken"), "AWS_SESSION_TOKEN", None)
  const AwsRegion := SystemSetting(Some("aws.region"), "AWS_REGION", None)
  const AwsConfigFile := SystemSetting(Some("aws.configFile"), "AWS_CONFIG_FILE", None)
  const AwsSharedCredentialsFile :=
    SystemSetting(Some("aws.sharedCredentialsFile"), "AWS_SHARED_CREDENTIALS_FILE", None)
  const AwsProfile := SystemSetting(Some("aws.profile"), "AWS_PROFILE", Some("default"))

  /** Gradle's `ProviderFactory`, reduced to the three key-value sources it
      reads at configuration time. */
  datatype ProviderFactory = ProviderFactory(
    gradleProperties: map<string, string>,
    systemProperties: map<string, string>,
    environmentVariables: map<string, string>)

  function Lookup(m: map<string, string>, key: string): Option<string> {
    if key in m then Some(m[key]) else None
  }

  /** The candidate providers of a setting, most specific first
      (`listOfNotNull`): the Gradle and system properties exist only when the
      setting has a property name. */
  function Sources(providers: ProviderFactory, setting: SystemSetting): (sources: seq<Option<string>>)
    ensures |sources| == (if setting.property.Some? then 3 else 1)
    ensures sources[|sources| - 1] == Lookup(providers.environmentVariables, setting.environmentVariable)
  {
    var env := [Lookup(providers.environmentVariables, setting.environmentVariable)];
    match setting.property
    case Some(name) =>
      [Lookup(providers.gradleProperties, name), Lookup(providers.systemProperties, name)] + env
    case None => env
  }

  /** `reduceOrNull { p1, p2 -> p1.orElse(p2) }`: a left fold; `None` when
      there is nothing to reduce. */
  function ReduceOrElse<T>(providers: seq<Option<T>>): (r: Option<Option<T>>)
    ensures r.None? <==> |providers| == 0
  {
    if |providers| == 0 then None
    else if |providers| == 1 then Some(providers[0])
    else Some(ReduceOrElse(providers[..|providers| - 1]).value.OrElse(providers[|providers| - 1]))
  }

  /** The reference meaning of the fold: the first present value. */
  function FirstPresent<T>(providers: seq<Option<T>>): Option<T> {
    if |providers| == 0 then None
    else if providers[0].Some? then providers[0]
    else FirstPresent(providers[1..])
  }

  lemma {:induction false} FirstPresentAppend<T>(providers: seq<Option<T>>, last: Option<T>)
    ensures FirstPresent(providers + [last]) == FirstPresent(providers).OrElse(last)
  {
    if |providers| > 0 {
      assert (providers + [last])[1..] == providers[1..] + [last];
      FirstPresentAppend(providers[1..], last);
    }
  }

  /** The left fold of `orElse` selects the first present value. */
  lemma {:induction false} ReduceIsFirstPresent<T>(providers: seq<Option<T>>)
    requires |providers| > 0
    ensures ReduceOrElse(providers) == Some(FirstPresent(providers))
  {
    if |providers| > 1 {
      var init := providers[..|providers| - 1];
      ReduceIsFirstPresent(init);
      FirstPresentAppend(init, providers[|providers| - 1]);
      assert init + [providers[|providers| - 1]] == providers;
    }
  }

  /** `initProperty`: the first present source, converted, else the default. */
  function InitProperty<T>(
    setting: SystemSetting, providers: ProviderFactory, converter: string -> T, default: Option<T>): (r: Option<T>)
    ensures r == FirstPresent(Sources(providers, setting)).Map(converter).OrElse(default)
  {
    ReduceIsFirstPresent(Sources(providers, setting));
    match ReduceOrElse(Sources(providers, setting))
    case Some(valueProvider) => valueProvider.Map(converter).OrElse(default)
    case None => default
  }

  /** First-present-wins precedence: Gradle property, then system property,
      then environment variable, then the default; the converter is applied to
      the chosen raw string, never to the default. */
  lemma InitPropertyPrecedence<T>(
    setting: SystemSetting, providers: ProviderFactory, converter: string -> T, default: Option<T>)
    ensures setting.property.Some? && setting.property.value in providers.gradleProperties ==>
              InitProperty(setting, providers, converter, default)
              == Some(converter(providers.gradleProperties[setting.property.value]))
    ensures setting.property.Some? && setting.property.value !in providers.gradleProperties
            && setting.property.value in providers.systemProperties ==>
              InitProperty(setting, providers, converter, default)
              == Some(converter(providers.systemProperties[setting.property.value]))
    ensures (setting.property.None? || (setting.property.value !in providers.gradleProperties
                                        && setting.property.value !in providers.systemProperties)) ==>
              InitProperty(setting, providers, converter, default)
              == Lookup(providers.environmentVariables, setting.environmentVariable).Map(converter).OrElse(default)
  {
    var sources := Sources(providers, setting);
    ReduceIsFirstPresent(sources);
    if setting.property.Some? {
      assert sources[1..] == [sources[1], sources[2]];
      assert sources[1..][1..] == [sources[2]];
      assert sources[1..][1..][1..] == [];
      assert FirstPresent(sources[1..][1..]) == sources[2];
      assert FirstPresent(sources[1..]) == sources[1].OrElse(sources[2]);
    } else {
      assert sources[1..] == [];
    }
  }

  /** Kotlin's `File.resolve(relative)` on POSIX paths: a rooted path stands
      for itself, any other is appended to the base directory. */
  function ResolveToFile(rootDir: string, path: string): (file: string)
    ensures |path| > 0 && path[0] == '/' ==> file == path
    ensures |file| >= |path|
    ensures !(|path| > 0 && path[0] == '/') ==> |file| >= |rootDir| + |path|
    ensures !(|path| > 0 && path[0] == '/') ==>
              file[..|rootDir|] == rootDir && file[|file| - |path|..] == path
    ensures |rootDir| > 0 && rootDir[0] == '/' ==> |file| > 0 && file[0] == '/'
  {
    if |path| > 0 && path[0] == '/' then path
    else if |rootDir| == 0 || rootDir[|rootDir| - 1] == '/' then rootDir + path
    else rootDir + "/" + path
  }

  /** The SDK's well-known profile file locations under the user's home. */
  function DefaultConfigFile(userHome: string): string { userHome + "/.aws/config" }
  function DefaultCredentialsFile(userHome: string): string { userHome + "/.aws/credentials" }

  /** The `Property<String>` overload of `initProperty`: the raw string of
      the first present source, else the SDK default, unconverted. */
  function StringProperty(setting: SystemSetting, providers: ProviderFactory): (value: Option<string>)
    ensures value == FirstPresent(Sources(providers, setting)).OrElse(setting.defaultValue)
  {
    InitProperty(setting, providers, (s: string) => s, setting.defaultValue)
  }

  function FileProperty(setting: SystemSetting, providers: ProviderFactory, rootDir: string, default: string)
    : (file: Option<string>)
    ensures file.Some?
  {
    InitProperty(setting, providers, (path: string) => ResolveToFile(rootDir, path), Some(default))
  }

  /** The kind of a profile file the SDK reads. */
  datatype ProfileFileType = Configuration | Credentials

  datatype ProfileFile = ProfileFile(fileType: ProfileFileType, path: string)

  /** One source of the credentials chain, with the inputs it was built from;
      how the SDK evaluates each one is not part of this model. */
  datatype CredentialsSource =
    | ExplicitKeys(provider: Credentials.GradleProviderCredentialsProvider)
    | ProfileSource(profileFiles: seq<ProfileFile>, profileName: string)
    | ContainerSource
    | InstanceProfileSource

  datatype CredentialsChain = CredentialsChain(
    reuseLastProviderEnabled: bool,
    credentialsProviders: seq<CredentialsSource>)

  const DefaultProfileName := "default"

  /** Gradle's failure when a `Property` without a value is read with `get()`. */
  function MissingValueMessage(propertyName: string): string {
    "Cannot query the value of property '" + propertyName + "' because it has no value available."
  }

  /** The AWS settings, each a Gradle `Property` (`None` when it has no value). */
  class AwsParameters {
    var accessKeyId: Option<string>
    var secretAccessKey: Option<string>
    var sessionToken: Option<string>
    var configFile: Option<string>
    var sharedCredentialsFile: Option<string>
    var profile: Option<string>
    var region: Option<string>

    /** A fresh parameters object: no property has a value. */
    constructor ()
      ensures accessKeyId.None? && secretAccessKey.None? && sessionToken.None?
      ensures configFile.None? && sharedCredentialsFile.None? && profile.None? && region.None?
    {
      accessKeyId, secretAccessKey, sessionToken := None, None, None;
      configFile, sharedCredentialsFile, profile, region := None, None, None, None;
    }

    /** `setFromProjectProperties`: every setting resolved by precedence, file
        settings resolved against `rootDir`, with the SDK's default locations
        under `userHome` as their defaults. Afterwards both file settings have
        a value, so in this model, where loading the profile files is left
        out, the credentials chain can be built. */
    method SetFromProjectProperties(providers: ProviderFactory, rootDir: string, userHome: string)
      modifies this
      ensures accessKeyId == StringProperty(AwsAccessKeyId, providers)
      ensures secretAccessKey == StringProperty(AwsSecretAccessKey, providers)
      ensures sessionToken == StringProperty(AwsSessionToken, providers)
      ensures configFile == FileProperty(AwsConfigFile, providers, rootDir, DefaultConfigFile(userHome))
      ensures sharedCredentialsFile ==
                FileProperty(AwsSharedCredentialsFile, providers, rootDir, DefaultCredentialsFile(userHome))
      ensures profile == StringProperty(AwsProfile, providers)
      ensures region == StringProperty(AwsRegion, providers)
      ensures BuildCredentialsProvider().Success?
    {
      var config := FileProperty(AwsConfigFile, providers, rootDir, DefaultConfigFile(userHome));
      var credentials := FileProperty(AwsSharedCredentialsFile, providers, rootDir, DefaultCredentialsFile(userHome));
      accessKeyId := StringProperty(AwsAccessKeyId, providers);
      secretAccessKey := StringProperty(AwsSecretAccessKey, providers);
      sessionToken := StringProperty(AwsSessionToken, providers);
      configFile := config;
      sharedCredentialsFile := credentials;
      profile := StringProperty(AwsProfile, providers);
      region := StringProperty(AwsRegion, providers);
    }

    /** `getAsProfileFile`: reading a file property without a value fails. */
    static function GetAsProfileFile(file: Option<string>, name: string, fileType: ProfileFileType)
      : (r: Result<ProfileFile, string>)
      ensures r.Success? <==> file.Some?
      ensures r.Success? ==> r.value == ProfileFile(fileType, file.value)
      ensures r.Failure? ==> r.error == MissingValueMessage(name)
    {
      match file
      case Some(path) => Success(ProfileFile(fileType, path))
      case None => Failure(MissingValueMessage(name))
    }

    /** `buildProfileCredentialsProvider`: the configuration file first, the
        credentials file second, and the configured profile or "default". */
    function BuildProfileCredentialsProvider(): (r: Result<CredentialsSource, string>)
      reads this
      ensures r.Success? <==> configFile.Some? && sharedCredentialsFile.Some?
      ensures configFile.None? ==> r == Failure(MissingValueMessage("configFile"))
      ensures r.Success? ==>
                && r.value.ProfileSource?
                && r.value.profileFiles == [ProfileFile(Configuration, configFile.value),
                                            ProfileFile(Credentials, sharedCredentialsFile.value)]
                && r.value.profileName == profile.GetOr(DefaultProfileName)
    {
      match GetAsProfileFile(configFile, "configFile", Configuration)
      case Failure(e) => Failure(e)
      case Success(config) =>
        match GetAsProfileFile(sharedCredentialsFile, "sharedCredentialsFile", Credentials)
        case Failure(e) => Failure(e)
        case Success(credentials) => Success(ProfileSource([config, credentials], profile.GetOr(DefaultProfileName)))
    }

    /** `buildCredentialsProvider`: exactly four sources, in the order explicit
        keys, profile, container, instance profile, with reuse of the last
        successful provider enabled. */
    function BuildCredentialsProvider(): (r: Result<CredentialsChain, string>)
      reads this
      ensures r.Success? <==> BuildProfileCredentialsProvider().Success?
      ensures r.Success? ==>
                && r.value.reuseLastProviderEnabled
                && r.value.credentialsProviders == [
                     ExplicitKeys(Credentials.GradleProviderCredentialsProvider(accessKeyId, secretAccessKey, sessionToken)),
                     BuildProfileCredentialsProvider().value,
                     ContainerSource,
                     InstanceProfileSource]
    {
      match BuildProfileCredentialsProvider()
      case Failure(e) => Failure(e)
      case Success(profileProvider) =>
        Success(CredentialsChain(true, [
          ExplicitKeys(Credentials.GradleProviderCredentialsProvider(accessKeyId, secretAccessKey, sessionToken)),
          profileProvider,
          ContainerSource,
          InstanceProfileSource]))
    }
  }

  /** End to end: an access key and a secret given as Gradle properties, with
      no session token anywhere, make the first source of the chain resolve to
      basic credentials carrying exactly those values, whatever the system
      properties and environment variables hold for the key and the secret. */
  lemma GradlePropertyKeysResolveToBasicCredentials(providers: ProviderFactory, key: string, secret: string)
    requires Lookup(providers.gradleProperties, "aws.accessKeyId") == Some(key)
    requires Lookup(providers.gradleProperties, "aws.secretAccessKey") == Some(secret)
    requires "aws.sessionToken" !in providers.gradleProperties
    requires "aws.sessionToken" !in providers.systemProperties
    requires "AWS_SESSION_TOKEN" !in providers.environmentVariables
    ensures Credentials.GradleProviderCredentialsProvider(
              StringProperty(AwsAccessKeyId, providers),
              StringProperty(AwsSecretAccessKey, providers),
              StringProperty(AwsSessionToken, providers)).ResolveCredentials()
            == Success(Credentials.AwsBasicCredentials(key, secret))
  {
    InitPropertyPrecedence(AwsAccessKeyId, providers, (s: string) => s, AwsAccessKeyId.defaultValue);
    InitPropertyPrecedence(AwsSecretAccessKey, providers, (s: string) => s, AwsSecretAccessKey.defaultValue);
    InitPropertyPrecedence(AwsSessionToken, providers, (s: string) => s, AwsSessionToken.defaultValue);
  }

  /** The profile setting falls back to "default" when no source names one. */
  lemma ProfileDefaultsToDefault(providers: ProviderFactory)
    requires "aws.profile" !in providers.gradleProperties
    requires "aws.profile" !in providers.systemProperties
    requires "AWS_PROFILE" !in providers.environmentVariables
    ensures StringProperty(AwsProfile, providers) == Some(DefaultProfileName)
  {
    InitPropertyPrecedence(AwsProfile, providers, (s: string) => s, AwsProfile.defaultValue);
  }
}
