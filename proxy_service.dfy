/** The proxy build service (`CodeArtifactMavenProxyService`): the local
    Maven URL it hands out, the options it starts the proxy server with, and
    the parameters it is configured from. The server itself and its bound
    port are inputs. */
module ProxyService {
  import opened Wrappers
  import AwsParams

  // ---------------------------------------------------------------- URL

  const UrlPrefix := "http://localhost:"
  const DefaultOwnerSegment := "default"

  predicate IsDigit(c: char) { '0' <= c <= '9' }

  function DigitChar(d: nat): (c: char)
    requires d < 10
    ensures IsDigit(c) && c as int - '0' as int == d
  {
    ('0' as int + d) as char
  }

  /** The decimal form of the port in a Kotlin string template. */
  function DecimalString(n: nat): (s: string)
    ensures |s| > 0
    ensures forall i :: 0 <= i < |s| ==> IsDigit(s[i])
  {
    if n < 10 then [DigitChar(n)] else DecimalString(n / 10) + [DigitChar(n % 10)]
  }

  /** Reads a string of decimal digits back as a number. */
  function ParseDecimal(s: string): nat
    requires forall i :: 0 <= i < |s| ==> IsDigit(s[i])
  {
    if |s| == 0 then 0
    else
      assert IsDigit(s[|s| - 1]);
      ParseDecimal(s[..|s| - 1]) * 10 + (s[|s| - 1] as int - '0' as int)
  }

  lemma {:induction false} DecimalRoundTrip(n: nat)
    ensures ParseDecimal(DecimalString(n)) == n
  {
    if n >= 10 {
      var s := DecimalString(n);
      DecimalRoundTrip(n / 10);
      assert s[..|s| - 1] == DecimalString(n / 10);
    }
  }

  /** `domainOwner ?: "default"`. */
  function OwnerSegment(domainOwner: Option<string>): string {
    domainOwner.GetOr(DefaultOwnerSegment)
  }

  /** `getMavenUrl`: the proxy's repository URL for the server's actual port. */
  function MavenUrl(actualPort: nat, domain: string, domainOwner: Option<string>, repository: string): (url: string)
    ensures |url| > |UrlPrefix| + |repository| && url[..|UrlPrefix|] == UrlPrefix
    ensures url[|url| - |repository| - 1..] == "/" + repository
  {
    UrlPrefix + DecimalString(actualPort) + "/" + domain + "/" + OwnerSegment(domainOwner) + "/" + repository
  }

  /** Splits a string at every occurrence of a separator. */
  function Split(s: string, separator: char): (parts: seq<string>)
    ensures |parts| > 0
  {
    if |s| == 0 then [""]
    else if s[0] == separator then [""] + Split(s[1..], separator)
    else var rest := Split(s[1..], separator); [[s[0]] + rest[0]] + rest[1..]
  }

  lemma {:induction false} SplitNoSeparator(s: string, separator: char)
    requires separator !in s
    ensures Split(s, separator) == [s]
  {
    if |s| > 0 {
      SplitNoSeparator(s[1..], separator);
      assert [s[0]] + s[1..] == s;
    }
  }

  lemma {:induction false} SplitAtSeparator(a: string, separator: char, b: string)
    requires separator !in a
    ensures Split(a + [separator] + b, separator) == [a] + Split(b, separator)
  {
    if |a| > 0 {
      assert (a + [separator] + b)[1..] == a[1..] + [separator] + b;
      SplitAtSeparator(a[1..], separator, b);
      assert [a[0]] + a[1..] == a;
    } else {
      assert a + [separator] + b == [separator] + b;
    }
  }

  /** What a proxy URL addresses: port, domain, owner segment and repository. */
  datatype MavenCoordinates = MavenCoordinates(port: nat, domain: string, owner: string, repository: string)

  /** The reading of a proxy URL back into its parts; `None` when it is not
      of the form `http://localhost:{digits}/{domain}/{owner}/{repository}`. */
  function ParseMavenUrl(url: string): Option<MavenCoordinates> {
    if |url| < |UrlPrefix| || url[..|UrlPrefix|] != UrlPrefix then None
    else
      var parts := Split(url[|UrlPrefix|..], '/');
      if |parts| != 4 || |parts[0]| == 0 || !(forall i :: 0 <= i < |parts[0]| ==> IsDigit(parts[0][i])) then None
      else Some(MavenCoordinates(ParseDecimal(parts[0]), parts[1], parts[2], parts[3]))
  }

  /** Four slash-free names joined by slashes split back into those names. */
  lemma SplitFourSegments(a: string, b: string, c: string, d: string)
    requires '/' !in a && '/' !in b && '/' !in c && '/' !in d
    ensures Split(a + "/" + b + "/" + c + "/" + d, '/') == [a, b, c, d]
  {
    SplitNoSeparator(d, '/');
    SplitAtSeparator(c, '/', d);
    SplitAtSeparator(b, '/', c + "/" + d);
    SplitAtSeparator(a, '/', b + "/" + (c + "/" + d));
    assert a + "/" + b + "/" + c + "/" + d == a + ['/'] + (b + ['/'] + (c + ['/'] + d));
  }

  /** The URL carries the port, the domain, the owner (or "default") and the
      repository, and they can be read back from it as long as none of the
      names contains a slash. */
  lemma MavenUrlRoundTrip(actualPort: nat, domain: string, domainOwner: Option<string>, repository: string)
    requires '/' !in domain && '/' !in OwnerSegment(domainOwner) && '/' !in repository
    ensures ParseMavenUrl(MavenUrl(actualPort, domain, domainOwner, repository))
            == Some(MavenCoordinates(actualPort, domain, OwnerSegment(domainOwner), repository))
  {
    var port := DecimalString(actualPort);
    var rest := port + "/" + domain + "/" + OwnerSegment(domainOwner) + "/" + repository;
    assert MavenUrl(actualPort, domain, domainOwner, repository) == UrlPrefix + rest;
    assert (UrlPrefix + rest)[..|UrlPrefix|] == UrlPrefix;
    assert (UrlPrefix + rest)[|UrlPrefix|..] == rest;
    assert '/' !in port;
    SplitFourSegments(port, domain, OwnerSegment(domainOwner), repository);
    DecimalRoundTrip(actualPort);
  }

  /** An absent owner and the owner literally named "default" give the same URL. */
  lemma AbsentOwnerIsDefault(actualPort: nat, domain: string, repository: string)
    ensures MavenUrl(actualPort, domain, None, repository)
            == MavenUrl(actualPort, domain, Some(DefaultOwnerSegment), repository)
  {
  }

  // ---------------------------------------------------------- log level

  /** The proxy server's wiretap log level. */
  datatype LogLevel = TRACE | DEBUG | INFO | WARN | ERROR

  const WiretapLogLevelProperty := "aws.codeartifact.proxy.wiretapLogLevel"
  const LogLevelClassName := "org.unbrokendome.awscodeartifact.mavenproxy.LogLevel"

  /** The name of the enum constant. */
  function LogLevelName(level: LogLevel): string {
    match level
    case TRACE => "TRACE"
    case DEBUG => "DEBUG"
    case INFO => "INFO"
    case WARN => "WARN"
    case ERROR => "ERROR"
  }

  /** `LogLevel.valueOf`: the constant with exactly this name. */
  function ValueOf(name: string): (r: Result<LogLevel, string>)
    ensures r.Success? ==> LogLevelName(r.value) == name
    ensures r.Failure? ==> forall level: LogLevel :: LogLevelName(level) != name
  {
    if name == "TRACE" then Success(TRACE)
    else if name == "DEBUG" then Success(DEBUG)
    else if name == "INFO" then Success(INFO)
    else if name == "WARN" then Success(WARN)
    else if name == "ERROR" then Success(ERROR)
    else Failure("No enum constant " + LogLevelClassName + "." + name)
  }

  function UpperChar(c: char): char {
    if 'a' <= c <= 'z' then (c as int - 'a' as int + 'A' as int) as char else c
  }

  /** `toUpperCase()` on ASCII letters. */
  function UpperCase(s: string): (r: string)
    ensures |r| == |s| && forall i :: 0 <= i < |s| ==> r[i] == UpperChar(s[i])
    ensures EqualIgnoringCase(s, r)
    ensures forall i :: 0 <= i < |r| ==> !('a' <= r[i] <= 'z')
  {
    seq(|s|, i requires 0 <= i < |s| => UpperChar(s[i]))
  }

  /** Two strings that differ only in the case of ASCII letters. */
  predicate EqualIgnoringCase(s: string, t: string) {
    |s| == |t| && forall i :: 0 <= i < |s| ==> UpperChar(s[i]) == UpperChar(t[i])
  }

  /** The mapping applied to the Gradle property's value. */
  function ParseLogLevel(name: string): (r: Result<LogLevel, string>)
    ensures r.Success? ==> EqualIgnoringCase(name, LogLevelName(r.value))
    ensures r.Failure? ==> r.error == "No enum constant " + LogLevelClassName + "." + UpperCase(name)
  {
    ValueOf(UpperCase(name))
  }

  /** A name selects a level exactly when it spells the level's name in any
      mix of upper and lower case. */
  lemma ParseLogLevelIgnoresCase(name: string, level: LogLevel)
    ensures ParseLogLevel(name) == Success(level) <==> EqualIgnoringCase(name, LogLevelName(level))
  {
    var upper := UpperCase(name);
    var expected := LogLevelName(level);
    assert forall i :: 0 <= i < |expected| ==> UpperChar(expected[i]) == expected[i];
    if EqualIgnoringCase(name, expected) {
      assert upper == expected;
    }
    if ParseLogLevel(name) == Success(level) {
      assert upper == expected;
    }
  }

  // --------------------------------------------------------- parameters

  /** A `java.time.Duration`, in seconds. */
  datatype Duration = Duration(seconds: int)

  function OfHours(hours: int): Duration { Duration(hours * 3600) }

  const DefaultTokenTtl := OfHours(1)

  /** An AWS SDK `Region`. */
  datatype Region = Region(id: string)

  /** `CodeArtifactMavenProxyServer.Options`. */
  datatype ProxyOptions = ProxyOptions(
    awsCredentialsProvider: AwsParams.CredentialsChain,
    awsRegion: Option<Region>,
    tokenTtl: Duration,
    wiretapLogLevel: LogLevel)

  /** The service's `Parameters`: the AWS settings plus the token TTL and the
      wiretap log level. The log level property is set to the Gradle property
      mapped through `ParseLogLevel`; the model keeps the unmapped name and
      applies the mapping whenever the property is read, as Gradle's lazy
      `map` does. */
  class ServiceParameters {
    const aws: AwsParams.AwsParameters
    var tokenTtl: Option<Duration>
    var wiretapLogLevelName: Option<string>

    constructor ()
      ensures fresh(aws)
      ensures aws.accessKeyId.None? && aws.secretAccessKey.None? && aws.sessionToken.None?
      ensures aws.configFile.None? && aws.sharedCredentialsFile.None? && aws.profile.None? && aws.region.None?
      ensures tokenTtl.None? && wiretapLogLevelName.None?
    {
      aws := new AwsParams.AwsParameters();
      tokenTtl, wiretapLogLevelName := None, None;
    }

    /** Reading `wiretapLogLevel.orNull`: absent, a level, or the failure of
        the mapping. */
    function WiretapLogLevel(): (r: Result<Option<LogLevel>, string>)
      reads this
      ensures wiretapLogLevelName.None? ==> r == Success(None)
      ensures wiretapLogLevelName.Some? ==>
                (r.Success? <==> ParseLogLevel(wiretapLogLevelName.value).Success?)
      ensures r.Success? && wiretapLogLevelName.Some? ==>
                r.value == Some(ParseLogLevel(wiretapLogLevelName.value).value)
    {
      match wiretapLogLevelName
      case None => Success(None)
      case Some(name) =>
        match ParseLogLevel(name)
        case Success(level) => Success(Some(level))
        case Failure(e) => Failure(e)
    }

    /** `setFromProjectProperties` of the service: the AWS settings as above,
        then the log level from its Gradle property. The token TTL is left
        as it was. */
    method SetFromProjectProperties(providers: AwsParams.ProviderFactory, rootDir: string, userHome: string)
      modifies this, aws
      ensures aws.accessKeyId == AwsParams.StringProperty(AwsParams.AwsAccessKeyId, providers)
      ensures aws.secretAccessKey == AwsParams.StringProperty(AwsParams.AwsSecretAccessKey, providers)
      ensures aws.sessionToken == AwsParams.StringProperty(AwsParams.AwsSessionToken, providers)
      ensures aws.configFile ==
                AwsParams.FileProperty(AwsParams.AwsConfigFile, providers, rootDir, AwsParams.DefaultConfigFile(userHome))
      ensures aws.sharedCredentialsFile ==
                AwsParams.FileProperty(AwsParams.AwsSharedCredentialsFile, providers, rootDir,
                                       AwsParams.DefaultCredentialsFile(userHome))
      ensures aws.profile == AwsParams.StringProperty(AwsParams.AwsProfile, providers)
      ensures aws.region == AwsParams.StringProperty(AwsParams.AwsRegion, providers)
      ensures wiretapLogLevelName == AwsParams.Lookup(providers.gradleProperties, WiretapLogLevelProperty)
      ensures tokenTtl == old(tokenTtl)
      ensures BuildOptions().Success? <==> WiretapLogLevel().Success?
    {
      aws.SetFromProjectProperties(providers, rootDir, userHome);
      wiretapLogLevelName := AwsParams.Lookup(providers.gradleProperties, WiretapLogLevelProperty);
    }

    /** `buildOptions`: the credentials chain, the region when one is set, the
        token TTL or one hour, the log level or DEBUG. Building the chain and
        reading the log level are the two steps that can fail, in that order. */
    function BuildOptions(): (r: Result<ProxyOptions, string>)
      reads this, aws
      ensures r.Success? <==> aws.BuildCredentialsProvider().Success? && WiretapLogLevel().Success?
      ensures aws.BuildCredentialsProvider().Failure? ==> r == Failure(aws.BuildCredentialsProvider().error)
      ensures aws.BuildCredentialsProvider().Success? && WiretapLogLevel().Failure? ==>
                r == Failure(WiretapLogLevel().error)
      ensures r.Success? ==>
                && r.value.awsCredentialsProvider == aws.BuildCredentialsProvider().value
                && (r.value.awsRegion.None? <==> aws.region.None?)
                && (aws.region.Some? ==> r.value.awsRegion == Some(Region(aws.region.value)))
                && (tokenTtl.Some? ==> r.value.tokenTtl == tokenTtl.value)
                && (tokenTtl.None? ==> r.value.tokenTtl == DefaultTokenTtl)
                && (WiretapLogLevel().value.Some? ==> r.value.wiretapLogLevel == WiretapLogLevel().value.value)
                && (WiretapLogLevel().value.None? ==> r.value.wiretapLogLevel == DEBUG)
    {
      match aws.BuildCredentialsProvider()
      case Failure(e) => Failure(e)
      case Success(chain) =>
        match WiretapLogLevel()
        case Failure(e) => Failure(e)
        case Success(level) =>
          Success(ProxyOptions(chain, aws.region.Map((id: string) => Region(id)),
                               tokenTtl.GetOr(DefaultTokenTtl), level.GetOr(DEBUG)))
    }
  }
}
