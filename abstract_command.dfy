/**
 * The command initializer shared by every console command: it resolves the
 * region, builds the base credentials from the options and, when the
 * `--assumeRole` flag is on the command line, exchanges them for the
 * credentials of the role named by `--assumedRoleArn`.
 *
 * `Initialization` is the specification: what one call of `initialize` does to
 * the command's fields, which exchange requests it issues and how it ends.
 * The class `AbstractCommand` holds the fields and is proved against it.
 */
module Command {
  import opened Wrappers
  import opened ConsoleInput
  import opened AppSettings
  import opened Security

  const RegionOption := "region"
  const AccessKeyIdOption := "awsAccessKeyId"
  const SecretAccessKeyOption := "awsSecretAccessKey"
  const AssumeRoleOption := "assumeRole"
  const AssumeRoleFlag := "--assumeRole"
  const RoleArnOption := "assumedRoleArn"
  const ExternalIdOption := "assumedRoleExternalId"

  const DefaultSessionName := "aws-utility"
  const ArnEmptyMessage := "Option --assumedRoleArn empty"

  /**
   * Why `initialize` did not complete: it was called before any settings were
   * given, the role ARN was missing, or the token exchange raised an error.
   */
  datatype InitError =
    | SettingsNotSet
    | ValidationError(message: string)
    | ExchangeError(reason: string)

  datatype Status = Ok | Threw(error: InitError)

  /** The fields of a command object. */
  datatype CommandState = CommandState(
    settings: Option<Settings>,
    region: Option<string>,
    credentials: Option<Credentials>,
    assumedRoleCredentials: Option<Credentials>,
    assumedRoleSessionName: string)

  /** The fields after one `initialize`, the exchange requests it issued, and how it ended. */
  datatype InitOutcome = InitOutcome(state: CommandState, requests: seq<ExchangeRequest>, status: Status)

  /** The fields of a newly created command, before `setSettings`. */
  function FreshState(): (s: CommandState)
    ensures s.settings.None? && s.region == Some("")
    ensures s.credentials.None? && s.assumedRoleCredentials.None?
    ensures s.assumedRoleSessionName == "aws-utility"
  {
    CommandState(None, Some(""), None, None, DefaultSessionName)
  }

  /** The explicit `--region` wins when it is truthy; otherwise the configured default, as it is. */
  function ResolveRegion(config: Settings, input: Input): (region: Option<string>)
    ensures Truthy(input.GetOption("region")) ==> region == input.GetOption("region")
    ensures !Truthy(input.GetOption("region")) ==> region == config.Get("defaults.region")
  {
    var explicit := input.GetOption(RegionOption);
    if Truthy(explicit) then explicit else config.Get(DefaultRegionKey)
  }

  /** The base credentials carry the two key options exactly, unchecked, and no session token. */
  function BaseCredentials(input: Input): (base: Credentials)
    ensures base.accessKeyId == input.GetOption("awsAccessKeyId")
    ensures base.secretAccessKey == input.GetOption("awsSecretAccessKey")
    ensures base.sessionToken == None
  {
    Credentials(input.GetOption(AccessKeyIdOption), input.GetOption(SecretAccessKeyOption), None)
  }

  /**
   * The exchange request for a role assumption, or the validation error when
   * the role ARN is falsy.
   */
  function RoleRequest(config: Settings, input: Input, region: Option<string>, base: Credentials,
                       sessionName: string): (r: Result<ExchangeRequest, InitError>)
    ensures r.Failure? <==> !Truthy(input.GetOption("assumedRoleArn"))
    ensures r.Failure? ==> r.error == ValidationError("Option --assumedRoleArn empty")
    ensures r.Success? ==> Some(r.value.roleArn) == input.GetOption("assumedRoleArn")
    ensures r.Success? ==> (r.value.endpoint == config.Get("services.sts.endpoint")
                            && r.value.version == config.Get("services.sts.version"))
    ensures r.Success? ==> r.value.region == region && r.value.credentials == base
    ensures r.Success? ==> (r.value.sessionName == sessionName
                            && r.value.externalId == input.GetOption("assumedRoleExternalId"))
  {
    var arn := input.GetOption(RoleArnOption);
    if !Truthy(arn) then Failure(ValidationError(ArnEmptyMessage))
    else
      Success(ExchangeRequest(config.Get(StsEndpointKey), config.Get(StsVersionKey), region, base,
                              arn.value, sessionName, input.GetOption(ExternalIdOption)))
  }

  /** The assumed-role credentials are the issued triple; an exchange error is passed on as it is. */
  function AssumedCredentials(answer: ExchangeResult): (r: Result<Credentials, InitError>)
    ensures answer.Issued? ==> r.Success? && r.value.sessionToken.Some?
    ensures answer.Issued? ==> r.value == Credentials(Some(answer.accessKeyId), Some(answer.secretAccessKey),
                                                      Some(answer.sessionToken))
    ensures answer.Failed? ==> r == Failure(ExchangeError(answer.reason))
  {
    match answer
    case Issued(key, secret, token) => Success(Credentials(Some(key), Some(secret), Some(token)))
    case Failed(reason) => Failure(ExchangeError(reason))
  }

  /** One call of `initialize` on a command whose fields are `s`. */
  function Initialization(s: CommandState, input: Input, exchange: TokenExchange): (out: InitOutcome)
    // the settings and the session name are never written
    ensures out.state.settings == s.settings
    ensures out.state.assumedRoleSessionName == s.assumedRoleSessionName
    // without settings the first lookup fails and nothing changes
    ensures s.settings.None? ==> out == InitOutcome(s, [], Threw(SettingsNotSet))
    // region and base credentials are written before anything can fail
    ensures s.settings.Some? ==> out.state.region == ResolveRegion(s.settings.value, input)
    ensures s.settings.Some? ==> out.state.credentials == Some(BaseCredentials(input))
    // at most one exchange, and only for the flag with a truthy ARN
    ensures |out.requests| <= 1
    ensures |out.requests| == 1 <==>
              s.settings.Some? && input.HasParameterOption("--assumeRole")
              && Truthy(input.GetOption("assumedRoleArn"))
    ensures |out.requests| == 1 ==>
              Success(out.requests[0]) == RoleRequest(s.settings.value, input, out.state.region,
                                                      out.state.credentials.value, s.assumedRoleSessionName)
    // no flag: nothing more happens
    ensures s.settings.Some? && !input.HasParameterOption("--assumeRole") ==>
              out.status == Ok && out.state.assumedRoleCredentials == s.assumedRoleCredentials
    // flag without ARN: validation error, assumed-role credentials untouched
    ensures s.settings.Some? && input.HasParameterOption("--assumeRole")
            && !Truthy(input.GetOption("assumedRoleArn")) ==>
              out.status == Threw(ValidationError("Option --assumedRoleArn empty"))
              && out.state.assumedRoleCredentials == s.assumedRoleCredentials
    // exchange issued: its answer decides
    ensures |out.requests| == 1 && exchange(out.requests[0]).Issued? ==>
              out.status == Ok
              && out.state.assumedRoleCredentials == Some(AssumedCredentials(exchange(out.requests[0])).value)
    ensures |out.requests| == 1 && exchange(out.requests[0]).Failed? ==>
              out.status == Threw(ExchangeError(exchange(out.requests[0]).reason))
              && out.state.assumedRoleCredentials == s.assumedRoleCredentials
  {
    match s.settings
    case None => InitOutcome(s, [], Threw(SettingsNotSet))
    case Some(config) =>
      var base := BaseCredentials(input);
      var s1 := s.(region := ResolveRegion(config, input), credentials := Some(base));
      if !input.HasParameterOption(AssumeRoleFlag) then
        InitOutcome(s1, [], Ok)
      else
        match RoleRequest(config, input, s1.region, base, s.assumedRoleSessionName)
        case Failure(e) => InitOutcome(s1, [], Threw(e))
        case Success(request) =>
          match AssumedCredentials(exchange(request))
          case Failure(e) => InitOutcome(s1, [request], Threw(e))
          case Success(assumed) => InitOutcome(s1.(assumedRoleCredentials := Some(assumed)), [request], Ok)
  }

  /**
   * Running `initialize` again with the same input and the same exchange
   * leaves the command as the first run left it, issues the same requests and
   * ends the same way.
   */
  lemma InitializationIsIdempotent(s: CommandState, input: Input, exchange: TokenExchange)
    ensures Initialization(Initialization(s, input, exchange).state, input, exchange)
            == Initialization(s, input, exchange)
  {
  }

  /**
   * Only the five value options and the presence of `--assumeRole` among the
   * raw tokens are read: two inputs that agree on them initialize alike.
   */
  lemma OnlyConsultedOptionsMatter(s: CommandState, a: Input, b: Input, exchange: TokenExchange)
    requires a.HasParameterOption("--assumeRole") == b.HasParameterOption("--assumeRole")
    requires a.GetOption("region") == b.GetOption("region")
    requires a.GetOption("awsAccessKeyId") == b.GetOption("awsAccessKeyId")
    requires a.GetOption("awsSecretAccessKey") == b.GetOption("awsSecretAccessKey")
    requires a.GetOption("assumedRoleArn") == b.GetOption("assumedRoleArn")
    requires a.GetOption("assumedRoleExternalId") == b.GetOption("assumedRoleExternalId")
    ensures Initialization(s, a, exchange) == Initialization(s, b, exchange)
  {
  }

  /** The value of the `assumeRole` option is never consulted, only the raw flag's presence. */
  lemma AssumeRoleValueIgnored(s: CommandState, input: Input, value: string, exchange: TokenExchange)
    ensures Initialization(s, input.(options := input.options[AssumeRoleOption := value]), exchange)
            == Initialization(s, input, exchange)
  {
    OnlyConsultedOptionsMatter(s, input.(options := input.options[AssumeRoleOption := value]), input, exchange);
  }

  /**
   * On a new command given its settings, the assumed-role credentials are
   * present exactly when the flag was given and `initialize` succeeded; they
   * then carry a session token and were requested under the session name
   * `aws-utility`.
   */
  lemma FreshCommandContext(config: Settings, input: Input, exchange: TokenExchange)
    ensures var out := Initialization(FreshState().(settings := Some(config)), input, exchange);
            && (out.state.assumedRoleCredentials.Some? <==>
                 input.HasParameterOption("--assumeRole") && out.status == Ok)
            && (out.state.assumedRoleCredentials.Some? ==> out.state.assumedRoleCredentials.value.sessionToken.Some?)
            && (forall r | r in out.requests :: r.sessionName == "aws-utility")
            && out.state.region.Some? == (Truthy(input.GetOption("region")) || config.Get("defaults.region").Some?)
  {
  }

  /** A console command object: its fields and the methods the subclasses use. */
  class AbstractCommand {
    var region: Option<string>
    var credentials: Option<Credentials>
    var assumedRoleCredentials: Option<Credentials>
    var assumedRoleSessionName: string
    var settings: Option<Settings>

    /** The fields as one value. */
    function State(): CommandState
      reads this
    {
      CommandState(settings, region, credentials, assumedRoleCredentials, assumedRoleSessionName)
    }

    constructor ()
      ensures State() == FreshState()
    {
      region := Some("");
      credentials := None;
      assumedRoleCredentials := None;
      assumedRoleSessionName := DefaultSessionName;
      settings := None;
    }

    /** Replaces the settings and nothing else. */
    method SetSettings(config: Settings)
      modifies this
      ensures State() == old(State()).(settings := Some(config))
    {
      settings := Some(config);
    }

    /**
     * Resolves the region, builds the base credentials and, when asked to,
     * assumes the role; returns how it ended and the exchange requests issued.
     * Fields written before a failure stay written.
     */
    method Initialize(input: Input, exchange: TokenExchange) returns (status: Status, requests: seq<ExchangeRequest>)
      modifies this
      ensures var out := Initialization(old(State()), input, exchange);
              State() == out.state && requests == out.requests && status == out.status
    {
      requests := [];
      if settings.None? {
        return Threw(SettingsNotSet), requests;
      }
      var config := settings.value;

      region := config.Get(DefaultRegionKey);
      var explicitRegion := input.GetOption(RegionOption);
      if Truthy(explicitRegion) {
        region := explicitRegion;
      }

      var accessKeyId := input.GetOption(AccessKeyIdOption);
      var secretAccessKey := input.GetOption(SecretAccessKeyOption);
      credentials := Some(Credentials(accessKeyId, secretAccessKey, None));

      if input.HasParameterOption(AssumeRoleFlag) {
        var roleArn := input.GetOption(RoleArnOption);
        if !Truthy(roleArn) {
          return Threw(ValidationError(ArnEmptyMessage)), requests;
        }
        var request := ExchangeRequest(config.Get(StsEndpointKey), config.Get(StsVersionKey), region,
                                       credentials.value, roleArn.value, assumedRoleSessionName,
                                       input.GetOption(ExternalIdOption));
        requests := requests + [request];
        var answer := exchange(request);
        if answer.Failed? {
          return Threw(ExchangeError(answer.reason)), requests;
        }
        assumedRoleCredentials := Some(Credentials(Some(answer.accessKeyId), Some(answer.secretAccessKey),
                                                   Some(answer.sessionToken)));
      }
      status := Ok;
    }

    method GetCredentials() returns (c: Option<Credentials>)
      ensures c == credentials
    {
      c := credentials;
    }

    method GetAssumedRoleCredentials() returns (c: Option<Credentials>)
      ensures c == assumedRoleCredentials
    {
      c := assumedRoleCredentials;
    }

    method GetRegion() returns (r: Option<string>)
      ensures r == region
    {
      r := region;
    }
  }
}
