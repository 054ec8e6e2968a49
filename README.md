# aws-utility command initializer, modelled in Dafny

This project models the command initializer of `aws-utility`, a set of console
commands for AWS. The console commands extend `AbstractCommand`. Before the command
body runs, `initialize` fills three fields of the command object:

1. the region: the `defaults.region` setting, overridden by a truthy `--region`;
2. the base credentials: exactly the `--awsAccessKeyId` and
   `--awsSecretAccessKey` values, unchecked, with no session token;
3. when `--assumeRole` is on the command line, the assumed-role credentials.
   A falsy `--assumedRoleArn` throws `Option --assumedRoleArn empty` before any
   STS client is built. Otherwise one token exchange is made with the STS
   endpoint and version from the settings, the resolved region, the base
   credentials, the ARN, the session name `aws-utility` and the optional
   external id. Its key, secret and token become the assumed-role credentials.

Files:

- `wrappers.dfy`: `Option` (PHP `null` is `None`) and `Result`.
- `console_input.dfy`: the parsed input. Option values are in a map. The raw
  tokens are a sequence. PHP truthiness is `Truthy`, and the presence test used
  for `--assumeRole` is `TokensName`.
- `settings.dfy`: settings as a key-path to string map whose `Get` yields
  `None` for an unset key.
- `security.dfy`: `Credentials`, the `ExchangeRequest` the command builds, and
  the token exchange as an oracle `ExchangeRequest -> ExchangeResult`. The
  oracle either issues a triple or fails with a reason.
- `abstract_command.dfy`: `Initialization`, the specification of one
  `initialize` call as a function from the old fields to the new fields, the
  exchange requests issued (so the call count and arguments are visible) and a
  status `Ok | Threw(error)`. The same file holds the step-by-step
  operations it is built from, lemmas relating several calls, and the class
  `AbstractCommand` whose mutable fields and methods are proved against
  `Initialization`.

Exceptions are results. `Threw(ValidationError(...))` is the missing-ARN
exception. `Threw(ExchangeError(reason))` is an error from the exchange, passed
on unchanged. `Threw(SettingsNotSet)` covers one more case: the `settings`
field starts as the PHP array `[]`, so calling `initialize` before
`setSettings` fails at the first `get` lookup, before any field is written.

Behaviour of the code that is easy to miss:

- The region is not always present. When `--region` is falsy and
  `defaults.region` is unset, the region is `null`.
- A `--region` of `""` or `"0"` does not override the default; only a truthy
  value does.
- The validation message is `Option --assumedRoleArn empty`.
- A failure in role assumption does not roll back. `region` and `credentials`
  have already been written when the missing-ARN or exchange error is raised.
  Only `assumedRoleCredentials` keeps its earlier value.

## Model

| member | source | states |
|---|---|---|
| `ConsoleInput.TokensName` | src/AwsUtility/Command/AbstractCommand.php:63 | the flag is present exactly when some raw token is `--assumeRole` or `--assumeRole=<value>` |
| `ConsoleInput.FlagWithValueIsPresent` | src/AwsUtility/Command/AbstractCommand.php:63 | a flag given with any value (`--assumeRole=false`, `--assumeRole=`) still counts as present |
| `Command.FreshState` | src/AwsUtility/Command/AbstractCommand.php:12-35 | a new command has region `""`, no credentials, no assumed-role credentials, session name `aws-utility` and no settings object |
| `Command.ResolveRegion` | src/AwsUtility/Command/AbstractCommand.php:54-57 | a truthy `--region` wins; otherwise the `defaults.region` setting is taken verbatim, even when it is empty or unset |
| `Command.BaseCredentials` | src/AwsUtility/Command/AbstractCommand.php:59-61 | the base credentials hold exactly the two key options, possibly null or empty, and no session token |
| `Command.RoleRequest` | src/AwsUtility/Command/AbstractCommand.php:64-78 | a falsy ARN is the validation error `Option --assumedRoleArn empty` and nothing else is; otherwise the request carries the STS endpoint and version settings, the given region and credentials, the ARN, the session name and the external id unchanged |
| `Command.AssumedCredentials` | src/AwsUtility/Command/AbstractCommand.php:78-84 | issued key, secret and token become token-bearing credentials; an exchange failure is passed on with its reason unchanged |
| `Command.Initialization` | src/AwsUtility/Command/AbstractCommand.php:50-86 | settings and session name never change; region and base credentials are written before anything can fail; at most one exchange request, issued exactly when the flag is present and the ARN truthy, built from the already-resolved region and credentials; no flag leaves the assumed-role credentials as they were and succeeds; a missing ARN or a failed exchange throws and leaves them as they were; a successful exchange stores the issued triple |
| `Command.InitializationIsIdempotent` | src/AwsUtility/Command/AbstractCommand.php:50-86 | initializing again with the same input and the same exchange answers gives the same fields, the same requests and the same status |
| `Command.OnlyConsultedOptionsMatter` | src/AwsUtility/Command/AbstractCommand.php:54-78 | the outcome depends only on the five value options read and on whether `--assumeRole` is among the raw tokens |
| `Command.AssumeRoleValueIgnored` | src/AwsUtility/Command/AbstractCommand.php:63 | changing the parsed value of the `assumeRole` option never changes the outcome |
| `Command.FreshCommandContext` | src/AwsUtility/Command/AbstractCommand.php:25-85 | on a new command given settings, assumed-role credentials exist exactly when the flag was given and initialization succeeded; they carry a token; every request uses session name `aws-utility`; the region is null only when `--region` is falsy and `defaults.region` unset |
| `Command.AbstractCommand.constructor` | src/AwsUtility/Command/AbstractCommand.php:12-35 | the fields start at their declared defaults |
| `Command.AbstractCommand.SetSettings` | src/AwsUtility/Command/AbstractCommand.php:40-43 | replaces the settings and no other field |
| `Command.AbstractCommand.Initialize` | src/AwsUtility/Command/AbstractCommand.php:50-86 | assigning the fields step by step, in the source's order, leaves them, the issued requests and the status as `Initialization` says |
| `Command.AbstractCommand.GetCredentials` | src/AwsUtility/Command/AbstractCommand.php:132-135 | returns the stored base credentials and changes nothing |
| `Command.AbstractCommand.GetAssumedRoleCredentials` | src/AwsUtility/Command/AbstractCommand.php:140-143 | returns the stored assumed-role credentials and changes nothing |
| `Command.AbstractCommand.GetRegion` | src/AwsUtility/Command/AbstractCommand.php:148-151 | returns the stored region and changes nothing |

## Left out

- `configure()` is not modelled. It only declares the six options to the console framework.
- `parent::initialize` and the output stream are not modelled. They are framework plumbing with no effect on these fields.
- The STS client and the token service are network calls into library code. They are one oracle, a function from the request to an issued triple or a failure. Errors from building the client and from the exchange itself are not told apart.
- How the settings object is loaded is configuration I/O. Settings are a given map from key path to string.
- Option parsing belongs to the console framework. The parsed option map and the raw tokens are given independently, and option values are strings or null only.
- `ConsoleInput.TokensName` follows the console framework's presence test from outside this repository: the token equals the name, or starts with the name and `=`. The framework's "only before `--`" mode is not modelled because this source never asks for it.
- The unimplemented IAM role listing noted at line 66 is not modelled.
- The contents of the `Credentials` class (expiry, interfaces) are not modelled. Credentials are a triple of optional strings.
