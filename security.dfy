/**
 * Credentials and the security token exchange. The exchange (the STS client
 * together with the token service) is an oracle: a function from the request
 * the command builds to either a credential triple or a failure.
 */
module Security {
  import opened Wrappers

  /** Access key id, secret access key and, for temporary credentials, a session token. */
  datatype Credentials = Credentials(
    accessKeyId: Option<string>,
    secretAccessKey: Option<string>,
    sessionToken: Option<string>)

  /** Everything the command hands to the token exchange for one role assumption. */
  datatype ExchangeRequest = ExchangeRequest(
    endpoint: Option<string>,
    version: Option<string>,
    region: Option<string>,
    credentials: Credentials,
    roleArn: string,
    sessionName: string,
    externalId: Option<string>)

  /** What the exchange answers: the issued temporary credentials, or the error it raised. */
  datatype ExchangeResult =
    | Issued(accessKeyId: string, secretAccessKey: string, sessionToken: string)
    | Failed(reason: string)

  type TokenExchange = ExchangeRequest -> ExchangeResult
}
