/**
 * The command-line copy of the token helpers (tools/token.js). Hashing, verification and token
 * generation are the computations of module Token; what differs is where the TURN secret and the
 * validity come from: straight from the process environment, `TURN_SECRET` included.
 */
module ToolsToken {
  import opened Wrappers
  import Env
  import Token

  /** `isDevelopment ? undefined : process.env.TURN_SECRET`. */
  function Secret(env: Env.Environment): Option<string>
  {
    if Env.Lookup(env, "NODE_ENV") == Some("development") then None else Env.Lookup(env, "TURN_SECRET")
  }

  /** `generateTurnCredentials(name)` with the module-level secret and validity. */
  function GenerateTurnCredentials(env: Env.Environment, name: string, nowMillis: nat,
                                   crypto: Token.Crypto): Option<Token.Credentials>
  {
    Token.GenerateTurnCredentials(name, Secret(env), Env.Lookup(env, "HOURS_TURN_CREDENTIAL_VALID"),
                                  nowMillis, crypto)
  }

  /**
   * The tool issues credentials exactly when it does not run in development and both
   * `TURN_SECRET` and `HOURS_TURN_CREDENTIAL_VALID` are set to non-empty text.
   */
  lemma CredentialsIssuedIff(env: Env.Environment, name: string, nowMillis: nat, crypto: Token.Crypto)
    ensures GenerateTurnCredentials(env, name, nowMillis, crypto).Some?
        <==> && Env.Lookup(env, "NODE_ENV") != Some("development")
             && !Env.Falsy(Env.Lookup(env, "TURN_SECRET"))
             && !Env.Falsy(Env.Lookup(env, "HOURS_TURN_CREDENTIAL_VALID"))
  {
  }

  /** Issued credentials are signed with the `TURN_SECRET` of the environment. */
  lemma CredentialsSignedWithSecret(env: Env.Environment, name: string, nowMillis: nat, crypto: Token.Crypto)
    requires GenerateTurnCredentials(env, name, nowMillis, crypto).Some?
    ensures var c := GenerateTurnCredentials(env, name, nowMillis, crypto).value;
      && "TURN_SECRET" in env
      && c.password == crypto.base64(crypto.hmacSha1(env["TURN_SECRET"], c.username))
      && Token.AfterFirst(c.username, ':') == name
  {
  }
}
