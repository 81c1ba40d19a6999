/**
 * Token resolution (`get_token`, the constructor's `token or get_token()`) and `store_token`.
 * The process environment and the OS keyring are inputs: the value of `YNAB_API_TOKEN`, and
 * the state of the keyring entry for the pair ("ynab-mcp-server", "api_token").
 */
module Credentials {
  import opened Wrappers
  import opened PyJson

  const KeyringService: string := "ynab-mcp-server"
  const KeyringUser: string := "api_token"

  const TokenNotFoundMessage: string :=
    "YNAB API token not found. Set YNAB_API_TOKEN environment variable "
    + "or run 'ynab-mcp store-token' to save it securely."

  /** What the keyring offers: the package missing, a backend that raises, or a stored entry. */
  datatype Keyring =
    | NotInstalled
    | Failing(reason: string)
    | Installed(password: Option<string>)

  /** The keyring's answer to `get_password`, with every failure read as "no token". */
  function KeyringLookup(keyring: Keyring): Option<string> {
    match keyring
    case Installed(p) => p
    case _ => None
  }

  /**
   * `get_token`: a non-empty environment value first, then a non-empty keyring entry;
   * otherwise the `ValueError`. Keyring failures never surface.
   */
  function GetToken(env: Option<string>, keyring: Keyring): (r: Result<string, Exception>)
    ensures Given(env) ==> r == Success(env.value)
    ensures !Given(env) ==> (r.Success? <==> keyring.Installed? && Given(keyring.password))
    ensures !Given(env) && r.Success? ==> r.value == keyring.password.value
    ensures r.Success? ==> r.value != ""
    ensures r.Failure? ==> r.error == ValueError(TokenNotFoundMessage)
  {
    if Given(env) then Success(env.value)
    else
      var stored := KeyringLookup(keyring);
      if Given(stored) then Success(stored.value)
      else Failure(ValueError(TokenNotFoundMessage))
  }

  /** An unavailable or failing keyring resolves exactly as an empty one. */
  lemma {:induction false} KeyringFailuresAreNoToken(env: Option<string>, reason: string)
    ensures GetToken(env, NotInstalled) == GetToken(env, Installed(None))
    ensures GetToken(env, Failing(reason)) == GetToken(env, Installed(None))
  {
  }

  /** With both sources set, the environment wins whatever the keyring holds. */
  lemma {:induction false} EnvironmentBeforeKeyring(env: string, keyring: Keyring)
    requires env != ""
    ensures GetToken(Some(env), keyring) == Success(env)
  {
  }

  /** `token or get_token()`: a non-empty explicit token is used as it is. */
  function ClientToken(explicit: Option<string>, env: Option<string>, keyring: Keyring): (r: Result<string, Exception>)
    ensures Given(explicit) ==> r == Success(explicit.value)
    ensures !Given(explicit) ==> r == GetToken(env, keyring)
    ensures r.Success? ==> r.value != ""
  {
    if Given(explicit) then Success(explicit.value) else GetToken(env, keyring)
  }

  /** What `store_token` returns and prints, and the keyring afterwards. */
  datatype StoreOutcome = StoreOutcome(stored: bool, printed: Option<string>, keyring: Keyring)

  /** `store_token`: never raises; a failure is `False` plus a printed message. */
  function StoreToken(token: string, keyring: Keyring): (r: StoreOutcome)
    ensures r.stored <==> keyring.Installed?
    ensures r.stored ==> r.keyring == Installed(Some(token)) && r.printed == None
    ensures !r.stored ==> r.keyring == keyring && r.printed.Some?
  {
    match keyring
    case NotInstalled =>
      StoreOutcome(false, Some("Error: keyring package not installed. Install with: pip install keyring"), keyring)
    case Failing(reason) =>
      StoreOutcome(false, Some("Error storing token: " + reason), keyring)
    case Installed(_) =>
      StoreOutcome(true, None, Installed(Some(token)))
  }

  /** A token that was stored is the one resolution finds, unless the environment overrides it. */
  lemma {:induction false} StoredTokenIsResolved(token: string, keyring: Keyring, env: Option<string>)
    requires token != "" && !Given(env)
    requires StoreToken(token, keyring).stored
    ensures GetToken(env, StoreToken(token, keyring).keyring) == Success(token)
  {
  }
}
