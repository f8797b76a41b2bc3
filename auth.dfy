/** The HTTP Basic credential check that gates tool invocation.

    The expected username and password are read from the environment at
    startup; here they are parameters. The placeholder values used when the
    environment does not set them are kept as constants.
 */
module Auth {
  import opened Dicts

  /** Used when `MCP_AUTH_USER` is not set: an insecure placeholder. */
  const DefaultAuthUser: string := "yourusername"
  /** Used when `MCP_AUTH_PASS` is not set: an insecure placeholder. */
  const DefaultAuthPass: string := "yourpassword"

  const StatusUnauthorized: int := 401

  datatype Credentials = Credentials(username: string, password: string)

  datatype AuthResult =
    | Authenticated(username: string)
    /** the HTTP error raised: status, detail and extra response headers */
    | Rejected(status: int, detail: string, headers: Items<string>)

  /** The challenge sent back on a failed check. */
  function Challenge(): AuthResult {
    Rejected(StatusUnauthorized, "Invalid credentials", [("WWW-Authenticate", "Basic")])
  }

  /** `verify_credentials`: accepts, yielding the username, exactly when both
      the username and the password equal the configured ones; any mismatch
      is the 401 Basic challenge. */
  function VerifyCredentials(creds: Credentials, authUser: string, authPass: string): (r: AuthResult)
    ensures r.Authenticated? <==> creds.username == authUser && creds.password == authPass
    ensures r.Authenticated? ==> r.username == creds.username
    ensures r.Rejected? ==> r == Challenge() && r.status == 401
  {
    if !(creds.username == authUser && creds.password == authPass) then
      Challenge()
    else
      Authenticated(creds.username)
  }

  /** A password that differs from the configured one in a single character
      is rejected even when the username matches, and likewise for the
      username. */
  lemma OneCharacterOffIsRejected(creds: Credentials, authUser: string, authPass: string, i: nat)
    requires
      || (i < |creds.password| == |authPass| && creds.password[i] != authPass[i])
      || (i < |creds.username| == |authUser| && creds.username[i] != authUser[i])
    ensures VerifyCredentials(creds, authUser, authPass) == Challenge()
  {
  }
}
