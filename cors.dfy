/**
 * The origin check server.js hands to the CORS middleware for its HTTP routes, and the
 * list of allowed origins it is built from.
 */
module Cors {
  import opened Wrappers

  const LOCALHOST_3000 := "http://localhost:3000"
  const LOCALHOST_3001 := "http://localhost:3001"
  const NOT_ALLOWED := "Not allowed by CORS"

  /** The origin callback either accepts, or refuses with an error message. */
  datatype Decision = Allow | Reject(message: string)

  /** The deployment mode: an unset or empty `mode` variable means "dev". */
  function Mode(modeEnv: Option<string>): string
  {
    if modeEnv.None? || modeEnv.value == "" then "dev" else modeEnv.value
  }

  /**
   * `allowedOrigins`: in "pro" mode the local front end plus the two production URLs
   * read from the environment (each possibly `undefined`), otherwise the two local front ends.
   */
  function AllowedOrigins(modeEnv: Option<string>, userPanelUrl: Option<string>, adminPanelUrl: Option<string>)
    : seq<Option<string>>
  {
    if Mode(modeEnv) == "pro" then [Some(LOCALHOST_3000), userPanelUrl, adminPanelUrl]
    else [Some(LOCALHOST_3000), Some(LOCALHOST_3001)]
  }

  /**
   * The `origin` callback: a missing (or empty, hence falsy) origin passes, as does one
   * listed in `allowed`; anything else is refused with the fixed message.
   */
  function CheckOrigin(origin: Option<string>, allowed: seq<Option<string>>): Decision
  {
    if origin.None? || origin.value == "" then Allow
    else if origin in allowed then Allow
    else Reject(NOT_ALLOWED)
  }

  /** Outside "pro" mode exactly the two local front ends (and non-browser clients) pass. */
  lemma DevOrigins(modeEnv: Option<string>, user: Option<string>, adminUrl: Option<string>, origin: string)
    requires Mode(modeEnv) != "pro"
    ensures CheckOrigin(Some(origin), AllowedOrigins(modeEnv, user, adminUrl)).Allow? <==>
              origin in {"", LOCALHOST_3000, LOCALHOST_3001}
  {
  }

  /**
   * In "pro" mode the local admin front end is refused unless one of the production URLs
   * happens to equal it, and an unset production URL admits nothing.
   */
  lemma ProOrigins(modeEnv: Option<string>, user: Option<string>, adminUrl: Option<string>, origin: string)
    requires Mode(modeEnv) == "pro"
    ensures CheckOrigin(Some(origin), AllowedOrigins(modeEnv, user, adminUrl)).Allow? <==>
              origin == "" || origin == LOCALHOST_3000 || user == Some(origin) || adminUrl == Some(origin)
  {
  }

  /**
   * Without a `mode` variable, or with an empty one, the server runs in "dev" mode with the
   * two local front ends allowed, whatever the production URLs are.
   */
  lemma DefaultModeOrigins(user: Option<string>, adminUrl: Option<string>)
    ensures AllowedOrigins(None, user, adminUrl) == AllowedOrigins(Some(""), user, adminUrl)
              == [Some(LOCALHOST_3000), Some(LOCALHOST_3001)]
  {
  }

  /** A request without an origin (a non-browser client) passes whatever the list holds. */
  lemma NonBrowserOrigin(allowed: seq<Option<string>>)
    ensures CheckOrigin(None, allowed) == Allow
  {
  }

  /** Every refusal carries the fixed CORS error message. */
  lemma RefusalMessage(origin: Option<string>, allowed: seq<Option<string>>)
    ensures !CheckOrigin(origin, allowed).Allow? ==> CheckOrigin(origin, allowed) == Reject(NOT_ALLOWED)
  {
  }
}
