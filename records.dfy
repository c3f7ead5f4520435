/**
 * The JSON objects the handlers keep between visits: the saved tokens and the
 * pending device login. Serialisation is not modelled; a stored object is a
 * map from key to value.
 */
module Records {
  import opened Wrappers
  import opened Tidal

  datatype Value = Text(s: string) | Null

  type Record = map<string, Value>

  const TOKEN_TYPE := "token_type"
  const ACCESS_TOKEN := "access_token"
  const REFRESH_TOKEN := "refresh_token"
  const DEVICE_CODE := "device_code"
  const USER_CODE := "user_code"
  const VERIFICATION_URI := "verification_uri"
  const VERIFICATION_URI_COMPLETE := "verification_uri_complete"

  /** Python's truth value of a dict: an empty one is false. */
  predicate Truthy(r: Record) {
    r != map[]
  }

  function OptionalText(o: Option<string>): Value {
    match o
    case Some(s) => Text(s)
    case None => Null
  }

  /** The keys `tokens[...]` reads; without them the lookup raises `KeyError`. */
  predicate HasTokenKeys(r: Record) {
    TOKEN_TYPE in r && ACCESS_TOKEN in r
  }

  /** The keys `pending[...]` reads; without them the lookup raises `KeyError`. */
  predicate HasPendingKeys(r: Record) {
    DEVICE_CODE in r && USER_CODE in r && VERIFICATION_URI in r && VERIFICATION_URI_COMPLETE in r
  }

  /** The three arguments handed to `load_oauth_session`. */
  datatype SessionArgs = SessionArgs(tokenType: Value, accessToken: Value, refreshToken: Value)

  /** `tokens["token_type"], tokens["access_token"], tokens.get("refresh_token")`. */
  function SessionArgsOf(r: Record): SessionArgs
    requires HasTokenKeys(r)
  {
    SessionArgs(r[TOKEN_TYPE], r[ACCESS_TOKEN], if REFRESH_TOKEN in r then r[REFRESH_TOKEN] else Null)
  }

  /** The record saved once a device login is confirmed. */
  function TokensRecord(t: SessionTokens): (r: Record)
    ensures r.Keys == {TOKEN_TYPE, ACCESS_TOKEN, REFRESH_TOKEN}
    ensures Truthy(r) && HasTokenKeys(r)
    ensures SessionArgsOf(r) == SessionArgs(Text(t.tokenType), Text(t.accessToken), OptionalText(t.refreshToken))
  {
    map[TOKEN_TYPE := Text(t.tokenType), ACCESS_TOKEN := Text(t.accessToken), REFRESH_TOKEN := OptionalText(t.refreshToken)]
  }

  /** tidalapi's `LinkLogin`, rebuilt from a pending record on the next visit. */
  datatype LinkLogin = LinkLogin(deviceCode: Value, userCode: Value, verificationUri: Value,
                                 verificationUriComplete: Value, expiresIn: int, interval: int)

  function LinkLoginOf(r: Record): LinkLogin
    requires HasPendingKeys(r)
  {
    LinkLogin(r[DEVICE_CODE], r[USER_CODE], r[VERIFICATION_URI], r[VERIFICATION_URI_COMPLETE], 300, 2)
  }

  /** The record saved when a new device login starts. */
  function PendingRecord(info: LoginInfo): (r: Record)
    ensures r.Keys == {DEVICE_CODE, USER_CODE, VERIFICATION_URI, VERIFICATION_URI_COMPLETE}
    ensures Truthy(r) && HasPendingKeys(r)
    ensures LinkLoginOf(r) == LinkLogin(Text(info.deviceCode), Text(info.userCode), Text(info.verificationUri),
                                        Text(info.verificationUriComplete), 300, 2)
  {
    map[DEVICE_CODE := Text(info.deviceCode), USER_CODE := Text(info.userCode),
        VERIFICATION_URI := Text(info.verificationUri), VERIFICATION_URI_COMPLETE := Text(info.verificationUriComplete)]
  }
}
