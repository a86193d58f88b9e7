/** The Microsoft/Minecraft authentication flow of client/auth.rs: the profile
    record, the progress states, the timeout, and the `Authentication` object
    that advances through get_access_info, authenticate_ms and
    authenticate_minecraft. Every network request to the identity provider is a
    parameter holding its outcome. */
module Auth {
  import opened Wrappers
  import opened Uuids

  /** A JSON value copied through without inspection (skins, capes). */
  datatype JsonValue = JsonValue(text: string)

  /** The device-code login data kept after the first step (`VerificationInfo`). */
  datatype VerificationInfo = VerificationInfo(code: string, uri: string, device: string, expiration: U64, interval: U64)

  /** The provider's device-code reply and request (`DeviceCodeResponse`). */
  datatype DeviceCodeResponse = DeviceCodeResponse(userCode: string, verificationUri: string, deviceCode: string, expiresIn: U64, interval: U64)

  /** A Microsoft access token with its refresh token and expiry (`ExpiringValue<AccessTokenResponse>`). */
  datatype Msa = Msa(accessToken: string, refreshToken: string, expiresAt: U64)

  /** A Minecraft session token with its expiry (`MinecraftTokenResponse`). */
  datatype MinecraftToken = MinecraftToken(accessToken: string, expiresAt: U64)

  /** The provider's profile reply (`ProfileResponse`). */
  datatype ProfileResponse = ProfileResponse(id: Uuid, name: string, skins: seq<JsonValue>, capes: seq<JsonValue>)

  datatype MinecraftProfile = MinecraftProfile(
    uuid: Uuid, username: string,
    skins: Option<seq<JsonValue>>, capes: Option<seq<JsonValue>>,
    authenticated: bool)

  /** How a controller's instances log in (`AuthProtocol` of client/mod.rs):
      offline under a username, or with a Microsoft session token, its
      Microsoft token and the profile. */
  datatype AuthProtocol = Offline(username: string) | Microsoft(token: string, msa: Msa, profile: MinecraftProfile)

  // ----- Profiles -----

  /** `From<&ProfileResponse> for MinecraftProfile`. */
  function FromProfileResponse(p: ProfileResponse): (r: MinecraftProfile)
    ensures r.authenticated
    ensures r.uuid == p.id && r.username == p.name
    ensures r.skins == Some(p.skins) && r.capes == Some(p.capes)
  {
    MinecraftProfile(p.id, p.name, Some(p.skins), Some(p.capes), true)
  }

  /** The name hashed into an offline player's UUID. */
  function OfflineSeed(username: string): (s: string)
    ensures |s| == |username| + 14
    ensures s[..14] == "OfflinePlayer:"
    ensures s[14..] == username
  {
    "OfflinePlayer:" + username
  }

  /** `with_username`: an unauthenticated profile whose UUID is the name-based
      (version 3) UUID of `OfflinePlayer:<username>`; the hash is `nameUuid`. */
  function WithUsername(username: string, nameUuid: string -> Uuid): (r: MinecraftProfile)
    ensures !r.authenticated && r.username == username
    ensures r.uuid == nameUuid(OfflineSeed(username))
    ensures r.skins.None? && r.capes.None?
  {
    MinecraftProfile(nameUuid(OfflineSeed(username)), username, None, None, false)
  }

  /** Distinct usernames are hashed from distinct seeds, so the offline UUID of
      a name depends on that name alone. */
  lemma OfflineSeedInjective(a: string, b: string)
    ensures OfflineSeed(a) == OfflineSeed(b) <==> a == b
  {
    if OfflineSeed(a) == OfflineSeed(b) {
      assert a == OfflineSeed(a)[14..];
    }
  }

  /** An offline profile is never mistaken for one the provider returned. */
  lemma OfflineIsNotOnline(username: string, nameUuid: string -> Uuid, p: ProfileResponse)
    ensures WithUsername(username, nameUuid) != FromProfileResponse(p)
  {
  }

  // ----- Device codes -----

  /** `From<&VerificationInfo> for DeviceCodeResponse`. */
  function ToDeviceCode(v: VerificationInfo): DeviceCodeResponse {
    DeviceCodeResponse(v.code, v.uri, v.device, v.expiration, v.interval)
  }

  /** The opposite conversion, made by get_access_info from the provider's reply. */
  function FromDeviceCode(c: DeviceCodeResponse): VerificationInfo {
    VerificationInfo(c.userCode, c.verificationUri, c.deviceCode, c.expiresIn, c.interval)
  }

  /** The two conversions lose nothing in either direction. */
  lemma DeviceCodeRoundTrip(v: VerificationInfo, c: DeviceCodeResponse)
    ensures FromDeviceCode(ToDeviceCode(v)) == v
    ensures ToDeviceCode(FromDeviceCode(c)) == c
  {
  }

  // ----- Progress states -----

  datatype AuthState = Working(message: string) | Success(token: string) | Error(message: string)

  const SuccessPrefix: string := "Got Minecraft session token: ["

  /** `Display for AuthState`. */
  function Display(s: AuthState): (r: string)
    ensures !s.Success? ==> r == s.message
    ensures s.Success? ==> TokenInDisplay(r) == Some(s.token)
  {
    match s
    case Working(m) => m
    case Success(t) =>
      var text := SuccessPrefix + t + "]";
      assert text[..|SuccessPrefix|] == SuccessPrefix;
      assert text[|SuccessPrefix|..|text| - 1] == t;
      text
    case Error(m) => m
  }

  /** Reads a session token back out of a displayed success state. */
  function TokenInDisplay(text: string): Option<string> {
    if |text| >= |SuccessPrefix| + 1 && text[..|SuccessPrefix|] == SuccessPrefix && text[|text| - 1] == ']'
    then Some(text[|SuccessPrefix|..|text| - 1])
    else None
  }

  /** `state_is_final`. */
  predicate IsFinal(s: AuthState): (r: bool)
    ensures r <==> !s.Working?
  {
    s.Success? || s.Error?
  }

  // ----- Timeouts -----

  const U64Modulus: nat := 0x1_0000_0000_0000_0000
  const NanosPerSecond: nat := 1_000_000_000

  /** `std::time::Duration`: whole seconds and a sub-second part in nanoseconds. */
  datatype Duration = Duration(secs: U64, nanos: nat)

  predicate ValidDuration(d: Duration) {
    d.nanos < NanosPerSecond
  }

  /** `Duration::from_millis`. */
  function DurationFromMillis(millis: U64): (d: Duration)
    ensures ValidDuration(d)
  {
    Duration(millis / 1000, (millis % 1000) * 1_000_000)
  }

  /** `Duration::as_millis` (a 128-bit result, exact here). */
  function AsMillis(d: Duration): nat {
    d.secs * 1000 + d.nanos / 1_000_000
  }

  /** The user-verification timeout in milliseconds (`AuthTimeout`). */
  datatype AuthTimeout = AuthTimeout(millis: U64)

  /** `From<Duration> for AuthTimeout`: `as_millis() as u64`, which keeps the low
      64 bits of the millisecond count. */
  function TimeoutFromDuration(d: Duration): (t: AuthTimeout)
    ensures AsMillis(d) < U64Modulus ==> t.millis == AsMillis(d)
  {
    AuthTimeout(AsMillis(d) % U64Modulus)
  }

  /** `AuthTimeout::duration`. */
  function TimeoutDuration(t: AuthTimeout): (d: Duration)
    ensures ValidDuration(d)
  {
    DurationFromMillis(t.millis)
  }

  /** `Default for AuthTimeout`: 90 seconds. */
  function DefaultTimeout(): AuthTimeout {
    TimeoutFromDuration(Duration(90, 0))
  }

  /** A timeout survives the trip through `Duration` unchanged, and the seconds
      handed to the provider are its whole seconds. */
  lemma {:induction false} TimeoutDurationRoundTrip(t: AuthTimeout)
    ensures TimeoutFromDuration(TimeoutDuration(t)) == t
    ensures TimeoutDuration(t).secs == t.millis / 1000
  {
    var d := TimeoutDuration(t);
    assert d.nanos / 1_000_000 == t.millis % 1000;
    assert AsMillis(d) == t.millis;
  }

  lemma DefaultTimeoutIsNinetySeconds()
    ensures DefaultTimeout().millis == 90_000
    ensures TimeoutDuration(DefaultTimeout()).secs == 90
  {
  }

  // ----- Token refresh -----

  /** `refresh_ms`: the provider's reply is `outcome`; the result is that reply
      and the one state passed to the callback. */
  function RefreshMs(msa: Msa, outcome: Result<Msa, string>): (r: (Result<Msa, string>, AuthState))
    ensures r.0 == outcome
    ensures IsFinal(r.1) <==> outcome.Err?
    ensures outcome.Ok? ==> r.1 == Working("Successfully refreshed MSA token")
    ensures outcome.Err? ==>
      r.1 == Error("Failed to refresh MSA token. Re-authentication is required. (" + outcome.error + ")")
  {
    match outcome
    case Ok(m) => (Ok(m), Working("Successfully refreshed MSA token"))
    case Err(e) => (Err(e), Error("Failed to refresh MSA token. Re-authentication is required. (" + e + ")"))
  }

  // ----- The authenticator -----

  const StartedMessage: string := "Authentication started, waiting for requests"

  /** `Authentication`: the state of one login in progress. Each step only fills
      the field it obtains, so the fields fill in order. */
  class Authentication {
    var credentials: Option<VerificationInfo>
    var msa: Option<Msa>
    var accessToken: Option<MinecraftToken>
    var profile: Option<MinecraftProfile>
    var state: AuthState

    /** A later credential is only present when the one it was obtained with is. */
    predicate Valid()
      reads this
    {
      (msa.Some? ==> credentials.Some?) &&
      (accessToken.Some? ==> msa.Some?) &&
      (profile.Some? ==> accessToken.Some?)
    }

    /** `Authentication::new`. */
    constructor ()
      ensures Valid()
      ensures credentials.None? && msa.None? && accessToken.None? && profile.None?
      ensures state == Working(StartedMessage)
    {
      credentials := None;
      msa := None;
      accessToken := None;
      profile := None;
      state := Working(StartedMessage);
    }

    /** `get_access_info`: asks the provider for a device code (`reply`) and
        keeps it as the credentials; `emitted` are the states passed to the
        callback, the last of them the state left behind. */
    method GetAccessInfo(reply: Result<DeviceCodeResponse, string>) returns (emitted: seq<AuthState>)
      requires Valid()
      modifies this
      ensures Valid()
      ensures emitted == [Working("Getting access info..."), state]
      ensures reply.Ok? ==>
        credentials == Some(FromDeviceCode(reply.value)) && state == Working("Got MS access credentials.")
      ensures reply.Err? ==> credentials == old(credentials) && state == Error(reply.error)
      ensures msa == old(msa) && accessToken == old(accessToken) && profile == old(profile)
    {
      state := Working("Getting access info...");
      emitted := [state];
      match reply {
        case Ok(code) =>
          credentials := Some(FromDeviceCode(code));
          state := Working("Got MS access credentials.");
        case Err(e) =>
          state := Error(e);
      }
      emitted := emitted + [state];
    }

    /** `authenticate_ms`: with credentials present, sends `request` (the kept
        device code with the timeout's whole seconds as its expiry) and keeps
        the Microsoft token in `reply`; without them, fails. */
    method AuthenticateMs(timeout: AuthTimeout, reply: Result<Msa, string>)
      returns (request: Option<DeviceCodeResponse>, emitted: seq<AuthState>)
      requires Valid()
      modifies this
      ensures Valid()
      ensures request.Some? <==> old(credentials).Some?
      ensures request.Some? ==>
        request.value == ToDeviceCode(old(credentials).value).(expiresIn := TimeoutDuration(timeout).secs)
      ensures old(credentials).None? ==>
        emitted == [Working("Waiting for User authentication..."), state] &&
        state == Error("No access info to authenticate with") && msa == old(msa)
      ensures old(credentials).Some? ==>
        emitted == [Working("Waiting for User authentication..."),
                    Working("Authenticating Microsoft account..."), state]
      ensures old(credentials).Some? && reply.Ok? ==>
        msa == Some(reply.value) &&
        state == Working("Got Microsoft access token, successfully authenticated!")
      ensures old(credentials).Some? && reply.Err? ==> msa == old(msa) && state == Error(reply.error)
      ensures credentials == old(credentials) && accessToken == old(accessToken) && profile == old(profile)
    {
      state := Working("Waiting for User authentication...");
      emitted := [state];
      match credentials {
        case Some(info) =>
          state := Working("Authenticating Microsoft account...");
          emitted := emitted + [state];
          request := Some(ToDeviceCode(info).(expiresIn := TimeoutDuration(timeout).secs));
          match reply {
            case Ok(m) =>
              msa := Some(m);
              state := Working("Got Microsoft access token, successfully authenticated!");
            case Err(e) =>
              state := Error(e);
          }
        case None =>
          request := None;
          state := Error("No access info to authenticate with");
      }
      emitted := emitted + [state];
    }

    /** `authenticate_minecraft`: with a Microsoft token present, trades its
        access token for a session token (`tokenReply`) and then fetches the
        profile (`profileReply`). A failed profile fetch is overwritten by the
        success state, so the step succeeds whenever the session token does. */
    method AuthenticateMinecraft(tokenReply: Result<MinecraftToken, string>, profileReply: Result<ProfileResponse, string>)
      returns (tokenRequest: Option<string>, profileRequest: Option<string>, emitted: seq<AuthState>)
      requires Valid()
      modifies this
      ensures Valid()
      ensures tokenRequest == (if old(msa).Some? then Some(old(msa).value.accessToken) else None)
      ensures profileRequest ==
        (if old(msa).Some? && tokenReply.Ok? then Some(tokenReply.value.accessToken) else None)
      ensures old(msa).None? ==>
        emitted == [Working("Waiting for Microsoft authentication..."), state] &&
        state == Error("No MSA credentials to authenticate with")
      ensures old(msa).Some? ==>
        emitted == [Working("Waiting for Microsoft authentication..."),
                    Working("Authenticating Minecraft session..."), state]
      ensures old(msa).Some? && tokenReply.Ok? ==>
        state == Success(tokenReply.value.accessToken) && accessToken == Some(tokenReply.value) &&
        profile == (if profileReply.Ok? then Some(FromProfileResponse(profileReply.value)) else old(profile))
      ensures old(msa).Some? && tokenReply.Err? ==> state == Error(tokenReply.error)
      ensures (old(msa).None? || tokenReply.Err?) ==>
        accessToken == old(accessToken) && profile == old(profile)
      ensures credentials == old(credentials) && msa == old(msa)
    {
      state := Working("Waiting for Microsoft authentication...");
      emitted := [state];
      profileRequest := None;
      match msa {
        case Some(m) =>
          state := Working("Authenticating Minecraft session...");
          emitted := emitted + [state];
          tokenRequest := Some(m.accessToken);
          match tokenReply {
            case Ok(token) =>
              state := Working("Got session token, retrieving profile...");
              profileRequest := Some(token.accessToken);
              match profileReply {
                case Ok(p) =>
                  state := Working("Got profile: " + p.id.text);
                  profile := Some(FromProfileResponse(p));
                case Err(e) =>
                  state := Error(e);
              }
              state := Success(token.accessToken);
              accessToken := Some(token);
            case Err(e) =>
              state := Error(e);
          }
        case None =>
          tokenRequest := None;
          state := Error("No MSA credentials to authenticate with");
      }
      emitted := emitted + [state];
    }
  }

  /** The three steps run in order from a fresh authenticator (the scenario of
      the module's full-process test): when the provider grants every request,
      the login ends final, in success, holding the session token and the
      profile, and the seconds granted to the user are the default 90. */
  method FullProcess(code: DeviceCodeResponse, m: Msa, token: MinecraftToken, p: ProfileResponse)
    returns (auth: Authentication)
    ensures fresh(auth) && auth.Valid()
    ensures IsFinal(auth.state) && auth.state == Success(token.accessToken)
    ensures auth.accessToken == Some(token) && auth.profile == Some(FromProfileResponse(p))
    ensures auth.msa == Some(m) && auth.credentials == Some(FromDeviceCode(code))
  {
    auth := new Authentication();
    var _ := auth.GetAccessInfo(Ok(code));
    var request, _ := auth.AuthenticateMs(DefaultTimeout(), Ok(m));
    assert request.value.expiresIn == 90;
    var _, _, _ := auth.AuthenticateMinecraft(Ok(token), Ok(p));
  }
}
