/** The credential cache of api/auth.rs (`login key -> cached Microsoft
    login`), its expiry test, and the progress record sent to the front end. */
module AuthCaches {
  import opened Wrappers
  import opened Uuids
  import opened Auth

  /** A cached login (`MinecraftAuthCache`): the session token, its expiry in
      seconds since the Unix epoch, the Microsoft token and the profile. */
  datatype MinecraftAuthCache = MinecraftAuthCache(accessToken: string, expiration: U64, msa: Msa, profile: MinecraftProfile)

  /** `has_expired`, with the current time in seconds since the epoch as `now`:
      a record is still valid during its expiration second. */
  predicate HasExpired(cache: MinecraftAuthCache, now: U64) {
    cache.expiration < now
  }

  /** Expiry is strict, and once a record has expired it stays expired. */
  lemma {:induction false} ExpiryIsMonotone(cache: MinecraftAuthCache, now: U64, later: U64)
    ensures !HasExpired(cache, cache.expiration)
    ensures HasExpired(cache, now) && now <= later ==> HasExpired(cache, later)
  {
  }

  // ----- Progress events -----

  /** `AuthProgress`: the payload of an `auth-progress-update` event. */
  datatype AuthProgress = AuthProgress(state: string, message: string)

  /** `From<&AuthState> for AuthProgress`. */
  function ProgressOf(s: AuthState): (p: AuthProgress)
    ensures s.Working? ==> p.state == "Working"
    ensures s.Success? ==> p.state == "Success" && p.message == s.token
    ensures s.Error? ==> p.state == "Error"
    ensures !s.Success? ==> p.message == s.message
  {
    match s
    case Working(m) => AuthProgress("Working", m)
    case Success(t) => AuthProgress("Success", t)
    case Error(m) => AuthProgress("Error", m)
  }

  /** Reads a progress record back into the state it reports. */
  function StateOf(p: AuthProgress): Option<AuthState> {
    match p.state
    case "Working" => Some(Working(p.message))
    case "Success" => Some(Success(p.message))
    case "Error" => Some(Error(p.message))
    case _ => None
  }

  /** The progress record loses nothing: the state is recovered from it. */
  lemma ProgressRoundTrip(s: AuthState)
    ensures StateOf(ProgressOf(s)) == Some(s)
  {
  }

  // ----- The cache -----

  /** `AuthCache`. */
  class AuthCache {
    var entries: map<string, MinecraftAuthCache>

    /** Some cached login belongs to this Minecraft UUID. */
    predicate Caches(uuid: Uuid)
      reads this
    {
      exists key :: key in entries && entries[key].profile.uuid == uuid
    }

    /** `AuthCache::from_file` with the parsed file content given. */
    constructor (loaded: map<string, MinecraftAuthCache>)
      ensures entries == loaded
    {
      entries := loaded;
    }

    /** `get_from_mc_uuid`: the first record met, in the map's unspecified
        order, whose profile has that UUID. */
    method GetFromMcUuid(uuid: Uuid) returns (r: Option<MinecraftAuthCache>)
      ensures r.Some? <==> Caches(uuid)
      ensures r.Some? ==> r.value.profile.uuid == uuid && r.value in entries.Values
    {
      var rest := entries.Keys;
      while rest != {}
        invariant rest <= entries.Keys
        invariant forall key :: key in entries && key !in rest ==> entries[key].profile.uuid != uuid
        decreases rest
      {
        var key :| key in rest;
        if entries[key].profile.uuid == uuid {
          return Some(entries[key]);
        }
        rest := rest - {key};
      }
      return None;
    }

    /** `get_key_from_mc_uuid`: the login key of the first record met whose
        profile has that UUID. */
    method GetKeyFromMcUuid(uuid: Uuid) returns (r: Option<string>)
      ensures r.Some? <==> Caches(uuid)
      ensures r.Some? ==> r.value in entries && entries[r.value].profile.uuid == uuid
    {
      var rest := entries.Keys;
      while rest != {}
        invariant rest <= entries.Keys
        invariant forall key :: key in entries && key !in rest ==> entries[key].profile.uuid != uuid
        decreases rest
      {
        var key :| key in rest;
        if entries[key].profile.uuid == uuid {
          return Some(key);
        }
        rest := rest - {key};
      }
      return None;
    }
  }
}
