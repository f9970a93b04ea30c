/** `storeSession` of the authentication engine: one Redis transaction that
    records the hashed access token in the user's session set and caches the
    user snapshot, each with a time to live, and one `$push` of a session
    record onto the user document. The two writes are independent; whether
    each of them succeeds is an input. */
module SessionStore {
  import opened Wrappers
  import opened Http
  import Crypto
  import Device
  import Sessions
  import Users

  const STORE_FAILURE := "Failed to store session"

  /** Seconds in a day: the TTL settings are multiplied by `24 * 60 * 60`. */
  const DAY_SECONDS := 24 * 60 * 60

  const SESSION_SUFFIX := ":session"

  /** `${id}:session`. */
  function SessionKey(id: Users.UserId): (k: string)
    ensures |k| == 32
  {
    id + SESSION_SUFFIX
  }

  /** `${id}`. */
  function SnapshotKey(id: Users.UserId): (k: string)
    ensures |k| == 24
  {
    id
  }

  predicate IsSessionKey(k: string) {
    |k| >= |SESSION_SUFFIX| && k[|k| - |SESSION_SUFFIX|..] == SESSION_SUFFIX
  }

  /** The session-set key of one user is never the snapshot key of any user,
      and distinct users have distinct session sets. */
  lemma KeysDisjoint(a: Users.UserId, b: Users.UserId)
    ensures SessionKey(a) != SnapshotKey(b)
    ensures IsSessionKey(SessionKey(a)) && !IsSessionKey(SnapshotKey(b))
    ensures SessionKey(a) == SessionKey(b) ==> a == b
  {
    assert SessionKey(a)[24..] == SESSION_SUFFIX;
    assert SnapshotKey(b)[16] != ':' by {
      assert Crypto.IsHexChar(b[16]);
    }
    if SessionKey(a) == SessionKey(b) {
      assert a == SessionKey(a)[..24] && b == SessionKey(b)[..24];
    }
  }

  /** A Redis value: a set (SADD) or a JSON document (JSON.SET). */
  datatype RedisValue = Members(members: set<Crypto.Digest>) | Json(doc: Users.UserView)

  /** Session sets live under session keys and nothing else does. */
  predicate WellTyped(keys: map<string, RedisValue>) {
    forall k :: k in keys ==> (keys[k].Members? <==> IsSessionKey(k))
  }

  /** SADD key member. */
  function Sadd(keys: map<string, RedisValue>, key: string, member: Crypto.Digest): (r: map<string, RedisValue>)
    requires key in keys ==> keys[key].Members?
    ensures r.Keys == keys.Keys + {key}
    ensures r[key].Members? && member in r[key].members
  {
    keys[key := Members((if key in keys then keys[key].members else {}) + {member})]
  }

  /** EXPIRE key seconds: no effect on a missing key; a timeout that is not
      positive deletes the key, as Redis does. `ttl` holds the timeout set on
      each key, in seconds. */
  function Expire(keys: map<string, RedisValue>, ttl: map<string, int>, key: string, seconds: int)
    : (r: (map<string, RedisValue>, map<string, int>))
    ensures key !in keys ==> r == (keys, ttl)
    ensures key in keys && seconds <= 0 ==> key !in r.0 && key !in r.1
    ensures key in keys && seconds > 0 ==> r.0 == keys && r.1 == ttl[key := seconds]
    ensures forall k :: k != key ==> (k in r.0 <==> k in keys) && (k in r.1 <==> k in ttl)
  {
    if key !in keys then (keys, ttl)
    else if seconds <= 0 then (keys - {key}, ttl - {key})
    else (keys, ttl[key := seconds])
  }

  /** The Redis state after the four queued commands. */
  function SessionBatch(keys: map<string, RedisValue>, ttl: map<string, int>, id: Users.UserId,
                        token: Crypto.Digest, user: Users.UserView, accessSeconds: int, refreshSeconds: int)
    : (r: (map<string, RedisValue>, map<string, int>))
    requires WellTyped(keys)
    ensures WellTyped(r.0)
  {
    KeysDisjoint(id, id);
    var k1 := Sadd(keys, SessionKey(id), token);
    assert WellTyped(k1);
    var k2 := k1[SnapshotKey(id) := Json(user)];
    assert WellTyped(k2);
    var (k3, t3) := Expire(k2, ttl, SessionKey(id), accessSeconds);
    assert WellTyped(k3);
    Expire(k3, t3, SnapshotKey(id), refreshSeconds)
  }

  /** With positive lifetimes, the session set gains exactly the digest of the
      token, the snapshot key holds the user, and each key carries its own TTL. */
  lemma SessionBatchEffect(keys: map<string, RedisValue>, ttl: map<string, int>, id: Users.UserId,
                           token: Crypto.Digest, user: Users.UserView, accessSeconds: int, refreshSeconds: int)
    requires WellTyped(keys) && accessSeconds > 0 && refreshSeconds > 0
    ensures var (k, t) := SessionBatch(keys, ttl, id, token, user, accessSeconds, refreshSeconds);
            SessionKey(id) in k && SnapshotKey(id) in k &&
            k[SessionKey(id)].members == (if SessionKey(id) in keys then keys[SessionKey(id)].members else {}) + {token} &&
            k[SnapshotKey(id)] == Json(user) &&
            SessionKey(id) in t && t[SessionKey(id)] == accessSeconds &&
            SnapshotKey(id) in t && t[SnapshotKey(id)] == refreshSeconds
  {
    KeysDisjoint(id, id);
  }

  /** Keys other than the user's two are left exactly as they were. */
  lemma SessionBatchFrame(keys: map<string, RedisValue>, ttl: map<string, int>, id: Users.UserId,
                          token: Crypto.Digest, user: Users.UserView, accessSeconds: int, refreshSeconds: int,
                          other: string)
    requires WellTyped(keys) && other != SessionKey(id) && other != SnapshotKey(id)
    ensures var (k, t) := SessionBatch(keys, ttl, id, token, user, accessSeconds, refreshSeconds);
            (other in k <==> other in keys) && (other in k ==> k[other] == keys[other]) &&
            (other in t <==> other in ttl) && (other in t ==> t[other] == ttl[other])
  {
  }

  /** A lifetime that is not positive deletes the key it was meant for. */
  lemma NonPositiveTtlDeletes(keys: map<string, RedisValue>, ttl: map<string, int>, id: Users.UserId,
                              token: Crypto.Digest, user: Users.UserView, accessSeconds: int, refreshSeconds: int)
    requires WellTyped(keys)
    ensures accessSeconds <= 0 ==> SessionKey(id) !in SessionBatch(keys, ttl, id, token, user, accessSeconds, refreshSeconds).0
    ensures refreshSeconds <= 0 ==> SnapshotKey(id) !in SessionBatch(keys, ttl, id, token, user, accessSeconds, refreshSeconds).0
  {
    KeysDisjoint(id, id);
  }

  /** The Redis keyspace the engine writes to. */
  class Redis {
    var keys: map<string, RedisValue>
    var ttl: map<string, int>

    ghost predicate Valid()
      reads this
    {
      WellTyped(keys)
    }

    constructor()
      ensures Valid() && keys == map[] && ttl == map[]
    {
      keys := map[];
      ttl := map[];
    }

    /** `nodeClient.multi()`, the four queued commands, then `exec()`: the
        transaction applies them together. */
    method ExecSessionBatch(id: Users.UserId, token: Crypto.Digest, user: Users.UserView,
                            accessSeconds: int, refreshSeconds: int)
      requires Valid()
      modifies this
      ensures Valid()
      ensures (keys, ttl) == SessionBatch(old(keys), old(ttl), id, token, user, accessSeconds, refreshSeconds)
    {
      var next := SessionBatch(keys, ttl, id, token, user, accessSeconds, refreshSeconds);
      keys, ttl := next.0, next.1;
    }
  }

  /** The parts of the engine `storeSession` uses: the key-value store, the
      user collection, `HMAC_SECRET` and the two TTL settings (`ACCESS_TTL`,
      `REFRESH_TTL`), both read here as days. */
  class Engine {
    const redis: Redis
    const users: Users.AccountStore
    const hmacSecret: string
    const accessTtl: int
    const refreshTtl: int

    constructor(redis: Redis, users: Users.AccountStore, hmacSecret: string, accessTtl: int, refreshTtl: int)
      ensures this.redis == redis && this.users == users && this.hmacSecret == hmacSecret
      ensures this.accessTtl == accessTtl && this.refreshTtl == refreshTtl
    {
      this.redis := redis;
      this.users := users;
      this.hmacSecret := hmacSecret;
      this.accessTtl := accessTtl;
      this.refreshTtl := refreshTtl;
    }

    /** `storeSession(req, Model, { user, accessToken })` at time `now` (ms);
      `location` is what `getLocationInfo(req)` gives, `redisOk` and `mongoOk`
      whether each write goes through. */
    method StoreSession(req: Device.Request, location: Device.Location, user: Users.UserView,
                        accessToken: string, now: int, redisOk: bool, mongoOk: bool)
      returns (r: Result<(), Failure>)
      requires redis.Valid() && users.Valid()
      modifies redis, users
      ensures redis.Valid() && users.Valid()
      ensures r.Err? <==> !(redisOk && mongoOk)
      ensures r.Err? ==> r.error == ApiError(STORE_FAILURE, INTERNAL_SERVER_ERROR)
      ensures (redis.keys, redis.ttl) ==
              if redisOk
              then SessionBatch(old(redis.keys), old(redis.ttl), user.id, Crypto.Hmac(accessToken, hmacSecret), user,
                                accessTtl * DAY_SECONDS, refreshTtl * DAY_SECONDS)
              else (old(redis.keys), old(redis.ttl))
      ensures users.accounts ==
              if mongoOk
              then Users.WithSession(old(users.accounts), user.id,
                     Sessions.NewSession(Crypto.Hmac(accessToken, hmacSecret), Device.GetDeviceInfo(req), location, req.ip, now))
              else old(users.accounts)
    {
      var hashedToken := Crypto.Hmac(accessToken, hmacSecret);
      if redisOk {
        redis.ExecSessionBatch(user.id, hashedToken, user, accessTtl * DAY_SECONDS, refreshTtl * DAY_SECONDS);
      }
      if mongoOk {
        users.PushSession(user.id, Sessions.NewSession(hashedToken, Device.GetDeviceInfo(req), location, req.ip, now));
      }
      if redisOk && mongoOk {
        return Ok(());
      }
      return Err(ApiError(STORE_FAILURE, INTERNAL_SERVER_ERROR));
    }
  }
}
