/** The durable session sub-record (`SessionSchema`): the fields the engine
    fills in and the defaults the schema supplies. Times are milliseconds. */
module Sessions {
  import opened Wrappers
  import Crypto
  import Device

  /** `3 * 24 * 60 * 60 * 1000`: three days in milliseconds. */
  const SESSION_LIFETIME_MS := 3 * 24 * 60 * 60 * 1000

  /** One element of a user's `sessions` array. The schema declares `_id: false`,
      so a record has no identifier of its own. */
  datatype Session = Session(
    token: Crypto.Digest,
    deviceInfo: Device.DeviceInfo,
    location: Device.Location,
    ip: string,
    loggedInAt: int,
    expiresAt: int,
    revoked: bool,
    revokedAt: Option<int>,
    lastActivityAt: int,
    riskScore: int,
    trustedDevice: bool,
    status: bool)

  /** The record mongoose builds at time `now` from the four fields the engine
      pushes, every other field taking its schema default. */
  function NewSession(token: Crypto.Digest, deviceInfo: Device.DeviceInfo, location: Device.Location,
                      ip: string, now: int): (s: Session)
    ensures s.token == token && s.deviceInfo == deviceInfo && s.location == location && s.ip == ip
    ensures s.status && !s.revoked && s.riskScore == 0 && !s.trustedDevice
    ensures s.loggedInAt == s.lastActivityAt == now
    ensures s.expiresAt - s.loggedInAt == 259200000
    ensures s.revokedAt.None?
  {
    Session(token, deviceInfo, location, ip, now, now + SESSION_LIFETIME_MS, false, None, now, 0, false, true)
  }
}
