/** Device registration, pairing and token authentication: `PairingService`. */
module TermuxPairing {
  import opened Prelude

  type DeviceId = Uuid

  /** The digest of a secret. A free constructor stands for SHA-256: equal digests mean equal secrets. */
  datatype Digest = Digest(secret: string)

  datatype DeviceState =
    | UNREGISTERED | PAIRING_REQUIRED | PAIRING | AUTHORIZED
    | CONNECTED | DISCONNECTED | RECONNECTING | REVOKED

  datatype PendingCode = PendingCode(digest: Digest, expiresAt: Time)

  datatype PairingError =
    | DeviceNotRegistered | PairingCodeInvalid | PairingCodeExpired | RevokedDevice | AuthenticationFailed

  datatype Pairings = Pairings(
    devices: map<DeviceId, DeviceState>,
    codes: map<DeviceId, PendingCode>,
    tokens: map<DeviceId, Digest>)

  const NO_PAIRINGS := Pairings(map[], map[], map[])

  datatype Attempt = Attempt(after: Pairings, error: Option<PairingError>)

  function Registered(p: Pairings, d: DeviceId, code: string, expiresAt: Time): Pairings {
    p.(devices := p.devices[d := PAIRING_REQUIRED], codes := p.codes[d := PendingCode(Digest(code), expiresAt)])
  }

  function Confirmed(p: Pairings, d: DeviceId, code: string, token: string, now: Time): Attempt {
    if d !in p.devices then Attempt(p, Some(DeviceNotRegistered))
    else if d !in p.codes then Attempt(p, Some(PairingCodeInvalid))
    else if p.codes[d].expiresAt < now then Attempt(p.(codes := p.codes - {d}), Some(PairingCodeExpired))
    else if p.codes[d].digest != Digest(code) then Attempt(p, Some(PairingCodeInvalid))
    else
      Attempt(Pairings(p.devices[d := AUTHORIZED], p.codes - {d}, p.tokens[d := Digest(token)]), None)
  }

  function Authentication(p: Pairings, d: DeviceId, token: string): Option<PairingError> {
    if d !in p.devices then Some(DeviceNotRegistered)
    else if p.devices[d] == REVOKED then Some(RevokedDevice)
    else if d !in p.tokens || p.tokens[d] != Digest(token) then Some(AuthenticationFailed)
    else None
  }

  function Revoked(p: Pairings, d: DeviceId): Attempt {
    if d !in p.devices then Attempt(p, Some(DeviceNotRegistered))
    else Attempt(Pairings(p.devices[d := REVOKED], p.codes - {d}, p.tokens - {d}), None)
  }

  function MarkedConnected(p: Pairings, d: DeviceId): Attempt {
    if d !in p.devices then Attempt(p, Some(DeviceNotRegistered))
    else Attempt(p.(devices := p.devices[d := CONNECTED]), None)
  }

  function MarkedDisconnected(p: Pairings, d: DeviceId): Attempt {
    if d !in p.devices then Attempt(p, Some(DeviceNotRegistered))
    else if p.devices[d] == CONNECTED then Attempt(p.(devices := p.devices[d := DISCONNECTED]), None)
    else Attempt(p, None)
  }

  class PairingService {
    const codeTtl: Time
    var devices: map<DeviceId, DeviceState>
    var pending: map<DeviceId, PendingCode>
    var tokenHashes: map<DeviceId, Digest>

    constructor (codeTtl: Time)
      ensures this.codeTtl == codeTtl && Value() == NO_PAIRINGS
    {
      this.codeTtl := codeTtl;
      devices, pending, tokenHashes := map[], map[], map[];
    }

    function Value(): Pairings
      reads this
    {
      Pairings(devices, pending, tokenHashes)
    }

    /** `d` is the fresh device id, `code` the fresh pairing code. */
    method RegisterDevice(d: DeviceId, code: string, now: Time)
      requires d !in devices
      modifies this
      ensures Value() == Registered(old(Value()), d, code, now + codeTtl)
    {
      devices := devices[d := PAIRING_REQUIRED];
      pending := pending[d := PendingCode(Digest(code), now + codeTtl)];
    }

    /** `token` is the fresh device token; it is stored only when no error is returned. */
    method ConfirmPairing(d: DeviceId, code: string, token: string, now: Time) returns (error: Option<PairingError>)
      modifies this
      ensures Attempt(Value(), error) == Confirmed(old(Value()), d, code, token, now)
    {
      if d !in devices {
        return Some(DeviceNotRegistered);
      }
      if d !in pending {
        return Some(PairingCodeInvalid);
      }
      if now > pending[d].expiresAt {
        pending := pending - {d};
        return Some(PairingCodeExpired);
      }
      if pending[d].digest != Digest(code) {
        return Some(PairingCodeInvalid);
      }
      pending := pending - {d};
      tokenHashes := tokenHashes[d := Digest(token)];
      devices := devices[d := AUTHORIZED];
      return None;
    }

    method Authenticate(d: DeviceId, token: string) returns (error: Option<PairingError>)
      ensures error == Authentication(Value(), d, token)
    {
      if d !in devices {
        return Some(DeviceNotRegistered);
      }
      if devices[d] == REVOKED {
        return Some(RevokedDevice);
      }
      if d !in tokenHashes || tokenHashes[d] != Digest(token) {
        return Some(AuthenticationFailed);
      }
      return None;
    }

    method RevokeDevice(d: DeviceId) returns (error: Option<PairingError>)
      modifies this
      ensures Attempt(Value(), error) == Revoked(old(Value()), d)
    {
      if d !in devices {
        return Some(DeviceNotRegistered);
      }
      devices := devices[d := REVOKED];
      tokenHashes := tokenHashes - {d};
      pending := pending - {d};
      return None;
    }

    method MarkConnected(d: DeviceId) returns (error: Option<PairingError>)
      modifies this
      ensures Attempt(Value(), error) == MarkedConnected(old(Value()), d)
    {
      if d !in devices {
        return Some(DeviceNotRegistered);
      }
      devices := devices[d := CONNECTED];
      return None;
    }

    method MarkDisconnected(d: DeviceId) returns (error: Option<PairingError>)
      modifies this
      ensures Attempt(Value(), error) == MarkedDisconnected(old(Value()), d)
    {
      if d !in devices {
        return Some(DeviceNotRegistered);
      }
      if devices[d] == CONNECTED {
        devices := devices[d := DISCONNECTED];
      }
      return None;
    }
  }
}
