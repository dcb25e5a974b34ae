/** A client's session: clients/claude-code/skillmeter/scripts/credstore.js. The license, the broker's
    refresh token, the intent or sign-out that owns them, and the guarded commits on them. */
module Credstore {
  import opened Options

  /** Tokens are compared by their text. `origin` is the sign-in the broker issued them for; no client can
      see it, and the server may issue the same license text twice. */
  datatype RefreshToken = RefreshToken(text: nat, origin: nat)
  datatype License = License(text: nat, origin: nat)

  type Generation = nat

  datatype Session = Session(license: Option<License>, refresh: Option<RefreshToken>,
                             generation: Option<Generation>, signedOut: bool)

  datatype Snapshot = Snapshot(token: Option<License>, refreshToken: Option<RefreshToken>,
                               generation: Option<Generation>, deviceId: string, signedOut: bool)

  function LicenseText(l: Option<License>): Option<nat> {
    if l.Some? then Some(l.value.text) else None
  }

  function RefreshText(r: Option<RefreshToken>): Option<nat> {
    if r.Some? then Some(r.value.text) else None
  }

  function RecoverySnapshot(s: Session, device: string): Snapshot {
    Snapshot(s.license, s.refresh, s.generation, device, s.signedOut)
  }

  predicate SnapshotMatches(s: Session, expected: Snapshot, device: string) {
    && !expected.signedOut && !s.signedOut
    && LicenseText(s.license) == LicenseText(expected.token)
    && RefreshText(s.refresh) == RefreshText(expected.refreshToken)
    && s.generation == expected.generation
    && device == expected.deviceId
  }

  /** The same tokens under the same generation, as far as a client can tell. */
  predicate SameSession(s: Session, t: Session) {
    LicenseText(s.license) == LicenseText(t.license) && RefreshText(s.refresh) == RefreshText(t.refresh) && s.generation == t.generation
  }

  predicate SigninMatches(s: Session, generation: Generation, deviceId: string, device: string) {
    s.generation == Some(generation) && device == deviceId
  }

  /** What a sign-in expects to find: the generation its intent began, on its device. */
  datatype Intent = Intent(generation: Generation, deviceId: string)

  function Rotated(s: Session, token: RefreshToken): Session {
    s.(refresh := Some(token))
  }

  function Refreshed(s: Session, license: License): Session {
    s.(license := Some(license))
  }

  function Dropped(s: Session, uuid: Generation): Session {
    Session(None, None, Some(uuid), s.signedOut)
  }

  function SignedOut(uuid: Generation): Session {
    Session(None, None, Some(uuid), true)
  }

  function Engaged(s: Session, uuid: Generation): Session {
    s.(generation := Some(uuid))
  }

  function SignedIn(license: License, refresh: Option<RefreshToken>, uuid: Generation): Session {
    Session(Some(license), refresh, Some(uuid), false)
  }

  /** The session record and its mutators as credstore.js writes them: field by field, under the store's
      lock, with a fresh generation from the random source where one is needed. */
  class SessionStore {
    var licenseJwt: Option<License>
    var refreshToken: Option<RefreshToken>
    var authGeneration: Option<Generation>
    var signedOut: bool

    ghost function Value(): (s: Session)
      reads this
    {
      Session(licenseJwt, refreshToken, authGeneration, signedOut)
    }

    constructor ()
      ensures Value() == Session(None, None, None, false)
    {
      licenseJwt, refreshToken, authGeneration, signedOut := None, None, None, false;
    }

    /** The snapshot matches from now on exactly the sessions that are signed in and still hold the same tokens under the
        same generation, on the same device. */
    method TakeSnapshot(device: string) returns (s: Snapshot)
      ensures forall t: Session, d: string ::
                SnapshotMatches(t, s, d) <==> d == device && SameSession(t, Value()) && !t.signedOut && !signedOut
      ensures s.token == licenseJwt && s.refreshToken == refreshToken
    {
      s := Snapshot(licenseJwt, refreshToken, authGeneration, device, signedOut);
    }

    method Matches(expected: Snapshot, device: string) returns (ok: bool)
      ensures ok == SnapshotMatches(Value(), expected, device)
      ensures ok <==>
                && !expected.signedOut && !signedOut && device == expected.deviceId && authGeneration == expected.generation
                && (licenseJwt.Some? <==> expected.token.Some?) && (licenseJwt.Some? && expected.token.Some? ==> licenseJwt.value.text == expected.token.value.text)
                && (refreshToken.Some? <==> expected.refreshToken.Some?)
                && (refreshToken.Some? && expected.refreshToken.Some? ==> refreshToken.value.text == expected.refreshToken.value.text)
    {
      if expected.signedOut || signedOut { return false; }
      ok := LicenseText(licenseJwt) == LicenseText(expected.token);
      ok := ok && RefreshText(refreshToken) == RefreshText(expected.refreshToken);
      ok := ok && authGeneration == expected.generation && device == expected.deviceId;
    }

    method CommitRotation(expected: Snapshot, device: string, token: RefreshToken) returns (committed: bool)
      modifies this
      ensures committed == SnapshotMatches(old(Value()), expected, device)
      ensures Value() == if committed then Rotated(old(Value()), token) else old(Value())
    {
      committed := Matches(expected, device);
      if committed { refreshToken := Some(token); }
    }

    method CommitRefresh(license: License, expected: Snapshot, device: string) returns (committed: bool)
      modifies this
      ensures committed == SnapshotMatches(old(Value()), expected, device)
      ensures Value() == if committed then Refreshed(old(Value()), license) else old(Value())
    {
      committed := Matches(expected, device);
      if committed { licenseJwt := Some(license); }
    }

    method DropRevokedLicense(expected: Snapshot, device: string, uuid: Generation) returns (committed: bool)
      modifies this
      ensures committed == SnapshotMatches(old(Value()), expected, device)
      ensures Value() == if committed then Dropped(old(Value()), uuid) else old(Value())
    {
      committed := Matches(expected, device);
      if committed {
        licenseJwt := None;
        refreshToken := None;
        authGeneration := Some(uuid);
      }
    }

    method SignOut(uuid: Generation)
      modifies this
      ensures Value() == SignedOut(uuid)
    {
      licenseJwt := None;
      refreshToken := None;
      signedOut := true;
      authGeneration := Some(uuid);
    }

    method MarkEngaged(uuid: Generation) returns (generation: Generation)
      modifies this
      ensures generation == uuid
      ensures Value() == Engaged(old(Value()), uuid)
    {
      authGeneration := Some(uuid);
      generation := uuid;
    }

    /** A commit without an intent is not guarded; `signin.js` always gives one. */
    method CommitSignin(license: License, refresh: Option<RefreshToken>, expected: Option<Intent>, device: string, uuid: Generation)
      returns (committed: bool)
      modifies this
      ensures committed <==> expected.None? || (old(authGeneration) == Some(expected.value.generation) && device == expected.value.deviceId)
      ensures Value() == if committed then SignedIn(license, refresh, uuid) else old(Value())
    {
      committed := expected.None? || (authGeneration == Some(expected.value.generation) && device == expected.value.deviceId);
      if committed {
        signedOut := false;
        licenseJwt := Some(license);
        refreshToken := refresh;
        authGeneration := Some(uuid);
      }
    }
  }
}
