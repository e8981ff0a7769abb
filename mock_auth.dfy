/** The local branch of `authService` (services/appwrite.ts), taken when no
    identity provider is configured: a one-time code kept in session storage,
    checked in a fixed order, and a user record kept in local storage.

    `Date.now()` is the parameter `now` (milliseconds), `Math.random()` is `r`
    in [0, 1), and `ID.unique()` is the parameter `uniqueId`. Each operation is
    a function from the old stores to the result and the new stores, and a
    method on the shared `Browser` that is proved to do exactly that. */
module MockAuth {
  import opened Types
  import opened Storage
  import Text

  /** A code is valid for five minutes after it is issued. */
  const OtpLifetimeMs: int := 5 * 60 * 1000

  datatype AuthError =
    | SessionExpired   // no code session is stored
    | InvalidSession   // the contact differs from the session's
    | CodeExpired      // the session's expiry has passed
    | InvalidCode      // the submitted code differs from the stored one
    | UserNotFound     // no user is stored
    | Malformed        // the stored text is not JSON that JSON.parse accepts

  /** The message each error carries. `JSON.parse`'s own message depends on the
      engine; the model uses one fixed text for it. */
  function Message(e: AuthError): string {
    match e
    case SessionExpired => "Session expired. Please request a new code."
    case InvalidSession => "Invalid session. Please login again."
    case CodeExpired => "Code expired. Please request a new one."
    case InvalidCode => "Invalid verification code. Please try again."
    case UserNotFound => "User not found"
    case Malformed => "SyntaxError: JSON.parse"
  }

  /** An operation's result together with the stores it leaves behind. */
  datatype Step<T> = Step(result: T, state: Stores)

  // ---------------------------------------------------------------- initiateLogin

  /** `Math.floor(100000 + Math.random() * 900000)`. */
  function CodeNumber(r: real): (n: int)
    requires 0.0 <= r < 1.0
    ensures 100000 <= n <= 999999
  {
    (100000.0 + r * 900000.0).Floor
  }

  /** The code as text: always six decimal digits, reading back as a number in
      100000..999999. */
  function OtpCode(r: real): (code: string)
    requires 0.0 <= r < 1.0
    ensures |code| == 6 && Text.AllDigits(code)
    ensures 100000 <= Text.ParseDecimal(code) <= 999999
  {
    var n := CodeNumber(r);
    Text.DecimalSixDigits(n);
    Text.DecimalRoundTrip(n);
    Text.DecimalString(n)
  }

  /** The stores after `initiateLogin(contact, method)`: session storage holds
      one code session for `contact`, expiring five minutes from `now`, in place
      of whatever was stored under that key; nothing else changes. */
  function Initiated(st: Stores, contact: string, now: int, r: real): (st': Stores)
    requires 0.0 <= r < 1.0
    ensures st'.local == st.local
    ensures st'.session.Keys == st.session.Keys + {OtpSessionKey}
    ensures forall k :: k in st.session && k != OtpSessionKey ==> st'.session[k] == st.session[k]
    ensures st'.session[OtpSessionKey] == OtpValue(OtpSession(OtpCode(r), now + 300000, contact))
  {
    Stores(st.local, st.session[OtpSessionKey := OtpValue(OtpSession(OtpCode(r), now + OtpLifetimeMs, contact))])
  }

  /** A new session does not depend on the one it replaces. */
  lemma InitiateOverwrites(st1: Stores, st2: Stores, contact: string, now: int, r: real)
    requires 0.0 <= r < 1.0
    requires st1.local == st2.local && st1.session - {OtpSessionKey} == st2.session - {OtpSessionKey}
    ensures Initiated(st1, contact, now, r) == Initiated(st2, contact, now, r)
  {
    var a, b := Initiated(st1, contact, now, r).session, Initiated(st2, contact, now, r).session;
    forall k | k in a ensures k in b && a[k] == b[k] {
      if k != OtpSessionKey {
        assert k in st1.session - {OtpSessionKey};
      }
    }
    forall k | k in b ensures k in a {
      if k != OtpSessionKey {
        assert k in st2.session - {OtpSessionKey};
      }
    }
    assert a == b;
  }

  method InitiateLogin(b: Browser, contact: string, channel: ContactMethod, now: int, r: real)
    returns (ok: bool)
    requires 0.0 <= r < 1.0
    modifies b
    ensures ok && b.State() == Initiated(old(b.State()), contact, now, r)
  {
    var code := OtpCode(r);
    var otpData := OtpSession(code, now + OtpLifetimeMs, contact);
    b.session := b.session[OtpSessionKey := OtpValue(otpData)];
    ok := true;
  }

  // ---------------------------------------------------------------- verifyLogin

  /** All of verifyLogin's checks pass: a session is stored, for this contact,
      not yet expired (the expiry instant itself still counts), with this code. */
  predicate Accepts(stored: Option<StoredValue>, contact: string, secret: string, now: int) {
    && stored.Some? && stored.value.OtpValue?
    && stored.value.otp.contact == contact
    && now <= stored.value.otp.expiry
    && secret == stored.value.otp.code
  }

  /** The first of verifyLogin's checks that fails, in the order the service
      makes them, or `None` when all pass. A contact mismatch is reported before
      expiry or code are looked at, and expiry before the code is compared. */
  function VerifyCheck(stored: Option<StoredValue>, contact: string, secret: string, now: int)
    : (e: Option<AuthError>)
    ensures e.None? <==> Accepts(stored, contact, secret, now)
    ensures stored.None? ==> e == Some(SessionExpired)
    ensures (stored.Some? && stored.value.OtpValue? && stored.value.otp.contact != contact)
              ==> e == Some(InvalidSession)
    ensures (stored.Some? && stored.value.OtpValue? && stored.value.otp.contact == contact
             && now > stored.value.otp.expiry) ==> e == Some(CodeExpired)
    ensures (stored.Some? && stored.value.OtpValue? && stored.value.otp.contact == contact
             && now <= stored.value.otp.expiry && secret != stored.value.otp.code) ==> e == Some(InvalidCode)
    ensures (stored.Some? && !stored.value.OtpValue?) ==> e == Some(Malformed)
    ensures e != Some(UserNotFound)
  {
    match stored
    case None => Some(SessionExpired)
    case Some(OtpValue(s)) =>
      if s.contact != contact then Some(InvalidSession)
      else if now > s.expiry then Some(CodeExpired)
      else if secret != s.code then Some(InvalidCode)
      else None
    case Some(_) => Some(Malformed)
  }

  /** The user `_createMockSession` makes: no name yet, an id starting "user_",
      the contact, and the contact again as email or as phone by channel. */
  function MockUser(contact: string, channel: ContactMethod, uniqueId: string): (u: AuthUser)
    ensures u.name == "" && u.contact == contact && Text.StartsWith(u.id, "user_")
    ensures channel == Email ==> u.email == contact && u.phone == ""
    ensures channel == Phone ==> u.phone == contact && u.email == ""
  {
    AuthUser("user_" + uniqueId, "", if channel == Email then contact else "",
             if channel == Phone then contact else "", contact)
  }

  /** `verifyLogin(contact, secret, method)`: on any failure the stores are
      unchanged; on success the code session is consumed and the new user is
      stored. */
  function Verified(st: Stores, contact: string, secret: string, channel: ContactMethod,
                    now: int, uniqueId: string)
    : (s: Step<Result<AuthUser, AuthError>>)
    ensures var check := VerifyCheck(Lookup(st.session, OtpSessionKey), contact, secret, now);
            (s.result.Err? <==> check.Some?)
            && (s.result.Err? ==> s.result.error == check.value && s.state == st)
    ensures s.result.Ok? ==>
              && s.result.value == MockUser(contact, channel, uniqueId)
              && s.state.session == st.session - {OtpSessionKey}
              && s.state.local == st.local[MockUserKey := UserValue(s.result.value)]
  {
    match VerifyCheck(Lookup(st.session, OtpSessionKey), contact, secret, now)
    case Some(e) => Step(Err(e), st)
    case None =>
      var user := MockUser(contact, channel, uniqueId);
      Step(Ok(user), Stores(st.local[MockUserKey := UserValue(user)], st.session - {OtpSessionKey}))
  }

  /** A code issued at `now` is accepted by a verify at any `t` up to and
      including `now` + five minutes, and only once: the second verify with the
      same code finds no session. */
  lemma InitiateThenVerifyOnce(st: Stores, contact: string, channel: ContactMethod, now: int,
                               r: real, t: int, t2: int, uniqueId: string, uniqueId2: string)
    requires 0.0 <= r < 1.0 && now <= t <= now + OtpLifetimeMs
    ensures var first := Verified(Initiated(st, contact, now, r), contact, OtpCode(r), channel, t, uniqueId);
            && first.result == Ok(MockUser(contact, channel, uniqueId))
            && Verified(first.state, contact, OtpCode(r), channel, t2, uniqueId2).result == Err(SessionExpired)
  {
  }

  /** After its five minutes a code is refused even when the digits match, and
      a different contact is refused as a session mismatch, never as a wrong code. */
  lemma VerifyRejections(st: Stores, contact: string, other: string, channel: ContactMethod,
                         now: int, r: real, t: int, secret: string, uniqueId: string)
    requires 0.0 <= r < 1.0 && other != contact
    ensures t > now + OtpLifetimeMs ==>
              Verified(Initiated(st, contact, now, r), contact, OtpCode(r), channel, t, uniqueId).result
              == Err(CodeExpired)
    ensures Verified(Initiated(st, contact, now, r), other, secret, channel, t, uniqueId).result
            == Err(InvalidSession)
  {
  }

  method VerifyLogin(b: Browser, contact: string, secret: string, channel: ContactMethod,
                     now: int, uniqueId: string)
    returns (r: Result<AuthUser, AuthError>)
    modifies b
    ensures Step(r, b.State()) == Verified(old(b.State()), contact, secret, channel, now, uniqueId)
  {
    if OtpSessionKey !in b.session {
      return Err(SessionExpired);
    }
    var stored := b.session[OtpSessionKey];
    if !stored.OtpValue? {
      return Err(Malformed);
    }
    var otp := stored.otp;
    if otp.contact != contact {
      return Err(InvalidSession);
    }
    if now > otp.expiry {
      return Err(CodeExpired);
    }
    if secret != otp.code {
      return Err(InvalidCode);
    }
    b.session := b.session - {OtpSessionKey};
    var user := CreateMockSession(b, contact, channel, uniqueId);
    r := Ok(user);
  }

  /** `_createMockSession`: makes the user and stores it. */
  method CreateMockSession(b: Browser, contact: string, channel: ContactMethod, uniqueId: string)
    returns (user: AuthUser)
    modifies b
    ensures user == MockUser(contact, channel, uniqueId)
    ensures b.local == old(b.local)[MockUserKey := UserValue(user)] && b.session == old(b.session)
  {
    user := AuthUser("user_" + uniqueId, "", if channel == Email then contact else "",
                     if channel == Phone then contact else "", contact);
    b.local := b.local[MockUserKey := UserValue(user)];
  }

  // ---------------------------------------------------------------- getCurrentUser

  /** `getCurrentUser()`: the stored user, or `None` when none is stored or the
      stored text does not parse. It never fails. */
  function CurrentUser(local: Store): (u: Option<AuthUser>)
    ensures u.Some? <==> MockUserKey in local && local[MockUserKey].UserValue?
    ensures u.Some? ==> local[MockUserKey] == UserValue(u.value)
  {
    match Lookup(local, MockUserKey)
    case Some(UserValue(user)) => Some(user)
    case _ => None
  }

  method GetCurrentUser(b: Browser) returns (u: Option<AuthUser>)
    ensures u == CurrentUser(b.local)
  {
    if MockUserKey in b.local && b.local[MockUserKey].UserValue? {
      u := Some(b.local[MockUserKey].user);
    } else {
      u := None;
    }
  }

  /** The user a successful verify returns is the one `getCurrentUser` then
      reads, and it has no name. */
  lemma VerifiedUserIsCurrent(st: Stores, contact: string, secret: string, channel: ContactMethod,
                              now: int, uniqueId: string)
    requires Verified(st, contact, secret, channel, now, uniqueId).result.Ok?
    ensures var s := Verified(st, contact, secret, channel, now, uniqueId);
            CurrentUser(s.state.local) == Some(s.result.value) && s.result.value.name == ""
  {
  }

  // ---------------------------------------------------------------- updateProfile

  /** `updateProfile(name)`: renames the stored user and changes nothing else;
      fails with "User not found" when no user is stored, and with a parse
      error when the stored text does not parse, both leaving storage as it was. */
  function ProfileUpdated(st: Stores, name: string): (s: Step<Result<AuthUser, AuthError>>)
    ensures s.state.session == st.session
    ensures MockUserKey !in st.local ==> s.result == Err(UserNotFound) && s.state == st
    ensures MockUserKey in st.local && !st.local[MockUserKey].UserValue? ==>
              s.result == Err(Malformed) && s.state == st
    ensures CurrentUser(st.local).Some? ==>
              var u := CurrentUser(st.local).value;
              s.result == Ok(u.(name := name))
              && s.state.local == st.local[MockUserKey := UserValue(u.(name := name))]
  {
    match Lookup(st.local, MockUserKey)
    case None => Step(Err(UserNotFound), st)
    case Some(UserValue(user)) =>
      var renamed := user.(name := name);
      Step(Ok(renamed), Stores(st.local[MockUserKey := UserValue(renamed)], st.session))
    case Some(_) => Step(Err(Malformed), st)
  }

  /** After a rename, the current user differs from the old one in its name only. */
  lemma UpdateProfileOnlyName(st: Stores, name: string)
    requires ProfileUpdated(st, name).result.Ok?
    ensures var before, after := CurrentUser(st.local), CurrentUser(ProfileUpdated(st, name).state.local);
            && before.Some? && after.Some? && after.value.name == name
            && after.value.id == before.value.id && after.value.email == before.value.email
            && after.value.phone == before.value.phone && after.value.contact == before.value.contact
  {
  }

  method UpdateProfile(b: Browser, name: string) returns (r: Result<AuthUser, AuthError>)
    modifies b
    ensures Step(r, b.State()) == ProfileUpdated(old(b.State()), name)
  {
    if MockUserKey !in b.local {
      return Err(UserNotFound);
    }
    var stored := b.local[MockUserKey];
    if !stored.UserValue? {
      return Err(Malformed);
    }
    var user := stored.user;
    user := user.(name := name);
    b.local := b.local[MockUserKey := UserValue(user)];
    r := Ok(user);
  }

  // ---------------------------------------------------------------- logout

  /** `logout()`: removes the user, the auth token and the code session. */
  function LoggedOut(st: Stores): (st': Stores)
    ensures st'.local.Keys == st.local.Keys - {MockUserKey, AuthTokenKey}
    ensures st'.session.Keys == st.session.Keys - {OtpSessionKey}
    ensures forall k :: k in st'.local ==> st'.local[k] == st.local[k]
    ensures forall k :: k in st'.session ==> st'.session[k] == st.session[k]
  {
    Stores(st.local - {MockUserKey, AuthTokenKey}, st.session - {OtpSessionKey})
  }

  /** After logout nobody is signed in and no code can be verified. */
  lemma LogoutForgetsEverything(st: Stores, contact: string, secret: string, channel: ContactMethod,
                                now: int, uniqueId: string)
    ensures CurrentUser(LoggedOut(st).local) == None
    ensures Verified(LoggedOut(st), contact, secret, channel, now, uniqueId).result == Err(SessionExpired)
  {
  }

  method Logout(b: Browser) returns (ok: bool)
    modifies b
    ensures ok && b.State() == LoggedOut(old(b.State()))
  {
    b.local := b.local - {MockUserKey};
    b.local := b.local - {AuthTokenKey};
    b.session := b.session - {OtpSessionKey};
    ok := true;
  }
}
