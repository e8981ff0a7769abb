/** The browser's `localStorage` and `sessionStorage`, as two maps from key to a
    typed value instead of JSON text.

    A key that is absent stands for `getItem` returning `null`. No code path
    writes an empty string, so a present key stands for a truthy string.
    `Unparsable` stands for text that `JSON.parse` rejects; a value of another
    shape than the reader expects is read like an unparsable one. */
module Storage {
  import opened Types

  /** The one-time-code record the mock authentication keeps in session storage. */
  datatype OtpSession = OtpSession(code: string, expiry: int, contact: string)

  datatype StoredValue =
    | Plain(text: string)
    | OtpValue(otp: OtpSession)
    | UserValue(user: AuthUser)
    | ProfileValue(profile: UserProfile)
    | TripsValue(trips: seq<UserTrip>)
    | PostsValue(posts: seq<Post>)
    | Unparsable

  type Store = map<string, StoredValue>

  /** `getItem`: the value under `key`, or `None` for `null`. */
  function Lookup(m: Store, key: string): (v: Option<StoredValue>)
    ensures v.Some? <==> key in m
    ensures v.Some? ==> m[key] == v.value
  {
    if key in m then Some(m[key]) else None
  }

  /** Both stores at one moment. */
  datatype Stores = Stores(local: Store, session: Store)

  // sessionStorage
  const OtpSessionKey := "innroutes_otp_session"
  // localStorage
  const MockUserKey := "innroutes_mock_user"
  const AuthTokenKey := "innroutes_auth_token"
  const OnboardingKey := "innroutes_onboarding_done"
  const ProfileKey := "innroutes_profile"
  const TripsKey := "innroutes_trips"
  const PostsKey := "innroutes_posts"

  /** The values the application writes under the two flag keys. */
  const GuestToken := Plain("guest_token")
  const SessionToken := Plain("secure_session")
  const FlagTrue := Plain("true")

  /** The page's storage: one object shared by every component. */
  class Browser {
    var local: Store
    var session: Store

    constructor (local: Store, session: Store)
      ensures this.local == local && this.session == session
    {
      this.local := local;
      this.session := session;
    }

    function State(): Stores
      reads this
    {
      Stores(local, session)
    }
  }
}
