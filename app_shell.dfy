/** The application shell (App.tsx): the start-up check that decides whether
    the visitor counts as signed in, and the guard in front of every protected
    screen. */
module AppShell {
  import opened Types
  import opened Storage
  import MockAuth

  /** What the guard does: send the visitor elsewhere, or show the screen. */
  datatype Guarded = Redirect(to: Route) | RenderChild

  /** `RequireAuth`: onboarding comes first; after it, a visitor who is neither
      signed in nor holding a token of any value is sent to login. */
  function RequireAuth(local: Store, isAuthenticated: bool): (g: Guarded)
    ensures OnboardingKey !in local ==> g == Redirect(OnboardingPage)
    ensures OnboardingKey in local ==>
              (g == Redirect(LoginPage) <==> !isAuthenticated && AuthTokenKey !in local)
    ensures g == RenderChild <==> OnboardingKey in local && (isAuthenticated || AuthTokenKey in local)
  {
    if Lookup(local, OnboardingKey).None? then Redirect(OnboardingPage)
    else if !isAuthenticated && Lookup(local, AuthTokenKey).None? then Redirect(LoginPage)
    else RenderChild
  }

  /** The outcome of `init`: whether the visitor is signed in, and local storage after it. */
  datatype Boot = Boot(isAuthenticated: bool, local: Store)

  /** `init`. A stored user signs the visitor in and refreshes the token to the
      session value; without one, only the guest token signs in. When the
      connection check or the user lookup throws (`backendFails`), the visitor
      stays signed out and storage is untouched. */
  function Bootstrap(local: Store, backendFails: bool): (r: Boot)
    ensures backendFails ==> r == Boot(false, local)
    ensures !backendFails && MockAuth.CurrentUser(local).Some? ==>
              r.isAuthenticated && r.local == local[AuthTokenKey := SessionToken]
    ensures !backendFails && MockAuth.CurrentUser(local).None? ==>
              r.local == local && (r.isAuthenticated <==> Lookup(local, AuthTokenKey) == Some(GuestToken))
  {
    if backendFails then Boot(false, local)
    else match MockAuth.CurrentUser(local)
      case Some(_) => Boot(true, local[AuthTokenKey := SessionToken])
      case None => Boot(Lookup(local, AuthTokenKey) == Some(GuestToken), local)
  }

  /** A visitor that start-up signs in passes the guard once onboarding is done. */
  lemma SignedInPassesGuard(local: Store, backendFails: bool)
    requires OnboardingKey in local && Bootstrap(local, backendFails).isAuthenticated
    ensures var boot := Bootstrap(local, backendFails);
            RequireAuth(boot.local, boot.isAuthenticated) == RenderChild
  {
  }

  /** The guard also admits a visitor start-up did not sign in, as long as some
      token is stored: a stale session token with no user is enough. */
  lemma TokenAloneAdmits(local: Store)
    requires OnboardingKey in local && MockAuth.CurrentUser(local).None?
    requires Lookup(local, AuthTokenKey) == Some(SessionToken)
    ensures !Bootstrap(local, false).isAuthenticated
    ensures RequireAuth(Bootstrap(local, false).local, false) == RenderChild
  {
  }

  /** After logout, start-up signs nobody in and the guard sends an onboarded
      visitor to login. */
  lemma LogoutLocksOut(st: Stores, backendFails: bool)
    requires OnboardingKey in st.local
    ensures var local := MockAuth.LoggedOut(st).local;
            && !Bootstrap(local, backendFails).isAuthenticated
            && RequireAuth(Bootstrap(local, backendFails).local, false) == Redirect(LoginPage)
  {
    var local := MockAuth.LoggedOut(st).local;
    assert OnboardingKey != MockUserKey && OnboardingKey != AuthTokenKey;
    assert OnboardingKey in local;
  }

  class Shell {
    var isAuthenticated: bool
    var loading: bool
    var userPlan: UserPlan

    constructor ()
      ensures !isAuthenticated && loading && userPlan == Free
    {
      isAuthenticated := false;
      loading := true;
      userPlan := Free;
    }

    /** The mount effect: runs once, from the initial state, and always ends
        the splash screen. */
    method Init(b: Browser, backendFails: bool)
      requires loading && !isAuthenticated
      modifies this, b
      ensures Boot(isAuthenticated, b.local) == Bootstrap(old(b.local), backendFails)
      ensures b.session == old(b.session) && !loading && userPlan == old(userPlan)
    {
      if !backendFails {
        var user := MockAuth.GetCurrentUser(b);
        if user.Some? {
          isAuthenticated := true;
          b.local := b.local[AuthTokenKey := SessionToken];
        } else {
          var localToken := Lookup(b.local, AuthTokenKey);
          if localToken == Some(GuestToken) {
            isAuthenticated := true;
          } else {
            isAuthenticated := false;
          }
        }
      }
      loading := false;
    }
  }
}
