/** Sign-up (pages/Signup.tsx): the name is given to the authentication
    service, and a profile derived from the form is kept in local storage. */
module Signup {
  import opened Types
  import opened Storage
  import MockAuth
  import OtpVerification

  /** The profile cached on sign-up. The passport country is taken to be the
      home country, the contact fields stay empty because the authentication
      service holds them, and the currency follows the home country. */
  function DeriveProfile(fullName: string, homeCountry: string): (p: UserProfile)
    ensures p.fullName == fullName && p.homeCountry == homeCountry
    ensures p.passportCountry == p.homeCountry
    ensures p.email == "" && p.phone == ""
    ensures p.currency == "INR" <==> homeCountry == "India"
    ensures p.currency == "INR" || p.currency == "USD"
  {
    UserProfile(fullName, "", "", homeCountry, homeCountry, if homeCountry == "India" then "INR" else "USD")
  }

  /** The alert shown when the name cannot be saved. */
  const UpdateFailed := "Could not update profile. Please try again."

  class SignupScreen {
    var fullName: string
    var homeCountry: string
    var loading: bool
    var alert: Option<string>
    var route: Option<Route>

    constructor ()
      ensures fullName == "" && homeCountry == "India" && !loading && alert == None && route == None
    {
      fullName := "";
      homeCountry := "India";
      loading := false;
      alert := None;
      route := None;
    }

    /** `handleSubmit`: an empty name submits nothing. Otherwise the name is
        saved first; only when that succeeds is the profile stored and the home
        screen opened, and when it fails storage keeps what the failed save
        left, which is what it was. */
    method Submit(b: Browser)
      modifies this, b
      ensures fullName == old(fullName) && homeCountry == old(homeCountry)
      ensures old(fullName) == "" ==>
                b.State() == old(b.State()) && route == old(route) && alert == old(alert) && loading == old(loading)
      ensures old(fullName) != "" ==> !loading
      ensures old(fullName) != "" ==>
                var s := MockAuth.ProfileUpdated(old(b.State()), old(fullName));
                if s.result.Ok? then
                  && b.local == s.state.local[ProfileKey := ProfileValue(DeriveProfile(old(fullName), old(homeCountry)))]
                  && b.session == s.state.session
                  && route == Some(Root) && alert == old(alert)
                else
                  b.State() == old(b.State()) && route == old(route) && alert == Some(UpdateFailed)
    {
      if fullName == "" {
        return;
      }
      loading := true;
      var r := MockAuth.UpdateProfile(b, fullName);
      if r.Ok? {
        var profile := DeriveProfile(fullName, homeCountry);
        b.local := b.local[ProfileKey := ProfileValue(profile)];
        route := Some(Root);
      } else {
        alert := Some(UpdateFailed);
      }
      loading := false;
    }
  }

  /** Signing up does not outlast the next login: every successful code check
      stores a fresh nameless user over the named one, so the code screen sends
      a returning user to sign-up again. */
  lemma SignedUpUserSignsUpAgain(st: Stores, fullName: string, homeCountry: string,
                                 contact: string, secret: string, channel: ContactMethod,
                                 now: int, uniqueId: string)
    requires fullName != "" && MockAuth.ProfileUpdated(st, fullName).result.Ok?
    ensures var up := MockAuth.ProfileUpdated(st, fullName).state;
            var signedUp := Stores(up.local[ProfileKey := ProfileValue(DeriveProfile(fullName, homeCountry))], up.session);
            var v := MockAuth.Verified(signedUp, contact, secret, channel, now, uniqueId);
            && MockAuth.CurrentUser(signedUp.local).Some?
            && MockAuth.CurrentUser(signedUp.local).value.name == fullName
            && (v.result.Ok? ==>
                  && MockAuth.CurrentUser(v.state.local) == Some(v.result.value)
                  && v.result.value.name == ""
                  && OtpVerification.AfterVerify(MockAuth.CurrentUser(v.state.local)) == SignupPage)
  {
    var up := MockAuth.ProfileUpdated(st, fullName).state;
    var local := up.local[ProfileKey := ProfileValue(DeriveProfile(fullName, homeCountry))];
    assert ProfileKey != MockUserKey;
    assert local[MockUserKey] == up.local[MockUserKey];
  }
}
