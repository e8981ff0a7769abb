/** The code-entry screen (pages/OTPVerification.tsx): six one-character slots
    edited one at a time or filled by a paste, a countdown that gates resending,
    and the verify button that hands the joined code to the authentication
    service. */
module OtpVerification {
  import opened Types
  import opened Storage
  import Text
  import MockAuth

  /** The number of slots, and the seconds before a code may be resent. */
  const Slots: int := 6
  const ResendSeconds: int := 30

  /** Six empty slots. */
  const EmptyCode: seq<string> := ["", "", "", "", "", ""]

  /** `!isNaN(Number(c))` for one character: `Number` ignores surrounding white
      space and reads the empty text as 0, so a digit or a white-space
      character passes and anything else (a sign, a point, a letter) does not. */
  predicate NumericChar(c: char) {
    Text.IsAsciiDigit(c) || Text.IsJsWhitespace(c)
  }

  /** `!isNaN(Number(v))` for a slot's text of at most one character. */
  predicate NumericSlot(v: string)
    requires |v| <= 1
  {
    v == [] || NumericChar(v[0])
  }

  /** `otp.join('')`. */
  function Join(slots: seq<string>): string {
    if slots == [] then [] else slots[0] + Join(slots[1..])
  }

  /** With slots of at most one character, the joined code is at most as long as
      the number of slots, and exactly as long when no slot is empty. */
  lemma {:induction false} JoinLength(slots: seq<string>)
    requires forall i :: 0 <= i < |slots| ==> |slots[i]| <= 1
    ensures |Join(slots)| <= |slots|
    ensures |Join(slots)| == |slots| <==> forall i :: 0 <= i < |slots| ==> slots[i] != ""
  {
    if slots != [] {
      JoinLength(slots[1..]);
      assert forall i :: 1 <= i < |slots| ==> slots[i] == slots[1..][i - 1];
    }
  }

  /** The buffer holds a full code exactly when every slot is filled. */
  lemma FullIffAllFilled(slots: seq<string>)
    requires |slots| == Slots && forall i :: 0 <= i < |slots| ==> |slots[i]| <= 1
    ensures |Join(slots)| >= Slots <==> forall i :: 0 <= i < Slots ==> slots[i] != ""
  {
    JoinLength(slots);
  }

  /** What a paste offers: the clipboard text trimmed, cut to its first six characters. */
  function PastedChars(text: string): (p: string)
    ensures |p| <= Slots && Text.StartsWith(Text.Trim(text), p)
    ensures |Text.Trim(text)| >= Slots ==> |p| == Slots
    ensures |Text.Trim(text)| < Slots ==> p == Text.Trim(text)
  {
    var t := Text.Trim(text);
    if |t| <= Slots then t else t[..Slots]
  }

  /** A paste is taken when it offers something and every character passes the
      numeric test. */
  predicate PasteApplies(p: string) {
    |p| > 0 && forall i :: 0 <= i < |p| ==> NumericChar(p[i])
  }

  /** The `forEach` of a paste: character `k` of `pasted` becomes slot `k`, and
      the slots past the pasted text are copied unchanged. */
  method Overlay(current: seq<string>, pasted: string) returns (slots: seq<string>)
    requires |current| == Slots && |pasted| <= Slots
    ensures |slots| == Slots
    ensures forall k :: 0 <= k < |pasted| ==> slots[k] == [pasted[k]]
    ensures forall k :: |pasted| <= k < Slots ==> slots[k] == current[k]
  {
    var buf := new string[Slots](k requires 0 <= k < Slots => current[k]);
    var idx := 0;
    while idx < |pasted|
      invariant 0 <= idx <= |pasted|
      invariant forall k :: 0 <= k < idx ==> buf[k] == [pasted[k]]
      invariant forall k :: idx <= k < Slots ==> buf[k] == current[k]
    {
      if idx < Slots {
        buf[idx] := [pasted[idx]];
      }
      idx := idx + 1;
    }
    slots := buf[..];
  }

  /** Where a successful verify leads: home for a user who already has a name,
      sign-up for anyone else. */
  function AfterVerify(user: Option<AuthUser>): (r: Route)
    ensures r == Root || r == SignupPage
    ensures r == Root <==> user.Some? && user.value.name != ""
  {
    if user.Some? && user.value.name != "" then Root else SignupPage
  }

  class OtpScreen {
    var otp: seq<string>
    var resending: bool
    var error: string
    var timeLeft: int
    /** The countdown interval runs. */
    var ticking: bool
    var route: Option<Route>
    /** The navigation state the login screen passed: `contact` and `mode`. */
    const contact: string
    const mode: ContactMethod

    ghost predicate Valid()
      reads this
    {
      |otp| == Slots && (forall i :: 0 <= i < |otp| ==> |otp[i]| <= 1) && 0 <= timeLeft <= ResendSeconds
    }

    constructor (contact: string, mode: ContactMethod)
      ensures Valid() && otp == EmptyCode && timeLeft == ResendSeconds
      ensures !resending && error == "" && !ticking && route == None
      ensures this.contact == contact && this.mode == mode
    {
      this.contact := contact;
      this.mode := mode;
      otp := EmptyCode;
      resending := false;
      error := "";
      timeLeft := ResendSeconds;
      ticking := false;
      route := None;
    }

    /** On mount: without a contact the screen goes back to login and starts no
        countdown; with one the countdown starts. */
    method Mount()
      modifies this
      ensures contact == "" ==> route == Some(LoginPage) && ticking == old(ticking)
      ensures contact != "" ==> ticking && route == old(route)
      ensures otp == old(otp) && timeLeft == old(timeLeft) && error == old(error) && resending == old(resending)
    {
      if contact == "" {
        route := Some(LoginPage);
        return;
      }
      ticking := true;
    }

    /** One second of the countdown: one less, never below zero. */
    method Tick()
      requires Valid() && ticking
      modifies this
      ensures Valid()
      ensures timeLeft == if old(timeLeft) > 0 then old(timeLeft) - 1 else 0
      ensures otp == old(otp) && error == old(error) && resending == old(resending)
      ensures ticking == old(ticking) && route == old(route)
    {
      timeLeft := if timeLeft > 0 then timeLeft - 1 else 0;
    }

    /** `handleChange(index, value)`: a value that fails the numeric test is
        ignored; otherwise it replaces slot `index` alone and the error is cleared.
        The slot's input holds at most one character. */
    method Change(index: int, value: string)
      requires Valid() && 0 <= index < Slots && |value| <= 1
      modifies this
      ensures Valid()
      ensures NumericSlot(value) ==> otp == old(otp)[index := value] && error == ""
      ensures !NumericSlot(value) ==> otp == old(otp) && error == old(error)
      ensures timeLeft == old(timeLeft) && resending == old(resending)
      ensures ticking == old(ticking) && route == old(route)
    {
      if !NumericSlot(value) {
        return;
      }
      otp := otp[index := value];
      error := "";
    }

    /** `handlePaste`: when the paste applies, its characters overwrite the first
        slots one each and the later slots keep their contents. */
    method Paste(text: string)
      requires Valid()
      modifies this
      ensures Valid()
      ensures var p := PastedChars(text);
              if PasteApplies(p) then
                && (forall i :: 0 <= i < |p| ==> otp[i] == [p[i]])
                && (forall i :: |p| <= i < Slots ==> otp[i] == old(otp)[i])
                && error == ""
              else otp == old(otp) && error == old(error)
      ensures timeLeft == old(timeLeft) && resending == old(resending)
      ensures ticking == old(ticking) && route == old(route)
    {
      var pasted := PastedChars(text);
      if !PasteApplies(pasted) {
        return;
      }
      otp := Overlay(otp, pasted);
      error := "";
    }

    /** The first half of `handleResend`: nothing while the countdown runs or a
        resend is under way; otherwise a resend starts. */
    method BeginResend() returns (started: bool)
      requires Valid()
      modifies this
      ensures Valid()
      ensures started <==> old(timeLeft) <= 0 && !old(resending)
      ensures started ==> resending && error == ""
      ensures !started ==> resending == old(resending) && error == old(error)
      ensures otp == old(otp) && timeLeft == old(timeLeft) && ticking == old(ticking) && route == old(route)
    {
      if timeLeft > 0 || resending {
        return false;
      }
      resending := true;
      error := "";
      started := true;
    }

    /** The second half: a fresh code is requested for the same contact, the
        countdown starts over and every slot is cleared. */
    method CompleteResend(b: Browser, now: int, r: real)
      requires Valid() && resending && 0.0 <= r < 1.0
      modifies this, b
      ensures Valid()
      ensures b.State() == MockAuth.Initiated(old(b.State()), contact, now, r)
      ensures timeLeft == ResendSeconds && otp == EmptyCode && !resending
      ensures error == old(error) && ticking == old(ticking) && route == old(route)
    {
      var sent := MockAuth.InitiateLogin(b, contact, mode, now, r);
      timeLeft := ResendSeconds;
      otp := EmptyCode;
      resending := false;
    }

    /** `handleVerify`: nothing until the joined code has six characters. A
        failed verify shows the service's message and clears every slot. A
        successful one stores the session token and the onboarding flag, and
        the screen goes on to sign-up, because the user a mock verify creates
        has no name yet. */
    method Verify(b: Browser, now: int, uniqueId: string)
      requires Valid()
      modifies this, b
      ensures Valid()
      ensures |Join(old(otp))| < Slots ==>
                b.State() == old(b.State()) && otp == old(otp) && error == old(error) && route == old(route)
      ensures |Join(old(otp))| >= Slots ==>
                var s := MockAuth.Verified(old(b.State()), contact, Join(old(otp)), mode, now, uniqueId);
                if s.result.Ok? then
                  && b.local == s.state.local[AuthTokenKey := SessionToken][OnboardingKey := FlagTrue]
                  && b.session == s.state.session
                  && route == Some(SignupPage) && error == "" && otp == old(otp)
                else
                  && b.State() == old(b.State())
                  && error == MockAuth.Message(s.result.error) && otp == EmptyCode && route == old(route)
      ensures timeLeft == old(timeLeft) && resending == old(resending) && ticking == old(ticking)
    {
      var code := Join(otp);
      if |code| < Slots {
        return;
      }
      error := "";
      var result := MockAuth.VerifyLogin(b, contact, code, mode, now, uniqueId);
      match result
      case Ok(_) =>
        b.local := b.local[AuthTokenKey := SessionToken];
        b.local := b.local[OnboardingKey := FlagTrue];
        var user := MockAuth.GetCurrentUser(b);
        route := Some(AfterVerify(user));
      case Err(e) =>
        error := MockAuth.Message(e);
        otp := EmptyCode;
    }
  }
}
