/** The login screen (pages/Login.tsx): which contact texts are accepted, how an
    accepted text is normalised before a code is requested, and the two
    buttons that leave the screen. */
module Login {
  import opened Types
  import opened Storage
  import Text
  import MockAuth

  // ---------------------------------------------------------------- the email pattern

  /** No character of `t` is white space or '@' (the class `[^\s@]`). */
  predicate Clean(t: string) {
    forall k :: 0 <= k < |t| ==> !Text.IsJsWhitespace(t[k]) && t[k] != '@'
  }

  /** `^[^\s@]+@[^\s@]+\.[^\s@]+$` matches `s` with its '@' at `i` and the
      matched '.' at `j`. */
  predicate MatchesAt(s: string, i: int, j: int) {
    && 0 < i && i + 1 < j && j + 1 < |s|
    && s[i] == '@' && s[j] == '.'
    && Clean(s[..i]) && Clean(s[i + 1..j]) && Clean(s[j + 1..])
  }

  /** The email regular expression of `validateInput`, read as a language. */
  ghost predicate EmailPattern(s: string) {
    exists i, j :: MatchesAt(s, i, j)
  }

  /** The position of the first `c` in `s`, or -1. */
  function IndexOf(s: string, c: char): (i: int)
    ensures -1 <= i < |s|
    ensures i >= 0 ==> s[i] == c && c !in s[..i]
    ensures i == -1 <==> c !in s
  {
    if s == [] then -1
    else if s[0] == c then 0
    else
      var k := IndexOf(s[1..], c);
      assert s[1..][..k + 1] == s[1..k + 2] by { }
      if k == -1 then -1 else
        assert s[..k + 1] == [s[0]] + s[1..][..k];
        k + 1
  }

  /** The same test written as a check of positions: no white space, exactly
      one '@' and something before it, and a '.' after the '@' with at least
      one character between them and at least one after it. */
  predicate ValidEmail(s: string) {
    var i := IndexOf(s, '@');
    && Text.NoWhitespace(s)
    && 0 < i && i + 4 <= |s|
    && (forall k :: i < k < |s| ==> s[k] != '@')
    && (exists j :: i + 2 <= j < |s| - 1 && s[j] == '.')
  }

  /** The first `c` of `s` is found where it stands. */
  lemma {:induction false} IndexOfFirst(s: string, c: char, i: int)
    requires 0 <= i < |s| && s[i] == c && forall k :: 0 <= k < i ==> s[k] != c
    ensures IndexOf(s, c) == i
  {
    if i > 0 {
      IndexOfFirst(s[1..], c, i - 1);
    }
  }

  /** Every string the position check accepts matches the regular expression. */
  lemma ValidEmailMatches(s: string)
    requires ValidEmail(s)
    ensures EmailPattern(s)
  {
    var i := IndexOf(s, '@');
    var j :| i + 2 <= j < |s| - 1 && s[j] == '.';
    forall k | 0 <= k < |s| && k != i ensures s[k] != '@' {
      if k < i { assert s[..i][k] == s[k]; }
    }
    assert s[i + 1..j] == s[i + 1..][..j - i - 1];
    assert s[j + 1..] == s[i + 1..][j - i..];
    assert Clean(s[..i]) && Clean(s[i + 1..j]) && Clean(s[j + 1..]);
    assert MatchesAt(s, i, j);
  }

  /** Every string the regular expression matches passes the position check. */
  lemma MatchesValidEmail(s: string, i: int, j: int)
    requires MatchesAt(s, i, j)
    ensures ValidEmail(s)
  {
    var a, m, c := s[..i], s[i + 1..j], s[j + 1..];
    forall k | 0 <= k < |s| ensures !Text.IsJsWhitespace(s[k]) && (k != i ==> s[k] != '@') {
      if k < i { assert s[k] == a[k]; }
      else if i < k < j { assert s[k] == m[k - i - 1]; }
      else if j < k { assert s[k] == c[k - j - 1]; }
    }
    IndexOfFirst(s, '@', i);
  }

  /** The position check accepts exactly the strings the regular expression matches. */
  lemma ValidEmailIffPattern(s: string)
    ensures ValidEmail(s) <==> EmailPattern(s)
  {
    if ValidEmail(s) {
      ValidEmailMatches(s);
    }
    if EmailPattern(s) {
      var i, j :| MatchesAt(s, i, j);
      MatchesValidEmail(s, i, j);
    }
  }

  // ---------------------------------------------------------------- validateInput

  const EmailError := "Please enter a valid email address."
  const PhoneError := "Please enter a valid mobile number (min 10 digits)."

  /** A phone text is accepted when it holds at least ten digits (`\D` removed). */
  predicate ValidPhone(s: string) {
    |Text.KeepDigits(s)| >= 10
  }

  /** A phone text is accepted exactly when at least ten of its characters are digits,
      wherever they stand. */
  lemma ValidPhoneIffTenDigits(s: string)
    ensures ValidPhone(s) <==> |Text.DigitPositions(s)| >= 10
  {
    Text.KeepDigitsCount(s);
  }

  /** `validateInput`: no error exactly when the text is valid for the channel;
      otherwise the message the screen shows. */
  function ValidationError(channel: ContactMethod, input: string): (e: Option<string>)
    ensures channel == Email ==> (e.None? <==> EmailPattern(input))
    ensures channel == Phone ==> (e.None? <==> |Text.DigitPositions(input)| >= 10)
    ensures e.Some? ==> e.value == (if channel == Email then EmailError else PhoneError)
  {
    ValidEmailIffPattern(input);
    ValidPhoneIffTenDigits(input);
    match channel
    case Email => if ValidEmail(input) then None else Some(EmailError)
    case Phone => if ValidPhone(input) then None else Some(PhoneError)
  }

  // ---------------------------------------------------------------- formatContact

  /** The characters `[\s\-\(\)]` removes. */
  predicate IsSeparator(c: char) {
    Text.IsJsWhitespace(c) || c == '-' || c == '(' || c == ')'
  }

  predicate NoSeparators(s: string) {
    forall k :: 0 <= k < |s| ==> !IsSeparator(s[k])
  }

  /** `s.replace(/[\s\-\(\)]/g, '')`: the characters of `s` that are not
      separators, in order. */
  function StripSeparators(s: string): (r: string)
    ensures |r| <= |s| && NoSeparators(r)
    ensures NoSeparators(s) ==> r == s
  {
    if s == [] then []
    else (if IsSeparator(s[0]) then [] else [s[0]]) + StripSeparators(s[1..])
  }

  /** The digits of a concatenation are the digits of each part. */
  lemma {:induction false} KeepDigitsConcat(a: string, b: string)
    ensures Text.KeepDigits(a + b) == Text.KeepDigits(a) + Text.KeepDigits(b)
  {
    if b == [] {
      assert a + b == a;
    } else {
      var n := |b| - 1;
      assert (a + b)[..|a + b| - 1] == a + b[..n];
      KeepDigitsConcat(a, b[..n]);
    }
  }

  /** Stripping separators keeps every digit. */
  lemma {:induction false} StripKeepsDigits(s: string)
    ensures Text.KeepDigits(StripSeparators(s)) == Text.KeepDigits(s)
  {
    if s != [] {
      StripKeepsDigits(s[1..]);
      var head := if IsSeparator(s[0]) then [] else [s[0]];
      KeepDigitsConcat(head, StripSeparators(s[1..]));
      KeepDigitsConcat([s[0]], s[1..]);
      assert [s[0]] + s[1..] == s;
      assert IsSeparator(s[0]) ==> !Text.IsAsciiDigit(s[0]);
    }
  }

  /** `formatContact`: an email trimmed; a phone with separators removed and
      "+91" put in front unless it already starts with '+'. */
  function FormatContact(input: string, channel: ContactMethod): (r: string)
    ensures channel == Phone ==> Text.StartsWith(r, "+") && NoSeparators(r)
    ensures channel == Phone ==>
              r == (if Text.StartsWith(StripSeparators(input), "+") then StripSeparators(input)
                    else "+91" + StripSeparators(input))
  {
    match channel
    case Email => Text.Trim(input)
    case Phone =>
      var phone := StripSeparators(input);
      if Text.StartsWith(phone, "+") then phone
      else
        var r := "+91" + phone;
        assert forall k :: 3 <= k < |r| ==> r[k] == phone[k - 3];
        r
  }

  /** An email that passed validation is sent as typed: it has no white space to trim. */
  lemma ValidEmailUnchanged(input: string)
    requires EmailPattern(input)
    ensures FormatContact(input, Email) == input
  {
    ValidEmailIffPattern(input);
    Text.TrimNoWhitespace(input);
  }

  /** Normalising a normalised contact changes nothing, for either channel. */
  lemma FormatContactIdempotent(input: string, channel: ContactMethod)
    ensures FormatContact(FormatContact(input, channel), channel) == FormatContact(input, channel)
  {
    if channel == Email {
      Text.TrimIdempotent(input);
    }
  }

  /** A phone text that was accepted is still accepted after normalising: its
      digits survive, and the prefix only adds some. */
  lemma FormattedPhoneStillValid(input: string)
    requires ValidPhone(input)
    ensures ValidPhone(FormatContact(input, Phone))
  {
    var p := StripSeparators(input);
    StripKeepsDigits(input);
    if !Text.StartsWith(p, "+") {
      KeepDigitsConcat("+91", p);
      assert |Text.KeepDigits("+91")| == 2;
    }
  }

  // ---------------------------------------------------------------- the screen

  class LoginScreen {
    var channel: ContactMethod
    var input: string
    var loading: bool
    var error: string
    var route: Option<Route>

    constructor ()
      ensures channel == Phone && input == "" && !loading && error == "" && route == None
    {
      channel := Phone;
      input := "";
      loading := false;
      error := "";
      route := None;
    }

    /** Typing: a changed text clears the error shown. */
    method Type(text: string)
      modifies this
      ensures input == text && channel == old(channel) && loading == old(loading) && route == old(route)
      ensures error == (if text != old(input) then "" else old(error))
    {
      if text != input {
        error := "";
      }
      input := text;
    }

    /** A channel button: the channel is set and the typed text emptied; the
        error is cleared when either of them changed. */
    method SelectChannel(c: ContactMethod)
      modifies this
      ensures channel == c && input == "" && loading == old(loading) && route == old(route)
      ensures error == (if c != old(channel) || old(input) != "" then "" else old(error))
    {
      if c != channel || input != "" {
        error := "";
      }
      channel := c;
      input := "";
    }

    /** `handleLogin`: with no text the submit button is disabled and nothing
        happens; an invalid text shows its message and requests nothing; a
        valid one requests a code for the normalised contact and opens the code
        screen for it. */
    method HandleLogin(b: Browser, now: int, r: real)
      requires 0.0 <= r < 1.0
      modifies this, b
      ensures channel == old(channel) && input == old(input)
      ensures old(input) == "" ==>
                error == old(error) && loading == old(loading) && route == old(route)
                && b.State() == old(b.State())
      ensures old(input) != "" ==>
              var e := ValidationError(old(channel), old(input));
              if e.Some? then
                error == e.value && b.State() == old(b.State())
                && route == old(route) && loading == old(loading)
              else
                var contact := FormatContact(old(input), old(channel));
                && error == "" && !loading && route == Some(OtpPage(contact, old(channel)))
                && b.State() == MockAuth.Initiated(old(b.State()), contact, now, r)
    {
      if input == "" {
        return;
      }
      var e := ValidationError(channel, input);
      if e.Some? {
        error := e.value;
        return;
      }
      loading := true;
      error := "";
      var contact := FormatContact(input, channel);
      var sent := MockAuth.InitiateLogin(b, contact, channel, now, r);
      route := Some(OtpPage(contact, channel));
      loading := false;
    }

    /** `handleGuest`: a guest token and the onboarding flag are stored, and
        the home screen opens. */
    method HandleGuest(b: Browser)
      modifies this, b
      ensures b.local == old(b.local)[AuthTokenKey := GuestToken][OnboardingKey := FlagTrue]
      ensures b.session == old(b.session)
      ensures route == Some(Root)
      ensures channel == old(channel) && input == old(input) && loading == old(loading) && error == old(error)
    {
      b.local := b.local[AuthTokenKey := GuestToken];
      b.local := b.local[OnboardingKey := FlagTrue];
      route := Some(Root);
    }
  }
}
