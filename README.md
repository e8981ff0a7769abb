# InnRoutes travel planner: verified model of the client core

InnRoutes is a single-page travel planner. This project models its client-side core in Dafny and proves properties of that model. The core covers:

- **Mock one-time-code service** (`services/appwrite.ts`). It issues a six-digit code with a five-minute lifetime into session storage, checks a submitted code, creates and renames the mock user, and logs out.
- **Offline destination generator** (`services/geminiService.ts`). It builds a deterministic bundle from the destination name, and falls back to it whenever the AI service is missing or fails.
- **Screens that decide what is stored and where the visitor goes next**:
  - login;
  - code entry;
  - sign-up;
  - the application shell (start-up check and route guard);
  - trip creation;
  - the trip list;
  - the destination detail page (plan gating and document checklist);
  - the community feed;
  - post creation;
  - onboarding.

Browser storage is modelled as two maps from key to a typed value (`Storage.Store`), held by a `Storage.Browser` object that the screens' methods modify. `Date.now()`, `Math.random()`, `ID.unique()`, the result of the AI request and backend failures all enter as parameters. Dates are whole day numbers, and clock times are milliseconds.

Modules:

| module | file | models |
|---|---|---|
| `Text` | text.dfy | the JavaScript string operations the core uses: `trim`, `toLowerCase`, `includes`, `replace(/\D/g, '')`, `Number#toString`, code-unit order |
| `Types` | types.dfy | the records of `types.ts`, plus the routes |
| `Storage` | storage.dfy | `localStorage` and `sessionStorage`, and their keys |
| `MockAuth` | mock_auth.dfy | the mock branches of `services/appwrite.ts` |
| `DestinationIntel` | destination_intel.dfy | `generateMockData` and `fetchDestinationIntelligence` |
| `Login` | login.dfy | `pages/Login.tsx` |
| `OtpVerification` | otp_verification.dfy | `pages/OTPVerification.tsx` |
| `Signup` | signup.dfy | `pages/Signup.tsx` |
| `AppShell` | app_shell.dfy | `init` and `RequireAuth` in `App.tsx` |
| `CreateTrip` | create_trip.dfy | `pages/CreateTrip.tsx` |
| `MyTrips` | my_trips.dfy | `pages/MyTrips.tsx` |
| `DestinationDetail` | destination_detail.dfy | `pages/DestinationDetail.tsx` |
| `SocialFeed` | social_feed.dfy | `pages/SocialFeed.tsx` |
| `CreatePost` | create_post.dfy | `pages/CreatePost.tsx` |
| `Onboarding` | onboarding.dfy | `pages/Onboarding.tsx` |

A screen whose source updates state step by step is a class: the login, code-entry, sign-up, shell, trip-form and onboarding screens. Each of its methods states the complete new state of the screen and of the browser storage. Each such state is tied to a pure function, and the lemmas are proved about those functions. The trip list, the destination page, the feed and post creation compute values only, so they are functions.

## Model

| member | source | states |
|---|---|---|
| Text.Trim | pages/Login.tsx:37 | the result has no white space at either end, and is what remains of the input after white space is removed from both ends only |
| Text.TrimIdempotent | pages/Login.tsx:37 | trimming a trimmed string changes nothing |
| Text.TrimEmptyIffBlank | pages/CreatePost.tsx:13 | `trim()` gives the empty string exactly when every character is white space |
| Text.KeepDigitsCount | pages/Login.tsx:27 | `replace(/\D/g, '')` keeps as many characters as the input has digit positions |
| Text.LowerOfUpper | pages/DestinationDetail.tsx:45 | lower-casing an upper-cased string equals lower-casing the original |
| Text.DecimalRoundTrip | pages/CreateTrip.tsx:124 | the decimal text of a number parses back to the number |
| Text.DecimalSixDigits | services/appwrite.ts:60 | a decimal number text has six characters exactly when the number is in 100000..999999 |
| Text.LessTrans | pages/MyTrips.tsx:36 | the code-unit order used by `sort()` is transitive |
| Text.LessTotal | pages/MyTrips.tsx:36 | any two different strings are ordered one way or the other |
| Storage.Lookup | services/appwrite.ts:116 | `getItem` gives a value exactly when the key is present, and the value is the stored one |
| MockAuth.CodeNumber | services/appwrite.ts:60 | the generated code number lies in 100000..999999 for every random value in [0, 1) |
| MockAuth.OtpCode | services/appwrite.ts:60 | the code is six decimal digits, and it parses back to a number in 100000..999999 |
| MockAuth.Initiated | services/appwrite.ts:58-68 | local storage is untouched; session storage gains exactly the code record (the code, expiry now + 300000 ms, the contact) under the session key; every other session key keeps its value |
| MockAuth.InitiateOverwrites | services/appwrite.ts:63-68 | requesting a code erases every trace of an earlier request: two states that differ only in the earlier record end up equal |
| MockAuth.InitiateLogin | services/appwrite.ts:57-79 | the method always succeeds, and the new browser state is `Initiated` of the old one |
| MockAuth.VerifyCheck | services/appwrite.ts:116-124 | there is no error exactly when a record exists for the same contact, not expired, with the same code; the errors come in the source's order: no record gives "Session expired", a wrong contact "Invalid session", an expired code "Code expired", and a wrong code for the right contact in time "Invalid verification code"; a record that does not parse is reported as malformed |
| MockAuth.MockUser | services/appwrite.ts:132-139 | the new user has an empty name, an id starting with `user_`, and the contact stored as email or phone according to the channel, the other left empty |
| MockAuth.Verified | services/appwrite.ts:114-127 | a failed verify changes nothing; a successful one removes the code record and stores the new mock user |
| MockAuth.InitiateThenVerifyOnce | services/appwrite.ts:116-127 | the issued code is accepted for the same contact at any time up to the expiry, and a second verify of the same code is then refused with "Session expired" |
| MockAuth.VerifyRejections | services/appwrite.ts:118-124 | after a code is issued, verifying after the expiry fails with "Code expired", and verifying another contact fails with "Invalid session" |
| MockAuth.VerifyLogin | services/appwrite.ts:113-128 | the result and the new browser state are exactly those of `Verified` |
| MockAuth.CreateMockSession | services/appwrite.ts:132-142 | the user returned is the mock user, and it is stored under the user key and nothing else is written |
| MockAuth.CurrentUser | services/appwrite.ts:162-169 | a user is given exactly when a readable user record is stored, and it is that record; text that does not parse gives none |
| MockAuth.GetCurrentUser | services/appwrite.ts:162-169 | returns `CurrentUser` of local storage and changes nothing |
| MockAuth.VerifiedUserIsCurrent | services/appwrite.ts:127-165 | after a successful verify, the current user is the user the verify returned |
| MockAuth.ProfileUpdated | services/appwrite.ts:186-195 | without a stored user the result is "User not found" and nothing changes; with one, only its name is replaced and the renamed user is returned |
| MockAuth.UpdateProfileOnlyName | services/appwrite.ts:189-193 | a successful rename keeps id, email, phone and contact, and sets the name |
| MockAuth.UpdateProfile | services/appwrite.ts:186-195 | the result and the new browser state are exactly those of `ProfileUpdated` |
| MockAuth.LoggedOut | services/appwrite.ts:203-205 | the user, the token and the code record are removed, and every other key keeps its value |
| MockAuth.LogoutForgetsEverything | services/appwrite.ts:199-207 | after logout there is no current user, and any verify fails with "Session expired" |
| MockAuth.Logout | services/appwrite.ts:199-207 | always succeeds, and the new state is `LoggedOut` of the old one |
| DestinationIntel.Seed | services/geminiService.ts:126 | the seed is the name's length plus its first code unit, so it is at least one more than the first code unit |
| DestinationIntel.ArrayLength | services/geminiService.ts:170 | `Array.from({length: days})` has `days` entries, and none for a negative count |
| DestinationIntel.ActivityIdInjective | services/geminiService.ts:174-190 | two activity ids `mock-d<i>-a<k>` are equal only for the same day and slot |
| DestinationIntel.MockItinerary | services/geminiService.ts:170-198 | one generated day per requested day, and day `i` is the `i`-th generated day |
| DestinationIntel.GenerateMockData | services/geminiService.ts:124-200 | name and home currency as given; latitude in 20..39 and longitude in 70..99; equal daily costs in 100..149; "Cheaper" for an even seed, "Expensive" for an odd one, never "Similar"; stamped with the clock |
| DestinationIntel.MockItineraryShape | services/geminiService.ts:170-198 | days numbered 1..n in order, each with sightseeing at 09:00, food at 13:00 and relax at 16:00 |
| DestinationIntel.MockActivityIdsDistinct | services/geminiService.ts:174-190 | no two activities of a generated bundle share an id |
| DestinationIntel.MockSatisfiesSchema | services/geminiService.ts:39-110 | the offline bundle takes only values the response schema's enums list |
| DestinationIntel.FetchDestinationIntelligence | services/geminiService.ts:203-258 | without a client, or when the request throws or returns no text, the result is the offline bundle; otherwise it is the parsed reply with `lastUpdated` set to now |
| DestinationIntel.FallbackIsWellFormed | services/geminiService.ts:211-256 | whenever the service falls back, the bundle has the requested number of days, the requested name, and satisfies the schema |
| Login.IndexOf | pages/Login.tsx:20 | the position of the first occurrence, or -1 exactly when the character is absent |
| Login.ValidEmailIffPattern | pages/Login.tsx:20-21 | the position check accepts exactly the strings `^[^\s@]+@[^\s@]+\.[^\s@]+$` matches, in both directions |
| Login.ValidPhoneIffTenDigits | pages/Login.tsx:27-28 | a phone text is accepted exactly when at least ten of its characters are digits |
| Login.ValidationError | pages/Login.tsx:18-34 | there is no error exactly when the text matches the email pattern (email) or has ten digits (phone); otherwise the error is the channel's message |
| Login.StripSeparators | pages/Login.tsx:40 | the result holds no white space, '-', '(' or ')', and a text without them is unchanged |
| Login.StripKeepsDigits | pages/Login.tsx:40 | removing separators keeps every digit, in order |
| Login.FormatContact | pages/Login.tsx:36-46 | a phone is the stripped text when it starts with '+', else "+91" and the stripped text; it always starts with '+' and holds no separator |
| Login.ValidEmailUnchanged | pages/Login.tsx:37 | an email that passed validation is sent exactly as typed |
| Login.FormatContactIdempotent | pages/Login.tsx:36-46 | formatting a formatted contact changes nothing, for both channels |
| Login.FormattedPhoneStillValid | pages/Login.tsx:27-45 | a phone text that passed validation still passes after formatting |
| Login.LoginScreen.Type | pages/Login.tsx:14-16 | the text is replaced, and the error is cleared exactly when the text changed |
| Login.LoginScreen.SelectChannel | pages/Login.tsx:94-106 | the channel is set and the typed text emptied; the error is cleared exactly when the channel or the text changed (the effect at lines 14-16) |
| Login.LoginScreen.HandleLogin | pages/Login.tsx:48-75 | with no text the disabled button does nothing (line 139); an invalid text shows its message and leaves storage alone, so no code is requested; a valid one requests a code for the formatted contact and opens the code screen with that contact and channel |
| Login.LoginScreen.HandleGuest | pages/Login.tsx:77-81 | the token becomes "guest_token", the onboarding flag "true", and the home screen opens |
| OtpVerification.JoinLength | pages/OTPVerification.tsx:101 | with one-character slots, the joined code is as long as the slot count exactly when no slot is empty |
| OtpVerification.FullIffAllFilled | pages/OTPVerification.tsx:101-102 | verify proceeds exactly when all six slots are filled |
| OtpVerification.PastedChars | pages/OTPVerification.tsx:59 | at most six characters, taken from the front of the trimmed text, and six exactly when the trimmed text has at least six |
| OtpVerification.Overlay | pages/OTPVerification.tsx:62-65 | pasted character `k` becomes slot `k`, and the slots past the pasted text keep their contents |
| OtpVerification.AfterVerify | pages/OTPVerification.tsx:117-121 | home exactly when a current user with a non-empty name exists, otherwise sign-up |
| OtpVerification.OtpScreen.constructor | pages/OTPVerification.tsx:10-14 | six empty slots, no error, a 30-second countdown |
| OtpVerification.OtpScreen.Mount | pages/OTPVerification.tsx:20-35 | without a contact the screen goes to login and no countdown starts; with one the countdown starts |
| OtpVerification.OtpScreen.Tick | pages/OTPVerification.tsx:30-32 | the countdown drops by one and never below zero |
| OtpVerification.OtpScreen.Change | pages/OTPVerification.tsx:37-43 | a value that fails the numeric test is ignored; otherwise it replaces slot `index` only and the error is cleared; there are always six slots |
| OtpVerification.OtpScreen.Paste | pages/OTPVerification.tsx:57-67 | a paste that is non-empty and all numeric overwrites the first slots and keeps the rest; any other paste changes nothing |
| OtpVerification.OtpScreen.BeginResend | pages/OTPVerification.tsx:81-85 | a resend starts exactly when the countdown is over and no resend is under way |
| OtpVerification.OtpScreen.CompleteResend | pages/OTPVerification.tsx:86-97 | a new code is issued for the same contact, the countdown restarts at 30 and all six slots are cleared |
| OtpVerification.OtpScreen.Verify | pages/OTPVerification.tsx:100-131 | nothing with fewer than six characters; a failure shows the service's message and clears all six slots; a success stores "secure_session" and the onboarding flag and opens sign-up |
| Signup.DeriveProfile | pages/Signup.tsx:28-35 | the name and home country as entered, the passport country equal to the home country, empty email and phone, currency "INR" exactly for India and "USD" otherwise |
| Signup.SignupScreen.Submit | pages/Signup.tsx:16-49 | an empty name submits nothing; otherwise the profile is stored and home opens only when the rename succeeds, and a failed rename shows the alert and stores nothing; loading always ends |
| Signup.SignedUpUserSignsUpAgain | services/appwrite.ts:127-140 | after a successful sign-up the current user carries the entered name, but the next successful verify replaces it with a nameless user, so the code screen opens sign-up again (pages/OTPVerification.tsx:117-121) |
| AppShell.RequireAuth | App.tsx:171-187 | without the onboarding flag the guard always sends to onboarding; after it, to login exactly when the visitor is not signed in and no token of any value is stored; otherwise it shows the screen |
| AppShell.Bootstrap | App.tsx:36-62 | a stored user signs the visitor in and sets the token to "secure_session"; without one, only "guest_token" signs in; a failing backend leaves the visitor signed out and storage untouched |
| AppShell.SignedInPassesGuard | App.tsx:42-54 | a visitor that start-up signs in passes the guard once onboarding is done |
| AppShell.TokenAloneAdmits | App.tsx:176-186 | a stored token with no user is enough to pass the guard, even though start-up did not sign the visitor in |
| AppShell.LogoutLocksOut | App.tsx:48-54 | after logout, start-up signs nobody in and an onboarded visitor is sent to login |
| AppShell.Shell.Init | App.tsx:35-62 | the signed-in flag and local storage end as `Bootstrap` says, and the splash screen always ends |
| CreateTrip.CeilDiv | pages/CreateTrip.tsx:39 | `Math.ceil` of the quotient: the least whole number of divisors that covers the dividend |
| CreateTrip.DurationMs | pages/CreateTrip.tsx:34-44 | zero without both dates, never negative; with both dates positive exactly when the end is less than a full day before the start, and then one more than the whole days spanned, rounded up |
| CreateTrip.Duration | pages/CreateTrip.tsx:34-44 | for two day numbers, end minus start plus one when positive, else 0; zero without both dates |
| CreateTrip.ValidDurationHasDates | pages/CreateTrip.tsx:83 | a duration in 3..15 days means both dates are set, and the end is 2 to 14 days after the start |
| CreateTrip.RecommendedBudget | pages/CreateTrip.tsx:258 | the daily cost times the duration, or times 7 while no duration is set |
| CreateTrip.Merge | pages/CreateTrip.tsx:111-116 | every field of the regenerated bundle (name, tagline, economics, time, weather, culture tips, visa, itinerary, transport, timestamp), with the coordinates of the bundle on screen |
| CreateTrip.FinalData | pages/CreateTrip.tsx:92-121 | the bundle on screen when its length already matches or the stored profile does not parse; otherwise the fresh bundle for the new length, fetched in the profile's currency (or "INR" when no profile or no currency is stored) and merged with the one on screen; the coordinates are always kept |
| CreateTrip.OfflineRegenerationHasLength | pages/CreateTrip.tsx:95-116 | offline, a regenerated bundle has exactly the requested number of days, satisfies the schema and is priced in the profile's currency or "INR" |
| CreateTrip.Regenerate | pages/CreateTrip.tsx:92-121 | the plan it produces is `FinalData` |
| CreateTrip.NewTrip | pages/CreateTrip.tsx:123-131 | the id is the clock reading in decimal, the trip has no expenses, and it carries the final bundle's name and data |
| CreateTrip.SavedTrips | pages/CreateTrip.tsx:134-135 | the new trip goes in front of the stored trips, a missing list counting as empty; a stored value that is not a list stops the save |
| CreateTrip.SaveKeepsEarlierTrips | pages/CreateTrip.tsx:134-135 | after a save the trip list loads one more trip: the new one first, then the earlier trips in order (pages/MyTrips.tsx:13-23) |
| CreateTrip.TripForm.SetStart | pages/CreateTrip.tsx:34-53 | a changed start date clears an end date that now lies before it; the duration stays equal to `Duration` of the dates |
| CreateTrip.TripForm.SetEnd | pages/CreateTrip.tsx:34-44 | the end date is replaced and the duration recomputed |
| CreateTrip.TripForm.SetBudget | pages/CreateTrip.tsx:19 | only the budget changes |
| CreateTrip.TripForm.Submit | pages/CreateTrip.tsx:85-139 | nothing outside the 3..15 day window; inside it, the trip built from `FinalData` is saved in front of the stored trips and the trip list opens |
| MyTrips.LoadTrips | pages/MyTrips.tsx:13-23 | the stored trips, or none when nothing is stored or it does not parse |
| MyTrips.PastStaysPast | pages/MyTrips.tsx:31-43 | a past trip stays past as the clock moves on, so the past tab only gains trips and the upcoming tab only loses them; the switch comes just after midnight UTC of the end day |
| MyTrips.FilteredTrips | pages/MyTrips.tsx:38-43 | a trip is listed exactly when it matches the tab and the destination filter, every matching trip is listed as many times as it occurs, and the listed trips form a subsequence of the trip list |
| MyTrips.TabsPartition | pages/MyTrips.tsx:38-43 | with the filter on "All", the upcoming and past lists together hold every trip exactly once, counting repeats |
| MyTrips.Dedup | pages/MyTrips.tsx:36 | `new Set` gives each string once, with the same members as its input |
| MyTrips.Insert | pages/MyTrips.tsx:36 | inserting a missing string into a strictly sorted list keeps it strictly sorted and adds exactly that string |
| MyTrips.Sort | pages/MyTrips.tsx:36 | `sort()` of distinct strings is strictly sorted and a permutation of its input |
| MyTrips.UniqueDestinations | pages/MyTrips.tsx:36 | strictly sorted, without repeats, and holding exactly the destinations of the trips |
| MyTrips.SortedSetUnique | pages/MyTrips.tsx:36 | two strictly sorted lists with the same members are equal |
| MyTrips.UniqueDestinationsCharacterized | pages/MyTrips.tsx:36 | any strictly sorted list of exactly the trips' destinations is the one the filter offers |
| DestinationDetail.Locked | pages/DestinationDetail.tsx:51-52 | visa is locked exactly on the Free plan, transport on every plan but Premium, and overview and plan never |
| DestinationDetail.UnlockTarget | pages/DestinationDetail.tsx:234-289 | the visa overlay selects Plus, and the transport overlay selects Premium |
| DestinationDetail.UnlockOpens | pages/DestinationDetail.tsx:54-66 | each unlock button opens its own tab; the visa upgrade leaves transport locked; the transport upgrade opens every tab |
| DestinationDetail.TransportImpliesVisa | pages/DestinationDetail.tsx:51-52 | every plan that opens transport also opens visa |
| DestinationDetail.TransportIcon | pages/DestinationDetail.tsx:44-49 | the train icon exactly when the lower-cased mode mentions train, metro, subway or rail; otherwise the bus icon exactly when it mentions bus or shuttle; the car icon in every other case |
| DestinationDetail.TransportIconIgnoresCase | pages/DestinationDetail.tsx:45 | the icon is the same for the mode, its upper-cased and its lower-cased form |
| DestinationDetail.RailWinsOverBus | pages/DestinationDetail.tsx:46-47 | a lower-case mode containing "rail" gets the train icon, whatever else it contains |
| DestinationDetail.ToggleDoc | pages/DestinationDetail.tsx:40-42 | the tapped document's shown state flips, an untouched document counting as unchecked, and every other flag is kept |
| DestinationDetail.ReadyCount | pages/DestinationDetail.tsx:305 | the number of documents whose flag is true, never more than the number of flags |
| DestinationDetail.ToggleMovesCount | pages/DestinationDetail.tsx:40-42 | each tap moves the ready count by exactly one, down for a checked document and up otherwise |
| SocialFeed.InitFeed | pages/SocialFeed.tsx:8-39 | with nothing stored, exactly the two seed posts are shown and stored; a stored list is shown unchanged; text that does not parse shows nothing and writes nothing |
| SocialFeed.Like | pages/SocialFeed.tsx:42-47 | same length and order; each post with the id gains exactly one like and nothing else changes; every other post is unchanged |
| SocialFeed.LikeAddsCount | pages/SocialFeed.tsx:42-47 | the total likes grow by the number of posts carrying the id |
| SocialFeed.LikesCommute | pages/SocialFeed.tsx:41-50 | liking two posts gives the same list in either order |
| SocialFeed.HandleLike | pages/SocialFeed.tsx:41-50 | the list shown is the liked list, the same list is stored, and every other key is kept |
| SocialFeed.LikeSurvivesReload | pages/SocialFeed.tsx:10-12 | after a like, a remount shows exactly the list the like produced |
| CreatePost.NewPost | pages/CreatePost.tsx:19-28 | username "you", no likes, "Just now", the caption exactly as typed, "Unknown Location" for an empty location, and the id is the clock reading in decimal |
| CreatePost.NewPostIdsDiffer | pages/CreatePost.tsx:20 | posts made at different clock readings have different ids |
| CreatePost.SavedPosts | pages/CreatePost.tsx:30-32 | the new post goes in front of the stored posts, a missing list counting as empty; a value that is not a list stops the save |
| CreatePost.Submit | pages/CreatePost.tsx:12-36 | nothing happens exactly when the caption is blank; otherwise the new post is put in front of the stored list, or the save throws when the stored value is not a list |
| CreatePost.PostKeepsEarlier | pages/CreatePost.tsx:30-32 | after posting, the stored list is the new post followed by the earlier posts in order |
| CreatePost.TwoPostsNewestFirst | pages/CreatePost.tsx:30-32 | after two posts, the later one comes first and the earlier one second |
| Onboarding.OnboardingScreen.constructor | pages/Onboarding.tsx:8 | the stepper starts on the first slide |
| Onboarding.OnboardingScreen.Current | pages/Onboarding.tsx:10-29 | the slide shown is one of the three slides |
| Onboarding.OnboardingScreen.HandleNext | pages/Onboarding.tsx:31-38 | before the last slide the step grows by exactly one and nothing is written; on the last, the onboarding flag becomes "true" and login opens; the step stays in 0..2 |
| Onboarding.OnboardingScreen.Skip | pages/Onboarding.tsx:73-75 | Skip is offered only before the last slide, and it sets the same flag and opens the same target as finishing |
| Onboarding.WalkThrough | pages/Onboarding.tsx:31-38 | three presses of Next from a fresh stepper set the flag and open login, as Skip does |

## Left out

- The identity-provider branches of `services/appwrite.ts` (the Supabase sign-in, verify, user lookup, rename and sign-out calls): their behaviour lives in a foreign library. `client.ping` is modelled only as "may throw", which is the `backendFails` parameter.
- The AI request in `services/geminiService.ts` (prompt, `generateContent`, `JSON.parse` of the reply) is not modelled. Its outcome is the parameter `reply`: it throws, returns no text, or parses to a bundle.
- An AI reply that parses but breaks the schema is not checked, because the source trusts it (`as DestinationData`).
- Timers and events are not modelled: the `setTimeout` delays, the `innroutes-otp` event and its listener, and the one-second interval. `OtpScreen.Tick` is one interval tick.
- Races between promises that are still running are not modelled: every handler runs to completion before the next one starts.
- The `verifying` flag of the code screen is not modelled, because a verify is atomic here.
- Floating point and NaN are not modelled. Numbers in a bundle are exact reals. The checklist progress bar (pages/DestinationDetail.tsx:313) and the destination clock (pages/DestinationDetail.tsx:23-36) are left out.
- DestinationIntel.GenerateMockData: requires a non-empty destination. For an empty name, `charCodeAt(0)` is NaN and every number derived from the seed is NaN, which the exact reals cannot express.
- DestinationIntel.FetchDestinationIntelligence: requires a non-empty destination unless a client answers with a parsed reply, for the same reason.
- CreateTrip.FinalData and CreateTrip.Regenerate: require the bundle's name to be non-empty whenever a regeneration falls back to the offline bundle, for the same reason.
- CreateTrip.TripForm.Submit: requires the bundle's name to be non-empty when a valid duration differs from the plan's length and the regeneration falls back to the offline bundle, for the same reason.
- CreateTrip.TripForm.Submit: the source reads the clock twice, inside `fetchDestinationIntelligence` for the bundle's `lastUpdated` and after the `await` for the trip id (pages/CreateTrip.tsx:124); the model takes both readings to be the same `now`.
- The default arguments of `generateMockData` and `fetchDestinationIntelligence` (`days = 3` and `userCurrency = 'INR'`, services/geminiService.ts:124,206,208) are not modelled: every caller in the model passes the day count and the currency explicitly.
- CreatePost.NewPost: the source reads `Date.now()` twice, for the id and for the image stamp (pages/CreatePost.tsx:20,23); the model takes both readings to be the same `now`.
- Stored JSON is typed. A stored value of another shape than the reader expects is treated like text that does not parse. For example, a code record that is not an object is reported as a malformed session rather than as a field-by-field mismatch, and a profile of the wrong shape is treated as unreadable.
- `Number(budget)` on the budget text is not modelled: the budget enters as a real.
- Dates are whole day numbers read as midnight UTC. Date-string parsing and time zones are not modelled.
- `toLowerCase` and `toUpperCase` are modelled for ASCII letters only. Strings are sequences of Unicode scalar values, not UTF-16 code units.
- `Array.prototype.sort` is modelled by the code-unit order of these sequences, which differs from UTF-16 order above U+FFFF.
- OtpVerification.OtpScreen.Change: requires a value of at most one character, because each slot's input has `maxLength=1`.
- Focus moves are not modelled: `handleKeyDown`, the auto-advance after a change or paste, and focus on mount.
- The "Failed to resend code." and "Failed to send OTP." paths are not modelled: a mock `initiateLogin` never throws, so they cannot be reached.
- The merge in pages/CreateTrip.tsx:114-115 falls back to the old visa and transport with `||`. A bundle always carries both, so the fallback is never taken and the fresh values are used.
- The `userHomeCountry` and `passportCountry` arguments of `fetchDestinationIntelligence` are not modelled: only the prompt uses them, and the prompt is left out.
- The E.164 normalisation the Login comment mentions is not modelled: the code only strips separators and prepends "+91".
- The view markup, icons and styling are not modelled. Neither are the screens outside the core, such as the dashboard, the budget tracker and the settings pages.
