# Eventura core, modelled in Dafny

A model of the data and payment logic of the Eventura event app, a React
Native client for a document database, an identity provider, a card-payment
processor and a directions service. The model covers these parts:

- **Participation and favourites ledger** (`src/hooks/events.ts`): toggling a favourite event,
  adding a participation, changing a participation's status, and adding an organizer review.
  Each operation works on the stored array fields through the database's `arrayUnion` and
  `arrayRemove` primitives, or by writing back the whole array.
- **Preferences** (`src/app/preferences.tsx`): toggling a subcategory in the selection, and
  deriving the saved `preferences` value from it.
- **Payment orchestrator** (`src/hooks/useStripePayment.ts`): the charge amount taken from the
  display price, and `handlePayment` as a state machine over the answers of the processor, the
  sheet, the record write and the participation callback.
- **User profile** (`src/hooks/userProfile.ts`): creating, reading and updating the profile document.
- **Authentication hooks** (`src/hooks/auth.ts`): the auth listener's state, signup's error
  mapping, login and logout.
- **Account screens** (`src/app/me.tsx`): the login and signup input checks, and the provider's
  `login`, `signup` and `logout`.
- **Directions** (`src/utils/mapUtils.ts`): turning a directions reply into a polyline.

Every call into an SDK, the network or the clock is a parameter of the
function that makes it: `Outcomes.Reply` (resolves, or rejects with a
message) and the reply types of each module. A hook's React state is an
explicit record that goes into a function and comes back out. The modules
are `Outcomes`, `Store`, `Events`, `UserProfile`, `Preferences`, `Price`,
`Payment`, `Auth`, `Screens` and `Directions`, one file each.

The price parse is modelled on exact decimals. `Price.ParseFloat` reads
`whole.fraction` as the integers `whole`, `fraction` and the number of
fraction digits. `Price.ToCents` is `Math.round(x * 100)` with halves
rounded up. The sample prices "30 €" and "12.50 €" come to 3000 and 1250
cents. A German price with a thousands separator is read wrongly, and the
model states what actually happens. "1.234,56 €" loses its comma to the
filter and becomes "1.23456". That is charged 123 cents, and in general
`w.ggg,cc` is never charged more than `w + 1` euros.

## Model

| member | source | states |
|---|---|---|
| Store.Without | src/app/preferences.tsx:107 | the filter keeps, in order, exactly the elements different from `x`; the multiset loses all copies of `x`; an array without `x` is returned unchanged |
| Store.WithoutDistributes | src/app/preferences.tsx:107 | the filter keeps the order: filtering a concatenation concatenates the filtered parts |
| Store.WithoutKeepsNoDuplicates | src/app/preferences.tsx:104-108 | filtering a duplicate-free list leaves it duplicate-free |
| Store.ArrayUnion | src/hooks/events.ts:242-244 | `arrayUnion` keeps the old array as a prefix, grows by at most the number of elements given, holds exactly the old and the given elements, and keeps an array duplicate-free |
| Store.ArrayRemove | src/hooks/events.ts:237-239 | `arrayRemove` holds exactly the old elements not removed, never grows, leaves an array without them unchanged, and keeps it duplicate-free |
| Store.UnionOne | src/hooks/events.ts:242-244 | a one-element union appends the element if and only if it is new |
| Store.RemoveOne | src/hooks/events.ts:237-239 | a one-element `arrayRemove` is the filter that drops that element |
| Store.WithoutAppended | src/app/preferences.tsx:104-113 | appending a new element and filtering it out again gives back the original list |
| Store.Apply | src/hooks/events.ts:237-394 | the three kinds of field write: union adds the given elements, remove drops them, overwrite replaces the array |
| Events.Settle | src/hooks/events.ts:247-255 | a committed write is applied and clears the error; a rejected one leaves the array alone and records the message; loading ends false either way |
| Events.ToggleFavorite | src/hooks/events.ts:226-256 | without a user, the call returns false, sets the exact error message and writes nothing; with a user it returns true if and only if the write commits; a committed toggle puts the id in the array if and only if the snapshot lacked it, and every other id keeps its membership |
| Events.ToggleFlipsMembership | src/hooks/events.ts:232-245 | when the snapshot matches the store, a toggle flips exactly the toggled id |
| Events.ToggleTwice | src/hooks/events.ts:232-245 | two toggles give back the original array when the id was absent, and the original membership when it was present |
| Events.AddParticipatedEvent | src/hooks/events.ts:341-370 | without a user, the exact error and no write; otherwise the call returns true if and only if the write commits, the new entry (status defaulting to upcoming, dated now) is then in the array, and the old array stays a prefix |
| Events.AddAppendsFreshEntry | src/hooks/events.ts:351-360 | an entry with a fresh date is appended at the end |
| Events.AddTwiceDuplicates | src/hooks/events.ts:341-360 | nothing prevents two participations in the same event: two adds leave two entries |
| Events.FirstIndex | src/hooks/events.ts:384-386 | `findIndex` returns the first position whose event id matches, and -1 exactly when none matches |
| Events.UpdateParticipatedEventStatus | src/hooks/events.ts:372-409 | without a user, or with no matching entry in the snapshot, nothing is written and the exact error is set; a committed update writes the snapshot back with only the first matching entry's status changed |
| Events.UpdateLosesConcurrentAdd | src/hooks/events.ts:381-393 | the whole-array rewrite drops an entry that reached the store after the snapshot was taken |
| Events.NewReview | src/hooks/events.ts:274-278 | the stored review has the generated id and the current time; its other fields are the caller's |
| Events.AddReview | src/hooks/events.ts:266-295 | the call returns true and sets `success` if and only if the write commits; the review is then in the array with the old array as a prefix; on failure the array is unchanged and the message recorded |
| Events.ReviewTimestampIgnored | src/hooks/events.ts:274-278 | a timestamp passed in by the caller never reaches the store |
| Events.FreshReviewAppended | src/hooks/events.ts:281-283 | a review with a fresh id is appended at the end |
| UserProfile.Merge | src/hooks/userProfile.ts:100 | `{ ...prev, ...updates }`: each field the update gives overrides, and every field it leaves out keeps the previous value |
| UserProfile.MergeIdempotent | src/hooks/userProfile.ts:100 | applying the same update twice equals applying it once |
| UserProfile.DatePart | src/hooks/userProfile.ts:48 | the stored date is the prefix of the ISO string before its first 'T', and holds no 'T' |
| UserProfile.DatePartOfTimestamp | src/hooks/userProfile.ts:48 | for an ISO timestamp the stored date is its ten-character date |
| UserProfile.CreateUserProfile | src/hooks/userProfile.ts:30-66 | a created profile has the user's uid and email, the given names and flags, the date part of the birth date and empty favourites and participations; the merge write keeps the stored preferences; a failure returns null, sets the error and leaves the store alone; loading ends false |
| UserProfile.CreateOverwritesLists | src/hooks/userProfile.ts:52-55 | despite `merge: true`, re-creating a profile empties existing favourites and participations |
| UserProfile.GetUserProfile | src/hooks/userProfile.ts:68-89 | a found document is returned and set; a missing one returns null and clears the profile; a failed read returns null, sets the error and keeps the profile |
| UserProfile.CreateThenGet | src/hooks/userProfile.ts:43-81 | reading back the document a created profile was stored into gives the created profile, with the preferences the document already had |
| UserProfile.UpdateUserProfile | src/hooks/userProfile.ts:91-110 | a committed update returns true and merges the update into a loaded profile (a null profile stays null); a failed one returns false, sets the error and keeps the profile |
| Preferences.Put | src/app/preferences.tsx:105-113 | `{ ...prev, [category]: list }` sets one key, keeps an existing key's place and appends a new key |
| Preferences.TogglePreference | src/app/preferences.tsx:101-116 | the subcategory is in the category's list afterwards if and only if it was not before; a new one goes last; a removed one loses all its copies; other categories are unchanged |
| Preferences.ToggleTwiceRestores | src/app/preferences.tsx:101-116 | toggling an unselected subcategory twice restores the category's list, and the whole selection when the category existed |
| Preferences.ToggleKeepsDuplicateFree | src/app/preferences.tsx:104-113 | one toggle keeps every list free of duplicates |
| Preferences.TapsKeepDuplicateFree | src/app/preferences.tsx:97-116 | any sequence of toggles from a valid, duplicate-free selection stays valid and duplicate-free |
| Preferences.EmptyStaysDuplicateFree | src/app/preferences.tsx:97-99 | from the initial empty selection no subcategory is ever listed twice |
| Preferences.NonEmptyCategories | src/app/preferences.tsx:127-129 | the saved categories are exactly the keys with a non-empty list, each once |
| Preferences.NonEmptyDistributes | src/app/preferences.tsx:127-129 | the filter keeps the key order: the categories of consecutive key lists are the concatenation of their categories |
| Preferences.SavedPreferences | src/app/preferences.tsx:125-132 | the saved value lists exactly the non-empty categories and carries the selection unchanged |
| Preferences.HandleSavePreferences | src/app/preferences.tsx:118-148 | without a user, go to login and save nothing; otherwise send an update that sets only `preferences`, and go to search if and only if it commits |
| Preferences.SaveTouchesOnlyPreferences | src/app/preferences.tsx:125-134 | a successful save changes the loaded profile's preferences and nothing else |
| Price.KeepPriceChars | src/hooks/useStripePayment.ts:47 | the filter's output is made only of digits and dots and is never longer than its input |
| Price.KeepDistributes | src/hooks/useStripePayment.ts:47 | the filter works character by character: filtering a concatenation concatenates the filtered parts |
| Price.KeepAll | src/hooks/useStripePayment.ts:47 | digits and dots pass unchanged |
| Price.KeepNothing | src/hooks/useStripePayment.ts:47 | a string with no digit or dot filters to "" |
| Price.KeepRun | src/hooks/useStripePayment.ts:47 | a run of digits and dots between dropped characters is kept alone |
| Price.LeadingDigits | src/hooks/useStripePayment.ts:47 | the longest all-digit prefix: it is a prefix, all digits, and followed by a non-digit or the end |
| Price.DigitsValue | src/hooks/useStripePayment.ts:47 | a digit string's value is below 10 to the power of its length |
| Price.ParseFloat | src/hooks/useStripePayment.ts:47 | `parseFloat` gives NaN exactly when neither the whole part nor the fraction after a leading dot has a digit, and otherwise a fraction below one |
| Price.ToCents | src/hooks/useStripePayment.ts:46-48 | `Math.round(x * 100)` is the whole number of cents nearest to x, with halves rounded up; NaN stays NaN |
| Price.AmountCents | src/hooks/useStripePayment.ts:46-48 | the amount sent is NaN exactly when the filtered price starts with neither a digit nor a dot and a digit; otherwise it is a whole number of cents, the value of the leading digits and fraction rounded to nearest with halves up |
| Price.Euros | src/hooks/useStripePayment.ts:136 | `amount / 100` has the same digits as the amount, with two more decimal places |
| Price.ParseDecimal | src/hooks/useStripePayment.ts:47 | `parseFloat("w.f")` reads both digit runs in full |
| Price.ParseWhole | src/hooks/useStripePayment.ts:47 | `parseFloat` of a digit string reads all of it |
| Price.ExactCents | src/hooks/useStripePayment.ts:46-48 | with at most two fraction digits, rounding to cents is exact |
| Price.AmountOfPrice | src/hooks/useStripePayment.ts:46-48 | a price filtering to `w.f`, with at most two fraction digits, is charged exactly its value in cents |
| Price.AmountOfWholePrice | src/hooks/useStripePayment.ts:46-48 | a price filtering to digits alone is charged that many euros |
| Price.ThirtyEuros | src/hooks/useStripePayment.ts:46-48 | "30 €" filters to "30" and is charged 3000 cents |
| Price.TwelveFifty | src/hooks/useStripePayment.ts:46-48 | "12.50 €" is charged 1250 cents and recorded as 12.50 euros |
| Price.KeepGrouped | src/hooks/useStripePayment.ts:47 | a price `w.ggg,cc` filters to `w.gggcc` |
| Price.RoundFive | src/hooks/useStripePayment.ts:46-48 | rounding five fraction digits to cents adds at most one euro |
| Price.ThousandsCharged | src/hooks/useStripePayment.ts:46-48 | a price written with a thousands separator is charged at most `w + 1` euros, whatever its thousands |
| Price.ThousandsSeparator | src/hooks/useStripePayment.ts:46-48 | "1.234,56 €" is charged 123 cents |
| Payment.Text | src/hooks/useStripePayment.ts:22-184 | the alert is titled "Erfolg" exactly on success; a failed participation shows the callback's error when it is truthy |
| Payment.RecordOf | src/hooks/useStripePayment.ts:131-140 | the payment record is keyed by the client secret and holds the user, the event, the amount in euros, "eur", "succeeded" and the time |
| Payment.AfterSheet | src/hooks/useStripePayment.ts:128-177 | after a successful sheet the record is written fourth; participation is requested if and only if that write commits, fifth, for the event, as upcoming, with the payment's id and amount; the call succeeds if and only if the record commits and the callback returns true; loading ends false |
| Payment.WithSheet | src/hooks/useStripePayment.ts:94-126 | an error or rejection from the sheet's initialisation ends the requests right after it, and one from its presentation right after that, so nothing is presented after a failed initialisation and no record is written or participation requested; participation is requested exactly when the sheet succeeds and the record commits |
| Payment.Charge | src/hooks/useStripePayment.ts:44-92 | the charge is requested first; an error, a rejection or a falsy client secret ends the requests right there, with no sheet, no record and no participation request; participation is requested exactly when the charge, the sheet and the record write all succeed; the call succeeds exactly when every service does |
| Payment.HandlePayment | src/hooks/useStripePayment.ts:12-189 | the guards run in order (no user, already paid, no secret key), and a rejected call requests nothing and changes nothing; an accepted call first requests the charge and always ends with loading false; the sheet is initialised only with a usable client secret, presented only once initialised, and each failure ends the requests; the call returns true exactly when every step succeeds; `hasPaid` becomes true exactly then; a record is stored only after the sheet succeeds, under the processor's client secret; the ledger is asked for the participation exactly when the record has committed, right after its write |
| Payment.OrphanedPayment | src/hooks/useStripePayment.ts:131-177 | when the record commits but participation fails, the call fails and `hasPaid` stays false, yet the record stays stored |
| Payment.PaidOnce | src/hooks/useStripePayment.ts:31-35 | after one success, every later call on the hook is rejected before it requests anything, whatever the event |
| Payment.PaymentAndLedger | src/hooks/useStripePayment.ts:148-153 | with the ledger's `addParticipatedEvent` as the callback, success leaves an upcoming entry for the event, and that entry carries no payment details |
| Payment.TwelveFiftyPayment | src/hooks/useStripePayment.ts:46-140 | when every service succeeds, a payment for an event priced "12.50 €" asks the processor for 1250 cents, returns true and stores a record of 12.50 euros for that event under the client secret |
| Auth.Replay | src/hooks/auth.ts:14-27 | after the listener's callbacks, the user is the latest callback's and loading is false; before any callback the state is unchanged |
| Auth.LoadingUntilFirstCallback | src/hooks/auth.ts:15-22 | from the start, loading is true exactly until the first callback |
| Auth.Signup | src/hooks/auth.ts:33-64 | a password mismatch sends nothing and returns `{null, false}` with "Passwords do not match"; "auth/email-already-in-use" gives `{null, true}` and the already-registered message; any other failure gives `{null, false}` and its message; success returns the credential with `emailExists` false |
| Auth.MismatchIgnoresProvider | src/hooks/auth.ts:42-45 | when the passwords differ, the provider's answer cannot matter |
| Auth.Login | src/hooks/auth.ts:74-89 | login clears the error and sets loading while it waits; loading always ends false, and an error is recorded if and only if the sign-in rejects |
| Auth.Logout | src/hooks/auth.ts:98-106 | logout clears the error, and records one if and only if the sign-out rejects |
| Screens.HandleLogin | src/app/me.tsx:251-257 | login is called, with the entered email and password, if and only if both are non-empty |
| Screens.HandleSignup | src/app/me.tsx:356-371 | an empty field is reported first, then a password mismatch, then an unchecked privacy box; otherwise signup is called with (email, password, firstName, lastName) |
| Screens.NewsletterIrrelevant | src/app/me.tsx:356-371 | the newsletter box never changes the decision |
| Screens.MissingFieldFirst | src/app/me.tsx:357-360 | any empty field is reported, whatever the passwords and the privacy box say |
| Screens.SignedUpCanLogIn | src/app/me.tsx:251-257 | the email and password a submitted signup form sends pass the login screen's check unchanged |
| Screens.Busy | src/app/me.tsx:124-167 | the shape of the provider's `login`, `signup` and `logout`: loading is set while the call waits and cleared after; the alert shows the message if and only if the call rejects |
| Screens.ProviderMatchesHooks | src/app/me.tsx:124-134 | the provider's login and logout alert exactly the error that the `useLogin` and `useLogout` hooks record, and end not loading as the hook does |
| Screens.Signup | src/app/me.tsx:136-155 | the profile document is written only when account creation returns a user and the database is configured, and it holds that user's id with the given names and email; loading always ends false |
| Screens.SubmittedFormIsStored | src/app/me.tsx:136-155 | a form that passes the checks, with creation and write succeeding, stores the form's names and email under the new user |
| Directions.PushSteps | src/utils/mapUtils.ts:22-32 | the `reduce` keeps what it had and appends each step's start, then its end, in step order |
| Directions.StepsToPoints | src/utils/mapUtils.ts:22-32 | the polyline has two points per step: point 2i is step i's start and point 2i+1 its end |
| Directions.StepsConcat | src/utils/mapUtils.ts:22-32 | the polyline of concatenated steps is the concatenation of their polylines |
| Directions.GetRouteDirections | src/utils/mapUtils.ts:5-43 | a missing or empty key gives [] and no request; a failed fetch, no routes, an empty route list or a route without legs gives []; otherwise the polyline of the first leg of the first route |
| Directions.OnlyFirstLeg | src/utils/mapUtils.ts:21-22 | routes after the first, and legs after the first, never change the result |

## Left out

- Live `onSnapshot` subscriptions and their cleanup are not modelled. A hook's local snapshot (`favorites`, `participated`) is a parameter next to the stored array, so a stale snapshot can be expressed but not its timing.
- Concurrency is not modelled: a double-tapped payment and overlapping toggles or updates. Every operation is one sequential step. `Events.UpdateLosesConcurrentAdd` states the effect of a lost update only through a snapshot that differs from the store.
- Floating point is not modelled. `parseFloat`, `* 100`, `Math.round` and `/ 100` are exact decimal arithmetic, so binary rounding of values such as 1.005 is left out.
- `Payment.HandlePayment` does not model what the processor does with an amount of NaN. The charge request carries the NaN value, and the processor's answer is a parameter.
- `Payment.PaymentAndLedger` shows that the ledger's `addParticipatedEvent` takes two parameters and ignores the payment details passed as a third. The model records the details in the request and nowhere else.
- Alerts and logging: `console` output is not modelled. Payment alerts are a `Notice` with its text. The account screens' alerts are not modelled beyond which check stopped the call.
- Dates are opaque strings supplied as `now`. Time zones and the `Date` object are not modelled. `createdAt` in the signup profile document is that string.
- `Object.keys` lists integer-like keys first in JavaScript. The selection's keys are kept in plain insertion order, which matches the app's category names.
- A `Partial<UserProfile>` field given explicitly as `undefined` overrides in a spread. The model's `Updates` cannot express that, and treats a field as either absent or present with a value.
- Preference-save alert branches that read the stale `updateError` are not modelled, because they change only the alert text. The screen stays put on failure.
- The success flag and loading reset of `addReview` are modelled. The hook's initial `setSuccess(false)` is implied by the result's `success` field.
- The initial anonymous or custom-token sign-in and the module-level initialisation in `src/app/me.tsx` are not modelled. They are configuration with no input from the user.
- Preferences.SaveTouchesOnlyPreferences: assumes a loaded profile. The preferences screen's own `useUserProfile()` never calls `getUserProfile` (src/app/preferences.tsx:91-95), so on that screen the local merge leaves the profile `null`, as `UserProfile.UpdateUserProfile` states. Only the stored document changes.
- Rendering, navigation, `src/config/firebase.ts` and the read-only hooks (`useEvents`, `useEvent`, `useOrganizer`) are outside this model.
