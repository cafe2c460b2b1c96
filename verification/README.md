# Bells Bank web client — a Dafny model of its session store and page logic

This project models the client side of the Bells Bank student banking app.

The centre of it is `AuthProvider` (`useAuth`), the session store every page reads. It is written as an explicit state machine:

- the state is the record `{session, user, profile, loading}` plus the `didInit` ref;
- the events are the init effect and its cleanup, `signIn`, `signUp`, `signOut`, the identity provider's auth events, and the settlement of each pending `await` or timer;
- the provider answers pending tasks in any order, and the code between two `await`s (a `finally` included) runs as one step;
- the requests the store sends to the provider (`onAuthStateChange`, `getSession`, the `profiles` select, the credential calls) are kept as a log, so ordering properties can be stated.

Around the store sit the decisions the pages take from it:

- the `ProtectedRoute` wrapper and the redirect gates of the Transfer, Profile and Cards pages;
- the Auth page's validation schemas, error map, toasts and submit flow;
- the Transfer page's three checks;
- the Profile page's initials and fallbacks, and the dashboard greeting;
- the Cards page's holder line, copied number and toggles;
- the recent-transactions list and its query, the History page's amounts and static list, and the bottom navigation bar.

Navigation and toasts are returned values, not effects.

Files:

- `wrappers.dfy`, `toast.dfy`: `Option` and the toast record.
- `text.dfy`: JavaScript's `trim`, `\s`, `split(" ")`/`join`, `includes` and an ASCII `toUpperCase`.
- `auth_store.dfy`: the store (`src/hooks/useAuth.tsx`).
- `auth_store_proofs.dfy`: properties over steps and traces.
- `gates.dfy`: `ProtectedRoute`, the page gates and the Auth page redirect.
- `auth_page.dfy`, `transfer_page.dfy`, `profile_page.dfy`, `index_page.dfy`, `cards_page.dfy`: the pages.
- `transaction_list.dfy`, `history_page.dfy`, `bottom_nav.dfy`: the list, the history and the navigation bar.

Facts about `src/hooks/useAuth.tsx` that shape the model:

- After the provider accepts the credentials, `signIn` and `signUp` re-read the session with `getSession` (`syncSession`, useAuth.tsx:126-128 and 145-147).
- `signIn`, `signUp` and `signOut` use `try/finally` without `catch` (useAuth.tsx:113-133, 138-152, 157-164). A rejected provider call therefore reaches the caller as an exception (`Threw`), after `loading` is reset.
- `signOut` ignores the result of the provider's `signOut` (useAuth.tsx:158). An answered sign-out therefore always clears session, user and profile, whether or not the provider reported an error. Only a rejected promise keeps them.
- "No user implies no profile" holds at each step that writes the user (`UserClearedWithProfile`), but not as an invariant of the store. A profile fetch deferred by an auth event (useAuth.tsx:83-84) can land after a sign-out, and `StaleProfileAfterSignOut` exhibits such a trace.
- The init effect guards itself with a `didInit` ref (useAuth.tsx:70-71), but its cleanup unsubscribes (useAuth.tsx:101-103). A mount, unmount and mount sequence (React's StrictMode in development) therefore leaves the store initialised and no longer listening to auth events (`RemountLeavesNoSubscription`).

## Model

| member | source | states |
|---|---|---|
| AuthStore.UserOf | src/hooks/useAuth.tsx:55 | the user is present exactly when the session is, and is the session's user |
| AuthStore.FinishSync | src/hooks/useAuth.tsx:95-99 | a `syncSession` that returns clears `loading` and changes nothing else of the state; the init chain reports nothing, and `signIn`/`signUp` return with no error |
| AuthStore.FailSync | src/hooks/useAuth.tsx:95-99 | a `syncSession` that throws leaves session, user and profile as they were and clears `loading`; the init chain swallows the exception, and `signIn`/`signUp` rethrow it |
| AuthStore.Initialize | src/hooks/useAuth.tsx:69-104 | when `didInit` is already set the effect changes nothing; otherwise it sets `didInit` and `loading`, subscribes, and only then issues the init `getSession` |
| AuthStore.HandleAuthEvent | src/hooks/useAuth.tsx:78-92 | the handler adopts session and user from the event; with no user it clears the profile in the same step, and with a user it only schedules a deferred fetch, issuing no request; `loading` is cleared only by `SIGNED_OUT` |
| AuthStore.ResumeLookup | src/hooks/useAuth.tsx:50-64 | a settled `getSession` sets session and user together; with no session it also clears the profile and finishes the sync, clearing `loading` and returning no error to `signIn`/`signUp` (the init run returns to nobody); with a user it issues the profile select and waits for it; a rejected lookup fails the sync |
| AuthStore.ResumeProfile | src/hooks/useAuth.tsx:35-48 | a profile query error keeps the profile, otherwise the profile becomes the row, `None` when no row matches; session and user are never touched; a fetch awaited by a sync then finishes it (`loading` cleared, `signIn`/`signUp` return no error); a timer-started fetch that rejects changes nothing |
| AuthStore.ResumeCredentials | src/hooks/useAuth.tsx:107-153 | on a provider error `signIn`/`signUp` skip `syncSession`, keep session, user and profile, clear `loading` and return the error; on a rejection they clear `loading` and throw; on success they start `syncSession` |
| AuthStore.ResumeSignOut | src/hooks/useAuth.tsx:155-165 | `loading` is false on exit; an answered sign-out clears session, user and profile; a rejected one leaves them and throws |
| AuthStore.Step | src/hooks/useAuth.tsx:101-165 | `signIn`, `signUp` and `signOut` start by raising `loading` and issuing exactly one provider call with the caller's arguments, suspending on it with nothing else changed; the effect's cleanup only unsubscribes; settling a task never changes `didInit` or the subscription |
| AuthStore.BalanceOrZero | src/pages/Transfer.tsx:64 | a missing profile counts as a zero balance, otherwise the profile's balance |
| AuthStoreProofs.StepPreservesInv | src/hooks/useAuth.tsx:50-165 | every event keeps the store invariant: user follows session, at most one subscription and one init lookup, and the init lookup issued only right after the subscription |
| AuthStoreProofs.RunPreservesInv | src/hooks/useAuth.tsx:50-165 | the invariant holds after every valid trace from a machine that has it |
| AuthStoreProofs.InitRunsOnce | src/hooks/useAuth.tsx:67-95 | over any trace, however often the effect runs, there is at most one subscription and one init `getSession`, and the lookup follows the subscription |
| AuthStoreProofs.UserFollowsSession | src/hooks/useAuth.tsx:54-55 | in every reachable state the user is the session's user, or absent with it |
| AuthStoreProofs.LoadingClearedOnlyByFinallyOrSignedOut | src/hooks/useAuth.tsx:89-99 | `loading` drops from true to false only in a `finally` that ends an operation, or on a `SIGNED_OUT` event, and each of those does clear it |
| AuthStoreProofs.LoadingRaisedOnlyByStart | src/hooks/useAuth.tsx:73 | `loading` rises only when an operation starts, and every start raises it |
| AuthStoreProofs.UserClearedWithProfile | src/hooks/useAuth.tsx:54-60 | a step that clears the user clears the profile in the same step; a step that does not write the user keeps it |
| AuthStoreProofs.ProfileFetchWritesOnlyProfile | src/hooks/useAuth.tsx:35-48 | settling a profile query never changes session or user; the profile becomes the row, or stays on error |
| AuthStoreProofs.SignInScenario | src/hooks/useAuth.tsx:136-153 | a successful sign-in, session lookup and profile select end with the session, its user and the row adopted, `loading` false and `signIn` returning no error |
| AuthStoreProofs.SignInErrorScenario | src/hooks/useAuth.tsx:136-153 | a refused sign-in changes nothing but `loading` (back to false) and returns the provider's error |
| AuthStoreProofs.StaleProfileAfterSignOut | src/hooks/useAuth.tsx:83-84 | a deferred profile fetch that lands after a sign-out leaves a profile with no user |
| AuthStoreProofs.RemountLeavesNoSubscription | src/hooks/useAuth.tsx:67-104 | mount, unmount and mount leave the store initialised but unsubscribed |
| Gates.ProtectedRoute | src/components/ProtectedRoute.tsx:9-21 | while loading the loading view shows whatever the session; after loading, no session redirects to `/auth` with `replace` and the current path as `from`, and a session renders the children |
| Gates.ProtectedRouteIgnoresUserAndProfile | src/components/ProtectedRoute.tsx:6-21 | two states with the same `loading` and session get the same outcome |
| Gates.SessionGate | src/pages/Transfer.tsx:24-40 | the Transfer and Profile pages navigate to `/auth` exactly when loading is over with no session; they show the loading view exactly while loading, and the page exactly with a session |
| Gates.UserGate | src/pages/Cards.tsx:19-35 | the Cards page gates on the user in the same way |
| Gates.GatesAgreeOnReachableStates | src/pages/Cards.tsx:19-35 | in every reachable store state the user gate and the session gate decide alike |
| Gates.AuthPageRedirect | src/pages/Auth.tsx:47-51 | the Auth page navigates to `/` with `replace` exactly when there is a user |
| Gates.AuthPageRedirectFollowsSession | src/pages/Auth.tsx:47-51 | in every reachable store state the Auth page redirects exactly when there is a session, and once loading is over exactly when the protected routes let the visitor through |
| AuthPage.EmailIssues | src/pages/Auth.tsx:14 | the e-mail is reported exactly when its trimmed value is not an e-mail, under the `email` key |
| AuthPage.PasswordIssues | src/pages/Auth.tsx:15 | the untrimmed password is reported exactly when shorter than six characters |
| AuthPage.LengthIssues | src/pages/Auth.tsx:19-22 | a trimmed field is reported exactly when its length is outside `[min, max]`, once, under its own key |
| AuthPage.LoginIssues | src/pages/Auth.tsx:13-16 | the login form passes exactly when e-mail and password both pass |
| AuthPage.SignupFieldIssues | src/pages/Auth.tsx:18-24 | the sign-up fields pass exactly when every field check passes |
| AuthPage.SignupIssues | src/pages/Auth.tsx:18-28 | the sign-up form passes exactly when every field passes and the passwords match; a mismatch is reported last, even when field checks fail |
| AuthPage.FieldErrorsKeys | src/pages/Auth.tsx:62-67 | the error map has a key for exactly the non-empty issue paths |
| AuthPage.FieldErrorsLastWins | src/pages/Auth.tsx:62-67 | for each key the message of the last issue with that path is shown |
| AuthPage.MismatchReportedUnderConfirm | src/pages/Auth.tsx:25-28 | mismatched passwords always show "Passwords don't match" under `confirmPassword` |
| AuthPage.LoginToast | src/pages/Auth.tsx:74-88 | "Invalid login credentials" becomes the friendly text, any other error shows verbatim; the toast is destructive exactly when `signIn` did not return cleanly |
| AuthPage.SignupToast | src/pages/Auth.tsx:117-137 | an error containing "already registered" gets the "Account Exists" title, any other error shows verbatim; destructive exactly when `signUp` did not return cleanly |
| AuthPage.HandleSubmit | src/pages/Auth.tsx:53-148 | validation failure sends no request, shows the error map and no toast; otherwise the errors are cleared, exactly the form's credentials are sent, and the toast is the login or sign-up toast of the store's reply; `isLoading` is false on exit |
| AuthPage.SubmitSendsOnlyValidForms | src/pages/Auth.tsx:53-148 | the store is asked exactly for forms the schema accepts; then the toast is an error toast exactly when the operation did not return cleanly; a rejected form never toasts |
| TransferPage.HandleTransfer | src/pages/Transfer.tsx:42-86 | the checks run in order and the first failure is reported alone: blank recipient, then a missing or non-positive amount, then an amount above the balance (zero without a profile); a refusal leaves the form unchanged, and acceptance only sets `isProcessing` |
| TransferPage.RefusalToast | src/pages/Transfer.tsx:45-71 | every refusal shows an error toast, titled "Insufficient Balance" for the balance check and "Error" otherwise, with that check's description |
| TransferPage.NoProfileRefusesEveryAmount | src/pages/Transfer.tsx:64 | without a profile every well-formed amount is refused for insufficient balance |
| TransferPage.WholeBalancePasses | src/pages/Transfer.tsx:64 | the balance check is strict, so the whole balance may be sent |
| TransferPage.CompleteTransfer | src/pages/Transfer.tsx:76-85 | the timer callback empties every field and clears `isProcessing` |
| ProfilePage.InitialsAreWordStarts | src/pages/Profile.tsx:38-42 | the initials are the upper-cased first characters of the name's non-empty space-separated words, or "U" when there are none or no profile |
| ProfilePage.InitialsCount | src/pages/Profile.tsx:38-42 | there is one initial per non-empty word |
| ProfilePage.BlankNameGivesU | src/pages/Profile.tsx:38-42 | a name made only of spaces gives "U" |
| ProfilePage.View | src/pages/Profile.tsx:84-156 | each field shows the profile's value or its fallback ("User", "Not set", a zero balance); the e-mail shows the profile's address, or the account's when the profile has none; with no profile every fallback applies |
| ProfilePage.ViewNeverBlank | src/pages/Profile.tsx:84-136 | heading, name, matric and phone lines never show blank, and the e-mail line is empty only when neither profile nor account offers an address |
| IndexPage.DisplayNameIsFirstWord | src/pages/Index.tsx:12 | the greeting is the name's first space-separated word, or "Student" when that word is empty or there is no profile |
| CardsPage.CardHolder | src/pages/Cards.tsx:109 | the holder line is the upper-cased name, or "CARD HOLDER" when there is no name |
| CardsPage.CopiedNumberIsDigits | src/pages/Cards.tsx:38-43 | the copied number is the sixteen digits with the spaces removed, and contains no white space |
| CardsPage.ShownNumber | src/pages/Cards.tsx:102 | the masked number shows exactly when the details are hidden |
| CardsPage.ToggleShow | src/pages/Cards.tsx:140 | the show/hide button flips the flag |
| CardsPage.ToggleLock | src/pages/Cards.tsx:50-57 | the lock button flips the flag, and its toast names the new state |
| CardsPage.CardHolderIsUpperCase | src/pages/Cards.tsx:109 | the holder line has no lower-case letter and upper-casing it again changes nothing |
| CardsPage.TogglesUndoThemselves | src/pages/Cards.tsx:50-57 | pressing either button twice restores the starting state, the two lock toasts differ, and each show/hide press switches the number on the card face |
| Text.TrimStart | src/pages/Transfer.tsx:45 | the result is a suffix of the input that drops only white space, and starts with a non-space character when non-empty |
| Text.TrimEnd | src/pages/Transfer.tsx:45 | the result is a prefix of the input that drops only white space, and ends with a non-space character when non-empty |
| Text.TrimEmptyIff | src/pages/Transfer.tsx:45 | a string trims to nothing exactly when all its characters are white space |
| Text.ToUpper | src/pages/Cards.tsx:109 | upper-casing keeps the length and maps each character on its own |
| Text.ToUpperIdempotent | src/pages/Cards.tsx:109 | upper-casing twice is upper-casing once, and leaves no lower-case letter |
| Text.RemoveWhitespace | src/pages/Cards.tsx:43 | the result has no white space and is no longer than the input, and a single character survives exactly when it is not white space |
| Text.RemoveWhitespaceCounts | src/pages/Cards.tsx:43 | every character that is not white space is kept as often as it occurs, and no white space is |
| Text.RemoveWhitespaceFixpoint | src/pages/Cards.tsx:43 | a string without white space is unchanged, so removal is idempotent |
| Text.RemoveWhitespaceAppend | src/pages/Cards.tsx:43 | removal distributes over concatenation |
| Text.Split | src/pages/Index.tsx:12 | splitting gives at least one piece, no piece contains the separator, and the first piece is the prefix up to the first separator |
| Text.JoinSplit | src/pages/Profile.tsx:38-41 | joining the pieces of a split with the same separator gives back the string |
| Text.SplitJoin | src/pages/Profile.tsx:38-41 | splitting a join of separator-free pieces gives back the pieces |
| Text.FirstCharsLength | src/pages/Profile.tsx:40-41 | mapping pieces to their first characters keeps one character per non-empty piece |
| Text.FirstCharsOfSplit | src/pages/Profile.tsx:38-41 | the first characters of the split pieces are the word starts of the string |
| Text.WordStartsEmptyIff | src/pages/Profile.tsx:38-42 | there are no word starts exactly when every character is the separator |
| Text.ContainsIff | src/pages/Auth.tsx:118 | `includes` holds exactly when the needle occurs at some position |
| TransactionList.QueryFn | src/components/TransactionList.tsx:45-57 | without a user id the query function returns no rows; otherwise it throws on a provider error and returns the rows |
| TransactionList.QueryKey | src/components/TransactionList.tsx:44 | the key's variable part is present exactly with a user, and is that user's id |
| TransactionList.DataFor | src/components/TransactionList.tsx:43-44 | the component reads the entry under its user's key, and nothing when that key has no entry |
| TransactionList.RunQuery | src/components/TransactionList.tsx:43-59 | a disabled query does not run, an error keeps the cache, and fetched rows become the entry under the user's key |
| TransactionList.EnabledIffLiveKey | src/components/TransactionList.tsx:44-58 | the query is enabled exactly for a key holding a non-empty user id |
| TransactionList.RunQueryTouchesOwnKey | src/components/TransactionList.tsx:44 | a run changes no entry under another user's key |
| TransactionList.OnlyLiveKeysFilled | src/components/TransactionList.tsx:44-58 | whatever users come and go, no entry is ever stored under a key without a user id |
| TransactionList.NoUserMeansEmptyList | src/components/TransactionList.tsx:43-79 | without a user id the list reads a never-filled entry, so once loading is over it shows the empty state, even after another user's rows were fetched and that user signed out |
| TransactionList.NoUserKeepsCache | src/components/TransactionList.tsx:58 | runs made while no user with an id is signed in leave the cache as it was |
| TransactionList.Title | src/components/TransactionList.tsx:104 | the row title is the recipient name, or the description when the name is absent or empty |
| TransactionList.RenderRow | src/components/TransactionList.tsx:81-114 | only credits get "+", debits and transfers get "-"; the magnitude is the absolute amount for every type; the title follows `Title`; every row but the last has a divider |
| TransactionList.RenderList | src/components/TransactionList.tsx:71-83 | the spinner shows exactly while loading, the empty state exactly for no rows, and otherwise one row per transaction in order |
| TransactionList.ReadAmountIff | src/components/TransactionList.tsx:82-83 | the printed sign and magnitude give back the displayed amount exactly when the stored amount is not negative |
| TransactionList.OnlyLastRowUndivided | src/components/TransactionList.tsx:89 | in a rendered list exactly the last row has no divider |
| HistoryPage.FormatAmount | src/pages/History.tsx:81-84 | a negative amount prints "-", zero and positive amounts print "+", and the magnitude is the absolute value |
| HistoryPage.ReadFormatRoundTrip | src/pages/History.tsx:81-84 | reading back the printed sign and magnitude gives the amount |
| HistoryPage.FormatAmountInjective | src/pages/History.tsx:81-84 | different amounts never print alike |
| HistoryPage.AmountColour | src/pages/History.tsx:131 | the amount is red exactly when it is negative |
| HistoryPage.ColourAgreesWithSign | src/pages/History.tsx:131-132 | the colour always agrees with the printed sign |
| HistoryPage.EntriesConsistent | src/pages/History.tsx:9-76 | the static entries have distinct ids, "sent" entries are negative, "received" entries are positive, and each prints with its kind's sign |
| BottomNav.Highlights | src/components/BottomNav.tsx:18-19 | an item is highlighted exactly when the path equals the item's path |
| BottomNav.ItemsFixed | src/components/BottomNav.tsx:4-10 | there are five items in a fixed order, with distinct names and distinct paths |
| BottomNav.AtMostOneActive | src/components/BottomNav.tsx:4-19 | at most one item is highlighted, and one is exactly when the path is one of the bar's paths |
| BottomNav.UnlistedPathsHighlightNothing | src/components/BottomNav.tsx:19 | `/auth`, `/transfer/x` and `/profile/` highlight nothing, because no prefix matching happens |

## Left out

- React rendering, styling, Helmet, icons, the router and the toast queue: navigation and toasts are returned values.
- The identity provider and the database are not modelled. Every call the store makes is a pending task the trace settles with any outcome its shape allows.
- The store does not model the timing of `setTimeout`, microtasks or React's batching of state updates. The code between two `await`s is one step, and each deferred fetch is a task a later `TimerFired` settles.
- `signUp`'s `emailRedirectTo` (from `window.location`) is not modelled.
- `console.error` logging is not modelled.
- The e-mail check of the schema library: `IsEmail` is a simplified structural stand-in, and the contracts are stated in terms of it.
- The schema library's issue objects carry only the first path element and the message.
- `parseFloat` is not modelled: the Transfer page receives the parsed amount, with `None` for `NaN`.
- Floating-point arithmetic: amounts and balances are mathematical reals.
- `toLocaleString`, `Intl.NumberFormat` and the currency symbol are not modelled: a printed amount is its sign and its magnitude.
- `formatDate` in src/components/TransactionList.tsx is not modelled, because it reads the wall clock.
- The query's database-side ordering and six-row limit are not modelled. The rows arrive as the provider returns them.
- The react-query cache is a map from the user id in the key to the stored rows. Staleness, refetch timing, garbage collection and retries are not modelled.
- Whether react-query reports `isLoading` for a disabled query depends on the library version. `RenderList` takes the flag as an input.
- Text.ToUpper: maps ASCII letters only, not the full Unicode case mapping of `toUpperCase`.
- Strings are sequences of code points: a character outside the Basic Multilingual Plane counts once, where JavaScript counts two UTF-16 units. This changes the length bounds of the schemas and the initials (below).
- ProfilePage.Initials: takes the whole first character of each word, where `n[0]` (src/pages/Profile.tsx:40) takes one UTF-16 unit, so a word starting outside the Basic Multilingual Plane gives a lone surrogate in the app.
- The Transfer success toast is not modelled, because it only formats the amount and recipient.
- The Profile page's edit mode is not modelled: it has inputs but no save handler.
- src/components/QuickActions.tsx, src/pages/Contact.tsx, src/pages/About.tsx, src/components/Header.tsx and src/components/BalanceCard.tsx are not part of this model. They hold markup, constant data and formatting only.
