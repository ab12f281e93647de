# Onchain bonding game client, modelled in Dafny

This project models the client side of the onchain bonding game, a Next.js
app where players connect a browser wallet, register a profile and compare
scores on a leaderboard. The model covers:

- the profile form of the register page: nickname validation, the
  favourite-chain toggle, the chain summaries, the save button and `handleSave`;
- the leaderboard page: normalising the user list, the stable sort by score,
  the podium and `#n` labels, the connected user's rank and shortened address;
- the API helpers: the auth headers, the token kept in `localStorage`, the
  request shapes, how replies become results or error messages, and the
  game-history URL;
- the `RequireWalletNoti` redirect countdown;
- the `Web3Provider` wallet session: connect, disconnect, the
  `accountsChanged` handler and the start-up `checkConnection`;
- the iOS and MetaMask-browser checks.

Modules follow the source files:

| module | file | source |
|---|---|---|
| `Wrappers` | `wrappers.dfy` | `Option` and `Result` |
| `Js` | `js.dfy` | the JavaScript string and number built-ins the client relies on: `trim`, `includes`, `slice`, number printing |
| `Http` | `http.dfy` | what a `fetch` can yield |
| `BrowserEnv` | `browser_env.dfy` | `window.ethereum` and `navigator` |
| `Users` | `users.dfy` | user records, body normalisation, the sort by score |
| `ApiUtils` | `api_utils.dfy` | `src/components/apiUtils.ts` |
| `Register` | `register.dfy` | `src/app/register/page.tsx` |
| `Leaderboard` | `leaderboard.dfy` | `src/app/leaderboard/page.tsx` |
| `RedirectCountdown` | `redirect_countdown.dfy` | `src/components/requireWalletNoti.tsx` |
| `Web3Session` | `web3_session.dfy` | `src/app/contexts/Web3Context.tsx` |
| `IosDetection` | `ios_detection.dfy` | `src/components/useIsIOS.ts` |
| `MetaMaskBrowser` | `metamask_browser.dfy` | `src/components/useIsMetaMaskBrowser.ts` |

Component state that React keeps with `useState`, plus `localStorage`, is
modelled as classes with fields (`RegisterForm`, `LeaderboardPage`,
`TokenStore`, `RequireWalletNoti`, `Web3Provider`). Each event handler is a
method whose `ensures` gives the new state. Pure helpers are functions.

The outside world becomes parameters:

- the reply to each `fetch`;
- the wallet's answer to `eth_requestAccounts` and `eth_accounts`;
- the navigator and `window.ethereum` values;
- each timer callback, as one method call.

Modelling notes:

- **Sort.** `Array.prototype.sort` is stable (ECMAScript 2019). `Users.Sort`
  is a stable insertion sort by descending score. `Users.StableSortIsUnique`
  shows that any stable descending sort gives the same list, so the result
  does not depend on the engine's algorithm.
- **Sort in place.** The sort happens in place on the parsed array. This is
  `Users.SortInPlace`, which is proved equal to `Users.Sort`.
- **Stale closure in `handleSave`.** The catch block merges the new message
  into the `errors` value from the render that created the handler. It does
  not use the errors `validateForm` just wrote. The model keeps this:
  `Register.SaveOutcome` merges the message into the render-time errors,
  and `RegisterForm.HandleSave` passes it `old(errors)`.
- **Toggling a chain twice.** This restores the selection only if the chain
  was unselected at first. A selected chain moves to the end instead
  (`Register.ToggleTwiceMovesToEnd`).
- **Save button vs `validateForm`.** The button lets a nickname of one or
  two characters through, and `validateForm` then rejects it
  (`Register.EnabledButInvalid`).
- **Nickname length message.** The "longer" message says "less than 20
  characters", but the code accepts a trimmed length of exactly 20.
  `Register.NicknameError` follows the code.
- **`isMetaMask` checks differ.** `connect` accepts any truthy `isMetaMask`.
  The MetaMask-browser check needs exactly `true`
  (`MetaMaskBrowser.TruthyIsNotEnough`).

## Model

| member | source | states |
|---|---|---|
| `Js.TrimStartSpec` | src/app/register/page.tsx:60-65 | `TrimStart`, the leading half of `trim`, leaves a suffix of the input, removes only white space and stops at a non-space character |
| `Js.TrimEndSpec` | src/app/register/page.tsx:60-65 | `TrimEnd`, the trailing half of `trim`, leaves a prefix of the input, removes only white space and stops at a non-space character |
| `Js.TrimSpec` | src/app/register/page.tsx:60-65 | `Trim` (`String.prototype.trim` over the ECMAScript white-space and line-terminator set): the result is a slice of the input, empty iff the input is all white space, and otherwise starts and ends with a non-space character |
| `Js.Contains` | src/components/useIsIOS.ts:47-48 | `includes` is true exactly when the pattern occurs at some index |
| `Js.Take` | src/app/leaderboard/page.tsx:76 | `slice(0, n)`: the first n elements, or all of a shorter input |
| `Js.Drop` | src/app/leaderboard/page.tsx:77 | `slice(n)`: take and drop concatenate back to the input |
| `Js.TakeLast` | src/app/leaderboard/page.tsx:81 | `slice(-n)`: the last n elements, or all of a shorter input |
| `Js.NatToString` | src/app/leaderboard/page.tsx:161 | the decimal numeral of a number: only digits, and no leading zero |
| `Js.IntToString` | src/components/apiUtils.ts:167 | the numeral of an integer: a minus sign exactly for negative numbers, then digits |
| `Js.NatToStringRoundTrip` | src/app/leaderboard/page.tsx:161 | reading the printed numeral back gives the number |
| `Js.IntToStringRoundTrip` | src/components/apiUtils.ts:167 | reading a printed integer back (sign included) gives the integer |
| `Js.NatToStringInjective` | src/app/leaderboard/page.tsx:161 | distinct numbers print differently |
| `Js.LeadingDigits` | src/components/apiUtils.ts:66 | a reader, not code of the source: the longest run of digits at the front of a string, followed by a non-digit or the end; it reads back the status printed at this line |
| `Js.LeadingDigitsOfNumeral` | src/components/apiUtils.ts:123 | a reader for the status printed at this line: a numeral followed by a non-digit is exactly the leading digits |
| `Users.ExtractUsers` | src/app/leaderboard/page.tsx:34-44 | the list is the body when it is an array, else its `users` array, else its `data` array; any other body fails with "Invalid data format: expected an array of users" |
| `Users.UsersFromReply` | src/app/leaderboard/page.tsx:24-54 | a rejected fetch, a non-ok status ("Failed to fetch users"), a body that is not JSON and a body without an array each give their message; otherwise the result is a permutation of the extracted array, sorted by score from highest to lowest |
| `Users.ShortAddress` | src/app/leaderboard/page.tsx:81 | the first six characters, "..." and the last four; 13 characters for an address of at least ten |
| `Users.Insert` | src/app/leaderboard/page.tsx:47 | one insertion step adds exactly one element |
| `Users.InsertPermutes` | src/app/leaderboard/page.tsx:47 | an insertion step adds exactly the inserted user to the multiset |
| `Users.InsertSorted` | src/app/leaderboard/page.tsx:47 | inserting into a list sorted by score keeps it sorted |
| `Users.Sort` | src/app/leaderboard/page.tsx:47 | the sort keeps the number of users |
| `Users.SortSortsByScore` | src/app/leaderboard/page.tsx:47 | the comparator `b.score - a.score` gives a permutation of the input with non-increasing scores |
| `Users.WithScore` | src/app/leaderboard/page.tsx:47 | the users with a given score, in input order, all have that score |
| `Users.WithScoreAppend` | src/app/leaderboard/page.tsx:47 | taking the users with one score distributes over concatenation |
| `Users.InsertKeepsTies` | src/app/leaderboard/page.tsx:47 | an insertion step puts the new user after every user with an equal score |
| `Users.SortIsStable` | src/app/leaderboard/page.tsx:47 | users with equal scores keep their relative order (the sort is stable) |
| `Users.SortedTiesDetermine` | src/app/leaderboard/page.tsx:47 | two score-sorted lists that order every score group the same way are equal |
| `Users.StableSortIsUnique` | src/components/apiUtils.ts:103 | any stable sort of the list by descending score is `Sort` of it, so the result does not depend on the engine's algorithm |
| `Users.InsertAt` | src/components/apiUtils.ts:103 | one pass of the in-place sort moves the next element into the sorted prefix and leaves the rest of the array alone |
| `Users.InsertSplit` | src/components/apiUtils.ts:103 | inserting into a sorted list places the new user just after the last user whose score is at least its own |
| `Users.SortInPlace` | src/components/apiUtils.ts:103 | the in-place sort leaves the array equal to `Sort` of its old contents |
| `ApiUtils.HeaderValue` | src/components/apiUtils.ts:8-11 | the value of a header is present exactly when a header with that name is present, and it is the value of the first such header |
| `ApiUtils.StoredToken` | src/components/apiUtils.ts:7 | `getItem('Token')` is null exactly when the key is absent, and otherwise gives the stored value |
| `ApiUtils.TokenStore.constructor` | src/components/apiUtils.ts:184-204 | the store starts with the given storage |
| `ApiUtils.TokenStore.SaveToken` | src/components/apiUtils.ts:186-188 | the "Token" key now holds the token and every other key keeps its value |
| `ApiUtils.TokenStore.GetToken` | src/components/apiUtils.ts:191-193 | the token is `StoredToken` of the storage: null when no "Token" key is stored, else the stored value |
| `ApiUtils.TokenStore.RemoveToken` | src/components/apiUtils.ts:196-198 | the "Token" key is gone and nothing else changes |
| `ApiUtils.TokenStore.IsAuthenticated` | src/components/apiUtils.ts:201-203 | true exactly when a non-empty token is stored (`HasToken`) |
| `ApiUtils.TokenStore.AuthHeaders` | src/components/apiUtils.ts:6-12 | JSON content type is always first, and "Authorization" is "Bearer " + token exactly when a non-empty token is stored; otherwise that header is absent |
| `ApiUtils.SaveThenGet` | src/components/apiUtils.ts:186-193 | after saving a token, reading it gives that token |
| `ApiUtils.RemoveThenCheck` | src/components/apiUtils.ts:196-203 | after removing the token, reading gives null and the user is not authenticated; the storage is the old one without the "Token" key |
| `ApiUtils.LoginRequest` | src/components/apiUtils.ts:107-119 | a POST to `/auth/login` with body `{userId: "", walletId}`, JSON content type and no Authorization header; `BaseUrl` prints an unset base as "undefined" |
| `ApiUtils.RegisterRequest` | src/components/apiUtils.ts:130-143 | a POST to `/auth/register` carrying the registration data, with JSON content type and no Authorization header |
| `ApiUtils.AuthorizedGet` | src/components/apiUtils.ts:59-63 | a GET to the URL, with no body, carrying the bearer token exactly when one is stored |
| `ApiUtils.FailureStatusReadsBack` | src/components/apiUtils.ts:66 | an error message made of a prefix and the status can be read back to give the status |
| `ApiUtils.PostOutcome` | src/components/apiUtils.ts:121-126 | login and register: a non-ok status fails with prefix, status, " - " and the body text, and the status can be read back; an ok reply gives the parsed body |
| `ApiUtils.GameHistoryOutcome` | src/components/apiUtils.ts:175-179 | a non-ok status fails with "Failed to fetch game history: " and a status that reads back; an ok reply gives the parsed body |
| `ApiUtils.UnwrapProfile` | src/components/apiUtils.ts:69-74 | the profile is returned exactly when `success` is true and `data` is present; otherwise "Invalid response format" |
| `ApiUtils.GetMe` | src/components/apiUtils.ts:59-75 | a rejected fetch gives its message; a non-ok status gives "Failed to fetch profile: " and the status; a body that is not JSON gives the parse error; otherwise the body is unwrapped |
| `ApiUtils.GetAllUsers` | src/components/apiUtils.ts:78-104 | equals `UsersFromReply`, so every failure case and the sorted permutation hold for `getAllUsers` too |
| `ApiUtils.BuildGameHistoryUrl` | src/components/apiUtils.ts:157-168 | the URL built by successive `+=` equals the base, `/user/game-history`, the user id as a path segment if it is truthy, and `?limit=` with the limit if it is truthy (the pure `GameHistoryUrl`) |
| `ApiUtils.IndexOf` | src/components/apiUtils.ts:166-168 | a reader, not code of the source: the first index of a character, or none when it does not occur; it finds the `?` this code appends |
| `ApiUtils.GameHistoryUrlRoundTrip` | src/components/apiUtils.ts:157-168 | when neither the base nor the user id holds a '?', the URL has a query exactly when the limit is non-zero, and the query reads back as the limit |
| `Register.FindChain` | src/app/register/page.tsx:317-319 | `blockchains.find`: the first catalogue entry with that id, or none exactly when no entry has it |
| `Register.NicknameError` | src/app/register/page.tsx:60-66 | on the trimmed nickname: "required" iff it is empty, "at least 3" iff its length is 1-2, "less than 20" iff it is longer than 20; no error iff the length is 3-20 |
| `Register.ValidationErrors` | src/app/register/page.tsx:57-74 | the errors `validateForm` writes; they are empty exactly when the form is valid (`FormIsValid`: trimmed nickname of 3-20 characters and at least one chain) |
| `Register.Without` | src/app/register/page.tsx:380-382 | the filter keeps exactly the other chains |
| `Register.ToggleMembership` | src/app/register/page.tsx:379-388 | after a click (`Toggle`: filter out a selected chain, append an unselected one) a chain is selected iff it was selected or was the clicked one, but not both |
| `Register.WithoutAbsent` | src/app/register/page.tsx:380-382 | filtering out an absent chain changes nothing |
| `Register.WithoutOne` | src/app/register/page.tsx:380-382 | filtering out a chain that occurs once removes just that occurrence and keeps the order |
| `Register.ToggleRemoves` | src/app/register/page.tsx:379-383 | clicking a selected chain removes it and keeps the others in order |
| `Register.ToggleAppends` | src/app/register/page.tsx:384-387 | clicking an unselected chain appends it |
| `Register.ToggleKeepsNoDuplicates` | src/app/register/page.tsx:379-388 | the selection never gets a duplicate |
| `Register.WithoutAppended` | src/app/register/page.tsx:380-387 | appending an absent chain and filtering it out gives back the list |
| `Register.ToggleTwiceRestores` | src/app/register/page.tsx:379-388 | two clicks on an unselected chain restore the selection |
| `Register.ToggleTwiceMovesToEnd` | src/app/register/page.tsx:379-388 | two clicks on a selected chain move it to the end; the list comes back unchanged iff it was already last |
| `Register.Summary` | src/app/register/page.tsx:314-345 | the placeholder iff nothing is selected; otherwise the first chains (two in the dropdown, three in the preview) and a "+N more" count exactly when more are selected, counting the rest; `DropdownSummary` and `PreviewSummary` instantiate it with 2 and 3 |
| `Register.MoreLabel` | src/app/register/page.tsx:338-340 | the "+N more" text is "+", the numeral of N and " more", and N reads back from it |
| `Register.ChipsFindTheirChains` | src/app/register/page.tsx:316-334 | when every selected id is a catalogue id (`InCatalogue`), `blockchains.find` (`FindChain` over `Blockchains`, per chip in `ShownChains`) finds the chain with that id for every chip of the dropdown and the preview |
| `Register.ToggleKeepsInCatalogue` | src/app/register/page.tsx:366-388 | clicking a chain of the dropdown list, which offers only the catalogue, keeps every selected id in the catalogue |
| `Register.PreviewName` | src/app/register/page.tsx:446-448 | the preview shows the nickname as typed, or "Your Nickname" while it is empty |
| `Register.RegisterForm.constructor` | src/app/register/page.tsx:32-38 | empty nickname and selection, avatar and banner "1", not saving, no errors |
| `Register.RegisterForm.SetNickname` | src/app/register/page.tsx:288 | the nickname is the input's value |
| `Register.RegisterForm.ToggleChain` | src/app/register/page.tsx:379-388 | the selection becomes the toggle of the old one |
| `Register.RegisterForm.ValidateForm` | src/app/register/page.tsx:57-74 | writes the validation errors and returns true iff the form is valid |
| `Register.SaveOutcomeSpec` | src/app/register/page.tsx:76-117 | about `SaveOutcome`, handleSave as a function: an invalid form only shows its validation errors and submits nothing. A valid form is submitted exactly when the account is truthy, with the trimmed nickname, wallet, avatar, banner and chains. Only a non-empty token is saved, and only then does the page navigate to /profile, with no errors left. Without an account, with a failure or with a missing token, the general message ("Wallet not connected", the error's message or, when that is empty, the default of `GeneralMessage`, "Registration failed - no token received") is set over the rendered errors and storage is untouched |
| `Register.RegisterForm.HandleSave` | src/app/register/page.tsx:76-117 | the errors, the data submitted, the navigation and `localStorage` are exactly `SaveOutcome` of the render-time errors, the form, the account and the reply (whose properties `SaveOutcomeSpec` proves); for a valid form, saving ends false |
| `Register.ValidFormCanBeSaved` | src/app/register/page.tsx:490-492 | the button's `disabled` (`RegisterForm.SaveDisabled`) is false for a form `validateForm` accepts while no save is under way |
| `Register.DisabledFormIsInvalid` | src/app/register/page.tsx:490-492 | a disabled button (`RegisterForm.SaveDisabled`) while no save is under way means `validateForm` rejects the form |
| `Register.SavingDisablesButton` | src/app/register/page.tsx:490-492 | while a save is under way `RegisterForm.SaveDisabled` holds, whatever the form holds |
| `Register.EnabledButInvalid` | src/app/register/page.tsx:490-492 | `RegisterForm.SaveDisabled` is false for "ab" with one chain, which `validateForm` rejects as too short |
| `Leaderboard.TopThree` | src/app/leaderboard/page.tsx:76 | the podium holds the first three users, or all of them when there are fewer |
| `Leaderboard.PodiumSplit` | src/app/leaderboard/page.tsx:76-77 | the podium followed by the remaining list is the whole sorted list (`RemainingUsers` is `slice(3)`) |
| `Leaderboard.PositionLabelIsRank` | src/app/leaderboard/page.tsx:151-161 | the index-th remaining user is user index + 4 of the full list, and its label `#` + number reads back as index + 4 (`PositionLabel`) |
| `Leaderboard.PositionLabelsDistinct` | src/app/leaderboard/page.tsx:161 | different rows carry different labels |
| `Leaderboard.FindIndex` | src/app/leaderboard/page.tsx:83 | `findIndex`: the first user whose wallet is the account, or -1 exactly when none is |
| `Leaderboard.Rank` | src/app/leaderboard/page.tsx:83 | the rank lies in 1..n+1; it is at most n iff some user has the account's wallet, and then it is the 1-based position of the first such user |
| `Leaderboard.DisplayName` | src/app/leaderboard/page.tsx:81 | the shortened account when it is truthy, else "You" |
| `Leaderboard.LeaderboardPage.constructor` | src/app/leaderboard/page.tsx:18-20 | no users, loading, no error |
| `Leaderboard.LeaderboardPage.FetchUsers` | src/app/leaderboard/page.tsx:23-58 | loading ends; a success stores the sorted, normalised users; a failure records its message and keeps the old list |
| `RedirectCountdown.TickStep` | src/components/requireWalletNoti.tsx:22-41 | one interval callback: unmounted, it clears the interval; at 1 or below, it clears the interval, schedules the redirect and shows 0; otherwise it counts down by one; a cleared interval does nothing |
| `RedirectCountdown.TickKeepsCountdownNatural` | src/components/requireWalletNoti.tsx:28-39 | the countdown never goes negative |
| `RedirectCountdown.OnlyZeroTickRedirects` | src/components/requireWalletNoti.tsx:29-37 | the only tick that schedules the redirect is a mounted one at 1 or below, and it shows 0 and stops the interval |
| `RedirectCountdown.TicksCountDown` | src/components/requireWalletNoti.tsx:22-41 | from n, the first n-1 ticks count down without scheduling, and tick n schedules the redirect and stops (`Ticks` runs the step k times) |
| `RedirectCountdown.StoppedStaysStopped` | src/components/requireWalletNoti.tsx:22-30 | once cleared, the interval changes nothing more |
| `RedirectCountdown.FifthTickRedirects` | src/components/requireWalletNoti.tsx:14-41 | from 5, ticks 0-4 show 5 down to 1 and the fifth tick schedules the redirect |
| `RedirectCountdown.SecondsWord` | src/components/requireWalletNoti.tsx:91 | "second" exactly at 1, "seconds" otherwise |
| `RedirectCountdown.RequireWalletNoti.constructor` | src/components/requireWalletNoti.tsx:14-22 | mounted at 5, with an interval armed exactly when there is no truthy account, and no navigation |
| `RedirectCountdown.RequireWalletNoti.Tick` | src/components/requireWalletNoti.tsx:22-41 | the state moves by one `TickStep`; the account and navigations are unchanged |
| `RedirectCountdown.RequireWalletNoti.RunRedirectTimeout` | src/components/requireWalletNoti.tsx:32-36 | the pending timeout fires and replaces the route with "/" only if still mounted |
| `RedirectCountdown.RequireWalletNoti.Unmount` | src/components/requireWalletNoti.tsx:43-51 | the cleanup clears the interval and marks the component unmounted |
| `RedirectCountdown.RequireWalletNoti.AccountChanged` | src/components/requireWalletNoti.tsx:17-52 | the effect re-runs: mounted again, the interval armed iff the new account is not truthy, and the countdown not reset |
| `RedirectCountdown.RequireWalletNoti.BackToHome` | src/components/requireWalletNoti.tsx:84 | the button replaces the route with "/" at once |
| `RedirectCountdown.RequireWalletNoti.Render` | src/components/requireWalletNoti.tsx:54-99 | the children iff the account is truthy, else the notice with the countdown text (`NoticeText`, with `SecondsWord`) |
| `RedirectCountdown.MountWithAccount` | src/components/requireWalletNoti.tsx:54-99 | with an account, no interval runs and the children show |
| `RedirectCountdown.CountDownToRedirect` | src/components/requireWalletNoti.tsx:14-41 | without an account, five ticks and the timeout give exactly one navigation, to "/" |
| `Web3Session.DetectWalletType` | src/app/contexts/Web3Context.tsx:164-170 | MetaMask iff `isMetaMask` is truthy, else Coinbase iff `isCoinbaseWallet` is truthy, else WalletConnect; none exactly when no flag is truthy; the detected type's flag holds (`Detected`) |
| `Web3Session.NoFlagNoWallet` | src/app/contexts/Web3Context.tsx:164-170 | without any truthy flag no wallet type is detected |
| `Web3Session.FirstAccount` | src/app/contexts/Web3Context.tsx:135 | `accounts[0]`: present exactly for a non-empty list, and then the first account |
| `Web3Session.Web3Provider.constructor` | src/app/contexts/Web3Context.tsx:72-75 | no account, provider or wallet type, and not connecting |
| `Web3Session.Web3Provider.Connect` | src/app/contexts/Web3Context.tsx:101-144 | without `window.ethereum` nothing changes; otherwise connecting ends false; a wallet whose flag is not truthy, or a failed request, changes nothing else; success sets the first account, a provider over `window.ethereum` and the wallet type |
| `Web3Session.Web3Provider.Disconnect` | src/app/contexts/Web3Context.tsx:146-150 | account, provider and wallet type are cleared; connecting is unchanged |
| `Web3Session.Web3Provider.SetAccount` | src/app/contexts/Web3Context.tsx:72 | only the account changes |
| `Web3Session.Web3Provider.AccountsChanged` | src/app/contexts/Web3Context.tsx:82-84 | the account is the first one when it is non-empty, else null; nothing else changes |
| `Web3Session.Web3Provider.CheckConnection` | src/app/contexts/Web3Context.tsx:154-175 | with at least one account, sets it and a provider, and the detected wallet type if any (else keeps the old one); otherwise, or on failure, nothing changes |
| `Web3Session.ConnectThenDisconnect` | src/app/contexts/Web3Context.tsx:101-150 | whatever the wallet answered, connect then disconnect leave no session |
| `IosDetection.IsIOSDevice` | src/components/useIsIOS.ts:18-78 | true exactly when one of four tests holds: an iOS platform; MacIntel with more than one touch point; an "iPad" user agent, or a "Mac" one with touch events; or the iOS regex without MSStream; the four tests are `IOSPlatform`, `TouchMac`, `IPadUserAgent` and `IOSSafari`, over `Platform`, `UserAgent` and `MultiTouch` |
| `IosDetection.IPadInRegexIsRedundant` | src/components/useIsIOS.ts:47-72 | the `iPad` alternative of the final regex never decides the answer |
| `IosDetection.NoNavigatorIsNotIOS` | src/components/useIsIOS.ts:19-20 | without a navigator the device is never iOS |
| `IosDetection.IPhoneUserAgentIsIOS` | src/components/useIsIOS.ts:63 | an "iPhone" user agent without MSStream is iOS on any platform |
| `IosDetection.UseIsIOS` | src/components/useIsIOS.ts:10-100 | false until the effect has run, then the detector's answer |
| `MetaMaskBrowser.DetectMetaMaskBrowser` | src/components/useIsMetaMaskBrowser.ts:11-28 | true exactly when the user agent contains "MetaMask" and `window.ethereum.isMetaMask` is exactly `true` |
| `MetaMaskBrowser.MissingUserAgentIsNotMetaMask` | src/components/useIsMetaMaskBrowser.ts:12 | a missing user agent is never the MetaMask browser |
| `MetaMaskBrowser.TruthyIsNotEnough` | src/components/useIsMetaMaskBrowser.ts:19-21 | a truthy, non-boolean `isMetaMask` passes connect's check but not this one |
| `MetaMaskBrowser.UseIsMetaMaskBrowser` | src/components/useIsMetaMaskBrowser.ts:7-44 | false until the effect has run, then the detector's answer |

## Left out

- The realtime match protocol (rooms, moves, results) is not part of this
  model. Its client pages are only context here.
- Wallet I/O: the `ethers.BrowserProvider` is a record of the object it wraps,
  and the wallet's answers are parameters. Signing and chain switching are
  not modelled.
- The `chainChanged` handler only reloads the page. The model has no page
  reload.
- Listener registration and removal are not modelled. `AccountsChanged` is
  callable only while `window.ethereum` exists, which is when the listener
  is registered.
- `fetch` and `response.json()` are not modelled: each reply is a parameter
  holding the status and the parsed body or the parse error.
- `JSON.stringify` of request bodies is not modelled; requests carry the
  body as a value.
- `Users.User` holds the fields of the leaderboard page's `User` interface.
  The `UserProfile` fields outside it (`_id`, `bannerId`, `gameHistory`) are
  left out.
- `localStorage` is a map held by `TokenStore`. Quotas and other tabs are
  not modelled.
- Timers are discrete steps: each interval callback and the zero-delay
  timeout is one method call. Real time and interleaving with other events
  are not modelled.
- React's render batching and strict-mode double effects are not modelled.
  A state update takes effect when its method returns.
- Numbers are unbounded integers. Scores are not treated as floating point,
  and a `NaN` or missing score in the comparator is not modelled.
- `Js.NatToString`: prints every number in plain decimal. JavaScript switches
  to exponent form from 10^21 on; that form is not modelled.
- Strings are sequences of code points, not UTF-16 units. `length` and
  `slice` agree with JavaScript only outside the astral planes.
- `Users.SortInPlace`: the engine's sorting algorithm is not known.
  The model sorts the parsed array in place by insertion.
  `Users.StableSortIsUnique` makes the result algorithm-independent.
  The sort's aliasing of the parsed body is not modelled.
- The `default: throw 'Unsupported wallet type'` branch of `connect` cannot
  be reached with the three wallet types, so it has no model.
- `Leaderboard.LeaderboardPage.FetchUsers`: every thrown value is an
  `Error`, so the "Unknown error" fallback is not modelled.
- The register page's avatar and banner pickers, the dropdown's open state
  and its outside-click listener are not modelled. The avatar and banner
  keep their initial "1".
- The connect buttons of the register page call `connect`, which is modelled
  as `Web3Provider.Connect`. Their rendering is not modelled.
- The other pages (profile, login, logout, play, scan, result, game history)
  are not part of this model.
- Console logging and the debug flag of the iOS check are not modelled.
