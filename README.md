# Movie discovery: search box, TMDb proxy and login form

This project models the sequential logic of a movie-discovery web application
and proves properties of the model. The application is a Next.js front end and
an Express back end that proxies TMDb, the movie metadata service. Three pieces
are modelled.

- **The search box** (`module SearchBar`, class `SearchBox`):
  - the bounded, most-recent-first list of recent searches, deduplicated ignoring case;
  - the suggestion listbox, which starts with a `Search “q”` entry followed by
    the unique matches from the recent and the popular searches;
  - arrow-key navigation with its modular index arithmetic;
  - the routing of a term to a fixed "special" page or to `/search?query=`
    followed by the `encodeURIComponent` of the term.
- **The back end's TMDb handlers** (`module Server`): `/api/search`,
  `/api/details/:mediaType/:id` and `/api/trending-picks`.
  - Each handler is a method. Its upstream `fetch` is a function from URL to
    response, passed in as a parameter. Each method also returns the URLs it
    requested, in order, so "no upstream call" can be stated.
  - The pure parts are functions: result normalisation, trailer choice,
    `slice(0, parseInt(limit))`, and the URL templates.
- **The login card** (`module Login`):
  - the field validity rule, including the `\S+@\S+\.\S+` e-mail shape;
  - the error and success indicators derived from it;
  - the form's state machine: mode switch, password and confirmation handlers,
    and the submit flow with its mismatch guard;
  - the redirect decision.

The JavaScript semantics the model depends on are written out. `module Text`
covers the white-space set shared by `trim` and `\s`, ASCII `toLowerCase`,
`includes`, `slice(0, end)` with negative ends, `indexOf`, `split`, `join` and
truthiness. `module Uri` covers `encodeURIComponent` over UTF-8 together with a
strict decoder. `module Hero` covers the hero banner's extraction of the
trailer key.

The search handler returns the bare array of normalised results, with no
pagination envelope, and the model follows that code.

## Model

| member | source | states |
|---|---|---|
| SearchBar.SavedRecents | frontend/src/components/SearchBar.jsx:47-55 | a blank term leaves the recents unchanged; otherwise, with a cap of at least one, the trimmed term comes first and the length is within the cap; no later entry equals the term ignoring case; the later entries are a subsequence of the old list; below the cap every old entry that differs ignoring case is kept; at the cap the oldest entries go: the later entries are a prefix of the old list without the term, and the length is the smaller of the cap and one more than that list's length |
| SearchBar.SaveRecentIdempotent | frontend/src/components/SearchBar.jsx:51 | saving the same term twice gives the same list as saving it once |
| SearchBar.SearchBox.SaveRecent | frontend/src/components/SearchBar.jsx:47-55 | the recents become the saved list of the old recents and the term |
| SearchBar.SearchBox.ClearRecents | frontend/src/components/SearchBar.jsx:57-60 | the recents become empty |
| SearchBar.Suggestions | frontend/src/components/SearchBar.jsx:95-108 | the list is empty exactly when the query is blank, and otherwise starts with `Search “query”` |
| SearchBar.SuggestionsSpec | frontend/src/components/SearchBar.jsx:99-103 | after the header, the entries are distinct and each contains the lower-cased trimmed query ignoring case; every matching recent or popular search appears; matching recents come before popular searches that are not recents |
| SearchBar.Dedup | frontend/src/components/SearchBar.jsx:102 | `[...new Set(xs)]` is duplicate-free and has the same elements as `xs` |
| SearchBar.DedupSnoc | frontend/src/components/SearchBar.jsx:102 | one more element is appended when new and ignored when already present |
| SearchBar.DedupFirstOccurrence | frontend/src/components/SearchBar.jsx:102 | the deduplicated list is in the order of first occurrence in `xs` |
| SearchBar.DedupAppend | frontend/src/components/SearchBar.jsx:102 | deduplicating a concatenation lists the first part's elements first |
| SearchBar.ArrowKeysStayInList | frontend/src/components/SearchBar.jsx:116-121 | from any index in [-1, n), both arrow keys land in [0, n); within [0, n) ArrowUp undoes ArrowDown and ArrowDown undoes ArrowUp; from -1, ArrowDown goes to 0 and ArrowUp goes to n-2 (or to 0 when n is 1) |
| SearchBar.SearchBox.OnKeyDown | frontend/src/components/SearchBar.jsx:111-147 | with the list closed or empty the arrows and Escape change nothing, and another key never does; the arrows move the highlight by the index rules and keep it in range; Escape closes the list; Enter first searches the highlighted entry's term when the list is open and an entry is highlighted, then, because the form submits, always searches the typed query: the routes come out in that order and the recents are the query saved after the pick; routes go through the corrected lookup `RouteFor` (see Findings) |
| SearchBar.SearchBox.PickHighlighted | frontend/src/components/SearchBar.jsx:122-130 | Enter's listbox part searches the highlighted entry's term exactly when the list is open and an entry is highlighted, and otherwise routes nowhere and leaves the recents alone |
| SearchBar.EnterOnSearchEntry | frontend/src/components/SearchBar.jsx:122-130 | Enter on the `Search “query”` entry searches the query twice, and the recents end as if it were searched once |
| SearchBar.RouteForSpec | frontend/src/components/SearchBar.jsx:70-79 | a blank term has no route; a term whose lower-cased trim is a special key goes to its fixed path; any other term goes to `/search?query=` followed by an encoding that decodes back to the trimmed term |
| SearchBar.RouteOfPlainWord | frontend/src/components/SearchBar.jsx:77 | a non-special term made only of unreserved characters is put into the URL unchanged |
| SearchBar.SearchBox.NavigateToSearch | frontend/src/components/SearchBar.jsx:70-81 | the route is the term's route under the corrected lookup `RouteFor` (see Findings), and the recents become the saved list with the term |
| SearchBar.SearchBox.HandleSearch | frontend/src/components/SearchBar.jsx:83-86 | submitting routes and saves the current query, through the corrected lookup `RouteFor` |
| SearchBar.SearchBox.OnPick | frontend/src/components/SearchBar.jsx:136-142 | picking the `Search “…”` entry routes the current query; picking any other entry routes that entry; both through the corrected lookup `RouteFor` |
| SearchBar.SearchBox.OnChange | frontend/src/components/SearchBar.jsx:165 | typing sets the query, opens the list and clears the highlight |
| SearchBar.SearchBox.HandleClear | frontend/src/components/SearchBar.jsx:88-92 | clearing empties the query and clears the highlight |
| SearchBar.SearchBox.constructor | frontend/src/components/SearchBar.jsx:22-28 | the initial state is an empty query, no highlight, an open list and the stored recents |
| SearchBar.SearchBox.Default | frontend/src/components/SearchBar.jsx:8-24 | without props the popular searches are the eight defaults and the cap is 8, with the same initial state |
| SearchBar.ConstructorSearchAsWritten | frontend/src/components/SearchBar.jsx:63-79 | as written, searching for "Constructor" finds the inherited `constructor` member of the lookup object instead of a search URL; the corrected lookup gives `/search?query=Constructor` |
| SearchBar.RouteAgreesOffInherited | frontend/src/components/SearchBar.jsx:74-78 | the written lookup and the corrected one agree on every term whose lower-cased trim is not an inherited member name |
| Uri.DecodeEncode | frontend/src/components/SearchBar.jsx:77 | decoding the `encodeURIComponent` of any string gives that string back |
| Uri.EncodeIsUriSafe | Backend/server.js:38 | the encoded query contains only unreserved characters and `%`, so no `&`, `=` or `?` of the query reaches the upstream URL unescaped |
| Uri.EncodeUnreservedIsIdentity | Backend/server.js:38 | a string made only of unreserved characters encodes to itself |
| Text.TrimEmptyIffAllSpace | frontend/src/components/SearchBar.jsx:49-50 | `trim()` is empty exactly when the string is all white space |
| Text.TrimIdempotent | frontend/src/components/SearchBar.jsx:71-79 | trimming a trimmed term changes nothing |
| Text.Includes | frontend/src/components/SearchBar.jsx:100-101 | `includes` holds exactly when the substring occurs at some position |
| Server.Search | Backend/server.js:24-67 | a missing key gives 500 with no upstream call; a missing query gives 400 with no call; otherwise one call to the multi-search URL with the encoded query; a thrown fetch gives 500; a non-OK status is forwarded with its message; an OK body gives the processed results, and a body without results gives 500 |
| Server.ProcessSearchResultsSpec | Backend/server.js:49-60 | the output holds exactly the non-person results, in input order, with title = title‖name, release_date = release_date‖first_air_date and the other fields copied, so no output entry has media type "person" |
| Server.Details | Backend/server.js:70-120 | a missing key gives 500 with no call; a missing id or a media type other than movie/tv gives 400 with no call; a thrown details fetch or an unparseable OK details body gives 500 with only the details call; a non-OK details status is forwarded with its message and no videos call; otherwise both URLs are requested in order, and a thrown videos fetch or an OK videos body without a results list gives 500, a non-OK videos response gives the details with a null key, and an OK list gives the details with the key of the first YouTube trailer, or null when there is none |
| Server.FindTrailer | Backend/server.js:167-169 | the chosen video is a YouTube trailer and no earlier video is one; the result is none exactly when no video is a YouTube trailer |
| Server.TrailerUrlOf | Backend/server.js:160-179 | a pick has a trailer URL exactly when its videos fetch succeeded with an OK, parseable response listing a YouTube trailer, and that URL is the watch URL of the first such trailer |
| Server.WithTrailers | Backend/server.js:158-192 | there is one pick and one videos URL per top result, in order; each videos URL is built from that result's id and the media type, and each pick carries that result's fields, the media type and the trailer URL of its own videos response |
| Server.TrendingPicks | Backend/server.js:123-200 | a missing key gives 500 with no call; otherwise the first call is the list URL; a thrown fetch gives 500; a non-OK status is forwarded with its message; on success the reply has exactly one pick per top result, in order, each tagged with the requested type and carrying the trailer URL of its own videos response; exactly one videos call is made per pick |
| Server.TopPicks | Backend/server.js:124-156 | the picks are a prefix of the results; with no `limit` there are min(6, n) of them; a `limit` that does not parse gives none; a limit k ≥ 0 gives min(k, n) of them and a negative one drops the last -k, as `slice` does |
| Server.TopPicksOfCount | Backend/server.js:124-156 | a `limit` sent as the decimal form of k keeps exactly the first min(k, n) results |
| Server.ParseIntDecimal | Backend/server.js:156 | `parseInt` of the decimal form of any count gives that count back |
| Server.ParseIntLeadingNumber | Backend/server.js:156 | `parseInt` skips leading white space and reads a decimal number up to the first non-digit, ignoring what follows |
| Server.ParseIntSignedNumber | Backend/server.js:156 | the same after a sign: `-` negates the number and `+` keeps it |
| Server.ParseIntNoDigits | Backend/server.js:156 | white space followed by no digit, sign or further white space gives NaN |
| Server.ParseIntSignNoDigits | Backend/server.js:156 | a sign followed by no digit gives NaN |
| Server.ErrorMessage | Backend/server.js:41-44 | the error reply's message is the upstream `status_message` when non-empty, the handler's fallback otherwise, and the fixed parse-failure text when the error body does not parse; it is never empty when the fallback is not |
| Server.TrendingUrlQuery | Backend/server.js:131-144 | read back as a URL, the list URL uses the discover endpoint exactly when an original language is given and the week's trending list otherwise; it carries the API key and the language, defaulting to en-US; the popularity sort and the original language appear only for discover; `region` appears only when a region is given |
| Server.DecimalString | Backend/server.js:163 | a pick's id is written as a non-empty string of decimal digits in its videos URL |
| Hero.TrailerKeyOfWatchUrl | frontend/src/components/HeroSection.jsx:140 | the key extracted from a pick's watch URL, which the back end builds at Backend/server.js:172, is the trailer key itself whenever the key contains neither `v=` nor `&` |
| Hero.TrailerKey | frontend/src/components/HeroSection.jsx:140 | no URL, an empty URL or a URL without `v=` gives no key |
| Login.RequiredLength | frontend/src/app/login/LoginClient.jsx:40 | the required length is the field's own non-zero minimum if it has one, else 6 for a password and 1 otherwise, and is never below 1 |
| Login.IsValidInput | frontend/src/app/login/LoginClient.jsx:40-41 | a valid value is never empty, and a valid e-mail value contains `@` |
| Login.InputField.HasError | frontend/src/app/login/LoginClient.jsx:57 | the error shows only for a non-empty error message on a field the user has interacted with |
| Login.InvalidInputs | frontend/src/app/login/LoginClient.jsx:40-41 | an empty value is never valid; a password field without its own minimum needs 6 characters; an e-mail field needs an `@` |
| Login.EmailShapeInContext | frontend/src/app/login/LoginClient.jsx:41 | the e-mail pattern is unanchored: text around an address of e-mail shape keeps it valid |
| Login.PlainAddressIsValid | frontend/src/app/login/LoginClient.jsx:40-41 | every `local@domain.tld` with non-empty, space-free parts passes the e-mail field's validity |
| Login.InputField.HandleInputChange | frontend/src/app/login/LoginClient.jsx:36-45 | a change records and reports the validity of the new value |
| Login.InputField.HandleFocus | frontend/src/app/login/LoginClient.jsx:47-50 | focusing marks the field focused and interacted with |
| Login.InputField.HandleBlur | frontend/src/app/login/LoginClient.jsx:52-54 | blurring clears only the focus |
| Login.InputField.IsSuccess | frontend/src/app/login/LoginClient.jsx:57-58 | the success mark never shows together with the error, and needs a valid, non-empty value |
| Login.ConfirmValidity | frontend/src/app/login/LoginClient.jsx:196-200 | the confirm field's custom validity is empty exactly when the confirmation equals the password or is shorter than 6 characters, and is "Passwords do not match" otherwise |
| Login.LoginForm.constructor | frontend/src/app/login/LoginClient.jsx:122-133 | the form starts in sign-in mode with empty values and message, an error-type message, nothing submitting, matching passwords and invalid fields |
| Login.LoginForm.SetEmail | frontend/src/app/login/LoginClient.jsx:385-386 | typing an e-mail stores it and records its validity under the e-mail rule, leaving the rest of the form alone |
| Login.LoginForm.ShowSignIn | frontend/src/app/login/LoginClient.jsx:165-172 | switching to sign-in clears the mode, the message and the three values, and resets the match flag |
| Login.LoginForm.ShowSignUp | frontend/src/app/login/LoginClient.jsx:174-181 | switching to sign-up sets the mode, clears the message and the three values, and resets the match flag |
| Login.LoginForm.HandlePasswordChange | frontend/src/app/login/LoginClient.jsx:183-189 | the password is set and validated; the match flag is updated only in sign-up mode with a confirmation present |
| Login.LoginForm.HandleConfirmPasswordChange | frontend/src/app/login/LoginClient.jsx:191-201 | the confirmation is set, the match flag becomes password == confirmation, and the custom validity follows the confirm rule |
| Login.LoginForm.ConfirmIndicators | frontend/src/app/login/LoginClient.jsx:422-423 | in every reachable state the confirm field shows its error exactly when a confirmation differs from the password, and its success mark only for a matching confirmation of at least 6 characters |
| Login.LoginForm.OnSubmit | frontend/src/app/login/LoginClient.jsx:203-246 | a sign-up with differing passwords sets "Passwords do not match" and sends nothing; otherwise the sign-up or sign-in request goes out, followed by the watchlist entry when authentication succeeded and the query string carries a complete entry; the message follows the outcome; the submitting flag is down on every path |
| Login.SubmitOutcomes | frontend/src/app/login/LoginClient.jsx:216-242 | a submit ends without a message exactly when authentication succeeded and any pending watchlist entry was added; the watchlist request is sent only after a successful authentication with a complete entry |
| Login.AcceptedSignInAsWritten | frontend/src/context/AuthContext.js:28-47 | with the context's `login` and `signup` as written, even a sign-in the server accepts ends with "An unexpected error occurred." and sends no watchlist entry |
| Login.AcceptedSignIn | frontend/src/app/login/LoginClient.jsx:216-234 | when the call resolves with `{ success: true }`, an accepted sign-in sets no message unless the watchlist entry fails, and sends the entry when one is pending |
| Login.RedirectTarget | frontend/src/app/login/LoginClient.jsx:157-163 | a redirect happens exactly when authentication has loaded and the visitor is authenticated; it goes to /watchlist exactly when `redirect=watchlist`, and to / otherwise |
| Login.RedirectAsWritten | frontend/src/app/login/LoginClient.jsx:141 | with `isAuthenticated` read from the context as written, the redirect never happens |

## Left out

- Network I/O is not modelled. The TMDb fetches, axios calls and `app.listen` are replaced by response values or fetch functions passed in as parameters.
- `Promise.all` fan-out is not modelled. The per-pick video lookups in `/api/trending-picks` run as a sequential loop that isolates each pick's failure; concurrency and completion order are not modelled.
- `localStorage` is not modelled. The search box receives its stored recents as a constructor argument, and saving them back is left out.
- Rendering, animation, focus handling, the mouse-move and tilt handlers, and the password visibility toggles are left out.
- `onSearchSubmit` and `router.push`/`router.replace` are left out. The route is returned as a value instead.
- JWT, bcrypt, the Mongo models and the remaining endpoints are left out. None of them is part of this model.
- Text.Lower: lower-cases ASCII letters only. JavaScript's full Unicode case mapping is not modelled.
- Lengths are counted in Unicode scalar values. JavaScript counts UTF-16 code units, which differ for characters outside the Basic Multilingual Plane.
- Uri.DecodeUriComponent: lone surrogates are not modelled. Strings are sequences of Unicode scalar values, so `encodeURIComponent`'s URIError on a lone surrogate cannot arise.
- Server.ParseInt: a `limit` query parameter given twice (an array in Express) is not modelled. `Infinity` and exponent forms need no case of their own: `parseInt` reads neither, and the model gives NaN for "Infinity" and 1 for "1e3", as JavaScript does.
- Server.TrendingUrlQuery: holds only when the API key and the parameter values contain no `&` and the media type contains no `?`. Those characters pass into the template unencoded.
- Server.Details: the details body is kept as an opaque value of a type parameter. Spreading it into the reply object is modelled as a pair of that value and the trailer key.
- Login.RedirectTarget: takes `isAuthenticated` as an input, read as "a user is signed in". The context's provided value has no such field; see Findings.
- SearchBar.SearchBox.OnKeyDown: assumes React has re-rendered after the keydown handler, before the form's submit handler runs, so the submit saves the query into the list that already holds the pick. Neither event's `preventDefault` nor `onSearchSubmit` is modelled.
- Login.LoginForm.HandleConfirmPasswordChange: requires sign-up mode, because the confirm field is rendered only on the sign-up form.

## Findings

| source | as written | input that shows it | evidently intended | confidence | as-written member | corrected member |
|---|---|---|---|---|---|---|
| frontend/src/components/SearchBar.jsx:63-79 | `SPECIAL_QUERIES[lower]` is a plain-object lookup, so it also finds the members every object inherits | searching for "Constructor" (lower-cased "constructor") pushes the `Object` constructor function as the route instead of `/search?query=Constructor`; "__proto__" behaves likewise | only the four listed keys are special; every other term is a text search | high, not executed | SearchBar.ConstructorSearchAsWritten | SearchBar.RouteForSpec |
| frontend/src/context/AuthContext.js:28-47 | `login` and `signup` resolve to `undefined`, and the form reads `authResult.success` at frontend/src/app/login/LoginClient.jsx:218 | any sign-in the server accepts: reading `success` of `undefined` throws, so the form shows "An unexpected error occurred." and never adds the pending watchlist entry | the calls resolve to `{ success: true }` on success, which is what the form reads | high, not executed | Login.AcceptedSignInAsWritten | Login.AcceptedSignIn |
| frontend/src/context/AuthContext.js:57-58 | the context value is `{ user, login, signup, logout, authLoading }`, while the login card reads `isAuthenticated` from it at frontend/src/app/login/LoginClient.jsx:141 | a visitor who is already signed in opens the login page: `isAuthenticated` is `undefined`, so the effect at frontend/src/app/login/LoginClient.jsx:157-163 never redirects | the context also provides `isAuthenticated`, true once a user is stored | high, not executed | Login.RedirectAsWritten | Login.RedirectTarget |
