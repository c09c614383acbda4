# Alumni Connect: session store, auth API client, route gate, photo carousel and form schemas

This project models, in Dafny, the small pieces of logic inside the Alumni
Connect single-page site:

- **Session store** (`AuthProvider`, module `AuthContext`): the `user` and
  `loading` state cells and the two `localStorage` keys `jwtToken` and
  `user`. The mount effect restores the session, purges corrupt storage or
  leaves storage alone. `login` overwrites both keys. `logout` removes both.
  `isAuthenticated` is a predicate of `user` and is never stored. The
  transitions are functions on an abstract `ProviderState`. The `AuthProvider`
  class performs the same `getItem`/`setItem`/`removeItem` calls as the
  source, and each of its methods is proved to reach exactly the state that
  function gives. `JSON.parse` and `JSON.stringify` are abstract functions
  fixed when the provider is created. `JSON.parse` can throw (`Malformed`)
  or yield JSON `null`.
- **Auth API client** (module `Api`): the base-address fallback,
  `getHeaders`, the endpoint, headers and body of the three POSTs, and how a
  response becomes a resolved session, a thrown message (server message or
  per-operation default) or a rejection from `response.json()`. `fetch` is
  a function the caller supplies. `localStorage` is a `Storage` object
  shared with the session store (module `BrowserStorage`).
- **Route gate** (module `ProtectedRoute`): spinner while loading, nested
  routes when authenticated, otherwise a replacing redirect to `/login`.
- **Photo carousel** (module `PhotoStack`): the timer step, the card
  offsets, the top-three cut, and the `zIndex`, `y`, `z` and `rotate`
  values. JavaScript's truncating `%` is modelled explicitly (`JsRem`).
- **Form schemas** (modules `VerifyOtp`, `Register`, with shared digit rules
  in `FormRules`): the zod rules as sets of issues. The email-syntax check
  is a predicate parameter.

In these edge cases the source behaves as follows, and so does the model:

- A corrupt stored user is purged only while the stored token is also
  present and non-empty (`TamperedUserAfterReload`). With an empty or
  missing token nothing is removed.
- The per-operation default message is used when the failure body's
  `message` is missing or empty. A failure body that is not JSON makes
  `response.json()` reject before any default applies (`JsonRejected`).
- Restoring requires both stored strings to be non-empty (JavaScript
  truthiness), not merely present.
- Only `JSON.parse` is guarded during startup. A `getItem` that throws is
  not caught by the source. The model's storage never throws.

## Model

| member | source | states |
|---|---|---|
| `Api.ResolveBaseUrl` | src/lib/api.ts:1 | the base address is the environment value when it is set and non-empty, otherwise `http://localhost:8080/api`; it is never empty |
| `Api.Headers` | src/lib/api.ts:45-58 | headers always hold `Content-Type: application/json`; `Authorization` is present iff auth was requested and a non-empty `jwtToken` is stored, and its value is then `Bearer ` + token; no other header exists |
| `Api.HeadersWithoutToken` | src/lib/api.ts:50-57 | with `includeAuth` false or no usable token, the headers are exactly the JSON content type, the same as `getHeaders()` |
| `Api.ApiClient.GetHeaders` | src/lib/api.ts:45-58 | the method that inserts the header step by step returns exactly `Headers(includeAuth, stored items)` |
| `Api.Path` | src/lib/api.ts:61-91 | every endpoint path lies under `/auth/` |
| `Api.DefaultMessage` | src/lib/api.ts:69-99 | every per-operation default message is non-empty |
| `Api.EndpointsDistinct` | src/lib/api.ts:61-100 | the three operations have pairwise different paths and different default messages |
| `Api.ErrorMessage` | src/lib/api.ts:67-100 | the thrown message is the server `message` when present and non-empty, otherwise the operation's default; it is never empty |
| `Api.Interpret` | src/lib/api.ts:67-102 | resolves iff the response is ok with a JSON body, returning that body unchanged; throws iff not ok with a JSON body, with `ErrorMessage`; rejects from `json()` iff the body read is not JSON |
| `Api.ThrownMessageIsServerOrDefault` | src/lib/api.ts:67-70 | a non-ok JSON response always throws a non-empty message that is the default or the server's own |
| `Api.ApiClient.constructor` | src/lib/api.ts:38-43 | the client starts with the given base address and the shared storage |
| `Api.ApiClient.Post` | src/lib/api.ts:60-103 | one request: `POST` to `baseUrl` + the operation's path, JSON content type only, the payload as body; the result is `Interpret` of the response to exactly that request |
| `Api.ApiClient.Signup` | src/lib/api.ts:60-73 | `POST baseUrl/auth/signup` with the sign-up payload and no `Authorization` header; result per `Interpret` |
| `Api.ApiClient.Login` | src/lib/api.ts:75-88 | `POST baseUrl/auth/login` with the credentials and no `Authorization` header; result per `Interpret` |
| `Api.ApiClient.GoogleSignIn` | src/lib/api.ts:90-103 | `POST baseUrl/auth/google` with the id token and no `Authorization` header; result per `Interpret` |
| `Api.SetApiBaseUrl` | src/lib/api.ts:108-111 | the shared client's base address becomes `url`, so every later request URL starts with `url` |
| `AuthContext.Truthy` | src/contexts/AuthContext.tsx:23 | a stored string is truthy iff it is present and non-empty |
| `AuthContext.Authenticated` | src/contexts/AuthContext.tsx:51 | authenticated iff `user` is not null |
| `AuthContext.Initial` | src/contexts/AuthContext.tsx:15-16 | the first render is unauthenticated, loading, with storage as it was |
| `AuthContext.MountDecision` | src/contexts/AuthContext.tsx:20-31 | skip iff the token or the user value is missing or empty; purge iff both are truthy and the user value does not parse; otherwise adopt the parsed value |
| `AuthContext.MountEffect` | src/contexts/AuthContext.tsx:18-33 | every branch of the mount effect ends with `loading` false |
| `AuthContext.LoginStep` | src/contexts/AuthContext.tsx:35-39 | `user` becomes the new session (authenticated); `jwtToken` holds its token and `user` its serialisation; every other key and `loading` are unchanged |
| `AuthContext.LogoutStep` | src/contexts/AuthContext.tsx:41-45 | `user` becomes null (not authenticated); exactly the two keys are removed; every other key and `loading` are unchanged |
| `AuthContext.MountRestores` | src/contexts/AuthContext.tsx:23-25 | both keys truthy and the user value parses: `user` becomes the parsed value and storage is unchanged |
| `AuthContext.MountPurgesCorrupt` | src/contexts/AuthContext.tsx:24-30 | both keys truthy but the user value does not parse: `user` is not set and both keys are removed, nothing else |
| `AuthContext.MountSkipsIncomplete` | src/contexts/AuthContext.tsx:20-33 | a missing or empty key: only `loading` changes, so a lone surviving key stays in place |
| `AuthContext.MountIdempotent` | src/contexts/AuthContext.tsx:18-33 | running the mount effect twice (as React strict mode does) gives the same state as running it once |
| `AuthContext.MountFromInitial` | src/contexts/AuthContext.tsx:15-33 | from a fresh start, the user ends authenticated iff the stored user value parsed to a non-null session |
| `AuthContext.LogoutIdempotent` | src/contexts/AuthContext.tsx:41-45 | logging out twice gives the same state as logging out once |
| `AuthContext.LogoutUndoesLogin` | src/contexts/AuthContext.tsx:35-45 | logout after login gives the same state as logout alone |
| `AuthContext.RestartRoundTrip` | src/contexts/AuthContext.tsx:20-39 | after `login(a)` with a non-empty token, a reload and mount restore exactly `a` and keep storage, given that `parse(serialize(a))` yields `a` and that `parse("")` throws |
| `AuthContext.RestartWithEmptyToken` | src/contexts/AuthContext.tsx:23-38 | after `login(a)` with an empty token, a reload restores nobody and leaves the `user` key behind |
| `AuthContext.TamperedUserAfterReload` | src/contexts/AuthContext.tsx:20-31 | an unparseable stored user leaves the reloaded store logged out; both keys are purged only if the token is truthy, otherwise storage is untouched |
| `AuthContext.LoginScenario` | src/contexts/AuthContext.tsx:35-39 | a successful login response for `john@example.com` resolves to the session, and storing it leaves the user authenticated with token `abc.def.ghi` |
| `AuthContext.LoginFeedsBearerHeader` | src/lib/api.ts:50-55 | after `login(a)` with a non-empty token, `getHeaders(true)` carries `Bearer ` + that token |
| `AuthContext.LogoutDropsBearerHeader` | src/lib/api.ts:50-55 | after `logout()`, `getHeaders(true)` holds only the JSON content type |
| `AuthContext.AuthProvider.constructor` | src/contexts/AuthContext.tsx:14-16 | first render: `user` null, `loading` true, storage untouched |
| `AuthContext.AuthProvider.IsAuthenticated` | src/contexts/AuthContext.tsx:51 | the exposed flag is `Authenticated` of the provider's current state |
| `AuthContext.AuthProvider.Mount` | src/contexts/AuthContext.tsx:18-33 | the mount effect's reads and removals produce exactly `MountEffect` of the previous state |
| `AuthContext.AuthProvider.Login` | src/contexts/AuthContext.tsx:35-39 | the two `setItem` calls and `setUser` produce exactly `LoginStep`; afterwards `isAuthenticated` holds |
| `AuthContext.AuthProvider.Logout` | src/contexts/AuthContext.tsx:41-45 | `setUser(null)` and the two removals produce exactly `LogoutStep`; afterwards `isAuthenticated` is false |
| `AuthContext.ReloadAfterLogin` | src/contexts/AuthContext.tsx:14-39 | a second provider over the same storage, after the first logged in, mounts as authenticated with the same session and storage holds exactly what mount then login produce, given a non-empty token, that `parse(serialize(a))` yields `a` and that `parse("")` throws |
| `ProtectedRoute.Decide` | src/components/layout/ProtectedRoute.tsx:8-16 | spinner iff loading, whatever the auth flag; nested routes iff not loading and authenticated; otherwise exactly a replacing redirect to `/login`; never access while loading |
| `ProtectedRoute.GateFor` | src/components/layout/ProtectedRoute.tsx:6-16 | the gate reads the provider's state: nested routes iff loaded and a user is set; spinner iff loading |
| `ProtectedRoute.GateAfterMount` | src/components/layout/ProtectedRoute.tsx:6-16 | after the mount effect the gate never shows the spinner and lets through exactly a restored user |
| `ProtectedRoute.GateBeforeMount` | src/components/layout/ProtectedRoute.tsx:8-14 | before the mount effect the gate always shows the spinner |
| `ProtectedRoute.GateAfterLogout` | src/components/layout/ProtectedRoute.tsx:16 | after logout on a loaded provider the gate redirects to `/login` |
| `PhotoStack.JsRem` | src/components/ui/PhotoStack.tsx:24 | JavaScript `%` keeps the dividend's sign and stays below the divisor in size; for a non-negative dividend it equals the mathematical remainder |
| `PhotoStack.Step` | src/components/ui/PhotoStack.tsx:14 | the timer step keeps the index in `[0, n)` and moves to the next card, wrapping from the last to `0` |
| `PhotoStack.AdvanceIsRotation` | src/components/ui/PhotoStack.tsx:12-17 | `k` timer ticks take the index to `(index + k) mod n` |
| `PhotoStack.FullCycle` | src/components/ui/PhotoStack.tsx:14 | after `n` ticks the index is back where it started |
| `PhotoStack.Offset` | src/components/ui/PhotoStack.tsx:24 | the dividend is positive, the offset lies in `[0, n)`, card `i` sits `offset` places after the front, and the front card has offset `0` |
| `PhotoStack.OffsetInverse` | src/components/ui/PhotoStack.tsx:24 | every value in `[0, n)` is the offset of the card that many places behind the front (offsets are onto) |
| `PhotoStack.OffsetInjective` | src/components/ui/PhotoStack.tsx:24 | two cards with the same offset are the same card (offsets are one-to-one) |
| `PhotoStack.PoseAt` | src/components/ui/PhotoStack.tsx:34-38 | `y` is 15 per offset, `z` is -50 per offset, `zIndex` is n minus the offset, and `rotate` is twice the offset, negated for odd offsets |
| `PhotoStack.Card` | src/components/ui/PhotoStack.tsx:24-26 | a card is drawn iff its offset is at most 2, with the pose of that offset; the front card is always drawn at offset 0 |
| `PhotoStack.PoseTable` | src/components/ui/PhotoStack.tsx:34-38 | offsets 0, 1, 2 give `y` 0, 15, 30, `z` 0, -50, -100, `zIndex` n, n-1, n-2 and `rotate` 0, -2, 4 |
| `PhotoStack.Cards` | src/components/ui/PhotoStack.tsx:23-26 | one entry per image, in image order, each the card of that image |
| `PhotoStack.DrawnCount` | src/components/ui/PhotoStack.tsx:23-26 | exactly `min(n, 3)` cards are drawn |
| `PhotoStack.StackingOrder` | src/components/ui/PhotoStack.tsx:37 | the front card has `zIndex` n, the largest; of two drawn cards the one with the smaller offset has the larger `zIndex`; distinct cards have distinct `zIndex` |
| `PhotoStack.PhotoStack.constructor` | src/components/ui/PhotoStack.tsx:10 | the index starts at `0` |
| `PhotoStack.PhotoStack.Render` | src/components/ui/PhotoStack.tsx:23-26 | one entry per image, of which exactly `min(n, 3)` are drawn |
| `PhotoStack.PhotoStack.Tick` | src/components/ui/PhotoStack.tsx:13-15 | one firing of the interval sets the index to `Step` of the old one and keeps it in range |
| `VerifyOtp.OtpErrors` | src/pages/VerifyOtp.tsx:13 | the length message is reported iff the length is not 6; the digits message iff the input is not one or more ASCII digits; nothing else |
| `VerifyOtp.AcceptedIffSixDigits` | src/pages/VerifyOtp.tsx:13 | an OTP is accepted iff it is six ASCII digits |
| `VerifyOtp.NonDigitOfRightLength` | src/pages/VerifyOtp.tsx:13 | six characters with a non-digit: only the digits message |
| `VerifyOtp.DigitsOfWrongLength` | src/pages/VerifyOtp.tsx:13 | digits of another length: only the length message |
| `VerifyOtp.DefaultRejected` | src/pages/VerifyOtp.tsx:22-24 | the default `''` gets both messages |
| `VerifyOtp.LeadingZerosAccepted` | src/pages/VerifyOtp.tsx:13 | `000000` is accepted |
| `VerifyOtp.AcceptedAreSixDigitCodes` | src/pages/VerifyOtp.tsx:13 | the accepted inputs are exactly the zero-padded codes of the numbers below one million |
| `VerifyOtp.DistinctCodesDistinctOtps` | src/pages/VerifyOtp.tsx:13 | distinct numbers below one million have distinct six-digit codes |
| `Register.Issues` | src/pages/Register.tsx:17-28 | only the six field/message pairs can occur; each field's message is reported iff its rule fails (name length at least 2, email predicate, phone length at least 10, password length at least 8, year `/^\d{4}$/`); the mismatch is reported iff the passwords differ, only on `confirmPassword`; `resume` never carries an issue |
| `Register.Validate` | src/pages/Register.tsx:17-28 | accepts iff every rule and the password match hold, and then returns the same seven-field record; otherwise returns the non-empty set of issues |
| `Register.ResumeIgnored` | src/pages/Register.tsx:24 | any `resume` value, or none, gives the same issues |
| `Register.PhoneDigitsNotChecked` | src/pages/Register.tsx:20 | ten letters pass the phone rule: only the length is checked |
| `Register.YearsAreFourDigitPaddings` | src/pages/Register.tsx:23 | the accepted years are exactly the zero-padded numbers `0000` to `9999`, with no range check |
| `Register.YearZeroAccepted` | src/pages/Register.tsx:23 | `0000` is an accepted year |
| `Register.MismatchReported` | src/pages/Register.tsx:25-28 | differing passwords reject, with the mismatch issue on `confirmPassword`, alongside every field issue |

## Left out

- Network and storage I/O are not modelled. `fetch` is a function parameter. What `response.json()` yields is part of the response value. `localStorage` is an in-memory map that never throws.
- Promises and asynchrony are not modelled: each call runs to its result in one step. The 4-second `setInterval` and its cleanup are left out; only one firing (`Tick`) is modelled. The simulated `setTimeout` delays in the page submit handlers are left out.
- `JSON.parse` and `JSON.stringify` are abstract. The parse result is typed like the source's interfaces. A stored JSON value that is neither `null` nor session-shaped (such as `0` or a string) is outside the model. The source accepts such values through an unchecked cast.
- Request bodies are not serialised. A request carries the typed payload that `JSON.stringify` would encode.
- A failure body that is JSON `null` and a `fetch` that rejects on a network error are not modelled. In the source the first makes `error.message` throw a `TypeError` (src/lib/api.ts:68-69, 83-84, 98-99), and the second propagates the rejection; the model's response always carries a JSON object or `NotJson`.
- The `errors` field of a failure body is not modelled. The `status` values are carried but never affect the result, as in the source.
- The diagnostic `console.error` on a corrupt stored user is not modelled.
- `useAuth` throwing outside a provider is not modelled. It is React context plumbing.
- Page submit handlers, toasts and navigation are not modelled. They are UI glue. `Register.onSubmit` never calls `signup`. The form's fields (`fullName`, `phoneNumber`, no department) differ from `SignUpRequest`'s fields, and the source maps nothing between them.
- Email syntax is zod's internal regex. It enters as the predicate parameter `isEmail`.
- Register.Validate: untouched fields are `undefined`, and zod reports them as `Required`. The model only takes string fields.
- Register.Validate: zod's issue order and which checks it skips after a failure are library behaviour. The model returns the set of all issues, the mismatch included.
- VerifyOtp.OtpErrors: zod counts string length in UTF-16 code units, while the model counts characters. The two differ only for characters outside the Basic Multilingual Plane. The same holds for the length rules in `Register.Issues`.
- PhotoStack.Step: with zero images the source's index becomes `NaN`, but then no card is drawn. The model leaves the index unchanged.
- PhotoStack.PhotoStack.Tick: the image count is fixed for the component's lifetime. In the source the index state survives a change of `images.length`, which could leave the index out of range.
- `scale`, opacity, transitions and exit animations are floating-point rendering values and are not modelled. Neither are `calculateProgress` and the `NotableAlumni` animation. Keying cards by URL is not modelled; the landing page passes one URL twice.
- Presentational components, page layouts, routing configuration and static sample data are not modelled. `/dashboard` is routed without `ProtectedRoute`, so the gate is a standalone decision.
- `graduationYear` in `SignUpRequest` is a JavaScript number; the model uses an integer.
