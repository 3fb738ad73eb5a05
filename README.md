# eScrims web client — session, authorisation header and page decision rules

This project models the client-side logic of the eScrims web client, a Next.js
front end for a scrim-matchmaking platform. It does not model any rendering.

- **Session context.** Token, user and `loading`, plus the two `localStorage`
  entries `authToken` and `authUser` that outlive a reload. The model covers
  hydration on mount, `login`, `logout`, the derived `isAuthenticated` and the
  `useAuth` guard.
- **Request interceptor.** It attaches `Authorization: Bearer <token>` from the
  same storage entry.
- **Scrim grid.** Which list it shows, each card's button and badge, and the
  state of the "apply" handler.
- **Pages.** The guards, form handlers and request bookkeeping of the sign-up,
  moderation, dashboard and create-scrim pages.

How the model is built:

- Browser state that the code changes in place becomes Dafny classes with
  `modifies` clauses. These are `localStorage`, the provider's state, a
  request's config and each page's React state.
- Each class method is proved against pure functions, such as
  `ReadStoredSession`, `LoginEntries`, `WithBearer`, `Card`, `ToggleChannel`,
  `RemoveFeedback` and `HandleChange`. The lemmas about those functions state
  the round trips, idempotence and order properties.
- Navigation is never performed. A handler returns the `Nav` event it asks the
  router for: `NavRoot` ("/") or `NavLogin` ("/login").
- An HTTP request is an abstract `Response<T>`: `Ok(data)`, or `Failed(body)`
  with the optional `error` and `detalles` of the failure's body.
- A handler that `await`s a request is split at the `await` into two methods.
  `Start…`/`Submit`/`RunEffect` run up to the request and report whether it is
  sent. `Finish…` takes the request's outcome. Each step is atomic.
- Dates are integer timestamps compared with a supplied `now`. In
  create-scrim, `new Date(fechaHora)` is a `parseDate` parameter, where `None`
  stands for an invalid date.
- `JSON.stringify`/`JSON.parse` of the stored user are replaced by
  `UserCodec.Serialize`/`Deserialize`. This is a small self-delimiting encoding.
  Its round trip and its non-emptiness are proved, which covers every value
  `login` writes for a real user record. Which other strings fail to parse
  differs from `JSON.parse`; see `AuthContext.AuthProvider.Hydrate` under
  "## Left out".
- `parseInt` (module `JsNumber`) follows the ECMAScript algorithm for a call
  without a radix:
  - leading white space is skipped;
  - an optional sign is read;
  - a `0x`/`0X` prefix selects base 16;
  - the longest digit prefix is read;
  - no digits gives NaN, which is `None`.

Points where the code behaves in ways easy to misread:

- `isAuthenticated` is `!!token`, so an empty-string token counts as logged out.
- `login` does not check that its token is non-empty. After `login("", u)` the
  store and both fields are written, but `isAuthenticated` is false and a reload
  restores nothing.
- Hydration needs both stored values to be non-empty, not just present.
- The role field is `rol`.
- A stored user that does not parse makes hydration throw; it is not treated as
  "no session".

## Model

| member | source | states |
|---|---|---|
| AuthContext.ReadStoredSession | context/AuthContext.tsx:26-35 | A session is found exactly when both stored values are present and non-empty. It is restored only when the user entry parses, and the restored token is the non-empty stored one. A non-parsing user entry is the throwing case. |
| AuthContext.LoginThenReload | context/AuthContext.tsx:27-43 | After login both keys are present, `authToken` holds t and other keys are untouched. Re-reading the store restores exactly (t, u) when t is non-empty, and finds nothing when t is empty. |
| AuthContext.LogoutThenReload | context/AuthContext.tsx:45-51 | After logout both keys are absent and other keys are untouched. Re-reading the store finds no session, and a second logout leaves the store as the first did. |
| AuthContext.UseAuth | context/AuthContext.tsx:62-67 | Fails with the provider error exactly when there is no provider value; otherwise returns that value. |
| AuthContext.GetItem | context/AuthContext.tsx:27-28 | `getItem` yields a value iff the key is stored, and then the stored value. |
| AuthContext.LocalStorage.SetItem | context/AuthContext.tsx:38-39 | The store maps the key to the value, and every other entry is unchanged. |
| AuthContext.LocalStorage.RemoveItem | context/AuthContext.tsx:46-47 | The key is removed, and every other entry is unchanged. |
| AuthContext.LoginEntries | context/AuthContext.tsx:38-39 | After login `authToken` holds the token and `authUser` parses back to the user. Every other key is present iff it was before, with the same value. |
| AuthContext.LogoutEntries | context/AuthContext.tsx:46-47 | After logout neither key is present. Every other key is present iff it was before, with the same value. |
| AuthContext.AuthProvider.constructor | context/AuthContext.tsx:21-23 | A new provider has no token and no user, is loading, and is not authenticated. |
| AuthContext.AuthProvider.View | context/AuthContext.tsx:53-56 | `isAuthenticated` is true iff the token is present and non-empty. The other fields are the provider's own. |
| AuthContext.AuthProvider.Hydrate | context/AuthContext.tsx:26-35 | Restored: token and user are set, loading ends, and the session is authenticated. No session: fields unchanged and loading ends. Corrupt entry: nothing changes and loading does not end. Token and user stay paired. |
| AuthContext.AuthProvider.Login | context/AuthContext.tsx:37-43 | The store becomes `LoginEntries` (both keys written), both fields are set and stay paired, authenticated iff the token is non-empty, and the navigation is to "/". |
| AuthContext.AuthProvider.Logout | context/AuthContext.tsx:45-51 | The store becomes `LogoutEntries` (both keys removed), both fields are cleared, the session is not authenticated, and the navigation is to "/login". |
| AuthContext.ReloadAfterLogin | context/AuthContext.tsx:27-43 | A login followed by a fresh provider hydrating from the same storage reproduces token t and user u, with loading ended. |
| AuthContext.LogoutTwiceThenReload | context/AuthContext.tsx:45-51 | Two logouts leave the store and fields as one does, and a fresh provider then hydrates to no session. |
| UserCodec.Serialize | context/AuthContext.tsx:39 | The serialised user is never empty, so a stored user is always truthy. |
| UserCodec.DeserializeSerialize | context/AuthContext.tsx:32-39 | Parsing what login wrote gives back the same user record. |
| ApiClient.InterceptorToken | lib/apiClient.ts:13-18 | Outside a browser there is no token. In a browser the token is the `authToken` entry, the key the session writes. |
| ApiClient.WithBearer | lib/apiClient.ts:20-22 | A non-empty token sets `Authorization` to "Bearer " + token and adds no other key. With no or an empty token the headers are unchanged. Every other header keeps its value. |
| ApiClient.Intercept | lib/apiClient.ts:12-24 | Returns the same config object. Only its headers change, and they become `WithBearer` of the stored token. |
| ApiClient.BearerAfterLogin | lib/apiClient.ts:17-22 | After `login(t, u)` with a non-empty t, the outgoing headers are exactly the old ones plus `Authorization: Bearer t`. |
| ApiClient.NoBearerAfterLogout | lib/apiClient.ts:17-23 | After logout, the outgoing headers are unchanged. |
| ApiClient.RequestAfterLogin | lib/apiClient.ts:12-24 | A provider login followed by the interceptor gives the request `Authorization: Bearer t`. |
| JsNumber.ParseIntWithoutDigits | app/create-scrim/page.tsx:62 | A string with no decimal digit parses to NaN, whatever white space, sign or letters it holds. |
| JsNumber.ParseInt | app/create-scrim/page.tsx:62 | NaN exactly when no digit of the selected base follows the white space, sign and `0x` prefix. A negative result needs a `-` sign. |
| JsNumber.ParseIntOrZero | app/create-scrim/page.tsx:62 | `parseInt(...) \|\| 0` is 0 for NaN and otherwise the parsed integer. |
| JsNumber.ParseIntOfDecimal | app/create-scrim/page.tsx:62 | `parseInt` and `parseInt(...) \|\| 0` read back the decimal numeral of every integer, also when a non-digit other than x/X follows it. |
| RouteGuard.LoginRedirect | app/page.tsx:32-36 | Redirects to "/login" iff auth loading is done and the user is not authenticated. The create-scrim page repeats this at app/create-scrim/page.tsx:51-55. |
| RouteGuard.RedirectOnlyWhileWaiting | app/page.tsx:65-71 | A page that is redirecting shows the waiting view. Content shows exactly when the session is loaded and signed in. |
| RouteGuard.ShowsWaiting | app/page.tsx:65-71 | While the session is loading, or when the user is not authenticated, the page shows only its waiting view. |
| RouteGuard.GuardAfterLogout | app/page.tsx:32-36 | After logout on a loaded provider, a protected page redirects to "/login". |
| HomePage.SomeTruthy | app/page.tsx:47 | `some(val => val)` holds iff some value is truthy. |
| HomePage.RequestParams | app/page.tsx:47-50 | The filters are sent as params iff at least one of them is non-empty, and they are sent unchanged. |
| HomePage.HomePageState.constructor | app/page.tsx:25-30 | Empty filters and list, loading, no error. |
| HomePage.HomePageState.StartFetch | app/page.tsx:39-50 | No request while unauthenticated. Otherwise loading is true, the error is cleared, and the request carries `RequestParams(filters)`. |
| HomePage.HomePageState.FinishFetch | app/page.tsx:51-58 | Success replaces the list wholesale. Failure sets the message and keeps the list. Loading ends either way. |
| HomePage.HomePageState.View | app/page.tsx:65-71 | Waiting view iff auth is loading or the user is unauthenticated. |
| ScrimsGrid.SelectItems | components/scrims-grid.tsx:60-61 | `myScrimsData`, when given (even empty), is rendered item by item in order. Otherwise `scrims` is rendered. |
| ScrimsGrid.ItemScrim | components/scrims-grid.tsx:71 | An item's scrim is its `.scrim` for a "my scrims" entry, and the item itself for a plain scrim. |
| ScrimsGrid.ItemPostulation | components/scrims-grid.tsx:72 | A plain scrim has no application state. A "my scrims" entry has its `postulationState`. |
| ScrimsGrid.IsOwner | components/scrims-grid.tsx:75 | Nobody owns a scrim while signed out. |
| ScrimsGrid.HasApplied | components/scrims-grid.tsx:78 | An id applied to in this session always counts as applied, and a PENDIENTE or ACEPTADA application always counts as applied. With no application state, or a RECHAZADA one, the user counts as applied iff the id was applied to in this session. |
| ScrimsGrid.Action | components/scrims-grid.tsx:80-94 | First match wins: owner gets Administrar; applied gets disabled "Estado: S" or "¡Postulado!"; applying gets disabled "Postulando..."; not BUSCANDO gets disabled "Cerrado". Enabled "Postularse" iff none of these applies. |
| ScrimsGrid.Badge | components/scrims-grid.tsx:109-125 | Destructive iff the application is RECHAZADA. Default iff it is ACEPTADA, or there is no application and the scrim is BUSCANDO. Otherwise secondary. |
| ScrimsGrid.Card | components/scrims-grid.tsx:70-94 | The owner, and only the owner, gets Administrar and an unlinked title. The button is enabled iff: not the owner, id not in `appliedScrims`, the application is not PENDIENTE/ACEPTADA (RECHAZADA does not block), not applying to this id, and the scrim is BUSCANDO. The badge shows the application state when there is one. |
| ScrimsGrid.Render | components/scrims-grid.tsx:53-69 | Loading first, then a non-empty error, then the empty message (default "No se encontraron scrims.") for a missing or empty list, then one card per item in order. |
| ScrimsGrid.AliasIgnored | components/scrims-grid.tsx:72 | The `postulacionState` alias never changes a card. |
| ScrimsGrid.ScrimsGridState.constructor | components/scrims-grid.tsx:25-26 | Nothing is being applied to and the applied set is empty. |
| ScrimsGrid.ScrimsGridState.StartPostular | components/scrims-grid.tsx:28-34 | Own scrim: no request and nothing changes. Otherwise `applyingTo` becomes the scrim's id and the request is sent. |
| ScrimsGrid.ScrimsGridState.FinishPostular | components/scrims-grid.tsx:36-49 | Success adds exactly the scrim's id to `appliedScrims`. Failure leaves it as it was, and nothing is ever removed. `applyingTo` returns to null. |
| ScrimsGrid.ApplyThenRender | components/scrims-grid.tsx:28-94 | While the request is out the card shows disabled "Postulando...". After success the card's button is disabled. After failure the whole card equals the card with no request pending and the old applied set. When no request for this scrim was already pending, that is the card as it was before the click. |
| RegisterPage.SetField | app/register/page.tsx:42-51 | The named field takes the value, and every other field and the channel list are unchanged. |
| RegisterPage.Dedup | app/register/page.tsx:59 | `[...new Set(s)]` has no duplicates and the same elements as s. |
| RegisterPage.Without | app/register/page.tsx:62 | The filter keeps exactly the elements different from the channel. |
| RegisterPage.ToggleChannel | app/register/page.tsx:53-65 | Only `canalesPreferidos` changes. Checking gives a duplicate-free list holding the old channels plus this one. Unchecking removes every occurrence and keeps every other channel. |
| RegisterPage.CheckAppendsIfMissing | app/register/page.tsx:57-59 | On a duplicate-free list, checking appends the channel when it is missing and changes nothing when it is present. |
| RegisterPage.WithoutAbsent | app/register/page.tsx:60-62 | Unchecking a channel that is not in the list changes nothing. |
| RegisterPage.WithoutConcat | app/register/page.tsx:60-62 | Unchecking works piecewise over any split of the list, so the other channels keep their order. |
| RegisterPage.ToggleIdempotent | app/register/page.tsx:54-64 | Checking, or unchecking, the same channel twice equals doing it once. |
| RegisterPage.RegisterErrorMessage | app/register/page.tsx:89-96 | The backend `error` when present and non-empty, else "Ocurrió un error al registrar la cuenta.". |
| RegisterPage.RegisterPageState.constructor | app/register/page.tsx:29-40 | The form starts at its defaults (EMAIL checked), with an empty confirmation and no error. |
| RegisterPage.RegisterPageState.HandleFieldChange | app/register/page.tsx:43-51 | The form becomes `SetField` of the old form. |
| RegisterPage.RegisterPageState.HandleConfirmChange | app/register/page.tsx:132 | Only the confirmation changes. |
| RegisterPage.RegisterPageState.HandleChannelChange | app/register/page.tsx:54-65 | The form becomes `ToggleChannel` of the old form. |
| RegisterPage.RegisterPageState.Submit | app/register/page.tsx:68-79 | The error is cleared. A request, carrying the whole form, is made iff the password equals its confirmation. Otherwise the error is "Las contraseñas no coinciden.". |
| RegisterPage.RegisterPageState.FinishSubmit | app/register/page.tsx:77-97 | Success navigates to "/login". Failure shows `RegisterErrorMessage` and does not navigate. |
| ModerationPage.IsAdmin | app/moderation/page.tsx:32 | A missing user is never an administrator. |
| ModerationPage.Access | app/moderation/page.tsx:29-40 | Once loading is done, anyone but an authenticated ADMIN is redirected to "/" with no fetch. A fetch happens iff authenticated and `rol` is ADMIN. |
| ModerationPage.RemoveFeedback | app/moderation/page.tsx:67-69 | Keeps exactly the items whose id differs. |
| ModerationPage.RemoveFeedbackConcat | app/moderation/page.tsx:67-69 | The removal works piecewise over any split, so the rest keep their original order. |
| ModerationPage.RemoveFeedbackAbsent | app/moderation/page.tsx:67-69 | Removing an id no item carries leaves the list unchanged. |
| ModerationPage.RemoveFeedbackIdempotent | app/moderation/page.tsx:61-69 | Moderating the same id twice removes it once. |
| ModerationPage.ModerationPageState.constructor | app/moderation/page.tsx:24-26 | An empty list, loading, and no error. |
| ModerationPage.ModerationPageState.RunEffect | app/moderation/page.tsx:29-57 | Navigates to "/" exactly in the deny case. Fetches (and sets loading) exactly for an authenticated ADMIN. |
| ModerationPage.ModerationPageState.FinishFetch | app/moderation/page.tsx:41-53 | Success replaces the list. Failure sets the error and keeps the list. Loading ends either way. |
| ModerationPage.ModerationPageState.Moderate | app/moderation/page.tsx:61-77 | Success removes exactly the items with that id. Failure leaves the list unchanged. |
| ModerationPage.ModerationPageState.View | app/moderation/page.tsx:79-87 | Waiting while auth or the page is loading. Then "Acceso Denegado." when `rol` is not ADMIN. Otherwise the panel with the list and error. |
| CreateScrimPage.PassesDateCheck | app/create-scrim/page.tsx:80 | An invalid date always passes, since `<=` on NaN is false. A valid date passes iff it is strictly after now. |
| CreateScrimPage.SetText | app/create-scrim/page.tsx:66-72 | The named text field takes the value, and every other field is unchanged. |
| CreateScrimPage.SetNumber | app/create-scrim/page.tsx:58-64 | The named numeric field takes the value, and every other field is unchanged. |
| CreateScrimPage.HandleChange | app/create-scrim/page.tsx:58-64 | A number input stores `parseInt(value) \|\| 0`. Any other input stores the raw string verbatim. Only the named field changes. |
| CreateScrimPage.NumberInputStores | app/create-scrim/page.tsx:62 | A typed decimal numeral is stored as its number, and input without any digit is stored as 0. |
| CreateScrimPage.CreateErrorMessage | app/create-scrim/page.tsx:90-100 | With a `detalles` object the message is "Error de validación: " + its first value ("undefined" when it is empty). Otherwise it is the generic message. |
| CreateScrimPage.CreateScrimPageState.constructor | app/create-scrim/page.tsx:34-48 | The form starts at its defaults, with no error. |
| CreateScrimPage.CreateScrimPageState.View | app/create-scrim/page.tsx:103-105 | Waiting view iff auth is loading or the user is unauthenticated. |
| CreateScrimPage.CreateScrimPageState.HandleInputChange | app/create-scrim/page.tsx:58-64 | The form becomes `HandleChange` of the old form. |
| CreateScrimPage.CreateScrimPageState.HandleSelectChange | app/create-scrim/page.tsx:66-72 | The form becomes `SetText` of the old form. |
| CreateScrimPage.CreateScrimPageState.Submit | app/create-scrim/page.tsx:75-87 | The error is cleared. A date not strictly after `now` sets "La fecha y hora deben ser en el futuro." and nothing is posted. Otherwise the whole form is posted. |
| CreateScrimPage.CreateScrimPageState.FinishSubmit | app/create-scrim/page.tsx:85-100 | Success navigates to "/". Failure shows `CreateErrorMessage` and does not navigate. |

## Left out

- Rendering:
  - all JSX, CSS classes and UI components (cards, tables, selects, badges);
  - the badge's colour class, the card's date formatting (`toLocaleString`) and the text of links.
- HTTP transport:
  - the axios instance and its base URL and default headers (lib/apiClient.ts:3-8);
  - the interceptor's error handler (lib/apiClient.ts:25-27), which only passes the error on;
  - every request, which is an abstract `Response`;
  - the request bodies (for example the fixed `rolDeseado`/`latenciaReportada` of an application).
- Toasts and `console.error`:
  - the toast texts, including the choice between the backend `error` and the generic text in components/scrims-grid.tsx:41-45, are not modelled;
  - `e.preventDefault()` is not modelled.
- Router: navigation is a returned `Nav` value.
- `JSON.stringify`/`JSON.parse`: replaced by the proved codec.
- `AuthContext.AuthProvider.Hydrate`:
  - `JSON.parse` accepts records with an unknown `rol` or other shapes, which the codec rejects as corrupt;
  - when parsing throws, the code has already called `setToken`; whether React commits that update is not modelled, and the model changes nothing;
  - `JSON.parse` accepts `"{}"`, which restores a session there but is corrupt here;
  - `JSON.parse("null")` yields `null`. In the code, a stored `"null"` then sets the token, leaves the user null and ends loading, which gives an authenticated, loaded session with no user. `login` writes `"null"` whenever it is handed a null user. The codec has no null result, so the model never produces that state. The pairing of token and user that `Hydrate` preserves holds only because of this.
- `JsNumber.ParseInt`: the result is an unbounded integer. The rounding of numerals beyond 2^53 to the nearest double is not modelled.
- Dates: `new Date(...)` parsing is the `parseDate` parameter. The browser's `required` attribute, which blocks an empty date before `handleSubmit` runs, is not modelled. An invalid date is modelled as passing the check, as the code's `<=` on NaN does.
- Concurrency:
  - effect ordering, re-runs on dependency changes, and interleavings of requests with later handlers;
  - `FinishPostular` clears `applyingTo` whatever scrim it holds, as the code does; races between two cards are not modelled.
- `RegisterPage.SetField`: `handleSelectChange` is typed to accept any form key, including `canalesPreferidos`. The model takes only the text fields, which are the only ones the page passes.
- The dashboard's `setFilters` is handed to `FiltersBar`, which takes no props (components/filters-bar.tsx:7). In the running app the filters therefore stay `{}`, but the model accepts any filters.
- Other files are not part of this model:
  - components/header.tsx, components/filters-bar.tsx, app/layout.tsx;
  - app/login/page.tsx, app/my-scrims/page.tsx, app/profile/page.tsx;
  - app/scrim/[id]/page.tsx and its stats page.

  They are UI, provider wiring, or fetch/form plumbing whose guards repeat `RouteGuard.LoginRedirect`.
