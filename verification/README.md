# Pet Manager client — a Dafny model

This project models the client side of Pet Manager, a React admin application for pets and their tutors (owners). The model covers:

- the shared axios client, with its request interceptor and default headers;
- the three login paths and the two logout paths;
- the pets and tutores services, including the two-phase save (record first, then photo);
- the tutores facade;
- the routed pages and forms, modelled as state machines;
- the route table.

The model is functional. Every operation is a pure function:

- Inputs: a `World` and a server oracle.
  - The `World` is browser storage as a map, the client's two default-header slots, and the trace of requests sent so far.
  - The oracle `Server` maps the request history and a new request to a reply.
- Outputs: a new `World`, what the call resolved or rejected with, and any navigation, alert or page state.

Response bodies are JavaScript values (`JsValues.Value`). This lets the model keep three JavaScript behaviours:

- truthiness tests;
- property access that throws on `null`/`undefined`;
- string coercion, as in template literals and `localStorage.setItem`.

Modules follow the source layout:

| module | models |
|---|---|
| `Api` | the client |
| `AuthTs`, `AuthService`, `LoginPage`, `App` | the session code |
| `Resource` | the operations both services share |
| `PetsService`, `TutoresService` | the two services |
| `TutoresFacade` | the tutores facade |
| `PetForm`, `TutorForm` | the forms |
| `PetsPage`, `TutoresPage`, `PetDetail`, `TutorDetail` | the pages |
| `Types` | the wire encoding of the typed entities |
| `Sessions` | scenarios that span several modules |

Behaviours of the code that the model makes explicit:

- **401 handling.** There is no response interceptor. A 401 is handled page by page:
  - the pets list and the tutores facade navigate to `/login`;
  - the pet form only logs it.
- **Token keys.** Three keys hold a token:
  - `auth.ts` writes `token`;
  - `auth.service.ts` writes `@PetManager:token`;
  - the login page writes `access_token`;
  - the interceptor reads only `token`.

  So a session started on the login page authenticates only through the `common` default header. After a reload, every request without a header of its own (all service calls) goes out without `Authorization`. The pet form builds its own header from `token` or else `access_token`, so it still sends the token (`Sessions.PageLoginLostOnReload`, `PetForm.HeaderFallback`).
- **Photo uploads.** The tutores service uploads the photo under the field `file`, and its failed upload rejects the save. The pets service uses `foto` and swallows the failure.
- **Debounce.** Only the pets page debounces its search. The tutores page fetches on every change.
- **Request order.** The pet detail page fetches the tutor after the pet has arrived. The tutor detail page issues its two requests together.
- **Login bodies.** `auth.ts` and `auth.service.ts` post `{email, senha}`; the login page posts `{username, password}`.

## Model

| member | source | states |
|---|---|---|
| JsValues.Get | src/features/Pets/PetDetail.tsx:24-26 | property access throws exactly on `null`/`undefined`; a missing key reads as `undefined` |
| JsValues.ParseNumber | src/features/Pets/components/PetForm.tsx:28 | `Number(s)` of a digit string is that string's decimal value |
| JsValues.NumberField | src/features/Pets/components/PetForm.tsx:28 | `Number(idade)` placed in a JSON body is a number, and `null` exactly when the text does not parse (NaN) |
| JsValues.NumberFieldOfInt | src/features/Pets/components/PetForm.tsx:28 | the decimal text of any integer, negative ones included, is sent as that integer |
| JsValues.IntToStrRoundTrip | src/features/Pets/components/PetForm.tsx:28 | reading back the decimal text of any integer gives the integer |
| JsValues.IncludesIffOccurs | src/features/Pets/pages/PetsPage.tsx:18-19 | `includes` is true exactly when the substring occurs at some index |
| Api.Intercept | src/api/api.ts:9-15 | with a non-empty `token` the header becomes `Bearer <token>`; otherwise the headers pass unchanged; other headers always survive |
| Api.InterceptReadsOnlyToken | src/api/api.ts:10 | two storages that agree on `token` give the same headers, whatever else they hold |
| Api.InterceptIdempotent | src/api/auth.ts:10-16 | applying the interceptor twice equals applying it once |
| Api.DefaultHeaders | src/api/auth.service.ts:11 | the root `Authorization` default wins over the `common` one; with neither there is no default header |
| Api.AuthHeader | src/api/api.ts:9-15 | precedence of the header a request carries: stored token, then per-call header, then root default, then `common` default |
| Api.OutgoingAuthHeader | src/api/api.ts:9-15 | the request on the wire carries `Authorization` exactly when `AuthHeader` is present, and with that value |
| AuthTs.Login | src/api/auth.ts:3-7 | one POST of `{email, senha}`. On success `String(data.token)` is stored under `token`. A `null` body throws. A rejection leaves storage untouched |
| AuthTs.DuplicateInterceptorHarmless | src/api/auth.ts:10-16 | any number of registrations of the same interceptor produce the headers of one |
| AuthTs.LoginThenRequestCarriesToken | src/api/auth.ts:5 | after a login with a non-empty token, every later request carries `Bearer <token>` |
| AuthTs.LoginWithoutTokenStoresUndefined | src/api/auth.ts:5 | a successful reply without `token` stores the text `undefined`, and requests then carry `Bearer undefined` |
| AuthService.Login | src/api/auth.service.ts:4-15 | one POST to `/v1/auth/login`. Only a truthy token is stored under `@PetManager:token` and set as the root default. A rejection changes nothing |
| AuthService.Logout | src/api/auth.service.ts:17-20 | removes exactly the session key and the root default; every other key and the `common` default stay |
| AuthService.LoginThenLogout | src/api/auth.service.ts:4-20 | logging out after logging in leaves no session key and no root default |
| AuthService.SessionKeyInvisibleToInterceptor | src/api/auth.service.ts:8-12 | this login authenticates only through the root default: after a reload no request carries the session token, and requests without a header of their own carry none |
| LoginPage.HandleLogin | src/features/Auth/LoginPage.tsx:14-44 | loading is on and the error cleared while the POST of `{username, password}` runs. Success stores both tokens, sets the `common` header and navigates to `/pets`. Every failure stores nothing and shows one message. Loading ends off |
| LoginPage.MissingTokenIsInvalidCredentials | src/features/Auth/LoginPage.tsx:27-29 | a 200 reply without `access_token` fails exactly like rejected credentials |
| App.NavbarShownIff | src/App.tsx:20-23 | the navigation bar shows exactly when `token` or `access_token` holds a non-empty string |
| App.Logout | src/App.tsx:25-29 | removes `token` and `access_token`, keeps every other key, hides the navigation bar and goes to `/login` |
| App.Route | src/App.tsx:78-95 | each static path opens its own screen. `/` and every unmatched location redirect to `/login`. A one-segment `/pets/:id` or `/tutores/:id` other than `novo` opens that record |
| App.NovoWinsOverId | src/App.tsx:84-92 | `/pets/novo` and `/tutores/novo` would match `:id`, yet open the new-record forms |
| Resource.Fetch | src/features/tutores/tutores.service.ts:16-19 | one request through the client, with the serialised parameters, resolving to the reply body or rejecting with its status |
| Resource.GetById | src/features/tutores/tutores.service.ts:22-25 | one GET of `<base>/<id>` resolving to the body |
| Resource.PhaseOne | src/features/tutores/tutores.service.ts:30-35 | a truthy id is a PUT to the record; anything else is a POST to the collection |
| Resource.Upload | src/features/tutores/tutores.service.ts:38-45 | the photo upload is a multipart POST to `<base>/<id>/fotos` under the resource's field, with the swallow-or-propagate policy |
| Resource.Save | src/features/tutores/tutores.service.ts:27-48 | 1 or 2 requests. A phase-1 rejection sends nothing more. A `null` create body throws. Otherwise phase 2 follows the upload policy with the id from phase 1 |
| Resource.SaveUpdateNeverCreates | src/features/Pets/pets.service.ts:27-34 | a save with a truthy id never POSTs to the collection |
| PetsService.List | src/features/Pets/pets.service.ts:6-15 | one GET `/v1/pets` with the page, size 10, and `nome` present exactly when it is a non-empty string |
| PetsService.GetById | src/features/Pets/pets.service.ts:18-21 | one GET `/v1/pets/{id}` resolving to the body |
| PetsService.Save | src/features/Pets/pets.service.ts:24-56 | the two-phase save with field `foto`. Once phase 1 has produced an id, the call resolves to it whatever the upload does |
| PetsService.FotoUrl | src/features/Pets/pets.service.ts:62-67 | no URL for a falsy id; otherwise the absolute photo URL of that pet |
| PetsService.FotoUrlIsUploadTarget | src/features/Pets/pets.service.ts:44-66 | the photo URL names the same resource a save uploads to |
| TutoresService.List | src/features/tutores/tutores.service.ts:15-20 | one GET `/v1/tutores` with exactly `page` (default 0), `size` 10 and `nome` (default `""`, sent even when empty) |
| TutoresService.GetById | src/features/tutores/tutores.service.ts:22-25 | one GET `/v1/tutores/{id}` resolving to the body |
| TutoresService.Save | src/features/tutores/tutores.service.ts:27-48 | the two-phase save with field `file`. A failed upload rejects the call |
| TutoresService.LinkPet | src/features/tutores/tutores.service.ts:50-52 | one bodiless POST to `/v1/tutores/{t}/pets/{p}`, resolving to `undefined` or rejecting with the status |
| TutoresService.UnlinkPet | src/features/tutores/tutores.service.ts:54-56 | one DELETE to the same path, resolving to `undefined` or rejecting with the status |
| TutoresService.LinkUnlinkSameResource | src/features/tutores/tutores.service.ts:50-56 | link and unlink send the same request except for the verb |
| TutoresService.UploadFailureRejectsAfterWrite | src/features/tutores/tutores.service.ts:38-45 | an update whose PUT succeeded but whose upload failed still rejects |
| TutoresFacade.SaveTutor | src/features/tutores/tutores.facade.ts:11-29 | the service's requests. Success goes to `/tutores`. A 401 goes to `/login` with no message. Any other failure sets the generic message. Every failure is rethrown. Loading ends off |
| TutoresFacade.GetTutor | src/features/tutores/tutores.facade.ts:31-38 | resolves to the tutor, or to `null` with the load error set; it never rejects |
| PetForm.Submit | src/features/Pets/components/PetForm.tsx:17-50 | one POST `/v1/pets` of exactly the four fields, `idade` as `Number(idade)` (`null` when NaN). Success alerts and goes to `/pets`. A 401 is silent. Other errors alert |
| PetForm.PhotoNeverSent | src/features/Pets/components/PetForm.tsx:24-36 | the chosen photo makes no difference to anything sent; no multipart request is made |
| PetForm.HeaderFallback | src/features/Pets/components/PetForm.tsx:22-34 | the header uses `token`, else `access_token`, and is `Bearer null` with neither |
| TutorForm.FillKeepsLastTouch | src/features/tutores/components/TutorForm.tsx:19-25 | after any sequence of inputs, each field holds what its last input made of it (name and address upper-cased, phone verbatim, the first file of the last non-empty choice), or its start value if none touched it |
| TutorForm.PhotoUploadedIffChosen | src/features/tutores/components/TutorForm.tsx:19-32 | starting from the empty form, the submit hands the photo to the tutores save exactly when some file choice held a file, even if empty choices followed; the multipart upload then happens exactly when that holds and the create returned a truthy id, and never after a failed create |
| TutorForm.Submit | src/features/tutores/components/TutorForm.tsx:27-40 | always a create of the three fields through the tutores service. Success goes to `/tutores`; failure alerts and stays. Loading ends off |
| PetsPage.PetIcon | src/features/Pets/pages/PetsPage.tsx:16-21 | a missing species gives the rabbit |
| PetsPage.PetIconIff | src/features/Pets/pages/PetsPage.tsx:16-21 | dog exactly when the lower-cased species mentions `cão` or `cachorro`; else cat exactly when it mentions `gato`; else rabbit |
| PetsPage.FetchPets | src/features/Pets/pages/PetsPage.tsx:23-35 | one list request for the query. A body replaces the list and `totalPages`. A `null` body or an error keeps them. Only a 401 navigates, to `/login` |
| PetsPage.Step | src/features/Pets/pages/PetsPage.tsx:128-158 | typing resets to page 0. A change replaces the pending fetch with one for the new page and the unchanged or new term. Previous and next act only when enabled, and next stays below `totalPages`. Only a firing timer sends |
| PetsPage.RunCoherent | src/features/Pets/pages/PetsPage.tsx:128-152 | over any event sequence the page stays non-negative and a pending fetch carries the current values |
| PetsPage.BurstSendsNothing | src/features/Pets/pages/PetsPage.tsx:37-42 | a burst of typing and paging sends no request and does not navigate |
| PetsPage.OnlyLastValuesFetched | src/features/Pets/pages/PetsPage.tsx:37-42 | when the timer fires after a burst, one request goes out exactly when a fetch is pending, for the page and the `nome` the burst ended on |
| PetsPage.TypingTwiceFetchesOnce | src/features/Pets/pages/PetsPage.tsx:62-67 | two keystrokes before the timer cost one request, for the second text |
| TutoresPage.BareArrayHidesPaginator | src/features/tutores/pages/TutoresPage.tsx:23-26 | after a bare-array response the paginator is hidden |
| TutoresPage.PageResponseTaken | src/features/tutores/pages/TutoresPage.tsx:20-27 | a well-formed page, even an empty one, is taken as paginated with its encoded items and `totalPages` |
| TutoresPage.FetchTutores | src/features/tutores/pages/TutoresPage.tsx:14-34 | one list request for the current page and term. A reply is normalised. An error empties the list and keeps `totalPages`. Loading ends off |
| TutoresPage.Mount | src/features/tutores/pages/TutoresPage.tsx:36-38 | mounting sends one GET `/v1/tutores` for page 0 with `nome` empty, and loading ends |
| TutoresPage.Step | src/features/tutores/pages/TutoresPage.tsx:124-143 | typing resets to page 0. Previous clamps at 0 and next stays below `totalPages`. A change sends exactly one request for the new values. No change sends nothing |
| TutoresPage.RequestPerChange | src/features/tutores/pages/TutoresPage.tsx:36-38 | over any event sequence, requests equal the number of changes and the page stays non-negative |
| TutoresPage.TypingTwiceFetchesTwice | src/features/tutores/pages/TutoresPage.tsx:63 | two different terms in a row send two requests, the first for the abandoned term |
| PetDetail.LoadData | src/features/Pets/PetDetail.tsx:16-35 | GET of the pet first. A nested tutor is used without a request. Otherwise a truthy `tutorId` costs exactly one tutor GET. The pet shows even if that fails. Every error is swallowed and loading ends |
| PetDetail.TypedPetResolvesTutor | src/features/Pets/PetDetail.tsx:24-29 | for a server-encoded typed pet: a nested tutor is shown as encoded; a non-empty `tutorId` alone fetches `/v1/tutores/{tutorId}` |
| TutorDetail.LoadData | src/features/tutores/pages/TutorDetail.tsx:16-38 | with no id, nothing at all. Otherwise the tutor and `/v1/pets?size=100` as one batch. Either failing replaces nothing. Both succeeding set the tutor and then the catalogue's `content` |
| TutorDetail.BatchOrderIrrelevant | src/features/tutores/pages/TutorDetail.tsx:22-25 | a consequence of answering both batched requests against the history before the batch: neither reply depends on which request is listed first |
| TutorDetail.Select | src/features/tutores/pages/TutorDetail.tsx:104 | choosing a pet changes only the selection; tutor, catalogue and loading stay |
| TutorDetail.HandleVincular | src/features/tutores/pages/TutorDetail.tsx:42-52 | a no-op without a selection or id. Success clears the selection and reloads (3 requests). Failure alerts with no reload |
| TutorDetail.HandleDesvincular | src/features/tutores/pages/TutorDetail.tsx:54-63 | a no-op without an id or confirmation. The DELETE addresses `String(pet.id)`. Success is exactly the reload after the DELETE; failure alerts with no reload |
| TutorDetail.ReloadSeesLink | src/features/tutores/pages/TutorDetail.tsx:46-48 | the reload after a link is answered with the link in the server's history, so the shown tutor is the post-link one |
| TutorDetail.ReloadSeesUnlink | src/features/tutores/pages/TutorDetail.tsx:57-60 | the reload after an unlink is answered with the DELETE in the server's history, so the shown tutor is the post-unlink one |
| Types.PetValueTutor | src/api/types.ts:16-27 | an encoded pet carries its nested tutor and its `tutorId` exactly when the typed pet has them |
| Sessions.PageLoginLostOnReload | src/features/Auth/LoginPage.tsx:32-38 | after a login-page login requests carry `Bearer <access_token>`. After a reload the navigation bar still shows, and requests without a header of their own carry none, while the pet form's explicit header still carries `Bearer <access_token>` |
| Sessions.LogoutKeepsDefaultHeader | src/App.tsx:25-29 | the navigation bar's logout hides the bar, but until a reload requests without a header of their own still carry the login page's header |

## Left out

- JSX rendering, styling, icons, and the card and "new"/"back" buttons that only navigate.
- Real time: the 500 ms timer is a pending-fetch slot that a `Fire` event empties.
- Concurrency: every awaited call completes before the next event is handled. State changes while a request is in flight, and races between overlapping fetches, are not modelled. `Promise.all` is modelled as two requests against the same history.
- `window.confirm` is a boolean input. `alert` is an output string. `console` and `window.scrollTo` are ignored.
- Unicode case mapping. `toLowerCase` and `toUpperCase` are parameters (`lower`, `upper`).
- Numbers are integers. Non-integer, exponent, whitespace-padded, `0x`/`0b`/`0o`-prefixed and `Infinity` `Number(..)` text is NaN in this model; the pet form's `<input type="number">` yields only decimal text, possibly with a fraction or an exponent, or `""`, so the prefixed and `Infinity` forms never reach it. Integers are unbounded, so `JsValues.IntToStrRoundTrip` and `JsValues.NumberFieldOfInt` hold exactly only where JavaScript numbers are exact: beyond 2^53 `Number(..)` rounds, and from 1e21 on `String(..)` switches to exponent notation.
- The network is a total oracle. Network failures without a status, and timeouts, are not distinguished from HTTP errors.
- The axios `Accept`/`Content-Type` defaults and URL joining with the base URL are not tracked. Only `Authorization` and the multipart `Content-Type` header are.
- react-router's case-insensitive matching, trailing slashes and URL decoding of `:id`.
- PetsPage.PetIcon: a species that is present but not a string, on which `toLowerCase` would throw, is not modelled.
- The files the router does not reach, which repeat logic modelled here: the old pets page, tutor form, tutor detail and tutores page, `pets/PetsPage.tsx` and `Login.tsx`.
- Bootstrapping in `main.tsx` and the render smoke test.
- React's `StrictMode` (rendered by `main.tsx`) runs mount effects twice in development, so the tutores list, pet detail and tutor detail pages send their mount requests twice there; the model, `TutoresPage.Mount` included, describes the single run of a production build.
- `src/features/Pets/pets.models.ts` is not part of this model: it carries no behaviour, and `Types` transcribes the richer `src/api/types.ts`.
