# Calmora mental-health tracker — a Dafny model of its rules

Calmora is a FastAPI backend with a React client and a separate Streamlit
app. Users register, log in with a bearer token, submit one wellness entry
per day, get a predicted mood and stress score with an AI recommendation,
see their last five entries, export them as CSV, and edit or delete their
account. This project models the rule-like logic of those pieces as pure
Dafny functions over immutable values and proves what they promise.

- **Backend tables** (`tables.dfy`, module `Tables`): the `users` table as a
  `map<int, User>` keyed by id, the `tracker_entries` table as a
  `seq<Entry>` in insertion order, dates as day numbers, and the
  `.first()` lookups (lowest matching id).
- **Crypto** (`crypto.dfy`): bcrypt and JWT as a record of four functions
  (`hash`, `verify`, `encode`, `decode`) passed in. Their behaviour is not
  modelled. Two predicates state the facts some lemmas assume: an
  unexpired token decodes to its claims, and a password verifies against
  its own hash.
- **Auth** (`auth.dfy`): token expiry, `register`, `login`.
- **UserRouter** (`user_router.dfy`): `get_current_user`, `update_profile`
  (partial update, upload check, token reissue), `delete_account`.
- **Sorting** / **TrackerRouter** (`sorting.dfy`, `tracker_router.dfy`): the
  once-a-day `predict`, the five-entry history, and the CSV export.
- **Api** (`api.js`), **UseAuth**, **LoginPage**, **RegisterPage**,
  **ProfileEditForm**, **TrackerPage**: the client. The localStorage entry
  `"token"` is an `Option<string>` passed in and returned. The server's
  reply is an input value. Every handler is a function from (state,
  store, reply) to (request sent, new state, new store, toast).
- **Interpretation** (`interpretation.dfy`): the Streamlit score bands and
  the order of the model's input features.

Clocks, the prediction model, the AI text, date parsing and the object URL
of a picked photo are all parameters.

The backend's `register` returns an access token
(application/backend/auth.py:53-54), but the registration page never
stores it (application/frontend/src/pages/Register.jsx:41-50): a new user
is sent to the login page and has to log in. `RegisterPage.Submit` ensures
the token store is unchanged.

## Model

| member | source | states |
|---|---|---|
| Tables.FindByUsername | application/backend/routers/user_router.py:34 | finds a user iff one has that username; the result has that username and is the lowest such id |
| Tables.FindByEmail | application/backend/auth.py:60 | finds a user iff one has that email; the result has that email and is the lowest such id |
| Tables.FreshId | application/backend/models.py:11 | the id given to a new user is not already a key of the table |
| Tables.EntriesOf | application/backend/routers/tracker_router.py:91-93 | an entry is in the result iff it is in the table and belongs to the user; the result is a sub-multiset of the table |
| Tables.EntriesOfCounts | application/backend/routers/tracker_router.py:91-93 | every entry of the user is kept as many times as the table holds it, and no entry of anyone else is |
| Text.LowerIdempotent | application/backend/routers/user_router.py:73 | lower-casing a content type twice is the same as once |
| Auth.Expiry | application/backend/auth.py:34-36 | `exp` is now + delta for a non-zero delta, and now + the configured minutes otherwise (a zero `timedelta` is falsy in Python) |
| Auth.CreateAccessToken | application/backend/auth.py:34-38 | definition: the encoding of the claims `sub` = the subject and `exp` = `Expiry(now, delta)`; what it promises is stated by `Auth.TokenCarriesClaims` |
| Auth.TokenCarriesClaims | application/backend/auth.py:34-38 | until it expires, an issued token decodes to `sub` = the subject and `exp` = the computed expiry |
| Auth.Register | application/backend/auth.py:41-54 | a taken username gives 400 "Username already registered", checked before the email; a taken email gives 400 "Email already registered"; any failure leaves the table unchanged; success adds exactly one row under a fresh id, storing `hash(password)`, leaves other rows alone, returns a token for the username, and keeps usernames and emails unique |
| Auth.RegisterAllKeepsUnique | application/backend/auth.py:43-46 | after any series of registrations, usernames and emails are still unique |
| Auth.Login | application/backend/auth.py:57-66 | succeeds iff an email is given, a user has it and the password verifies against that user's hash; the token's subject is that user's username; an unknown email and a wrong password give the same 401 "Incorrect email or password"; the handler's `else` branch (401 "Incorrect username or email" for a missing email) is modelled, but the route cannot reach it, because the request schema requires `email` (schemas.py:12) |
| Auth.RegisteredUserCanLogIn | application/backend/auth.py:43-64 | with unique emails, a user who just registered can log in with that email and password and gets a token for the registered username |
| UserRouter.CurrentUser | application/backend/routers/user_router.py:21-37 | returns a user iff the token decodes, carries a `sub`, and a user with that username exists; the user returned has that username; every other case is the same 401 with `WWW-Authenticate: Bearer` |
| UserRouter.LoginTokenAuthenticates | application/backend/routers/user_router.py:21-37 | with unique usernames, the token from a successful login identifies, until it expires, the user whose email logged in |
| UserRouter.IsImageType | application/backend/routers/user_router.py:73 | definition: the lower-cased content type starts with `image/` or ends with `jpeg`, `jpg` or `png`; its properties are the three lemmas below |
| UserRouter.ImageTypeIgnoresCase | application/backend/routers/user_router.py:73 | the upload check gives the same answer for a content type and its lower-cased form |
| UserRouter.ImageTypeExamples | application/backend/routers/user_router.py:73 | `image/png`, `IMAGE/GIF` and `application/jpg` are accepted, so a type ending in an image extension passes without `image/` |
| UserRouter.NonImageTypeRefused | application/backend/routers/user_router.py:73 | `application/pdf` is refused |
| UserRouter.StoredImageName | application/backend/routers/user_router.py:79 | definition: the stored file name `user_<id>_<filename>` |
| UserRouter.Overwrite | application/backend/routers/user_router.py:56-65 | a field takes the supplied value iff one was supplied, and keeps its old value otherwise |
| UserRouter.Stage | application/backend/routers/user_router.py:56-89 | the staged row is produced iff the birth date parses and any file has an image content type; a bad date gives 500 before the file is looked at, a missing content type 500, a non-image type 400; on success each field is overwritten iff supplied, the password hash is kept, and an accepted file sets the image to `<media>/user_<id>_<filename>` |
| UserRouter.UpdateProfile | application/backend/routers/user_router.py:41-95 | succeeds iff the user exists, staging succeeds and the staged row keeps usernames and emails unique; an unknown user gives 404, a staging error is passed on, and a staged row that breaks uniqueness fails the commit with 500; every error leaves the table unchanged; success changes only that user's row, to the staged row; the old image is reported removed exactly when a new file is accepted and the user had an image, whether or not the commit then succeeds; the reply's `profile_image` is "" when the user has none; a new token is returned iff a username was supplied that differs from the old one, and it names the new username |
| UserRouter.WithoutUser | application/backend/routers/user_router.py:111 | an entry remains iff it is in the table and belongs to another user, and nothing is added |
| UserRouter.WithoutUserKeepsOthers | application/backend/routers/user_router.py:111 | removing one user's entries leaves every other user's entries exactly as they were, in order |
| UserRouter.DeleteAccount | application/backend/routers/user_router.py:98-116 | an unknown user gives 404 and changes nothing; otherwise the user's key is removed, other rows are untouched, the entries left are exactly the others' entries in table order, and the stored image is reported removed if there was one |
| UserRouter.DeleteKeepsInvariants | application/backend/routers/user_router.py:111-115 | deletion keeps usernames and emails unique and keeps at most one entry per user per day |
| Sorting.Sort | application/backend/routers/tracker_router.py:93 | the result is ordered by date (newest or oldest first) and is a permutation of the input |
| Sorting.ReverseFlips | application/backend/routers/tracker_router.py:97 | reversing a newest-first sequence gives an oldest-first sequence with the same elements |
| TrackerRouter.Predict | application/backend/routers/tracker_router.py:18-79 | with an entry of the user dated on the day of the first clock read, the reply is only the `detail` message and the table is unchanged; otherwise exactly one entry is appended with the user's id, the day of the second clock read (line 69), the eight inputs verbatim and the given scores and text; the reply's scores, text and date equal the stored entry's; at most one entry per user per day is kept when both reads fall on one day or the user has no entry on the second read's day |
| TrackerRouter.PredictAllOnePerDay | application/backend/routers/tracker_router.py:24-70 | with `predict` as the only writer, called one request at a time on a clock that does not go back, no user ever has two entries on one day, even when a request starts before midnight and stores the next day |
| TrackerRouter.Latest | application/backend/routers/tracker_router.py:93-97 | keeps min(5, n) of the given entries, oldest first, and drops only entries no newer than every kept one |
| TrackerRouter.History | application/backend/routers/tracker_router.py:82-98 | the history holds only the user's entries, min(5, their count) of them, oldest first, and no entry left out is newer than one kept |
| TrackerRouter.RowMatchesHeader | application/backend/routers/tracker_router.py:118-138 | header and row both have 12 fields, and field i of a row is the entry attribute header column i names (`created_at` is the date, `work_productivity_score` the productivity) |
| TrackerRouter.ExportRow | application/backend/routers/tracker_router.py:124-138 | definition: the twelve attributes of one entry in the order written; `TrackerRouter.RowMatchesHeader` ties each position to its header name |
| TrackerRouter.ExportOrder | application/backend/routers/tracker_router.py:110-112 | the user's entries ordered by ascending date, as a permutation of that user's entries |
| TrackerRouter.Export | application/backend/routers/tracker_router.py:102-143 | the file is named `tracker_data_<username>.csv`; the header is the 12 fixed names; there is one row per entry of the user, row i being the row of the i-th entry in ascending date order |
| TrackerRouter.ExportRowsAscending | application/backend/routers/tracker_router.py:110-138 | every row has 12 fields and rows go by ascending date |
| TrackerRouter.ExportRowsFromUser | application/backend/routers/tracker_router.py:110-112 | every row is the row of an entry of that user |
| Api.Intercept | application/frontend/src/utils/api.js:20-29 | a truthy stored token becomes `Authorization: Bearer <token>`; with no token or `""` the request is unchanged; verb, path, params, body and every other header are never changed |
| Api.Settle | application/frontend/src/utils/api.js:39-40 | a helper resolves with exactly `response.data` iff the status is 2xx, and otherwise rejects with the status and body, or with a network failure |
| Api.GetData | application/frontend/src/utils/api.js:38-41 | configures GET to the endpoint with the given params, no body and the JSON content type |
| Api.PostData | application/frontend/src/utils/api.js:51-54 | configures POST with the body unchanged and the JSON content type |
| Api.PutData | application/frontend/src/utils/api.js:63-70 | configures PUT with the body unchanged; a FormData body goes without a content type, any other body with the JSON one |
| Api.DeleteData | application/frontend/src/utils/api.js:78-81 | configures DELETE with no body and the JSON content type |
| Api.EveryVerbAuthorized | application/frontend/src/utils/api.js:20-29 | all four helpers send `Authorization` iff the stored token is truthy, and its value is `Bearer ` + the token |
| Api.Logout | application/frontend/src/utils/api.js:88-90 | the token slot is empty afterwards, whatever it held |
| Api.LogoutDeauthorizes | application/frontend/src/utils/api.js:88-90 | after logout the interceptor leaves requests unchanged, and logging out twice is the same as once |
| UseAuth.Mount | application/frontend/src/utils/useAuth.js:11-14 | the first effect run sets the value to whether the stored token is truthy; later runs change nothing |
| UseAuth.ReadOnce | application/frontend/src/utils/useAuth.js:9-14 | the value is false before mount, and a token change after mount is not reflected |
| UseAuth.AgreesWithInterceptor | application/frontend/src/utils/useAuth.js:13 | the hook says authenticated exactly when the interceptor would add an `Authorization` header |
| LoginPage.Submit | application/frontend/src/pages/Login.jsx:14-30 | posts exactly `{email, password}` to `/auth/login`; a truthy `access_token` replaces the stored token and navigates to `/`; a reply without one, or a request error, leaves the token unchanged and shows "Login failed" |
| LoginPage.LoginAuthorizesLaterRequests | application/frontend/src/pages/Login.jsx:19-20 | after a login that returned a token, every request carries `Bearer <that token>` |
| RegisterPage.FailureText | application/frontend/src/pages/Register.jsx:52 | the error toast is the server's `detail` when truthy, else "Registration failed." |
| RegisterPage.Submit | application/frontend/src/pages/Register.jsx:27-56 | mismatched passwords send nothing, show "Passwords do not match." and leave loading as it was; otherwise the payload is posted to `/auth/register` and loading ends false; success shows the success toast and navigates to `/login`; the token store is never written |
| RegisterPage.PayloadOmitsConfirmation | application/frontend/src/pages/Register.jsx:35-39 | the payload has exactly `username`, `email` and `password` |
| RegisterPage.BothRepliesAlike | application/frontend/src/pages/Register.jsx:42-50 | a success reply with or without `message` gives the same toast and navigation |
| ProfileEditForm.Init | application/frontend/src/components/ProfileEditForm.jsx:6-11 | the form starts with the profile's fields, `gender` is the profile's if truthy and "Male" otherwise, and photo and preview start as the profile's photo if truthy |
| ProfileEditForm.PickPhoto | application/frontend/src/components/ProfileEditForm.jsx:15-39 | picking or dropping files takes only the first one as the photo; an empty selection changes nothing |
| ProfileEditForm.FormParts | application/frontend/src/components/ProfileEditForm.jsx:65-72 | the five fields `full_name, email, username, gender, birth_date` are always sent, in that order and taken from the form (`null`/`undefined` become the strings FormData makes of them); `file` is appended iff the photo is a File |
| ProfileEditForm.Submit | application/frontend/src/components/ProfileEditForm.jsx:42-86 | PUTs the multipart form to `/account/profile` without a content type; a truthy `access_token` replaces the stored token, anything else leaves it; on a request error the token is unchanged and `onSave` is not called |
| ProfileEditForm.InitialPhotoNotResent | application/frontend/src/components/ProfileEditForm.jsx:70-72 | without a new pick, the photo the profile came with is never sent |
| ProfileEditForm.PickedPhotoIsSent | application/frontend/src/components/ProfileEditForm.jsx:15-72 | after a pick, the next save sends six parts, the last being the picked file under the name "file" |
| TrackerPage.InitialChoicesAreOptions | application/frontend/src/pages/Tracker.jsx:6-19 | each select starts on a member of its option list |
| TrackerPage.HandleChange | application/frontend/src/pages/Tracker.jsx:27-33 | only the named field changes; the value goes through `Number` iff the input type is "number" |
| TrackerPage.ChangeReachesPayload | application/frontend/src/pages/Tracker.jsx:27-46 | a change to a form field shows up in the payload under that field's snake_case key; every other payload key stays present or absent as before and keeps its value |
| TrackerPage.RenamingIsOneToOne | application/frontend/src/pages/Tracker.jsx:37-46 | the eight camelCase names map one-to-one onto eight snake_case keys |
| TrackerPage.PayloadFrom | application/frontend/src/pages/Tracker.jsx:37-46 | for (field, key) pairs with distinct keys, every payload key is the key of some pair, and a pair's key is present, holding its field's value, iff that field is set |
| TrackerPage.Payload | application/frontend/src/pages/Tracker.jsx:37-46 | definition: the payload built from the eight field/key pairs; `TrackerPage.PayloadCarriesForm` and `TrackerPage.ChangeReachesPayload` state what it carries |
| TrackerPage.PayloadCarriesForm | application/frontend/src/pages/Tracker.jsx:37-46 | from the initial form, the payload has exactly the eight snake_case keys, each with its field's value unchanged |
| TrackerPage.PredictAsWritten | application/frontend/src/pages/Tracker.jsx:35-64 | posts the payload to `/tracker/predict`; a `detail` reply leaves result and markdown unchanged and loading true; success sets the result from the two scores, the markdown to the recommendation or "", and clears loading; an error resets result to null and markdown to "" and clears loading |
| TrackerPage.Predict | application/frontend/src/pages/Tracker.jsx:49-63 | the same handler with loading cleared on every path |
| TrackerPage.OnWire | application/backend/schemas.py:34-39 | definition: the backend reply as the client reads it through `PredictOutput`, with every unset field `null`; a `detail` reply has no scores and a prediction has no `detail` |
| TrackerPage.SecondPredictionSameDay | application/frontend/src/pages/Tracker.jsx:49-52 | a second prediction on one day leaves the page as written loading for good, while the corrected handler clears loading and keeps what was shown |
| Interpretation.MoodBandOf | streamlit/app.py:166-175 | the mood band is Excellent iff score ≥ 8, Good iff 6 ≤ score < 8, Moderate iff 4 ≤ score < 6, Low iff score < 4, so every score gets exactly one band |
| Interpretation.StressBandOf | streamlit/app.py:177-186 | the stress band is Low iff score ≤ 3, Moderate iff 3 < score ≤ 5, High iff 5 < score ≤ 7, Very high iff score > 7 |
| Interpretation.MoodText | streamlit/app.py:168-175 | definition: the label shown for each mood band |
| Interpretation.StressText | streamlit/app.py:179-186 | definition: the label shown for each stress band |
| Interpretation.TextsDistinct | streamlit/app.py:168-186 | the four mood labels differ from each other, and so do the four stress labels |
| Interpretation.MoodMonotone | streamlit/app.py:166-175 | a higher mood score never gets a worse band |
| Interpretation.StressMonotone | streamlit/app.py:177-186 | a higher stress score never gets a less severe band |
| Interpretation.Features | streamlit/app.py:119-139 | definition: the eight model inputs, categories passed through their encoders, before scaling; `Interpretation.FeaturesFollowOrder` states the order |
| Interpretation.FeaturesFollowOrder | streamlit/app.py:119-139 | the input vector has 8 features in the fixed order, with the categories encoded; the order matches the web client's payload keys |
| Interpretation.ChoicesMatchWebForm | streamlit/app.py:75-92 | the Streamlit select boxes offer the same categories, in the same order, as the web tracker form |

## Left out

- Request validation and foreign calls: request bodies are taken as already validated by their pydantic schemas (schemas.py:5-30). A missing or ill-typed field gets FastAPI's 422, whose `detail` is a list; that reply is not modelled, and `RegisterPage.FailureText` reads `detail` only as a string. `EmailStr` normalisation of emails (schemas.py:7, 12) is not modelled: emails are compared as given. The prediction model and the AI call (utils/prediction.py:97, :120) are assumed to return; if either raises, the route answers 500 and stores nothing, which `TrackerRouter.Predict` does not model.
- HTTP transport, axios internals, CORS and static mounts: a request is a record of what a helper configures, and a response is an input value. What axios's adapter puts on the wire (for instance whether it drops `Content-Type` on a request without a body) is not modelled.
- React rendering, routing and timers: toasts and navigation targets are recorded as values. `window.location.reload` is not modelled. Register's intermediate `loading = true` is not modelled; only the final value is.
- `get_profile` (user_router.py:120-142) is outside the modelled routes.
- `ProfileInfo.jsx` export: it calls `fetch` directly and skips the interceptor. It sends `Bearer null` when no token is stored (ProfileInfo.jsx:23-27). It is not modelled.
- The prediction model, label encoders, scaler, rounding and the Gemini recommendation: scores and text are inputs. `Interpretation.Features` is the vector before scaling.
- Plotly charts: `create_gauge_chart` is called with three arguments but declared with two (streamlit/app.py:197, 218). The display path is not modelled.
- bcrypt and JWT: parameters. A bcrypt hash is salted, but the model treats it as a function of the password. Token expiry is checked inside `decode`.
- Filesystem: the deleted image is reported as a path. `os.path.exists`, `makedirs` and the file write are not modelled. The write happens before commit, so a failed commit leaves the new file on disk; this is not modelled either.
- Database: ids come from `FreshId` (largest key + 1, assumed to be how the database assigns row ids). `database.py` is not part of this model. SQL leaves the order of same-day entries open; the model keeps table order. Under the one-entry-per-day invariant no such ties exist.
- `update_profile`: the route does not check uniqueness. The model has the commit fail with 500 when the `unique=True` columns of models.py would be violated. This follows the schema, not code in the route.
- `strptime` is a parameter that may fail (500). `Number(text)` in the tracker form is recorded as unevaluated.
- Python `str.lower` is modelled for ASCII letters only.
- A missing `Authorization` header (FastAPI's own "Not authenticated" 401) is not modelled: `CurrentUser` starts from the token string.
- CSV quoting by `csv.writer`: rows are sequences of typed cells.
- Wall-clock time: `now` (seconds) and the days of `predict`'s two clock reads (tracker_router.py:24 and :69) are parameters. One-entry-per-day is proved only for requests that run one at a time on a clock that does not go back. Two requests of one user that overlap can both pass the check and store two entries for one day. Concurrency is not modelled.
- ProfileEditForm.Submit: records whether `onSave` is called, not the object passed to it.

## Findings

| source | as written | input that shows it | evidently intended | confidence | as-written member | corrected member |
|---|---|---|---|---|---|---|
| application/frontend/src/pages/Tracker.jsx:49-52 | a reply with `detail` returns before `setLoading(false)` (line 63), so the button stays disabled showing "Predicting..." | a second prediction on the same day, which the backend answers with `detail` (tracker_router.py:29-30); see `TrackerPage.SecondPredictionSameDay` | loading is cleared on every path, as `Register.jsx` does with `finally` | medium; not executed | TrackerPage.PredictAsWritten | TrackerPage.Predict |
