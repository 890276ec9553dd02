# Aayur Gram: a verified model of the role-gated herb-tracking backend and its web client

Aayur Gram tracks herbal raw material from harvest to laboratory. Collectors log
collections (species, quantity, location and quality scores). Lab staff record
quality tests against a batch, optionally linked to a collection. Admins search
everything and list the users. The backend is an Express/Mongoose service; the
client is a React single-page app.

This project models, in Dafny:

- the three record stores (users, collections, lab records) and every handler
  that reads or writes them, with their status codes and error messages;
- the search predicates behind `?q=`: exact batch id, full 24-hex id, a
  case-insensitive short code (id suffix), species and email/name substrings;
- self-service registration with the shared-secret gates for the admin and lab
  roles, login, and the token payload;
- the `requireRole` middleware and the three route tables, as a dispatcher over
  constant tables;
- on the client:
  - the route guards and navigation links of `App.jsx`, sign-in and logout;
  - the Login and Signup submit flows;
  - the LabProcessing form (clear, load for edit, attach, POST/PUT choice);
  - the AdminDashboard panels, search and details classification;
  - the CollectorDashboard summary, submit form, sliders and QR payload.

Modules follow the program. `Common`, `Text`, `Ordering`, `Models` and `Search`
hold the shared vocabulary, the JavaScript string operations, the
filter-and-sort a Mongo query performs, the schemas and the match predicates.

- One module per controller: `LabController`, `CollectionController`,
  `AuthController` and `AdminController`. A store the handlers write is a class
  whose `seq` field the writing handlers reassign. Read-only handlers are
  functions of the stored sequence.
- `Access` covers the middleware and the routes.
- One module per page: `ClientText`, `AppShell`, `LoginPage`, `SignupPage`,
  `LabProcessingPage`, `AdminDashboardPage` and `CollectorDashboardPage`.

Library behaviour is abstracted as follows:

- bcrypt's hash is an input and its comparison a function parameter;
- `jwt.sign` is a function parameter;
- `mongoose.Types.ObjectId.isValid` is a function parameter required to accept
  every 24-hex string;
- `Number()` on the quantity text is a function parameter;
- the ids and timestamps the database assigns are inputs;
- every server reply the client sees is an input.

## Model

| member | source | states |
|---|---|---|
| `Models.ParseRole` | backend/src/models/User.js:8 | a role string is accepted exactly when it names one of collector, admin, user, lab |
| `Models.ParseStatus` | backend/src/models/LabRecord.js:9 | a status string is accepted exactly when it names pending, pass or fail |
| `Models.IndexOf` | backend/src/controllers/auth.controller.js:37 | `findOne` on an exact key: the position found holds that key; when none is found no element holds it |
| `Ordering.Where` | backend/src/controllers/lab.controller.js:42 | the query result holds exactly the matching documents, each as often as stored |
| `Ordering.Insert` | backend/src/controllers/lab.controller.js:42 | inserting into a newest-first list keeps it newest first and adds exactly that element |
| `Ordering.SortNewestFirst` | backend/src/controllers/lab.controller.js:42 | `sort({ createdAt: -1 })`: newest first and a permutation of the input |
| `Ordering.SortedQueryMembers` | backend/src/controllers/collection.controller.js:53 | a sorted query result contains a document iff it is stored and matches |
| `Text.TrimStart` | backend/src/controllers/auth.controller.js:21 | leading white space removed: never longer, and starting with a non-space |
| `Text.TrimStartShape` | backend/src/controllers/auth.controller.js:21 | what is kept is a suffix and everything dropped is white space |
| `Text.TrimEnd` | backend/src/controllers/auth.controller.js:21 | trailing white space removed: never longer, and ending with a non-space |
| `Text.TrimEndShape` | backend/src/controllers/auth.controller.js:21 | what is kept is a prefix and everything dropped is white space |
| `Text.Trim` | backend/src/controllers/auth.controller.js:21-22 | `trim()` never lengthens |
| `Text.TrimShape` | backend/src/controllers/auth.controller.js:21-22 | `trim()` returns a contiguous part of its input with no white space at either edge and only white space around it |
| `Text.TrimStartSkips` | backend/src/controllers/auth.controller.js:22 | leading white space before a non-space text is exactly what is removed |
| `Text.TrimEndSkips` | backend/src/controllers/auth.controller.js:22 | trailing white space after a non-space text is exactly what is removed |
| `Text.TrimPadded` | backend/src/controllers/auth.controller.js:21-23 | any white-space padding around an edge-clean text trims back to that text |
| `Text.TrimIdempotent` | frontend/src/pages/LabProcessing.jsx:378 | trimming twice is trimming once |
| `Text.Lower` | backend/src/controllers/lab.controller.js:38 | case folding keeps the length and folds every character |
| `Text.LowerSuffix` | backend/src/controllers/lab.controller.js:38 | folding commutes with taking a suffix |
| `Text.TakeLast` | frontend/src/pages/LabProcessing.jsx:371-374 | `slice(-n)`: at most n characters, a suffix of the input |
| `Text.TakeFirst` | frontend/src/pages/LabProcessing.jsx:123 | `slice(0, n)`: at most n characters, a prefix of the input |
| `Search.LongLabQueryIsExact` | backend/src/controllers/lab.controller.js:31-39 | a query longer than 12 characters matches only by batch id or full id, never by suffix |
| `Search.ShortCodeFindsId` | backend/src/controllers/lab.controller.js:37-38 | the last six characters of an id, in any case, match it by suffix |
| `Search.OwnCodesFindRecord` | backend/src/controllers/collection.controller.js:42-50 | every lab record and collection with a 24-hex id is found by its short code and by its full id |
| `Search.CastId` | backend/src/models/LabRecord.js:6 | a 24-hex value is cast to the canonical ObjectId text it denotes; anything else is left as it is |
| `Search.CastIdStable` | backend/src/models/LabRecord.js:6 | casting a cast value again changes nothing |
| `Search.CastOpt` | backend/src/models/LabRecord.js:6 | an optional ObjectId field stays absent or present, and a present one is in cast form |
| `Search.FindById` | backend/src/controllers/lab.controller.js:52 | `findById`: the first element whose id the query denotes under the cast, and none exactly when no element's id matches |
| `Search.FindByIdIgnoresCase` | backend/src/controllers/collection.controller.js:63 | in a store of distinct canonical ids, an id in any letter case finds exactly its own element |
| `LabController.LabStore.Create` | backend/src/controllers/lab.controller.js:4-24 | a non-empty collection id the ObjectId check rejects gives 400 and stores nothing (a 24-hex one never does); a schema failure gives 500 and stores nothing; otherwise 201 and exactly one record appended; the technician defaults to the caller, a blank collection id is stored absent, the status defaults to pending |
| `LabController.LabStore.Update` | backend/src/controllers/lab.controller.js:87-98 | an id that denotes no record under the ObjectId cast gives 404 and changes nothing; the id of a record in any letter case updates only that record, given fields overwrite (a given collection id in its cast form), and no record is ever created |
| `LabController.ListLabRecords` | backend/src/controllers/lab.controller.js:26-48 | 200 with the records the query matches (all of them for an empty query), each as often as stored, newest first |
| `LabController.ListMyLabRecords` | backend/src/controllers/lab.controller.js:61-85 | 401 exactly when there is no caller id; otherwise the caller's own matching records, newest first |
| `LabController.GetLabRecord` | backend/src/controllers/lab.controller.js:50-59 | 200 with a record the id denotes under the ObjectId cast (24 hex digits, letter case ignored) exactly when one exists, else 404 "Not found" |
| `LabController.GetLabRecordIgnoresCase` | backend/src/controllers/lab.controller.js:52 | a record's id in any letter case fetches that very record |
| `CollectionController.CollectionStore.Create` | backend/src/controllers/collection.controller.js:3-24 | falsy species or null quantity gives 400 and stores nothing (quantity 0 passes); a schema failure gives 500 and stores nothing; otherwise 201, one collection appended, owned by the caller whatever the body says |
| `CollectionController.ListMyCollections` | backend/src/controllers/collection.controller.js:26-35 | exactly the caller's collections, each as often as stored, newest first |
| `CollectionController.ListAllCollections` | backend/src/controllers/collection.controller.js:37-59 | every collection for an empty query, else those matching by species substring, full id or short code, newest first |
| `CollectionController.GetCollectionById` | backend/src/controllers/collection.controller.js:61-70 | 200 with a collection the id denotes under the ObjectId cast exactly when one exists, else 404 |
| `CollectionController.GetCollectionIgnoresCase` | backend/src/controllers/collection.controller.js:63 | a collection's id in any letter case fetches that very collection |
| `CollectionController.NewCollectionListedFirst` | backend/src/controllers/collection.controller.js:28-29 | a collection created after the stored ones is listed for its owner and heads the list |
| `AuthController.StoredRole` | backend/src/controllers/auth.controller.js:45 | a falsy role becomes user; a truthy one is stored iff it names an enum role |
| `AuthController.FindByEmail` | backend/src/controllers/auth.controller.js:37 | `findOne({ email })` finds a stored user with that email, and finds none exactly when there is none |
| `AuthController.UserStore.Register` | backend/src/controllers/auth.controller.js:12-56 | checks in order: missing fields 400, admin secret 403, lab secret 403, duplicate email 409, role outside the enum 500; every error leaves the store unchanged; success appends exactly the new user, replies 201 with the profile (no hash) and a token over its claims; emails stay unique |
| `AuthController.Login` | backend/src/controllers/auth.controller.js:58-84 | missing fields 400; an unknown email and a wrong password give the same 401 "Invalid credentials"; success is 200 with the stored user's profile and token |
| `AuthController.Me` | backend/src/controllers/auth.controller.js:86-94 | the user the caller's id denotes under the ObjectId cast, without the hash, or null when it denotes none |
| `AuthController.SecretIgnoresPadding` | backend/src/controllers/auth.controller.js:20-35 | white space around the configured or provided secret never matters, and an empty secret never admits |
| `AuthController.BlankSecretForbids` | backend/src/controllers/auth.controller.js:21-25 | an unset or blank configured secret refuses every provided secret |
| `AuthController.LoginAfterRegister` | backend/src/controllers/auth.controller.js:37-79 | a user just registered under a fresh email logs in with a password bcrypt accepts, and the token carries the stored role |
| `AdminController.Found` | backend/src/controllers/admin.controller.js:15 | the users the filter matches, each as often as it is stored (all of them for an empty query), newest first |
| `AdminController.ListUsers` | backend/src/controllers/admin.controller.js:3-21 | 200 with the views of the found users in their order (every user for an empty query), newest first, with no password hash in the result type |
| `Access.RequireRole` | backend/src/middleware/role.middleware.js:3-14 | no identity gives the authentication refusal first; otherwise the request passes iff its role is non-empty and declared, else 403 "Forbidden: insufficient role" |
| `Access.MoreRolesAdmitMore` | backend/src/middleware/role.middleware.js:3-8 | enlarging the role list never turns an admitted caller away |
| `Access.RoleOfCaller` | backend/src/middleware/role.middleware.js:7-8 | a caller whose token names a role passes exactly when that role is declared |
| `Access.FirstMatch` | backend/src/routes/lab.routes.js:8-12 | the first route, in declaration order, that matches method and path |
| `Access.Dispatch` | backend/src/routes/collection.routes.js:8-13 | a router-wide auth stage refuses an unauthenticated request before routing; a handler runs only on a matching route whose role stage passes |
| `Access.LabListRoute` | backend/src/routes/lab.routes.js:8 | `GET /` lists all lab records for admins only |
| `Access.LabMineRoute` | backend/src/routes/lab.routes.js:9-10 | `GET /mine` reaches the own-records handler for lab and admin, not the by-id handler |
| `Access.LabReadRoute` | backend/src/routes/lab.routes.js:10 | `GET /:id` for lab and admin |
| `Access.LabCreateRoute` | backend/src/routes/lab.routes.js:11 | `POST /` for lab and admin |
| `Access.LabUpdateRoute` | backend/src/routes/lab.routes.js:12 | `PUT /:id` for lab and admin |
| `Access.LabClosedToCollectorAndUser` | backend/src/routes/lab.routes.js:8-12 | collectors and plain users reach no lab handler, whatever the request |
| `Access.CollectionAuthFirst` | backend/src/routes/collection.routes.js:8 | every collection request without a valid token is refused |
| `Access.CollectionCreateRoute` | backend/src/routes/collection.routes.js:9 | `POST /` is open to any authenticated role |
| `Access.CollectionMineRoute` | backend/src/routes/collection.routes.js:10 | `GET /` is open to any authenticated role |
| `Access.CollectionAllRoute` | backend/src/routes/collection.routes.js:12-13 | `GET /all` lists everything for admin and lab and is not taken as an id |
| `Access.CollectionReadRoute` | backend/src/routes/collection.routes.js:13 | `GET /:id` for admin and lab |
| `Access.AdminRoutes` | backend/src/routes/admin.routes.js:7-8 | the one admin route is a read for admins only; no other request finds a route; no request without a token or the admin role reaches a handler |
| `ClientText.FailureText` | frontend/src/pages/LabProcessing.jsx:100 | the server's message when truthy, else the non-empty default: an error is always visible |
| `ClientText.ShortId` | frontend/src/pages/LabProcessing.jsx:371-374 | the last six characters of the id, the whole id when shorter, empty for a falsy id |
| `ClientText.NormalizeSearch` | frontend/src/pages/LabProcessing.jsx:376-381 | empty for a falsy input; otherwise the trimmed text without one leading `#` |
| `ClientText.QueryParam` | frontend/src/pages/LabProcessing.jsx:43-44 | an empty normalised search sends no `q`; otherwise `q` is the normalised text |
| `ClientText.NormalizePadded` | frontend/src/pages/AdminDashboard.jsx:15-20 | padding and exactly one `#` are removed |
| `ClientText.NormalizeUnmarked` | frontend/src/pages/AdminDashboard.jsx:15-20 | without a leading `#` normalisation is trimming |
| `ClientText.NormalizeDoubleHash` | frontend/src/pages/LabProcessing.jsx:379 | `'##x'` becomes `'#x'` |
| `ClientText.NormalizeHashSpace` | frontend/src/pages/LabProcessing.jsx:378-379 | `'# x'` becomes `' x'` |
| `ClientText.BlankSearchSendsNoQuery` | frontend/src/pages/LabProcessing.jsx:60-61 | a search box of white space sends no `q` |
| `ClientText.BadgeSearchFinds` | frontend/src/pages/LabProcessing.jsx:255 | typing a shown badge `#` + short code, padded and in any case, sends the code, and the backend's suffix rule finds the id |
| `AppShell.Decide` | frontend/src/App.jsx:118-143 | each guard tests the token before the role: no token goes to `/login`; admin and lab guards send other roles to `/dashboard`, the collector guard to `/` |
| `AppShell.RedirectsSettle` | frontend/src/App.jsx:184-189 | following guard redirects reaches a rendered page within two steps: no loops |
| `AppShell.LandingPath` | frontend/src/pages/Login.jsx:289-291 | admin goes to `/admin`, lab to `/lab`, every other role to `/dashboard` |
| `AppShell.LandingRenders` | frontend/src/pages/Signup.jsx:66-68 | admin, lab and collector land on their own page; a plain user lands on `/dashboard` and is sent on to the welcome page |
| `AppShell.RoleLinks` | frontend/src/App.jsx:245-268 | collector sees Dashboard, admin Admin, lab Lab, any other role none |
| `AppShell.TopNavLinks` | frontend/src/App.jsx:198-320 | Home first, then a signed-in user's role link, then Login and Sign Up, which a signed-in user keeps as quick links |
| `AppShell.NavLinksRender` | frontend/src/App.jsx:215-313 | with a token, every offered link renders a page rather than redirecting |
| `AppShell.MobileNavShown` | frontend/src/App.jsx:359-469 | the mobile menu renders nothing while closed and the bar's links while open |
| `AppShell.MobileNavNeverOpens` | frontend/src/App.jsx:347-359 | as written, no sequence of clicks opens the mobile menu |
| `AppShell.MenuButtonShowsNothing` | frontend/src/App.jsx:322-359 | as written, one tap shows the button's "close" icon while the menu stays hidden |
| `AppShell.MenuOpenAfter` | frontend/src/App.jsx:322-359 | with one shared state, the menu is open exactly after an odd number of taps since a link or Logout closed it, and it then shows the links |
| `AppShell.MenuButtonOpensMenu` | frontend/src/App.jsx:322-359 | with one shared state, the first tap opens the menu and flips the icon with it |
| `AppShell.Session.constructor` | frontend/src/AuthContext.jsx:7-8 | the session starts from the stored token and user, with the menu closed |
| `AppShell.Session.SignIn` | frontend/src/pages/Login.jsx:285-291 | token and user are set from the reply, then the role's landing page is shown |
| `AppShell.Session.Logout` | frontend/src/App.jsx:202-206 | token and user become null and the login page shows |
| `AppShell.Session.MobileMenu` | frontend/src/App.jsx:359 | the menu shows something exactly when it is open |
| `AppShell.Session.TapMenuButton` | frontend/src/App.jsx:327 | the shared menu state flips and nothing else changes |
| `AppShell.Session.FollowMenuLink` | frontend/src/App.jsx:368-455 | navigates to the link and closes the menu; with a token the page renders |
| `AppShell.Session.MobileLogout` | frontend/src/App.jsx:352-357 | as logout, and the menu closes |
| `AppShell.LoggedOutIsSentToLogin` | frontend/src/App.jsx:118-143 | once logged out every guarded page redirects to `/login` |
| `LoginPage.SessionJsonOf` | backend/src/controllers/auth.controller.js:76-79 | the reply's user carries the stored role's name |
| `LoginPage.SessionLandsOnRolePage` | frontend/src/pages/Login.jsx:284-291 | a backend session lands each role on its page, a plain user on the welcome page |
| `LoginPage.LoginForm.constructor` | frontend/src/pages/Login.jsx:268-272 | empty email and password, no error, not loading |
| `LoginPage.LoginForm.Submit` | frontend/src/pages/Login.jsx:278-284 | the error clears, loading starts, the two fields are posted as they stand |
| `LoginPage.LoginForm.Complete` | frontend/src/pages/Login.jsx:284-296 | success signs in and navigates by role; failure shows the server message or 'Login failed' and leaves the session; loading ends on both paths |
| `SignupPage.SignupError` | frontend/src/pages/Signup.jsx:33-52 | required fields, then password match, then admin code, then lab code, each with its message; none iff all hold |
| `SignupPage.SignupPayload` | frontend/src/pages/Signup.jsx:56-58 | name, email, password and role, plus the admin code only for admin and the lab code only for lab |
| `SignupPage.ExtrasNotSent` | frontend/src/pages/Signup.jsx:54-56 | phone, age and gender have no effect on what is sent |
| `SignupPage.CheckedPayloadHasFields` | frontend/src/pages/Signup.jsx:33-58 | a payload past the client's checks always has the fields the server requires, and a privileged role carries its code |
| `SignupPage.SignupForm.constructor` | frontend/src/pages/Signup.jsx:7-20 | the initial fields (role collector, age 22, gender Male, everything else empty), no error, not loading |
| `SignupPage.SignupForm.Submit` | frontend/src/pages/Signup.jsx:26-61 | a failed check shows its message, stops loading and sends nothing; otherwise the payload is sent with loading on |
| `SignupPage.SignupForm.Complete` | frontend/src/pages/Signup.jsx:61-73 | success signs in and navigates by role; failure shows the server message or 'Signup failed'; loading ends |
| `LabProcessingPage.FormFromRecord` | frontend/src/pages/LabProcessing.jsx:110-125 | the record's id; each truthy text field copied and each falsy one shown as `''`; the record's status, or pending when it has none; the test date cut to at most ten leading characters |
| `LabProcessingPage.Defined` | frontend/src/pages/LabProcessing.jsx:81 | `x \|\| undefined` for a string: absent exactly when blank |
| `LabProcessingPage.Payload` | frontend/src/pages/LabProcessing.jsx:79-91 | no technician id; collection id and test date left out exactly when blank; batch and status always sent |
| `LabProcessingPage.SaveRequestFor` | frontend/src/pages/LabProcessing.jsx:92-97 | PUT to the form's id exactly when it holds one, else POST, with the payload |
| `LabProcessingPage.Attached` | frontend/src/pages/LabProcessing.jsx:261 | the collection id is set; the batch becomes `COL-` + short code only when it was empty; nothing else changes |
| `LabProcessingPage.ResaveEffect` | frontend/src/pages/LabProcessing.jsx:110-125 | loading a record and saving it is a PUT to it that keeps the technician and the (recast) collection, turns blank text fields into `''` and cuts the date |
| `LabProcessingPage.ResaveIsIdentity` | frontend/src/pages/LabProcessing.jsx:74-125 | a fully filled stored record is saved back unchanged apart from its update time |
| `LabProcessingPage.LabEditor.constructor` | frontend/src/pages/LabProcessing.jsx:5-20 | the empty form with status pending, not saving, no error |
| `LabProcessingPage.LabEditor.ClearForm` | frontend/src/pages/LabProcessing.jsx:106-108 | every field blank and the status pending |
| `LabProcessingPage.LabEditor.LoadForEdit` | frontend/src/pages/LabProcessing.jsx:110-125 | the form becomes the record's form |
| `LabProcessingPage.LabEditor.Attach` | frontend/src/pages/LabProcessing.jsx:261 | the form becomes the attached form |
| `LabProcessingPage.LabEditor.BeginSubmit` | frontend/src/pages/LabProcessing.jsx:74-97 | saving starts, the error clears, and the request is the form's POST or PUT |
| `LabProcessingPage.LabEditor.FinishSubmit` | frontend/src/pages/LabProcessing.jsx:92-103 | after a POST the form takes the new id so the next save is a PUT to it; a failure shows the message or the default; saving ends |
| `AdminDashboardPage.Panel.constructor` | frontend/src/pages/AdminDashboard.jsx:8-11 | a panel starts with no items, not loading, no error |
| `AdminDashboardPage.Panel.Start` | frontend/src/pages/AdminDashboard.jsx:25 | loading on, error cleared, items kept |
| `AdminDashboardPage.Panel.Finish` | frontend/src/pages/AdminDashboard.jsx:26-32 | the reply's list (or none) with no error, or an empty list and a non-empty error; loading off |
| `AdminDashboardPage.RefreshRequests` | frontend/src/pages/AdminDashboard.jsx:57-62 | one debounced search gives the same `q` to all three listings |
| `AdminDashboardPage.HexCodeHasNoEdgeSpace` | frontend/src/pages/AdminDashboard.jsx:22 | the short code of a 24-hex id is six characters without white space at its edges |
| `AdminDashboardPage.BadgeFindsLabRecord` | frontend/src/pages/AdminDashboard.jsx:24-29 | searching a record's badge text returns that record in the lab listing |
| `AdminDashboardPage.Classify` | frontend/src/pages/AdminDashboard.jsx:160-231 | nothing for no data; a collection when species is truthy; else a lab record when batch or status is; else a user |
| `AdminDashboardPage.DetailsMatchSource` | frontend/src/pages/AdminDashboard.jsx:161-197 | stored collections, lab records with a status, and users are each shown with their own details |
| `AdminDashboardPage.BadgeLabel` | frontend/src/pages/AdminDashboard.jsx:298-306 | the three statuses by name, any other truthy value as itself, else 'unknown'; never empty |
| `AdminDashboardPage.BadgesDistinct` | frontend/src/pages/AdminDashboard.jsx:299-303 | different statuses never share a badge |
| `AdminDashboardPage.Dashboard.constructor` | frontend/src/pages/AdminDashboard.jsx:8-11 | three separate panels, each with no items |
| `AdminDashboardPage.Dashboard.Refresh` | frontend/src/pages/AdminDashboard.jsx:24-62 | the three fetches of one refresh: the same query for all; each panel holds its reply's list (or none) on success and its own default message on failure; loading off at the end |
| `CollectorDashboardPage.SpeciesSetMembers` | frontend/src/pages/CollectorDashboard.jsx:597-600 | a species is counted iff some element carries it and it is truthy |
| `CollectorDashboardPage.AppendEntry` | frontend/src/pages/CollectorDashboard.jsx:596-601 | one more element adds exactly its numeric quantity to the total and its truthy species to the set |
| `CollectorDashboardPage.SpeciesAtMostCount` | frontend/src/pages/CollectorDashboard.jsx:595-602 | there are never more distinct species than elements |
| `CollectorDashboardPage.ComputeSummary` | frontend/src/pages/CollectorDashboard.jsx:593-606 | count is the length, total the sum of numeric quantities, unique the number of distinct truthy species; all zero for no list or one that cannot be iterated |
| `CollectorDashboardPage.EntriesOf` | frontend/src/pages/CollectorDashboard.jsx:76 | the collections as the summary sees them, one per stored collection |
| `CollectorDashboardPage.StoredSummaryBounds` | frontend/src/pages/CollectorDashboard.jsx:593-602 | for stored collections the total is never negative and a non-empty list has a species |
| `CollectorDashboardPage.SliderValue` | frontend/src/pages/CollectorDashboard.jsx:558 | a slider value always lies in [0, 10] and is the position when that is in range |
| `CollectorDashboardPage.QrPayload` | frontend/src/pages/CollectorDashboard.jsx:403-404 | `{ type: 'collection', id }` exactly when the selected record has an id |
| `CollectorDashboardPage.QrCodeFindsCollection` | frontend/src/pages/CollectorDashboard.jsx:404 | the id in a QR code of a stored collection reads back that very collection |
| `CollectorDashboardPage.CollectionForm.constructor` | frontend/src/pages/CollectorDashboard.jsx:258-266 | empty text fields, no location, both scores 5, not submitting, no error |
| `CollectorDashboardPage.CollectionForm.SetFreshness` | frontend/src/pages/CollectorDashboard.jsx:344 | freshness is the slider value and stays in range; every other field is kept |
| `CollectorDashboardPage.CollectionForm.SetSizeScore` | frontend/src/pages/CollectorDashboard.jsx:345 | size score is the slider value and stays in range; every other field is kept |
| `CollectorDashboardPage.CollectionForm.BeginSubmit` | frontend/src/pages/CollectorDashboard.jsx:295-301 | submitting on and the error cleared, every field kept; the payload carries the form's fields and both scores as set, in the schema's range |
| `CollectorDashboardPage.CollectionForm.Complete` | frontend/src/pages/CollectorDashboard.jsx:301-308 | success clears species, quantity and notes and keeps location, scores and quality notes; failure keeps everything and shows the message or the default |
| `CollectorDashboardPage.EnabledSubmitIsAccepted` | frontend/src/pages/CollectorDashboard.jsx:349-351 | what an enabled submit sends passes the server's required-field check, and its schema check too when the quantity is non-negative |

## Left out

- bcrypt hashing and comparison, and JWT signing and verification, are
  parameters. The authentication middleware (`auth.middleware.js`) is not part
  of this model: its outcome is an input, either no identity or the claims it
  decodes.
- `mongoose.Types.ObjectId.isValid` is a parameter. It is known only to accept
  every 24-hex string; its other accepted forms are not modelled.
- Regular-expression queries are modelled as literal substring and suffix
  matches. A `q` containing regex metacharacters is not modelled.
- Case-insensitive matching folds ASCII letters only. Unicode case folding is
  not modelled.
- The ObjectId cast of an id is modelled for 24-hex text: letters are folded
  to lower case and stored ids are 24 lower-case hex digits. Other cast
  failures are not modelled. Examples:
  - a path id that is not 24 hex digits (the model treats it as denoting
    nothing, where Mongoose raises a cast error for most such ids);
  - a 12-character string, which Mongoose casts to an ObjectId from its bytes;
  - a non-numeric quantity;
  - a `testDate` that is not a date.
- `CollectionController.CollectionStore.Create`: the cast of `collectorId` is
  not modelled; the caller's id comes from a stored user and is already in
  cast form.
- Request bodies are modelled with string fields only. Other JSON values are
  not modelled. Examples:
  - an object such as `{"$gt": ""}` as the email, which the login and
    registration lookups (auth.controller.js:37, 65) would pass on as a query
    operator;
  - a non-string secret, whose `.trim()` (auth.controller.js:22, 31) throws
    and gives 500;
  - an explicit `null` status, which skips the schema default.
- `AdminController.ListUsers`: the `_id: q` branch is modelled as a
  case-insensitive match for 24-hex queries and as false otherwise. What
  Mongoose does when another `q` is cast against `_id` (a cast error and a
  500) is not modelled.
- `LabController.LabStore.Update`: `findByIdAndUpdate` with the raw body is
  modelled as "given fields overwrite, the rest are kept". Update validators,
  operators in the body, and casting are not modelled, so a status outside
  the enum is stored as given.
- `LabController.LabStore.Create`: Date parsing of `testDate` is not modelled;
  the text is stored as given.
- `LabProcessingPage.FormFromRecord`: `new Date(...).toISOString().slice(0,10)`
  is modelled as the first ten characters of the text the server sends. That
  is the same only when the server sends ISO dates.
- Express routing details: case-insensitive paths, trailing slashes, `HEAD`
  answered by `GET` routes, and the mount prefixes in `server.js`. Server
  start-up, environment loading, CORS and logging are not part of this model
  either.
- The `toFixed(1)` rounding of the total weight and all other floating-point
  behaviour. Quantities are reals summed exactly.
- `CollectorDashboardPage.SliderValue`: step rounding of the range input is
  not modelled; positions are whole numbers.
- `Number()` conversion of the quantity text is a parameter.
- Browser features:
  - QR scanning and image decoding, and the `qrcode` library;
  - geolocation;
  - the online/offline listeners;
  - the debounce timers;
  - `localStorage` mirroring of the session;
  - all rendering and styling, and the static welcome page.
- The form's per-field `update(key, value)` edits in LabProcessing are not
  modelled as separate operations. The model covers the whole-form
  transitions (clear, load, attach, save).
- `AdminDashboardPage.BadgeLabel`: status values that are names of
  `Object.prototype` members (such as `toString`) look up a prototype member
  in the source. The model treats them as ordinary unknown values.
- Concurrency: concurrent requests (last writer wins on update) and
  out-of-order replies to the dashboard's three fetches. `Dashboard.Refresh`
  processes the three replies in turn.
- A truthy role outside the enum is passed to the schema unchanged. The enum
  validator rejects it and `AuthController.UserStore.Register` replies 500;
  it is not turned into `'user'`.

## Findings

| source | as written | input that shows it | evidently intended | confidence | as-written member | corrected member |
|---|---|---|---|---|---|---|
| frontend/src/App.jsx:322-359 | `MobileMenuButton` and `MobileNav` each keep their own `isOpen`. The button flips only its own state, and the menu's state starts false and is only ever set to false, so `MobileNav` always returns `null` | one tap on the menu button on a narrow screen: the icon turns to "close", and no menu appears | one `isOpen` shared by the button and the menu: a tap flips it, and a link or Logout in the menu closes it | high; not executed | `AppShell.MobileNavNeverOpens`, `AppShell.MenuButtonShowsNothing` | `AppShell.MenuOpenAfter`, `AppShell.MenuButtonOpensMenu` |
