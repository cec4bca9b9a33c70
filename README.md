# Excel-Analytics core in Dafny

Excel-Analytics is a MERN application. Users register and log in. They upload a spreadsheet, choose two of its columns as the X and Y axes, and save the chart built from them. An admin can list and delete every chart and can read, patch and delete users.

The model has two halves.

**Server.** The Express backend is a sequential state machine over a store of users and charts (`Store.Db`, one `class` with `users`, `charts` and the id counter). It models:
- the zod schemas for login and signup (`AuthValidator`, with JavaScript's `trim` and UTF-16 length in `Text`);
- the validate, bearer-token, admin and error middlewares;
- the auth and admin controllers;
- the chart router, and the unmounted chart controller;
- the user and chart models, with the casts Mongoose applies to request bodies (`MongooseCast`).

The three route tables are data: each route is a sequence of `Stages.Stage`. `Pipeline.RunChain` runs a chain layer by layer, the way Express does. `Pipeline.Serve` states what each route answers.

**Client.** These are the rules the React client applies:
- the session store: token, user and loading flag, with `"Bearer " + token` as the header;
- the upload page's payload builder and its upload handler;
- the dashboard statistics;
- the admin's chart list, kept in step with deletes;
- the chart component's configuration and its choice of chart kind.

Outside code is passed in as parameters:
- zod's email test is a predicate `isEmail`;
- the JWT library is a `TokenService` of `sign` and `verify`. The lemmas take `UserModel.Sound(svc)` as a hypothesis: a token verifies to its claims until it expires, expires after 30 days, and the empty string never verifies;
- the clock is a `now: nat` parameter;
- a client network call is the response it returned, an `Option<Response>`.

The code sometimes disagrees with its documentation, and this model follows the code. Four places where that matters:
- `chart-controller.js` is not mounted on any router. Its `new Chart({user, labels, values})` never sets the required `title`, so its save always fails.
- `String.replace("Bearer", "")` removes only the first occurrence of "Bearer", wherever it sits in the header.
- The token-missing check fires only for an absent or empty header. A header such as `"Bearer "` reaches `jwt.verify("")` and gets "Invalid token".
- The client's `authorizationToken` is never empty, so the dashboard's guard before fetching never holds the request back.

## Model

| member | source | states |
|---|---|---|
| Text.Trim | server/validators/auth-validator.js:9 | the result has no leading or trailing ECMAScript whitespace and is no longer than the input |
| Text.TrimIsInfix | server/validators/auth-validator.js:9 | the trimmed string is a contiguous piece of the input with only whitespace cut from either end |
| Text.TrimStartIsSuffix | server/validators/auth-validator.js:9 | trimming the start removes exactly a whitespace prefix |
| Text.TrimEndIsPrefix | server/validators/auth-validator.js:9 | trimming the end removes exactly a whitespace suffix |
| Text.TrimOfTrimmed | server/validators/auth-validator.js:9 | a string already trimmed is left unchanged |
| Text.TrimIdempotent | server/validators/auth-validator.js:9 | trimming twice is trimming once |
| Text.TrimDropsLeadingWhitespace | server/middlewares/auth-middleware.js:18 | whitespace in front of a string does not change its trimmed form |
| Text.Utf16Length | server/validators/auth-validator.js:11-12 | zod's `.min`/`.max` count UTF-16 code units, between one and two per character |
| Text.IndexFrom | server/middlewares/auth-middleware.js:18 | finds the first occurrence of a pattern at or after a position, or reports that there is none |
| Text.ReplaceFirst | server/middlewares/auth-middleware.js:18 | `String.replace` with a string pattern replaces only the first occurrence; no occurrence leaves the string unchanged |
| Text.ReplaceFirstAtStart | server/middlewares/auth-middleware.js:18 | a string that starts with the pattern has exactly that prefix replaced |
| AuthValidator.FieldIssuesEmptyIff | server/validators/auth-validator.js:7-35 | a field produces no issue exactly when it is a string whose trimmed length is within bounds (and is an email, for `email`) |
| AuthValidator.ParseOkIff | server/validators/auth-validator.js:6-36 | parsing succeeds exactly when the body is an object and every field of the schema is accepted |
| AuthValidator.FailureHasIssue | server/validators/auth-validator.js:6-36 | a failed parse always reports at least one issue |
| AuthValidator.LoginAccepts | server/validators/auth-validator.js:6-19 | the login schema accepts exactly a string email of 3..255 code units that passes the email test, and a string password of 6..255, both after trimming |
| AuthValidator.SignupAccepts | server/validators/auth-validator.js:24-36 | the signup schema accepts exactly what login accepts plus a username of 3..255 and a phone of 10..20 code units after trimming |
| AuthValidator.ParsedIsTrimmedInput | server/validators/auth-validator.js:6-36 | a parsed body has exactly the schema's keys, each the trimmed input string; unknown keys are stripped |
| AuthValidator.FieldAcceptsTrimmed | server/validators/auth-validator.js:9 | a field accepted in the input is accepted again once trimmed |
| AuthValidator.ParsedIsOutput | server/validators/auth-validator.js:6-36 | a successful parse returns the schema's output object |
| AuthValidator.OutputField | server/validators/auth-validator.js:6-36 | each schema field of the output is the trimmed input string |
| AuthValidator.OutputAccepted | server/validators/auth-validator.js:6-36 | the output of an accepted body is itself accepted |
| AuthValidator.OutputIdempotent | server/validators/auth-validator.js:6-36 | building the output of an output changes nothing |
| AuthValidator.ParsedHasFields | server/validators/auth-validator.js:6-36 | a parsed body holds a string under every key of the schema |
| AuthValidator.ParseIdempotent | server/validators/auth-validator.js:6-36 | parsing a parsed body gives the same result |
| AuthValidator.OutputRestricts | server/validators/auth-validator.js:24 | the login output is the signup output restricted to `email` and `password` |
| AuthValidator.SignupOutputExtendsLogin | server/validators/auth-validator.js:24 | every body signup accepts, login accepts too, and the login output is the signup output restricted to its keys |
| AuthValidator.EmailIssueComesFirst | server/validators/auth-validator.js:7-12 | when the email is rejected, the first reported issue is the email's |
| ValidateMiddleware.MessageNonEmpty | server/middlewares/validate-middleware.js:13 | every issue message is non-empty, so the "Validation error" fallback is never used |
| ValidateMiddleware.RejectionNamesFirstIssue | server/middlewares/validate-middleware.js:10-23 | a rejected body yields the error 422, "Fill the input properly", with the first issue's message as its details |
| ValidateMiddleware.Validate | server/middlewares/validate-middleware.js:2-25 | an accepted body is replaced by the parsed one and the chain goes on; a rejected one is left as it was and the error is passed on; nothing else in the request changes |
| ErrorMiddleware.ErrorResponse | server/middlewares/error-middleware.js:2-14 | the status is the error's if truthy, else 500; the message and details are the error's if truthy, else "BACKEND ERROR" and "Error from Backend"; none of the three is ever empty |
| AuthMiddleware.Authenticate | server/middlewares/auth-middleware.js:7-47 | every rejection is a 401: "Token missing" for an absent or empty header, "Invalid token" when the cleaned token does not verify, "User not found" when no stored user has the token's email; an accepted caller carries a token that verifies to claims whose email is the caller's |
| AuthMiddleware.AcceptIff | server/middlewares/auth-middleware.js:9-42 | the caller is accepted exactly when the header is non-empty, its cleaned token verifies, and a user has the claimed email; the user attached is the first with that email and the token is the cleaned header |
| AuthMiddleware.Authorize | server/middlewares/auth-middleware.js:7-47 | on acceptance `req.user`, `req.token` and `req.userID` are set and the chain goes on; on rejection the 401 is sent and the request is untouched |
| AuthMiddleware.BearerRoundTrip | server/middlewares/auth-middleware.js:18 | the client header `"Bearer " + t` cleans back to `t` when `t` has no surrounding whitespace |
| AuthMiddleware.EmptyBearerRejected | server/middlewares/auth-middleware.js:11-18 | the header `"Bearer "` gets past the missing-token check but is answered "Invalid token" |
| AuthMiddleware.IssuedTokenAuthenticates | server/middlewares/auth-middleware.js:18-42 | an unexpired token issued to a stored user authenticates as the first user with that email |
| AuthMiddleware.ExpiredTokenRejected | server/middlewares/auth-middleware.js:24-46 | an expired token is answered 401 "Invalid token" |
| AuthMiddleware.SharedEmailResolvesToFirst | server/middlewares/auth-middleware.js:29 | when two users share an email, a token issued to the later one authenticates as the earlier one |
| AdminMiddleware.AdminGate | server/middlewares/admin-middleware.js:4-20 | the chain goes on exactly for an admin; a non-admin gets 403; a request with no user turns into the TypeError passed to the error middleware |
| UserModel.Create | server/models/user-model.js:7-13 | a user is created exactly when all four required strings are present and non-empty; the new user is not an admin and holds the given fields |
| UserModel.IdString | server/models/user-model.js:52 | an id's string form is never empty |
| UserModel.GeneratedTokenVerifies | server/models/user-model.js:48-60 | within 30 days, a generated token verifies to the user's id string, email and admin flag |
| UserModel.GeneratedTokenExpires | server/models/user-model.js:58 | after 30 days, a generated token no longer verifies |
| ChartModel.Save | server/models/chart-model.js:4-33 | saving fails exactly when the title is missing or empty; otherwise the chart holds the draft's fields, arrays default to `[]`, the type becomes "bar" only when undefined and stays null when null, and both timestamps are the save time |
| MongooseCast.NumberString | server/models/chart-model.js:13 | a number cast to a String path is written in decimal and is never empty |
| MongooseCast.CastString | server/models/chart-model.js:13 | null stays null, a string is kept, an array fails, and only the empty string casts to the empty string |
| MongooseCast.CastNumber | server/models/chart-model.js:16 | null and the empty string become null, a number is kept, arrays and objects fail |
| MongooseCast.CastBoolean | server/models/user-model.js:12 | true exactly for true, "true", 1, "1" and "yes"; false exactly for false, "false", 0, "0" and "no"; null stays null; anything else fails |
| MongooseCast.CastEach | server/models/chart-model.js:13-16 | an array casts exactly when no element fails, each element to its cast value and a null element to null |
| MongooseCast.CastArray | server/models/chart-model.js:13-16 | undefined and null leave an array path unset; an array keeps its length; any other value becomes a one-element array |
| MongooseCast.CastStrings | server/models/chart-model.js:13 | an array of strings and nulls casts back to exactly those strings and nulls |
| MongooseCast.CastNumbers | server/models/chart-model.js:16 | an array of numbers and nulls casts back to exactly those numbers and nulls |
| MongooseCast.NumberStringRoundTrip | server/models/chart-model.js:16 | a number written out as a string casts back to the same number |
| Store.FindByEmail | server/controllers/auth-controllers.js:12 | `findOne({email})` finds nothing exactly when no stored user has that email; a hit is a stored user with that email |
| Store.FindByEmailAppend | server/controllers/auth-controllers.js:12-18 | adding a user does not change the result for an email already stored; otherwise the new user is found by its own email |
| Store.FindUserById | server/controllers/admin-controller.js:28 | finding by id misses exactly when no stored user has that id |
| Store.FindChartById | server/router/chart-router.js:45 | finding a chart by id misses exactly when no stored chart has that id |
| Store.ApplyPatchIdempotent | server/controllers/admin-controller.js:44-47 | applying the same `$set` twice is applying it once |
| Store.PatchOf | server/controllers/admin-controller.js:44-47 | the patch fails exactly when one of the five schema paths fails its cast; each path holds its cast value, and a string given for a String path is kept as it is |
| Store.UpdateUserById | server/controllers/admin-controller.js:44-47 | only the first user with the id is patched; every other user is unchanged and the count is kept |
| Store.DeleteUserById | server/controllers/admin-controller.js:61 | removes the first user with the id, or nothing when there is none |
| Store.DeleteChartById | server/router/chart-router.js:45 | removes the first chart with the id, or nothing when there is none |
| Store.DeleteUserRemovesOnlyTarget | server/controllers/admin-controller.js:61 | with distinct ids, a delete removes exactly the user with that id |
| Store.Db.InsertUser | server/controllers/auth-controllers.js:18 | `User.create` appends the user and advances the id counter; charts are unchanged |
| Store.Db.InsertChart | server/router/chart-router.js:32 | `chart.save()` appends the chart and advances the id counter; users are unchanged |
| Store.Db.UpdateOneUser | server/controllers/admin-controller.js:44-47 | the users become the patched list; matchedCount is 1 exactly for a known id, and modifiedCount is 1 exactly when the patch changed the user |
| Store.Db.DeleteOneUser | server/controllers/admin-controller.js:61 | the users become the list without the first one with that id; the count is 1 exactly for a known id |
| Store.Db.FindByIdAndDeleteChart | server/router/chart-router.js:45 | returns the chart found by id and removes it from the store |
| AuthControllers.Register | server/controllers/auth-controllers.js:7-29 | a taken email gets 400 and nothing is stored; a user missing a required field gets 500; otherwise the user is stored and the answer is 201 with a token and the id string |
| AuthControllers.Login | server/controllers/auth-controllers.js:34-60 | 200 exactly when the email's first user has that plain-text password, with that user's token and id; an unknown email gets 400 "Invalid Credentials"; a wrong password gets 401 "Invalid Email or Password" |
| AuthControllers.CurrentUser | server/controllers/auth-controllers.js:67-75 | answers 200 with the user the auth middleware attached |
| AuthControllers.RegisteredUserLogsIn | server/controllers/auth-controllers.js:18-52 | a user registered under a fresh email logs in with their password |
| AuthControllers.LoginUnaffectedByLaterUser | server/controllers/auth-controllers.js:38 | registering another user never changes the login result for an email already stored |
| AdminController.PublicAll | server/controllers/admin-controller.js:8 | every user is listed, in order, without the password |
| AdminController.GetAllUsers | server/controllers/admin-controller.js:6-20 | 404 exactly when there are no users; otherwise 200 with all of them, in order, without passwords |
| AdminController.PublicById | server/controllers/admin-controller.js:28 | no user exactly when none has the id; otherwise a stored user's public fields under that id |
| AdminController.GetUserById | server/controllers/admin-controller.js:25-34 | always 200, with `data` null for an unknown id |
| AdminController.UpdateUserById | server/controllers/admin-controller.js:39-53 | a body whose schema paths fail to cast goes to the error middleware, 500, and changes nothing; otherwise always 200 with the update counts; matchedCount is 1 exactly for a known id; an unknown id changes nothing |
| AdminController.DeleteUserById | server/controllers/admin-controller.js:58-67 | always 200 "User Deleted Successfully", whether or not the id existed; charts stay |
| AdminController.UpdateKeepsIndex | server/controllers/admin-controller.js:44-47 | a patch never moves any user to another position |
| AdminController.UpdateThenGet | server/controllers/admin-controller.js:28-47 | reading a user after patching it gives the patched user |
| AdminController.UpdateLeavesOthers | server/controllers/admin-controller.js:44-47 | patching one user leaves every other user as read by id |
| AdminController.PatchGrantsAdmin | server/controllers/admin-controller.js:42-46 | the body is passed to `$set` unfiltered, so `isAdmin` as true, "true" or 1 makes any user an admin, `email` rewrites the login email, and a numeric phone is stored as its decimal string |
| AdminController.PatchRejectsBadBoolean | server/controllers/admin-controller.js:44-51 | an `isAdmin` that is no spelling of a boolean rejects the whole update |
| ChartRouter.DraftOf | server/router/chart-router.js:21-30 | the draft fails exactly when the title, labels, values or type fails its cast; the title is the body's title when it is a non-empty string, a non-zero number written in decimal, "true" for true, "Untitled" when it is falsy, never empty; labels, values and type are their cast values, nulls kept; the creator is the caller |
| ChartRouter.SaveChart | server/router/chart-router.js:20-37 | a body that fails to cast gets 400 and nothing is stored; otherwise the chart its draft saves to, owned by the caller under the next id, is appended and the answer is 201 with it |
| ChartRouter.SaveDefaults | server/router/chart-router.js:21-32 | a body with only labels and values, nulls included, saves as an "Untitled" bar chart holding exactly those labels and values |
| ChartRouter.SaveGiven | server/router/chart-router.js:21-33 | a body naming every path saves exactly its title ("Untitled" for ""), its labels and values with their nulls, and its type, a null type stored as null |
| ChartRouter.SaveRejectsBadElements | server/router/chart-router.js:24-35 | a label that is an array, or a value that is not numeric, makes the save fail |
| ChartRouter.Populate | server/router/chart-router.js:11 | the owner is filled in exactly when the creator id names a stored user |
| ChartRouter.ListAllCharts | server/router/chart-router.js:9-16 | 200 with every chart, in store order, each with its owner populated |
| ChartRouter.DeleteChart | server/router/chart-router.js:41-53 | an unknown id gets 404 and changes nothing; otherwise that chart is removed and the answer is 200 |
| ChartRouter.DeleteChartRemovesOnlyTarget | server/router/chart-router.js:45 | with distinct ids, a delete removes exactly the chart with that id |
| ChartRouter.OwnedBy | server/router/chart-router.js:59 | exactly the charts created by the caller |
| ChartRouter.OwnedByAppend | server/router/chart-router.js:59 | a newly saved chart joins its owner's charts at the end |
| ChartRouter.InsertByDatePermutes | server/router/chart-router.js:59 | inserting a chart into the sorted list adds exactly that chart |
| ChartRouter.InsertByDateSorted | server/router/chart-router.js:59 | inserting into a newest-first list keeps it newest first |
| ChartRouter.SortNewestFirst | server/router/chart-router.js:59 | the sort is a permutation and is newest first |
| ChartRouter.History | server/router/chart-router.js:57-64 | 200 with exactly the caller's charts, as a permutation of them, newest first |
| ChartRouter.SortWithNewest | server/router/chart-router.js:59 | a chart newer than all others sorts to the front |
| ChartRouter.SaveThenHistory | server/router/chart-router.js:32-59 | a chart saved after all of its owner's others heads the owner's history, and the rest is unchanged |
| ChartRoutes.Chain | server/router/chart-router.js:9-64 | every chart route checks the bearer token first; only listing and deleting are admin-only |
| ChartController.ControllerDraft | server/controllers/chart-controller.js:11-15 | the controller's document never has a title or creator, and its type is undefined; `user` is not a schema path |
| ChartController.SaveChart | server/controllers/chart-controller.js:3-21 | falsy labels or values get 400 "Missing chart data"; any other body gets 500 "Error saving chart", with the missing-title message when labels and values cast; nothing is ever stored |
| ChartController.FilterUser | server/controllers/chart-controller.js:25 | keeps exactly the charts the `{user}` filter matches |
| ChartController.GetUserCharts | server/controllers/chart-controller.js:23-30 | 200 with exactly the charts the filter matches |
| ChartController.UserChartsIgnoreOwner | server/controllers/chart-controller.js:25 | `user` is not a schema path, so the filter returns every chart under strictQuery and none otherwise, never depending on the caller |
| ChartController.GetAllCharts | server/controllers/chart-controller.js:32-39 | populating the non-path `user` fails with 500 exactly under strictPopulate; otherwise 200 with every chart |
| AuthRouter.Chain | server/router/auth-router.js:20-37 | the chains are well ordered; register and login need no token, and only the current-user route checks one |
| AdminRouter.Chain | server/router/admin-router.js:16-41 | every admin route checks the token, then the admin flag, before its handler |
| Pipeline.ChainOf | server/router/auth-router.js:20-37 | every mounted chain is well ordered: each handler runs only after the checks it relies on |
| Pipeline.RunHandler | server/controllers/auth-controllers.js:34-75 | read-only handlers leave the store unchanged; the current-user and login handlers answer as their controllers do |
| Pipeline.RunChain | server/middlewares/auth-middleware.js:9-42 | a chain stops at its first failing layer: a rejected token gives its 401, a non-admin meets 403 on admin chains, a rejected body meets the error middleware's 422; none of these changes the store |
| Pipeline.Serve | server/router/admin-router.js:16-41 | every admin route answers a non-admin 403 without touching the store; every token-checked route answers a rejected token with its 401; register and login answer a rejected body with 422; login answers with the trimmed credentials |
| Pipeline.LoginThenCurrentUser | server/controllers/auth-controllers.js:45-52 | the token from a successful login, sent back as `"Bearer " + token` before it expires, authenticates that user, and `/user` answers with them |
| Session.AuthState.constructor | client/src/store/auth.jsx:8-10 | the token starts as the persisted one or ""; no user; loading |
| Session.AuthState.AuthorizationToken | client/src/store/auth.jsx:72 | always "Bearer " followed by the token, hence never empty |
| Session.AuthState.StoreTokenInLS | client/src/store/auth.jsx:15-18 | the token is persisted and becomes the current token; logged in exactly for a non-empty token |
| Session.AuthState.LogoutUser | client/src/store/auth.jsx:21-25 | the persisted token is removed, the token is "" and the user is null; logged out |
| Session.AuthState.SyncUser | client/src/store/auth.jsx:28-60 | a request is made exactly when there is a token; the user is kept only from an ok answer, and loading ends in every case |
| DashboardUpload.Cell | client/src/Pages/DashboardUpload.jsx:74-75 | a row has a value under a key exactly when one of its cells has that column name |
| DashboardUpload.Keys | client/src/Pages/DashboardUpload.jsx:59 | `Object.keys` of a row is a permutation of its column names, one key per cell |
| DashboardUpload.KeysOrder | client/src/Pages/DashboardUpload.jsx:59 | the keys are the array-index names (canonical decimals below 2^32 - 1) in ascending numeric order, followed by every other name in cell order |
| DashboardUpload.SortIndicesSorts | client/src/Pages/DashboardUpload.jsx:59 | sorting the array-index names gives an ascending permutation of them |
| DashboardUpload.KeysOfTextHeaders | client/src/Pages/DashboardUpload.jsx:59 | when no column name is an array index, the keys are the names in column order |
| DashboardUpload.YearColumnsFirst | client/src/Pages/DashboardUpload.jsx:59 | the header `Region, 2024, 2023` gives the columns `2023, 2024, Region` |
| DashboardUpload.BuildPayload | client/src/Pages/DashboardUpload.jsx:69-84 | refused exactly when an axis is unset or there are no rows; otherwise one label, value and colour pair per row, the colours cycling through the palette, titled "Y vs X", of the chosen type |
| DashboardUpload.ColorsCycle | client/src/Pages/DashboardUpload.jsx:29-83 | colours repeat every ten rows, and each background is its border colour with alpha "99" |
| DashboardUpload.UploadPage.constructor | client/src/Pages/DashboardUpload.jsx:17-22 | no axes chosen, the type is "bar", no chart shown |
| DashboardUpload.UploadPage.HandleFileChange | client/src/Pages/DashboardUpload.jsx:43 | whether a file is chosen follows the input; nothing else on the page changes |
| DashboardUpload.UploadPage.HandleUpload | client/src/Pages/DashboardUpload.jsx:46-66 | no file gives an error and changes nothing; zero rows replace the shared data but throw before the columns are set; otherwise the columns are the first row's keys and the preview is the rows |
| DashboardUpload.UploadPage.HandleGenerateChart | client/src/Pages/DashboardUpload.jsx:69-102 | a refused payload changes nothing; otherwise the chart is shown before the save, whatever the save's outcome |
| DashboardStats.Types | client/src/components/layouts/Dashboard-Layout.jsx:37 | exactly the types, a null type included, that occur among the charts |
| DashboardStats.TypesOf | client/src/components/layouts/Dashboard-Layout.jsx:37 | a type is in the set exactly when some chart has it |
| DashboardStats.Derive | client/src/components/layouts/Dashboard-Layout.jsx:36-44 | the total is the number of charts, the types are their distinct types, and the recent ones are the first min(5, n) |
| DashboardStats.FetchAlwaysRuns | client/src/components/layouts/Dashboard-Layout.jsx:52 | the guard on `authorizationToken` always lets the fetch run |
| DashboardStats.HistoryStats | client/src/components/layouts/Dashboard-Layout.jsx:36-44 | on the server's history the total counts the caller's charts, the types are those the caller used, and the recent charts are the caller's newest |
| DashboardStats.RecentFromHistory | client/src/components/layouts/Dashboard-Layout.jsx:36-44 | the recent charts of the history are the caller's and no older than the rest |
| DashboardStats.DashboardLayout.constructor | client/src/components/layouts/Dashboard-Layout.jsx:12-17 | the sidebar is closed and the statistics are 0, no types, no recent charts |
| DashboardStats.DashboardLayout.ToggleSidebar | client/src/components/layouts/Dashboard-Layout.jsx:22 | flips the sidebar |
| DashboardStats.DashboardLayout.HandleNavClick | client/src/components/layouts/Dashboard-Layout.jsx:25-27 | closes the sidebar only on a screen narrower than 640 pixels |
| DashboardStats.DashboardLayout.FetchChartStats | client/src/components/layouts/Dashboard-Layout.jsx:30-48 | a chart list derives new statistics; a failed request leaves them as they were |
| AdminCharts.RemoveId | client/src/Pages/AdminCharts.jsx:34 | keeps exactly the charts whose id differs, never growing the list |
| AdminCharts.RemoveIdAppend | client/src/Pages/AdminCharts.jsx:34 | the filter keeps the relative order of the charts it keeps |
| AdminCharts.RemoveIdAbsent | client/src/Pages/AdminCharts.jsx:34 | a list without the id is unchanged |
| AdminCharts.Listed | server/router/chart-router.js:11-12 | the charts the admin list receives, each with its owner populated |
| AdminCharts.RemoveIdMatchesServer | client/src/Pages/AdminCharts.jsx:34 | with distinct ids, the list filtered on the client equals the list the server would now send |
| AdminCharts.Placeholder | client/src/Pages/AdminCharts.jsx:50-51 | "No charts found." is shown exactly for an empty list |
| AdminCharts.AdminChartsPage.FetchCharts | client/src/Pages/AdminCharts.jsx:11-22 | only a listed result replaces the charts |
| AdminCharts.AdminChartsPage.HandleDelete | client/src/Pages/AdminCharts.jsx:24-38 | a request is sent exactly when confirmed; only a successful delete filters the list, and otherwise it is unchanged |
| ChartComponent.TitleText | client/src/components/ChartComponent.jsx:46-60 | the title, or "Chart" when it is absent or empty; never empty |
| ChartComponent.KindOf | client/src/components/ChartComponent.jsx:83-93 | exactly bar, line, pie and doughnut are known kinds |
| ChartComponent.Render | client/src/components/ChartComponent.jsx:32-93 | draws exactly for the four known types; "bar" replaces only an undefined type, so a null type is invalid; labels and values pass through; the colours default to one indigo; the label and title are the title or "Chart"; axes exactly for bar and line |
| ChartComponent.DefaultsToBar | client/src/components/ChartComponent.jsx:32 | without a type the chart is a bar chart with axes |
| ChartComponent.UploadPreview | client/src/Pages/DashboardUpload.jsx:80-86 | the upload page's chart draws exactly for a known type, titled "Y vs X" in the palette's colours |
| ChartComponent.StoredChartPreview | client/src/Pages/AdminCharts.jsx:65-72 | a stored chart in the admin list is drawn under its own title in the default colour, and one stored with a null type shows "Invalid chart type selected" |

## Left out

- JWT signing and verification are parameters. The model holds only the properties stated by `UserModel.Sound`, which the lemmas take as a hypothesis.
- Passwords are compared in plain text, as the code does. The commented-out bcrypt code is not part of this model.
- MongoDB ObjectIds are natural numbers. A malformed `:id` makes Mongoose throw a CastError. That 500 path, and every other `catch` that answers 500 from a database failure, is not modelled.
- `Store.Db.InsertUser` gives ids from one counter shared with charts. Real ObjectIds are unique but not consecutive.
- Requests are served one at a time. Interleaving between `await`s is not modelled, for example two registrations of one email racing.
- `AuthValidator` takes zod's email regex as the parameter `isEmail`.
- The validate middleware reads zod's `err.errors[0]`. A thrown error that is not a ZodError is not modelled.
- `AuthControllers.Register` models `generateToken` throwing as the absent token `None`. The 201 answer then has no token field. The signing failure is not modelled any further.
- ChartRouter.DraftOf: the casts cover strings, integers, booleans, null and undefined. `Number` of a string accepts only an optionally signed run of decimal digits, without fractions, exponents, hex or `Infinity`. An object given as a value is a cast error rather than NaN, and a `null` array is treated as unset rather than stored as null.
- Chart values are integers. The floating-point numbers the code stores are not modelled.
- ChartController.SaveChart: when labels or values fail to cast, the 500's text is Mongoose's validation message naming every failing path. The model answers only its head, "Chart validation failed".
- `ChartController` takes Mongoose's `strictQuery` and `strictPopulate` options as parameters. The version the project installs is not pinned in the code.
- The history is sorted by `createdAt`, newest first. Charts with equal timestamps keep their stored order in the model; MongoDB does not promise any tie order.
- Store.ApplyPatch: a `$set` body holding `_id`, or unknown paths, is modelled as dropped. MongoDB's error for an `_id` update and an empty `$set` are not modelled.
- Store.PatchOf: a path set to `null` is stored as null by `$set`. The model's users hold no nulls, so such a path is left unchanged.
- AdminController.UpdateUserById: the CastError's message names the value and the path. The model answers the fixed text "Cast failed".
- The spreadsheet parsing by xlsx, multer and FileReader is not part of this model. `HandleUpload` takes the parsed rows, and `HandleFileChange` records only whether a file was chosen, not the file.
- React rendering, styling, routing, toasts, PNG and PDF export, and the remaining pages are not part of this model. Navbar, Home, Register, Login, the AI summary, the admin layout and the admin user pages are among them.
- Client network calls are their answers, an `Option<Response>` or a `Session.UserFetch`. The URLs and headers sent are not modelled beyond `AuthorizationToken`.
- `server.js`, the database connection and `file-router.js` are not part of this model.
