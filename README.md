# Project and document backend, modelled in Dafny

This project models the server side of a small project-management
application. Users have one of three roles: admin, lead or developer. An
admin creates projects, each with a lead and a team of users. Members can
list and fetch the projects they belong to. Admins and leads attach
documents to a project, either as an uploaded file or as a link, and can list,
download and delete them. Sign-in yields a bearer token, which every project
route except one checks before the handler runs.

The model covers:

- **Schemas** (`user_model.dfy`, `project_model.dfy`, `document_model.dfy`):
  the three stored records together with the casting and validation that
  mongoose applies on create and save. That is the `trim` and `lowercase`
  setters, the `required` checks, the enums with their defaults, and the
  password minimum length.
- **The store** (`store.dfy`): a `class Store` that holds the three
  collections as maps, plus an id counter. Ids are issued in creation order,
  so "newest first" means descending id. The class carries the queries the
  handlers use (`find` with its sort, `countDocuments`, `findOne` by email,
  `populate`) and the writes (create, save, delete, `deleteMany`).
- **The upload middleware** (`upload.dfy`): the MIME allow-list and the size
  limit.
- **The authentication middleware** (`auth_middleware.dfy`): extracting the
  token from the `Authorization` header, the 401 answers, and the role gate.
- **The auth controller** (`auth_controller.dfy`): the `login` decision tree,
  including the first-login bootstrap branch, and `getCurrentUser`.
- **The project controller** (`project_controller.dfy`): all eleven handlers.
  Handlers that write are methods over the `Store`. Handlers that only read
  are methods with loops, or functions.
- **The router** (`project_routes.dfy`): the route table in declaration order,
  mounted under `/api`, with first-match resolution. It also holds the gate
  chain each route runs, an access policy proved equal to that chain, and
  `Serve`, which sends a request through router, gates and handler.

The following are parameters of the model rather than definitions:

- token verification and signing;
- the bcrypt password comparison;
- the URL constructor's verdict;
- the cast of a path segment to an ObjectId.

String helpers in `text.dfy` follow the JavaScript built-ins `trim`,
`toLowerCase` (ASCII letters only), `split` and `pop`.

## Model

| member | source | states |
|---|---|---|
| Text.Trim | backend/models/Project.js:7 | the trim setter's result has no white space at either end and is no longer than the input; it is empty exactly when the input is all white space, and a trimmed input comes back unchanged |
| Text.LowerChar | backend/models/User.js:13 | an uppercase ASCII letter becomes the letter 32 code points above it; every other character is kept; no result is an uppercase ASCII letter |
| Text.TrimCutsOuterSpace | backend/models/Project.js:7 | the trimmed value is a slice of the input with only white space before it and after it, so trim removes leading and trailing white space and nothing else |
| Text.Lower | backend/models/User.js:13 | the lowercase setter maps each character through `LowerChar` and keeps the length, so it leaves no uppercase ASCII letter, keeps white space where it was, keeps a trimmed string trimmed and changes nothing in a string without uppercase letters |
| Text.Split | backend/middlewares/auth.js:7 | `split(c)` yields at least one piece and no piece contains `c` |
| Text.TrimIdempotent | backend/models/Document.js:12 | trimming twice is trimming once, so a value trimmed by a handler survives the schema's trim setter |
| Text.JoinSplit | backend/middlewares/auth.js:7 | joining the pieces of `split(c)` with `c` gives back the original string |
| Text.SplitJoin | backend/middlewares/auth.js:7 | splitting a join of separator-free pieces gives back those pieces |
| Text.SecondPieceOfScheme | backend/middlewares/auth.js:7 | for `scheme + " " + token`, where neither part has a space, `split(' ')[1]` is the token |
| Text.SecondPiece | backend/middlewares/auth.js:7 | `split(' ')[1]`: present exactly when the split has at least two pieces, and then free of the separator |
| Text.LastSegmentIsSuffix | backend/controllers/projectController.js:436 | `split('.').pop()` is a suffix of the name; it is shorter than the name exactly when the name has a dot, and it then follows the last dot |
| Text.LastSegment | backend/controllers/projectController.js:436 | `split('.').pop()`: the last piece, which never contains the separator |
| UserModel.ParseRole | backend/models/User.js:20-24 | the role enum accepts exactly `admin`, `lead` and `developer`, and maps each back to its name |
| UserModel.ParseProjectRole | backend/models/User.js:30-33 | `roleInProject` accepts exactly `lead` and `member` |
| UserModel.CastLinks | backend/models/User.js:25-34 | each link keeps its `projectId` and has its `roleInProject` parsed by the enum, or absent when none was given, entry by entry |
| UserModel.NormalizeEmail | backend/models/User.js:12-13 | the email setters give a trimmed address with no uppercase ASCII letter, empty exactly when the input is all white space |
| UserModel.NormalizeEmailValue | backend/models/User.js:12-13 | the normalised address is the input with a white-space prefix and a white-space suffix cut off and each remaining character passed through `LowerChar` |
| UserModel.NormalizeEmailIdempotent | backend/models/User.js:12-13 | normalising an address twice is normalising it once |
| UserModel.NormalEmailIsFixedPoint | backend/models/User.js:12-13 | the normal addresses are exactly the non-empty fixed points of normalisation |
| UserModel.CastUser | backend/models/User.js:3-43 | a user is accepted exactly when email is present and not blank, the password has at least 4 characters, the role is in the enum and each `roleInProject` is valid; the stored email is normalised, the name trimmed, the password and `mfaSecret` kept as given, the role defaults to developer, each project link is cast entry by entry, and the result satisfies the schema |
| UserModel.SelectDefault | backend/models/User.js:35-38 | default selection keeps id, email, role and the stored password hash |
| UserModel.SelectForgetsOnlySecret | backend/models/User.js:35-38 | two users look the same after default selection exactly when they differ at most in `mfaSecret` |
| UserModel.StripPassword | backend/controllers/authController.js:55 | `user.password = undefined` clears the password and changes nothing else |
| ProjectModel.ParseStatus | backend/models/Project.js:18-22 | the status enum accepts exactly `active` and `completed` |
| ProjectModel.StatusRoundTrip | backend/models/Project.js:18-22 | a status name parses back to its own status, and distinct statuses have distinct names |
| ProjectModel.CastProject | backend/models/Project.js:3-38 | a draft is accepted exactly when name and description are not blank, a deadline is given and the status (if any) is in the enum; name and description are stored trimmed, the status defaults to active, the team to empty, and the result satisfies the schema |
| ProjectModel.ResaveIsIdentity | backend/models/Project.js:3-38 | saving a valid stored project without changes validates and stores the same record |
| DocumentModel.CastDocument | backend/models/Document.js:3-39 | a document is accepted exactly when project, a non-blank name and uploader are given; name and link are trimmed and the optional file fields are kept as given |
| DocumentModel.ToJSON | backend/models/Document.js:42-46 | `toJSON` drops the binary payload, and restoring it gives back the record |
| DocumentModel.ToJSONForgetsOnlyPayload | backend/models/Document.js:42-46 | two documents have the same JSON exactly when they differ at most in `data` |
| DocumentModel.FormsExclusive | backend/models/Document.js:14-31 | a document is never both a stored file and a link |
| Upload.FileFilter | backend/utils/upload.js:4-34 | a file is accepted exactly when its MIME type is on the allow-list; otherwise the error is "Invalid file type" |
| Upload.UploadCheck | backend/utils/upload.js:36-42 | the middleware lets a file through exactly when its type is allowed and it is within the size limit; a type error is "Invalid file type" and an oversize file is "File too large" |
| Upload.AllowListShape | backend/utils/upload.js:5-26 | the allow-list holds eleven distinct types |
| Upload.ZipRejected | backend/utils/upload.js:29-33 | an archive type such as `application/zip` is rejected with the filter's error |
| Upload.SizeLimitValue | backend/utils/upload.js:39-41 | the limit is 15728640 bytes (15 MiB): that size passes, one byte more fails, and the limit is below 16 MiB |
| Db.FindDescending | backend/controllers/projectController.js:92-95 | `find(filter).sort('-createdAt')` returns exactly the ids whose records satisfy the filter, newest first with no repeats |
| Db.DecreasingCount | backend/controllers/projectController.js:92-95 | a strictly decreasing id list has as many elements as its set |
| Db.CountDocuments | backend/controllers/projectController.js:100 | `countDocuments({ project })` is the number of documents that refer to the project |
| Db.FindEmailFrom | backend/controllers/authController.js:18 | `findOne({ email })` finds a user with that email when one exists, and reports none only when no user has it |
| Db.SummaryOf | backend/controllers/projectController.js:54 | `populate('lead', 'name email')` gives the referenced user's summary, or null when that user is gone |
| Db.MemberOf | backend/controllers/projectController.js:270-272 | a user's name, email and role, or null when the user is gone |
| Db.ViewOf | backend/controllers/projectController.js:53-55 | a populated project keeps its record; its lead and each team entry resolve to the referenced user, or to null exactly when that user is gone |
| Db.ListedDocumentOf | backend/controllers/projectController.js:306-308 | a listed document is its record without payload, with the uploader populated |
| Db.WithoutProjectDocuments | backend/controllers/projectController.js:247 | `deleteMany({ project })` keeps, unchanged, exactly the documents of other projects |
| Db.Store.InsertProject | backend/controllers/projectController.js:43-50 | a created project is stored under a fresh id, larger than every id issued, and nothing else changes |
| Db.Store.SaveProject | backend/controllers/projectController.js:215 | `save` replaces the loaded record and nothing else |
| Db.Store.RemoveProject | backend/controllers/projectController.js:250 | `findByIdAndDelete` removes that project |
| Db.Store.InsertDocument | backend/controllers/projectController.js:388-393 | a created document is stored under a fresh id, and users and projects are untouched |
| Db.Store.RemoveDocumentsOf | backend/controllers/projectController.js:247 | the documents of the project are removed and the rest kept |
| Db.Store.RemoveDocument | backend/controllers/projectController.js:488 | `findByIdAndDelete` removes that document |
| AuthMiddleware.BearerToken | backend/middlewares/auth.js:6-7 | a token is extracted only from a present, non-empty header, and never contains a space |
| AuthMiddleware.Authenticate | backend/middlewares/auth.js:4-23 | 401 "Authentication required" exactly when there is no token, 401 "Invalid or expired token" exactly when verification fails, otherwise the request proceeds with the payload's user |
| AuthMiddleware.BearerHeaderUsesToken | backend/middlewares/auth.js:6-19 | a `scheme token` header is decided by verifying exactly that token |
| AuthMiddleware.HeaderWithoutSpaceRejected | backend/middlewares/auth.js:7-12 | a header without a space carries no token and is answered 401 "Authentication required" |
| AuthMiddleware.AuthorizeRoles | backend/middlewares/auth.js:26-33 | the request proceeds exactly when the user's role is in the allowed list, otherwise 403 "Access denied"; with no user the role read throws and the framework's error handler answers |
| AuthController.CredentialReply | backend/controllers/authController.js:37-64 | 200 exactly when a stored user has the normalised email and the password matches; the reply then carries the token signed over that user as selected and the user with the password cleared; every other outcome is 401 "Incorrect email or password" |
| AuthController.IsBootstrap | backend/controllers/authController.js:21 | the first-login branch is taken for the literal email and password when the lookup finds no user |
| AuthController.Login | backend/controllers/authController.js:5-72 | 400 when email or password is missing or empty; the bootstrap credentials with no stored user of that email, of any role, get a 200 for a synthetic admin, after which the handler attempts a 401 and then, in its catch block, a 500, neither of which reaches the client; every other case gets the credential check's reply |
| AuthController.NoAccountEnumeration | backend/controllers/authController.js:37-49 | outside the bootstrap credentials, a wrong password for a known email and an unknown email get the same 401 |
| AuthController.BootstrapEmailIsNormal | backend/controllers/authController.js:18-21 | the bootstrap address is its own normal form, so the lookup looks for exactly that address |
| AuthController.BootstrapRevealsAccount | backend/controllers/authController.js:21-42 | with the bootstrap credentials, no stored user of that email gets the bootstrap 200, while a stored one whose hash does not match gets 401, so the response tells whether the account exists |
| AuthController.BootstrapStoredGets401 | backend/controllers/authController.js:18-42 | the bootstrap credentials against a stored user of that email whose hash does not match skip the bootstrap branch and get 401 "Incorrect email or password" |
| AuthController.BootstrapUnknownGets200 | backend/controllers/authController.js:18-35 | the bootstrap credentials with no stored user of that email get the 200 for the synthetic admin |
| AuthController.TokenCarriesStoredRecord | backend/controllers/authController.js:52-55 | on a stored login the token is signed over the user with its stored password hash, and only the response body has the password cleared |
| AuthController.GetCurrentUser | backend/controllers/authController.js:74-100 | 404 "User not found" without a request user, otherwise 200 with that user and the password cleared |
| ProjectController.TeamIds | backend/controllers/projectController.js:32 | `team.map(member => member.userId)`, entry by entry |
| ProjectController.ElementCount | backend/controllers/projectController.js:31-34 | a list has at most as many distinct elements as entries, and exactly as many when it has no repeats |
| ProjectController.IntersectCount | backend/controllers/projectController.js:31-34 | the existing distinct ids number as many as the list's entries exactly when every entry exists and none repeats |
| ProjectController.FoundCount | backend/controllers/projectController.js:31-34 | the length of `User.find({ _id: { $in: ids } })`: the number of distinct listed ids that are stored |
| ProjectController.TeamLookupPassesIff | backend/controllers/projectController.js:30-40 | the batch team check passes exactly when every listed user exists and no user is listed twice |
| ProjectController.CreationDraft | backend/controllers/projectController.js:43-50 | the values handed to `Project.create`: the body's name, description, deadline, lead and team, with `status || 'active'` |
| ProjectController.InListing | backend/controllers/projectController.js:74-90 | the query by role: a developer's active projects where they are on the team, a lead's active projects they lead or are on the team of, and every project for an admin |
| ProjectController.CanView | backend/controllers/projectController.js:136-138 | `getProject`'s access rule: an admin, the project's lead or a team member |
| ProjectController.CreateProject | backend/controllers/projectController.js:8-67 | 400 for missing fields, an unknown lead, or a team that fails the batch check; 500 when validation fails; otherwise 201 with a new project under a fresh id, status `active` by default, returned populated; a failure writes nothing |
| ProjectController.CreatedTeamIsResolved | backend/controllers/projectController.js:30-40 | a created non-empty team lists existing users, each once |
| ProjectController.GetProjects | backend/controllers/projectController.js:72-116 | 200 with exactly the projects the role's query selects, newest first, each populated and with the count of its documents |
| ProjectController.DeveloperListing | backend/controllers/projectController.js:78-82 | a developer's list holds only active projects that list them in the team |
| ProjectController.ListingImpliesView | backend/controllers/projectController.js:78-90 | every listed project passes `getProject`'s view check (admin, lead or team member) for the same caller |
| ProjectController.AdminListsEverything | backend/controllers/projectController.js:74-90 | an admin's query is empty, so every project is listed, completed ones too |
| ProjectController.TeamScan | backend/controllers/projectController.js:136 | `team.some(m => m.userId.equals(id))` on the populated team throws (None) exactly when a null entry comes before any match, is true exactly when a match comes before any null entry, and is false exactly when every entry is present and none matches |
| ProjectController.ScanThrows | backend/controllers/projectController.js:136 | the condition under which `team.some(m => m.userId.equals(id))` throws: walking the stored team, an entry whose user is gone comes before any entry that is the caller |
| ProjectController.ScanOfEntries | backend/controllers/projectController.js:125-136 | scanning a team populated entry by entry from the stored ids throws exactly when a gone user comes before the caller, and otherwise finds the caller exactly when some stored entry is the caller |
| ProjectController.ScanOfView | backend/controllers/projectController.js:123-136 | on a populated stored project the scan throws exactly when, walking the stored team, a user who is gone comes before the caller; otherwise it answers whether the caller is in the stored team |
| ProjectController.GetProject | backend/controllers/projectController.js:121-155 | 404 for an unknown id; for a stored one, 500 "Failed to fetch project" exactly when the membership scan reaches a dangling team entry before the caller's, or the caller is not an admin and the lead is dangling; 200 with the populated project exactly when the scan does not throw and the caller is an admin, or the lead resolves and the caller is the lead or a team member; when all references resolve, 200 exactly for those callers and 403 for the rest |
| ProjectController.ListedIsFetchable | backend/controllers/projectController.js:121-155 | a listed project whose lead and team members are all stored is fetched by the same caller with 200 and the populated project |
| ProjectController.ListedButThrows | backend/controllers/projectController.js:136 | a listed project whose membership scan meets a gone user before the caller is answered 500 "Failed to fetch project" |
| ProjectController.ListedButThrowsExample | backend/controllers/projectController.js:78-82 | such a project exists: an active project lists a developer second, after a team entry whose user is gone |
| ProjectController.MayUpdate | backend/controllers/projectController.js:175 | `updateProject`'s ownership rule: an admin or the project's own lead |
| ProjectController.MergedDraft | backend/controllers/projectController.js:183-213 | the project with each truthy field of the body merged in, the lead only for an admin who sent one, the team whenever one is sent |
| ProjectController.MergeBody | backend/controllers/projectController.js:183-213 | 400 when an admin names an unknown lead, then 400 when a supplied team fails the batch check; otherwise the merged draft |
| ProjectController.UpdateOutcome | backend/controllers/projectController.js:160-232 | an update succeeds only on an existing project for its owner (admin or lead) that passes both reference checks and validation; the stored lead changes only for an admin who sent one, and the team only when one is sent |
| ProjectController.CheckUpdate | backend/controllers/projectController.js:165-215 | the handler's checks in order (404, 403, lead 400, team 400, validation 500) compute the update outcome |
| ProjectController.UpdateProject | backend/controllers/projectController.js:160-232 | a failure answers the outcome's status and message and writes nothing; a success saves the merged project in place and answers 200 with it populated; users, documents and ids are untouched |
| ProjectController.UpdateMergeRules | backend/controllers/projectController.js:183-213 | each truthy field overwrites the stored one (name and description trimmed), an absent or empty one keeps it; only an admin moves the lead; any supplied team replaces the old one |
| ProjectController.NonAdminKeepsLead | backend/controllers/projectController.js:188-198 | a lead sent by anyone but an admin is ignored |
| ProjectController.EmptyUpdateIsIdentity | backend/controllers/projectController.js:183-215 | an update with no fields saves the project unchanged |
| ProjectController.DeleteProject | backend/controllers/projectController.js:236-263 | 404 for an unknown id, writing nothing; otherwise 204, the project's documents removed first and then the project, with the other documents and users kept |
| ProjectController.CascadeComplete | backend/controllers/projectController.js:246-250 | after the cascade no document refers to the deleted project, and each other project keeps its documents |
| ProjectController.GetProjectDocuments | backend/controllers/projectController.js:292-322 | 404 for an unknown project; otherwise 200 with exactly that project's documents, newest first, without payload and with the uploader populated |
| ProjectController.DownloadDocument | backend/controllers/projectController.js:328-349 | 404 "Document not found" for an unknown document; otherwise its name, content type, size and payload |
| ProjectController.DownloadIgnoresProject | backend/controllers/projectController.js:330-332 | the document is found by id alone, whatever project the path names |
| ProjectController.LinkDocument | backend/controllers/projectController.js:388-393 | a link document carries a trimmed name and link and none of the file fields |
| ProjectController.UploadDocumentLink | backend/controllers/projectController.js:358-409 | 400 for a blank name, then a blank link, then an invalid URL; 500 when the project id or uploader cannot be cast; otherwise 201 with a new link document under a fresh id; a failure writes nothing |
| ProjectController.StoredNameNotBlank | backend/controllers/projectController.js:436-437 | the stored name of a file whose given name is not blank is itself not blank |
| ProjectController.StoredFileName | backend/controllers/projectController.js:436-437 | the stored file name is the trimmed given name, a dot, and the part of the original name after its last dot |
| ProjectController.FileDocument | backend/controllers/projectController.js:439-446 | a file document carries the buffer, the MIME type and the buffer's length, and no link |
| ProjectController.StoredNameShape | backend/controllers/projectController.js:436-437 | the name `trimmed name + "." + extension` survives the schema's trim whenever the extension does not end in white space |
| ProjectController.UploadDocument | backend/controllers/projectController.js:414-462 | 400 without a file, then 400 for a blank name; 500 when the project id or uploader cannot be cast; otherwise 201 with a new file document whose payload later downloads as the uploaded buffer; a failure writes nothing |
| ProjectController.DeleteDocument | backend/controllers/projectController.js:467-500 | 404 for an unknown document, 400 when it belongs to another project (or the path id is not an ObjectId), otherwise 204 with that one document removed |
| ProjectController.GetAvailableUsers | backend/controllers/projectController.js:268-285 | 200 with exactly the users whose role is lead or developer, each once, as id, name, email and role |
| ProjectRoutes.Routes | backend/routes/projectRoutes.js:21-68 | the eleven registrations in file order, each with its verb, its path pattern, its middleware in order and its handler |
| ProjectRoutes.SegmentMatches | backend/routes/projectRoutes.js:21-68 | a literal pattern segment matches exactly that text, a `:param` segment any one non-empty segment |
| ProjectRoutes.Matches | backend/routes/projectRoutes.js:21-68 | a registration matches a request when the verb is the same and the path has as many segments as the pattern, each matching its pattern segment |
| ProjectRoutes.Resolve | backend/routes/projectRoutes.js:18-68 | a request is served by the first registration that matches its verb and path, and by none exactly when no registration matches |
| ProjectRoutes.RunGates | backend/routes/projectRoutes.js:21-68 | the middleware runs in order; a chain that reaches the handler passed `authenticate`, which set the verified user, and, with the upload gate, a file that passed its checks; without those gates the user and file stay as they were; only a non-empty chain can stop a request |
| ProjectRoutes.FirstMatch | backend/routes/projectRoutes.js:18-68 | the router picks the first registration in file order whose verb and pattern match |
| ProjectRoutes.AvailableUsersShadowsId | backend/routes/projectRoutes.js:21-27 | `GET /projects/available-users` matches the `:id` route but is served by the earlier available-users route |
| ProjectRoutes.LinkUploadRoute | backend/routes/projectRoutes.js:45-60 | `POST …/documents/link` reaches the link upload and `POST …/documents` the file upload |
| ProjectRoutes.RoutesRealiseAccess | backend/routes/projectRoutes.js:21-68 | each registration's middleware is exactly its endpoint's access level, with the upload gate last on the file upload |
| ProjectRoutes.GatesForOutcome | backend/routes/projectRoutes.js:21-68 | the chain for an access level stops with the authentication error, then with 403 for a role outside the list, then with the upload error; otherwise it reaches the handler with the verified user and the file |
| ProjectRoutes.UploadStep | backend/routes/projectRoutes.js:58 | `upload.single('document')` passes a request without a file and one whose file passes the checks, and stops the others with the error handler |
| ProjectRoutes.RouteAdmission | backend/routes/projectRoutes.js:21-68 | a request reaches a route's handler exactly when its access level admits the caller and, on the file upload, the upload passes |
| ProjectRoutes.AuthenticateBeforeRoles | backend/routes/projectRoutes.js:30-67 | wherever a role gate appears, authentication runs first |
| ProjectRoutes.OnlyAvailableUsersIsOpen | backend/routes/projectRoutes.js:21-68 | without a token only the available-users listing is reachable |
| ProjectRoutes.GetRoutesReadOnly | backend/routes/projectRoutes.js:21-68 | the GET registrations are exactly the five whose handlers only read |
| ProjectRoutes.DispatchProjectRead | backend/routes/projectRoutes.js:21-27 | the available-users route answers exactly `getAvailableUsers`'s reply (200 with each lead and developer once) and the listing exactly `getProjects`'s (200 with the projects the role selects, newest first, populated and counted); `getProject` answers 500 "Failed to fetch project" for a path id that does not cast and otherwise exactly what `GetProject` answers, as one project; nothing is written |
| ProjectRoutes.DispatchProjectWrite | backend/routes/projectRoutes.js:29-36 | create, update and delete answer as their handlers, in the rows below; a failure writes nothing, users are never changed, and only deletion touches documents |
| ProjectRoutes.DispatchCreate | backend/routes/projectRoutes.js:30 | the reply is `createProject`'s: 400 for missing fields, then an unknown lead, then a team that fails the batch check; 500 when validation fails; otherwise 201 with the cast of the creation draft stored and returned populated under the old counter value; a failure writes nothing, users and documents are untouched |
| ProjectRoutes.DispatchUpdate | backend/routes/projectRoutes.js:33 | 500 "Failed to update project" for a path id that does not cast; otherwise the update outcome on the old store: its failure status and message with nothing written, or 200 with the merged project populated and stored under the id; a success means the project existed and the caller may update it (admin or its lead) |
| ProjectRoutes.DispatchDelete | backend/routes/projectRoutes.js:36 | 500 "Failed to delete project" for a path id that does not cast; 404 "Project not found" for an unknown id, writing nothing; otherwise 204, with the project removed together with exactly its documents |
| ProjectRoutes.DispatchDocumentRead | backend/routes/projectRoutes.js:39-42 | the listing answers 500 for a `:projectId` that does not cast, 404 for an unknown project, and otherwise 200 with exactly that project's documents, newest first; the download answers 500 for a `:docId` that does not cast and otherwise exactly what `DownloadDocument` answers, as a file body; nothing is written |
| ProjectRoutes.DispatchDocumentWrite | backend/routes/projectRoutes.js:44-68 | the two uploads and the deletion answer as their handlers, in the rows below; a failure writes nothing, users and projects are never changed |
| ProjectRoutes.DispatchUploadLink | backend/routes/projectRoutes.js:45-50 | the reply is `uploadDocumentLink`'s for the cast `:projectId`: 400 for a blank name, then a blank link, then an invalid URL; 500 "Failed to upload document link" when the project id does not cast or the caller has no id; otherwise 201 with exactly the link document added under the old counter value; a failure writes nothing |
| ProjectRoutes.DispatchUploadFile | backend/routes/projectRoutes.js:54-60 | the reply is `uploadDocument`'s for the cast `:projectId` and the file the upload gate left: 400 without a file, then for a blank name; 500 "Failed to upload document" when the project id does not cast or the caller has no id; otherwise 201 with exactly the file document added under the old counter value; a failure writes nothing |
| ProjectRoutes.DispatchDeleteDocument | backend/routes/projectRoutes.js:63-68 | 500 "Failed to delete document" for a `:docId` that does not cast; otherwise `deleteDocument`'s reply: 404 for an unknown document, 400 when it belongs to another project or the `:projectId` does not cast, and otherwise 204 with exactly that document removed |
| ProjectRoutes.Serve | backend/app.js:24 | a path that matches no route gets 404 and a request stopped by a gate gets that gate's answer; a failure, and any GET, writes nothing; users are never changed; an admitted request satisfied its route's access level, the handler sees the verified user and, on the file upload only, the file; a handler that writes no projects (documents) leaves them as they were; the answer and the new store are exactly those of the endpoint's handler, in the rows above, wrapped in the endpoint's payload (`Effect`); any success was admitted |

## Left out

- Express matches paths case-insensitively and accepts a trailing slash. The model matches segments exactly.
- Percent-decoding of path parameters is not modelled.
- ProjectRoutes.Serve: the framework's own responses are modelled by status and a short message only. An unmatched path gets Express's final handler, whose body is an HTML "Cannot GET …" page; the model answers 404 "Not Found". Errors passed to `next` (multer's upload errors and the role gate's read of a missing user) get Express's default error page; the model answers the status with the error's message.
- Download response headers (`Content-Disposition` and friends) are not modelled. The model returns the name, type, size and payload the headers are built from.
- ObjectId casting is the parameter `idOf`. The exact set of strings that cast is not modelled.
- The deadline's cast to a `Date` is not modelled. A deadline is any non-empty text.
- `Promise.all` runs the document counts concurrently. The model counts them one by one, with the same result.
- Database failures are not modelled: connection loss, an index conflict on save, a failure between the two deletes of `deleteProject`. The catch-all 500s the model does reach are a path id that does not cast, a failed schema validation, and `getProject`'s dereference of a lead or team member who is gone.
- bcrypt, the JWT utilities and the URL constructor are parameters: `compare`, `sign`, `verify` and `isUrl`.
- `toLowerCase` is modelled on ASCII letters only. Other letters are kept as they are.
- Timestamps (`createdAt`, `updatedAt`) are represented by id order only.
- Virtuals, and the text and compound indexes, are not modelled.
- The user routes and user management are outside this model. So are the `userRoutes.js` and `authRoutes.js` mounts.
- ProjectController.GetAvailableUsers: the source sets no order for its result, so the contract does not state one. The model uses descending ids.
- ProjectController.GetProjects and the other read paths: a query with an undefined user id is modelled as matching nothing.
- ProjectController.CreateProject, ProjectController.UpdateProject: the body's `lead` and `team[].userId` are ids already. In the source a body value that is not an ObjectId makes `findById`/`find` throw a cast error, answered 500 "Failed to create project" or "Failed to update project"; the model cannot express that input.
- ProjectController.UploadDocumentLink, ProjectController.CreateProject, ProjectController.UpdateProject, AuthController.Login: every JSON body field is modelled as a string or absent (`Option<string>`, tested by `Truthy`), and `team` as a list of entries. Body values of other JSON types are not modelled, nor the TypeError 500s they cause: a numeric `name` on a link upload passes the truthiness check and then `name.trim()` throws (500 "Failed to upload document link"); a string `team` on create has a length and then `team.map` throws (500 "Failed to create project"); and `login`'s loose `==` makes an array such as `["admin@gmail.com"]` equal the bootstrap literal.
- UserModel.CastUser: counts the password's `minlength` in code points. Mongoose counts UTF-16 code units, so a password of fewer than 4 astral characters may pass there and fail here.
- Upload.UploadCheck: a multipart file sent under a field name other than `document` makes multer raise "Unexpected field", answered 500 by the error handler. A request carries at most one file and no field name in the model, so that case is not expressible.

## Where the code differs from its comments and design

- `GET /projects/available-users` has no middleware, although its comment says admin and lead only. `ProjectRoutes.OnlyAvailableUsersIsOpen` states this.
- `deleteProject` makes no ownership check. An admin passes the route gate, and the handler never reads the user.
- `downloadDocument` reads `projectId` from the path and never uses it. `ProjectController.DownloadIgnoresProject` states this.
- `getProjectDocuments` and `downloadDocument` check no membership. Any authenticated user may list or download any project's documents.
- `deleteDocument` checks no ownership beyond the route's role gate. `ObjectId.equals` treats a malformed project id as a mismatch, so the answer is 400, not 500.
- The upload handlers never check that the project exists. A link or file can be attached to any id that casts.
- `getProjects` filters by status only for developers and leads. An admin also sees completed projects.
- The size limit is 15 MiB, although the comment beside it says 16MB.
- In `login`, the bootstrap branch sends a 200 but does not return. Execution falls through to the credential check, whose 401 throws because the headers are already sent. The catch block then attempts a 500, which throws again, so the handler's promise rejects. The model records both attempts, in order, as `discarded`. Express 4 does not catch a rejected handler promise; depending on the Node version and its unhandled-rejection setting this is logged as a warning or may end the process. The model does not represent either. The bootstrap user's email literal ends with a colon.
- The bootstrap branch leaks whether an account exists. With the literal credentials, an email with no stored user gets 200, while a stored user of that email whose hash does not match gets 401. `AuthController.BootstrapRevealsAccount` states this; elsewhere `AuthController.NoAccountEnumeration` holds.
- A listed project is not always fetchable. `getProject` scans the populated team, and a team entry whose user is gone is null there, so `member.userId.equals` throws and the answer is 500. `getProjects` selects projects by a database query on the stored team ids (`'team.userId': userId`) and never calls `equals` on the populated entries. So a developer behind such an entry still sees the project listed, with a null entry in its populated team. `ProjectController.ListedButThrows` and `ListedButThrowsExample` state this; with every reference resolved, `ProjectController.ListedIsFetchable` gives 200.
- `login` signs the token before clearing the password. The token payload therefore carries the stored password hash.
- The batch team check compares the number of distinct existing users with the length of the list, so a team that names the same user twice is rejected.
