/**
 * backend/routes/projectRoutes.js mounted under `/api` (backend/app.js:24):
 * the route table in declaration order, first-match resolution, the gate
 * chain each route runs before its handler, and the dispatch to the handlers.
 * Paths are given as their segments below the mount point, so
 * `/api/projects/7/documents` is ["projects", "7", "documents"].
 */
module ProjectRoutes {

  import opened Wrappers
  import opened Http
  import opened UserModel
  import opened ProjectModel
  import opened AuthMiddleware
  import opened Upload
  import opened Db
  import opened ProjectController

  datatype Verb = Get | Post | Put | Delete

  /** A path pattern segment: literal text, or a `:name` parameter matching any non-empty segment. */
  datatype Piece = Lit(text: string) | Param(name: string)

  datatype Endpoint =
    | AvailableUsers | ListProjects | FetchProject | CreateProjectEp | UpdateProjectEp | DeleteProjectEp
    | ListDocuments | DownloadDocumentEp | UploadLinkEp | UploadFileEp | DeleteDocumentEp

  /** A middleware ahead of the handler: `authenticate`, `authorizeRoles(...)` or `upload.single('document')`. */
  datatype Gate = RequireAuth | RequireRoles(allowed: seq<Role>) | SingleUpload

  datatype Route = Route(verb: Verb, pattern: seq<Piece>, gates: seq<Gate>, endpoint: Endpoint)

  /** The router's registrations, in file order. */
  const Routes: seq<Route> := [
    Route(Get, [Lit("projects"), Lit("available-users")], [], AvailableUsers),
    Route(Get, [Lit("projects")], [RequireAuth], ListProjects),
    Route(Get, [Lit("projects"), Param("id")], [RequireAuth], FetchProject),
    Route(Post, [Lit("projects")], [RequireAuth, RequireRoles([Admin])], CreateProjectEp),
    Route(Put, [Lit("projects"), Param("id")], [RequireAuth, RequireRoles([Admin, Lead])], UpdateProjectEp),
    Route(Delete, [Lit("projects"), Param("id")], [RequireAuth, RequireRoles([Admin])], DeleteProjectEp),
    Route(Get, [Lit("projects"), Param("projectId"), Lit("documents")], [RequireAuth], ListDocuments),
    Route(Get, [Lit("projects"), Param("projectId"), Lit("documents"), Param("docId"), Lit("download")],
      [RequireAuth], DownloadDocumentEp),
    Route(Post, [Lit("projects"), Param("projectId"), Lit("documents"), Lit("link")],
      [RequireAuth, RequireRoles([Admin, Lead])], UploadLinkEp),
    Route(Post, [Lit("projects"), Param("projectId"), Lit("documents")],
      [RequireAuth, RequireRoles([Admin, Lead]), SingleUpload], UploadFileEp),
    Route(Delete, [Lit("projects"), Param("projectId"), Lit("documents"), Param("docId")],
      [RequireAuth, RequireRoles([Admin, Lead])], DeleteDocumentEp)
  ]

  predicate SegmentMatches(p: Piece, segment: string) {
    if p.Lit? then segment == p.text else segment != ""
  }

  predicate Matches(r: Route, verb: Verb, path: seq<string>) {
    r.verb == verb && |r.pattern| == |path| && forall i :: 0 <= i < |path| ==> SegmentMatches(r.pattern[i], path[i])
  }

  /** The number of path segments each endpoint's pattern has. */
  function Arity(e: Endpoint): nat {
    match e
    case AvailableUsers => 2
    case ListProjects => 1
    case FetchProject => 2
    case CreateProjectEp => 1
    case UpdateProjectEp => 2
    case DeleteProjectEp => 2
    case ListDocuments => 3
    case DownloadDocumentEp => 5
    case UploadLinkEp => 4
    case UploadFileEp => 3
    case DeleteDocumentEp => 4
  }

  lemma RouteArity()
    ensures forall k :: 0 <= k < |Routes| ==> |Routes[k].pattern| == Arity(Routes[k].endpoint)
  {
  }

  /** The first registration at or after `from` that matches, as the router tries them in order. */
  function FirstMatch(verb: Verb, path: seq<string>, from: nat): (r: Option<nat>)
    requires from <= |Routes|
    ensures r.Some? ==>
      && from <= r.value < |Routes| && Matches(Routes[r.value], verb, path)
      && forall j :: from <= j < r.value ==> !Matches(Routes[j], verb, path)
    ensures r.Some? ==> |path| == Arity(Routes[r.value].endpoint)
    ensures r.None? ==> forall j :: from <= j < |Routes| ==> !Matches(Routes[j], verb, path)
    decreases |Routes| - from
  {
    RouteArity();
    if from == |Routes| then None
    else if Matches(Routes[from], verb, path) then Some(from)
    else FirstMatch(verb, path, from + 1)
  }

  /** The registration that serves a request: the first that matches, or none when no registration does. */
  function Resolve(verb: Verb, path: seq<string>): (r: Option<nat>)
    ensures r.Some? ==> r.value < |Routes| && Matches(Routes[r.value], verb, path)
    ensures r.Some? ==> forall j :: 0 <= j < r.value ==> !Matches(Routes[j], verb, path)
    ensures r.Some? ==> |path| == Arity(Routes[r.value].endpoint)
    ensures r.None? <==> forall j :: 0 <= j < |Routes| ==> !Matches(Routes[j], verb, path)
  {
    FirstMatch(verb, path, 0)
  }

  /** `GET /projects/available-users` reaches its own handler, not `getProject` with id "available-users". */
  lemma AvailableUsersShadowsId()
    ensures Matches(Routes[2], Get, ["projects", "available-users"])
    ensures Resolve(Get, ["projects", "available-users"]) == Some(0)
  {
  }

  /** `POST /projects/:projectId/documents/link` is the link upload, though `:projectId/documents` is declared after it with one segment less. */
  lemma LinkUploadRoute(pid: string)
    requires pid != ""
    ensures Resolve(Post, ["projects", pid, "documents", "link"]) == Some(8)
    ensures Resolve(Post, ["projects", pid, "documents"]) == Some(9)
  {
    assert Matches(Routes[8], Post, ["projects", pid, "documents", "link"]);
    assert Matches(Routes[9], Post, ["projects", pid, "documents"]);
  }

  // ---------------------------------------------------------------------------
  // The gate chain

  /** Either the handler is reached, with what the gates put on the request, or a gate answered. */
  datatype ChainResult = Reached(user: Option<SessionUser>, file: Option<UploadedFile>) | Stopped(code: nat, message: string)

  /**
   * Runs `gates` left to right: `authenticate` sets the user, the role gate
   * reads it, and the upload gate sets the file. `upload` is the multipart part named
   * `document`, if any; the upload gate's errors go to the framework's
   * error handler.
   */
  function RunGates(gates: seq<Gate>, header: Option<string>, verify: string -> Option<TokenPayload>,
                    upload: Option<UploadedFile>, user: Option<SessionUser>, file: Option<UploadedFile>): (r: ChainResult)
    ensures r.Stopped? ==> gates != []
    ensures r.Reached? && RequireAuth in gates ==>
      Authenticate(header, verify).Authenticated? && r.user == Some(Authenticate(header, verify).user)
    ensures r.Reached? && RequireAuth !in gates ==> r.user == user
    ensures r.Reached? && SingleUpload in gates ==> r.file == upload && (upload.Some? ==> UploadCheck(upload.value).None?)
    ensures r.Reached? && SingleUpload !in gates ==> r.file == file
    decreases |gates|
  {
    if gates == [] then Reached(user, file)
    else
      match gates[0]
      case RequireAuth =>
        (match Authenticate(header, verify)
         case Rejected(c, e) => Stopped(c, e)
         case Authenticated(u) => RunGates(gates[1..], header, verify, upload, Some(u), file))
      case RequireRoles(allowed) =>
        (match AuthorizeRoles(allowed, user)
         case Deny(c, m) => Stopped(c, m)
         case Proceed => RunGates(gates[1..], header, verify, upload, user, file))
      case SingleUpload =>
        if upload.None? then RunGates(gates[1..], header, verify, upload, user, None)
        else
          match UploadCheck(upload.value)
          case Some(e) => Stopped(ErrorHandlerCode, e)
          case None => RunGates(gates[1..], header, verify, upload, user, upload)
  }

  /** Who may reach an endpoint's handler. */
  datatype Access = Open | AnyUser | RolesIn(roles: seq<Role>)

  function AccessOf(e: Endpoint): Access {
    match e
    case AvailableUsers => Open
    case ListProjects => AnyUser
    case FetchProject => AnyUser
    case ListDocuments => AnyUser
    case DownloadDocumentEp => AnyUser
    case CreateProjectEp => RolesIn([Admin])
    case DeleteProjectEp => RolesIn([Admin])
    case UpdateProjectEp => RolesIn([Admin, Lead])
    case UploadLinkEp => RolesIn([Admin, Lead])
    case UploadFileEp => RolesIn([Admin, Lead])
    case DeleteDocumentEp => RolesIn([Admin, Lead])
  }

  predicate UploadPasses(upload: Option<UploadedFile>) {
    upload.None? || UploadCheck(upload.value).None?
  }

  /** The gate sequence that realises an access level, with the upload gate last where there is one. */
  function GatesFor(a: Access, withUpload: bool): seq<Gate> {
    (match a
     case Open => []
     case AnyUser => [RequireAuth]
     case RolesIn(rs) => [RequireAuth, RequireRoles(rs)])
    + (if withUpload then [SingleUpload] else [])
  }

  /** Every registration's gates are exactly its endpoint's access level, plus the upload gate on file upload. */
  lemma RoutesRealiseAccess()
    ensures forall k :: 0 <= k < |Routes| ==>
      Routes[k].gates == GatesFor(AccessOf(Routes[k].endpoint), Routes[k].endpoint == UploadFileEp)
  {
  }

  /** The chain of an access level, run on a fresh request: admitted exactly when the access level allows the caller and the upload passes. */
  lemma {:induction false} GatesForOutcome(a: Access, withUpload: bool, header: Option<string>,
                                           verify: string -> Option<TokenPayload>, upload: Option<UploadedFile>)
    ensures var res := RunGates(GatesFor(a, withUpload), header, verify, upload, None, None);
      var auth := Authenticate(header, verify);
      && (a.Open? && !withUpload ==> res == Reached(None, None))
      && (!a.Open? && auth.Rejected? ==> res == Stopped(auth.code, auth.error))
      && (a.RolesIn? && auth.Authenticated? && auth.user.role !in a.roles ==> res == Stopped(403, MsgAccessDenied))
      && (!a.Open? && auth.Authenticated? && (a.RolesIn? ==> auth.user.role in a.roles) ==>
            if withUpload && !UploadPasses(upload) then res == Stopped(ErrorHandlerCode, UploadCheck(upload.value).value)
            else res == Reached(Some(auth.user), if withUpload then upload else None))
  {
    var auth := Authenticate(header, verify);
    var tail: seq<Gate> := if withUpload then [SingleUpload] else [];
    assert tail == [] || tail == [SingleUpload];
    match a
    case Open =>
      assert GatesFor(a, withUpload) == tail;
    case AnyUser =>
      var g := GatesFor(a, withUpload);
      assert g[0] == RequireAuth && g[1..] == tail;
      if auth.Authenticated? {
        UploadStep(tail, header, verify, upload, Some(auth.user));
      }
    case RolesIn(rs) =>
      var g := GatesFor(a, withUpload);
      assert g[0] == RequireAuth && g[1..] == [RequireRoles(rs)] + tail;
      if auth.Authenticated? && auth.user.role in rs {
        assert ([RequireRoles(rs)] + tail)[1..] == tail;
        UploadStep(tail, header, verify, upload, Some(auth.user));
      }
  }

  lemma UploadStep(tail: seq<Gate>, header: Option<string>, verify: string -> Option<TokenPayload>,
                   upload: Option<UploadedFile>, user: Option<SessionUser>)
    requires tail == [] || tail == [SingleUpload]
    ensures RunGates(tail, header, verify, upload, user, None) ==
      if tail == [] then Reached(user, None)
      else if !UploadPasses(upload) then Stopped(ErrorHandlerCode, UploadCheck(upload.value).value)
      else Reached(user, upload)
  {
    if tail != [] {
      assert tail[1..] == [];
    }
  }

  /** What a caller with these credentials may reach, route by route. */
  lemma RouteAdmission(k: nat, header: Option<string>, verify: string -> Option<TokenPayload>, upload: Option<UploadedFile>)
    requires k < |Routes|
    ensures var e := Routes[k].endpoint;
      var res := RunGates(Routes[k].gates, header, verify, upload, None, None);
      var auth := Authenticate(header, verify);
      && (res.Reached? <==>
            match AccessOf(e)
            case Open => true
            case AnyUser => auth.Authenticated?
            case RolesIn(rs) => auth.Authenticated? && auth.user.role in rs && (e == UploadFileEp ==> UploadPasses(upload)))
      && (res.Reached? && !AccessOf(e).Open? ==> auth.Authenticated? && res.user == Some(auth.user))
      && (res.Reached? ==> res.file == if e == UploadFileEp then upload else None)
  {
    RoutesRealiseAccess();
    var e := Routes[k].endpoint;
    GatesForOutcome(AccessOf(e), e == UploadFileEp, header, verify, upload);
  }

  /** The role gate never runs without a user: on every route it comes after authentication. */
  lemma AuthenticateBeforeRoles()
    ensures forall k, i :: 0 <= k < |Routes| && 0 <= i < |Routes[k].gates| && Routes[k].gates[i].RequireRoles? ==>
      0 < i && Routes[k].gates[0] == RequireAuth
  {
    RoutesRealiseAccess();
  }

  /** Only the available-users listing is reachable without a token. */
  lemma OnlyAvailableUsersIsOpen(k: nat, verify: string -> Option<TokenPayload>, upload: Option<UploadedFile>)
    requires k < |Routes|
    ensures RunGates(Routes[k].gates, None, verify, upload, None, None).Reached? <==> Routes[k].endpoint == AvailableUsers
  {
    RouteAdmission(k, None, verify, upload);
  }

  // ---------------------------------------------------------------------------
  // Dispatch

  const MsgNoRoute := "Not Found"
  const MsgFetchProjectsFailed := "Failed to fetch projects"
  const MsgDeleteFailed := "Failed to delete project"
  const MsgAvailableFailed := "Failed to fetch available users"
  const MsgDocumentsFailed := "Failed to fetch documents"
  const MsgDownloadFailed := "Download failed"
  const MsgDeleteDocumentFailed := "Failed to delete document"

  /** A request as the router and the handlers see it; `upload` is the multipart part `document`. */
  datatype Request = Request(
    verb: Verb,
    path: seq<string>,
    authorization: Option<string>,
    upload: Option<UploadedFile>,
    project: ProjectBody,
    link: LinkBody,
    documentName: Option<string>)

  datatype Payload =
    | NoContent
    | OneProject(view: ProjectView)
    | ProjectList(projects: seq<ListedProject>)
    | UserList(users: seq<MemberSummary>)
    | DocumentList(documents: seq<ListedDocument>)
    | OneDocument(document: ListedDocument)
    | FileBody(download: Download)

  /** The outcome of the gates for the registration a request resolves to. */
  function GateResult(req: Request, verify: string -> Option<TokenPayload>): Option<ChainResult> {
    match Resolve(req.verb, req.path)
    case None => None
    case Some(k) => Some(RunGates(Routes[k].gates, req.authorization, verify, req.upload, None, None))
  }


  /** What the handler learns of its caller: `req.user` as the gates left it. */
  function ActorFor(c: ChainResult): Actor {
    if c.Reached? && c.user.Some? then ActorOf(c.user.value) else Actor(None, Developer)
  }

  /** The endpoints whose handlers only read: the GET routes. */
  predicate ReadOnly(e: Endpoint) {
    e.AvailableUsers? || e.ListProjects? || e.FetchProject? || e.ListDocuments? || e.DownloadDocumentEp?
  }

  predicate WritesProjects(e: Endpoint) {
    e.CreateProjectEp? || e.UpdateProjectEp? || e.DeleteProjectEp?
  }

  predicate WritesDocuments(e: Endpoint) {
    e.DeleteProjectEp? || e.UploadLinkEp? || e.UploadFileEp? || e.DeleteDocumentEp?
  }

  lemma GetRoutesReadOnly()
    ensures forall k :: 0 <= k < |Routes| ==> (Routes[k].verb == Get <==> ReadOnly(Routes[k].endpoint))
  {
  }

  /**
   * What serving endpoint `e` answers and leaves in the collections it
   * writes: the reply its handler gives, wrapped in the endpoint's payload.
   * `file` is what the upload gate left on the request. A path id that `idOf`
   * rejects makes the handler's query throw, which its catch block answers
   * with 500. Each write handler's reply is stated once, as its `...Reply`
   * predicate; a failure here satisfies it as the bare failure and a success
   * as the unwrapped payload.
   */
  twostate predicate Effect(db: Store, e: Endpoint, req: Request, actor: Actor, file: Option<UploadedFile>,
                            idOf: string -> Option<Id>, isUrl: string -> bool, new r: Reply<Payload>)
    requires |req.path| == Arity(e)
    reads db
  {
    match e
       case AvailableUsers => r.Success? && r.data.UserList? && AvailableReply(db, Success(r.code, r.data.users))
       case ListProjects => r.Success? && r.data.ProjectList? && ProjectsReply(db, actor, Success(r.code, r.data.projects))
       case FetchProject => FetchEffect(db, req.path, actor, idOf, r)
       case CreateProjectEp => CreateEffect(db, req.project, r)
       case UpdateProjectEp => UpdateEffect(db, req.path, req.project, actor, idOf, r)
       case DeleteProjectEp => DeleteProjectEffect(db, req.path, idOf, r)
       case ListDocuments => DocumentsEffect(db, req.path, idOf, r)
       case DownloadDocumentEp => DownloadEffect(db, req.path, idOf, r)
       case UploadLinkEp => UploadLinkEffect(db, req.path, req.link, actor, idOf, isUrl, r)
       case UploadFileEp => UploadFileEffect(db, req.path, req.documentName, actor, file, idOf, r)
       case DeleteDocumentEp => DeleteDocumentEffect(db, req.path, idOf, r)
  }

  /** `getProject`'s answer for the cast `:id`, as one project. */
  predicate FetchEffect(db: Store, path: seq<string>, actor: Actor, idOf: string -> Option<Id>, r: Reply<Payload>)
    requires |path| == 2
    reads db
  {
    if idOf(path[1]).None? then r == Fail(500, MsgFetchFailed)
    else
      var g := GetProject(db, actor, idOf(path[1]).value);
      && (g.Fail? ==> r == Fail(g.code, g.message))
      && (g.Success? ==> r == Success(g.code, OneProject(g.data)))
  }

  twostate predicate CreateEffect(db: Store, body: ProjectBody, new r: Reply<Payload>)
    reads db
  {
    && (r.Fail? ==> CreateReply(db, body, Fail(r.code, r.message)))
    && (r.Success? ==> r.data.OneProject? && CreateReply(db, body, Success(r.code, r.data.view)))
  }

  /** `updateProject`'s answer for the cast `:id`: the outcome of the checks on the old store. */
  twostate predicate UpdateEffect(db: Store, path: seq<string>, body: ProjectBody, actor: Actor,
                                  idOf: string -> Option<Id>, new r: Reply<Payload>)
    requires |path| == 2
    reads db
  {
    if idOf(path[1]).None? then r == Fail(500, MsgUpdateFailed)
    else
      var id := idOf(path[1]).value;
      var o := UpdateOutcome(old(db.users), old(db.projects), actor, id, body);
      && (o.Fail? ==> r == Fail(o.code, o.message))
      && (o.Success? ==>
            && r == Success(200, OneProject(ViewOf(db.users, id, o.data)))
            && db.projects == old(db.projects)[id := o.data])
      && (r.Success? ==> id in old(db.projects) && MayUpdate(actor, old(db.projects)[id]))
  }

  /** `deleteProject`'s answer for the cast `:id`. */
  twostate predicate DeleteProjectEffect(db: Store, path: seq<string>, idOf: string -> Option<Id>, new r: Reply<Payload>)
    requires |path| == 2
    reads db
  {
    if idOf(path[1]).None? then r == Fail(500, MsgDeleteFailed)
    else
      var id := idOf(path[1]).value;
      && (id !in old(db.projects) ==> r == Fail(404, MsgProjectNotFound))
      && (id in old(db.projects) ==>
            && r == Success(204, NoContent)
            && db.projects == old(db.projects) - {id}
            && db.documents == WithoutProjectDocuments(old(db.documents), id))
  }

  /** `getProjectDocuments`'s answer for the cast `:projectId`. */
  ghost predicate DocumentsEffect(db: Store, path: seq<string>, idOf: string -> Option<Id>, r: Reply<Payload>)
    requires |path| == 3
    reads db
  {
    if idOf(path[1]).None? then r == Fail(500, MsgDocumentsFailed)
    else
      var pid := idOf(path[1]).value;
      && (r.Fail? ==> DocumentsReply(db, pid, Fail(r.code, r.message)))
      && (r.Success? ==> r.data.DocumentList? && DocumentsReply(db, pid, Success(r.code, r.data.documents)))
  }

  /** `downloadDocument`'s answer for the cast `:docId`, as a file body. */
  predicate DownloadEffect(db: Store, path: seq<string>, idOf: string -> Option<Id>, r: Reply<Payload>)
    requires |path| == 5
    reads db
  {
    if idOf(path[3]).None? then r == Fail(500, MsgDownloadFailed)
    else
      var g := DownloadDocument(db, path[1], idOf(path[3]).value);
      && (g.Fail? ==> r == Fail(g.code, g.message))
      && (g.Success? ==> r == Success(g.code, FileBody(g.data)))
  }

  twostate predicate UploadLinkEffect(db: Store, path: seq<string>, b: LinkBody, actor: Actor,
                                      idOf: string -> Option<Id>, isUrl: string -> bool, new r: Reply<Payload>)
    requires |path| == 4
    reads db
  {
    && (r.Fail? ==> LinkReply(db, actor, idOf(path[1]), b, isUrl, Fail(r.code, r.message)))
    && (r.Success? ==> r.data.OneDocument? && LinkReply(db, actor, idOf(path[1]), b, isUrl, Success(r.code, r.data.document)))
  }

  twostate predicate UploadFileEffect(db: Store, path: seq<string>, name: Option<string>, actor: Actor,
                                      file: Option<UploadedFile>, idOf: string -> Option<Id>, new r: Reply<Payload>)
    requires |path| == 3
    reads db
  {
    && (r.Fail? ==> FileReply(db, actor, idOf(path[1]), name, file, Fail(r.code, r.message)))
    && (r.Success? ==> r.data.OneDocument? && FileReply(db, actor, idOf(path[1]), name, file, Success(r.code, r.data.document)))
  }

  /** `deleteDocument`'s answer for the cast `:docId`, given the cast `:projectId`. */
  twostate predicate DeleteDocumentEffect(db: Store, path: seq<string>, idOf: string -> Option<Id>, new r: Reply<Payload>)
    requires |path| == 4
    reads db
  {
    if idOf(path[3]).None? then r == Fail(500, MsgDeleteDocumentFailed)
    else
      var d := idOf(path[3]).value;
      && (r.Fail? ==> DeleteDocumentReply(db, idOf(path[1]), d, Fail(r.code, r.message)))
      && (r.Success? ==> r.data.NoContent? && DeleteDocumentReply(db, idOf(path[1]), d, Success(r.code, ())))
  }

  /**
   * Serves one request. `verify` checks a token, `idOf` casts a path segment
   * to an ObjectId and `isUrl` is the URL constructor's verdict.
   */
  method Serve(db: Store, req: Request, verify: string -> Option<TokenPayload>, idOf: string -> Option<Id>,
               isUrl: string -> bool) returns (r: Reply<Payload>)
    requires db.Valid()
    modifies db
    ensures db.Valid()
    ensures unchanged(db`users)
    ensures r.Fail? ==> unchanged(db)
    ensures req.verb == Get ==> unchanged(db)
    ensures GateResult(req, verify).None? ==> r == Fail(404, MsgNoRoute)
    ensures GateResult(req, verify).Some? && GateResult(req, verify).value.Stopped? ==>
      r == Fail(GateResult(req, verify).value.code, GateResult(req, verify).value.message)
    ensures GateResult(req, verify).Some? && GateResult(req, verify).value.Reached? ==>
      && var e := Routes[Resolve(req.verb, req.path).value].endpoint;
      && var chain := GateResult(req, verify).value;
      && var auth := Authenticate(req.authorization, verify);
      && (match AccessOf(e)
          case Open => true
          case AnyUser => auth.Authenticated?
          case RolesIn(rs) => auth.Authenticated? && auth.user.role in rs)
      && (!AccessOf(e).Open? ==> ActorFor(chain) == ActorOf(auth.user))
      && chain.file == (if e == UploadFileEp then req.upload else None)
      && (!WritesProjects(e) ==> unchanged(db`projects))
      && (!WritesDocuments(e) ==> unchanged(db`documents))
      && Effect(db, e, req, ActorFor(chain), chain.file, idOf, isUrl, r)
    ensures r.Success? ==> GateResult(req, verify).Some? && GateResult(req, verify).value.Reached?
  {
    var route := Resolve(req.verb, req.path);
    if route.None? {
      return Fail(404, MsgNoRoute);
    }
    var k := route.value;
    RouteAdmission(k, req.authorization, verify, req.upload);
    GetRoutesReadOnly();
    var chain := RunGates(Routes[k].gates, req.authorization, verify, req.upload, None, None);
    if chain.Stopped? {
      return Fail(chain.code, chain.message);
    }
    var e := Routes[k].endpoint;
    var actor := ActorFor(chain);
    if e.AvailableUsers? || e.ListProjects? || e.FetchProject? {
      r := DispatchProjectRead(db, e, req, actor, chain.file, idOf, isUrl);
    } else if WritesProjects(e) {
      r := DispatchProjectWrite(db, e, req, actor, chain.file, idOf, isUrl);
    } else if e.ListDocuments? || e.DownloadDocumentEp? {
      r := DispatchDocumentRead(db, e, req, actor, chain.file, idOf, isUrl);
    } else {
      r := DispatchDocumentWrite(db, e, req, actor, chain.file, idOf, isUrl);
    }
  }

  /** The project reads: the available users, the listing and one project by its `:id`, cast by `idOf`. */
  method DispatchProjectRead(db: Store, e: Endpoint, req: Request, actor: Actor, file: Option<UploadedFile>,
                             idOf: string -> Option<Id>, isUrl: string -> bool) returns (r: Reply<Payload>)
    requires db.Valid()
    requires e.AvailableUsers? || e.ListProjects? || e.FetchProject?
    requires |req.path| == Arity(e)
    ensures Effect(db, e, req, actor, file, idOf, isUrl, r)
  {
    var path := req.path;
    match e
    case AvailableUsers =>
      var users := GetAvailableUsers(db);
      r := users.Map(l => UserList(l));
    case ListProjects =>
      var listed := GetProjects(db, actor);
      r := listed.Map(l => ProjectList(l));
    case FetchProject =>
      var id := idOf(path[1]);
      r := if id.None? then Fail(500, MsgFetchFailed) else GetProject(db, actor, id.value).Map(v => OneProject(v));
  }

  /** The project writes: create, and update or delete by the path parameter `:id`. */
  method DispatchProjectWrite(db: Store, e: Endpoint, req: Request, actor: Actor, file: Option<UploadedFile>,
                              idOf: string -> Option<Id>, isUrl: string -> bool) returns (r: Reply<Payload>)
    requires db.Valid()
    requires WritesProjects(e)
    requires |req.path| == Arity(e)
    modifies db
    ensures db.Valid()
    ensures r.Fail? ==> unchanged(db)
    ensures unchanged(db`users)
    ensures !e.DeleteProjectEp? ==> unchanged(db`documents)
    ensures Effect(db, e, req, actor, file, idOf, isUrl, r)
  {
    match e
    case CreateProjectEp =>
      r := DispatchCreate(db, req, actor, file, idOf, isUrl);
    case UpdateProjectEp =>
      r := DispatchUpdate(db, req, actor, file, idOf, isUrl);
    case DeleteProjectEp =>
      r := DispatchDelete(db, req, actor, file, idOf, isUrl);
  }

  method DispatchCreate(db: Store, req: Request, actor: Actor, file: Option<UploadedFile>,
                        idOf: string -> Option<Id>, isUrl: string -> bool) returns (r: Reply<Payload>)
    requires db.Valid()
    requires |req.path| == Arity(CreateProjectEp)
    modifies db
    ensures db.Valid()
    ensures r.Fail? ==> unchanged(db)
    ensures unchanged(db`users, db`documents)
    ensures CreateEffect(db, req.project, r)
  {
    var created := CreateProject(db, req.project);
    if created.Fail? {
      return Fail(created.code, created.message);
    }
    r := Success(created.code, OneProject(created.data));
  }

  /** The path parameter `:id` is cast by `idOf`. */
  method DispatchUpdate(db: Store, req: Request, actor: Actor, file: Option<UploadedFile>,
                        idOf: string -> Option<Id>, isUrl: string -> bool) returns (r: Reply<Payload>)
    requires db.Valid()
    requires |req.path| == Arity(UpdateProjectEp)
    modifies db
    ensures db.Valid()
    ensures r.Fail? ==> unchanged(db)
    ensures unchanged(db`users, db`documents)
    ensures UpdateEffect(db, req.path, req.project, actor, idOf, r)
  {
    var id := idOf(req.path[1]);
    if id.None? {
      return Fail(500, MsgUpdateFailed);
    }
    ghost var o := UpdateOutcome(db.users, db.projects, actor, id.value, req.project);
    var updated := UpdateProject(db, actor, id.value, req.project);
    if updated.Fail? {
      return Fail(updated.code, updated.message);
    }
    r := Success(updated.code, OneProject(updated.data));
    assert r.Success? ==> o.Success? && id.value in old(db.projects) && MayUpdate(actor, old(db.projects)[id.value]);
  }

  /** The path parameter `:id` is cast by `idOf`. */
  method DispatchDelete(db: Store, req: Request, actor: Actor, file: Option<UploadedFile>,
                        idOf: string -> Option<Id>, isUrl: string -> bool) returns (r: Reply<Payload>)
    requires db.Valid()
    requires |req.path| == Arity(DeleteProjectEp)
    modifies db
    ensures db.Valid()
    ensures r.Fail? ==> unchanged(db)
    ensures unchanged(db`users)
    ensures DeleteProjectEffect(db, req.path, idOf, r)
  {
    var id := idOf(req.path[1]);
    if id.None? {
      return Fail(500, MsgDeleteFailed);
    }
    var deleted, _ := DeleteProject(db, id.value);
    if deleted.Fail? {
      return Fail(deleted.code, deleted.message);
    }
    r := Success(deleted.code, NoContent);
  }

  /** The document reads: the listing and the download, with `:projectId` and `:docId` cast by `idOf`. */
  method DispatchDocumentRead(db: Store, e: Endpoint, req: Request, actor: Actor, file: Option<UploadedFile>,
                              idOf: string -> Option<Id>, isUrl: string -> bool) returns (r: Reply<Payload>)
    requires db.Valid()
    requires e.ListDocuments? || e.DownloadDocumentEp?
    requires |req.path| == Arity(e)
    ensures Effect(db, e, req, actor, file, idOf, isUrl, r)
  {
    var path := req.path;
    match e
    case ListDocuments =>
      var pid := idOf(path[1]);
      if pid.None? {
        return Fail(500, MsgDocumentsFailed);
      }
      var docs := GetProjectDocuments(db, pid.value);
      r := docs.Map(l => DocumentList(l));
    case DownloadDocumentEp =>
      var docId := idOf(path[3]);
      r := if docId.None? then Fail(500, MsgDownloadFailed)
           else DownloadDocument(db, path[1], docId.value).Map(d => FileBody(d));
  }

  /** The document writes: the two uploads and the deletion. */
  method DispatchDocumentWrite(db: Store, e: Endpoint, req: Request, actor: Actor, file: Option<UploadedFile>,
                               idOf: string -> Option<Id>, isUrl: string -> bool) returns (r: Reply<Payload>)
    requires db.Valid()
    requires e.UploadLinkEp? || e.UploadFileEp? || e.DeleteDocumentEp?
    requires |req.path| == Arity(e)
    modifies db
    ensures db.Valid()
    ensures r.Fail? ==> unchanged(db)
    ensures unchanged(db`users, db`projects)
    ensures Effect(db, e, req, actor, file, idOf, isUrl, r)
  {
    match e
    case UploadLinkEp =>
      r := DispatchUploadLink(db, req, actor, file, idOf, isUrl);
    case UploadFileEp =>
      r := DispatchUploadFile(db, req, actor, file, idOf, isUrl);
    case DeleteDocumentEp =>
      r := DispatchDeleteDocument(db, req, actor, file, idOf, isUrl);
  }

  /** The path parameter `:projectId` is cast by `idOf`; the URL check is `isUrl`. */
  method DispatchUploadLink(db: Store, req: Request, actor: Actor, file: Option<UploadedFile>,
                            idOf: string -> Option<Id>, isUrl: string -> bool) returns (r: Reply<Payload>)
    requires db.Valid()
    requires |req.path| == Arity(UploadLinkEp)
    modifies db
    ensures db.Valid()
    ensures r.Fail? ==> unchanged(db)
    ensures unchanged(db`users, db`projects)
    ensures UploadLinkEffect(db, req.path, req.link, actor, idOf, isUrl, r)
  {
    var created := UploadDocumentLink(db, actor, idOf(req.path[1]), req.link, isUrl);
    if created.Fail? {
      return Fail(created.code, created.message);
    }
    r := Success(created.code, OneDocument(created.data));
  }

  /** The path parameter `:projectId` is cast by `idOf`; `file` is what the upload gate stored. */
  method DispatchUploadFile(db: Store, req: Request, actor: Actor, file: Option<UploadedFile>,
                            idOf: string -> Option<Id>, isUrl: string -> bool) returns (r: Reply<Payload>)
    requires db.Valid()
    requires |req.path| == Arity(UploadFileEp)
    modifies db
    ensures db.Valid()
    ensures r.Fail? ==> unchanged(db)
    ensures unchanged(db`users, db`projects)
    ensures UploadFileEffect(db, req.path, req.documentName, actor, file, idOf, r)
  {
    var created := UploadDocument(db, actor, idOf(req.path[1]), req.documentName, file);
    if created.Fail? {
      return Fail(created.code, created.message);
    }
    r := Success(created.code, OneDocument(created.data));
  }

  /** The path parameters `:projectId` and `:docId` are cast by `idOf`. */
  method DispatchDeleteDocument(db: Store, req: Request, actor: Actor, file: Option<UploadedFile>,
                                idOf: string -> Option<Id>, isUrl: string -> bool) returns (r: Reply<Payload>)
    requires db.Valid()
    requires |req.path| == Arity(DeleteDocumentEp)
    modifies db
    ensures db.Valid()
    ensures r.Fail? ==> unchanged(db)
    ensures unchanged(db`users, db`projects)
    ensures DeleteDocumentEffect(db, req.path, idOf, r)
  {
    var docId := idOf(req.path[3]);
    if docId.None? {
      return Fail(500, MsgDeleteDocumentFailed);
    }
    var deleted := DeleteDocument(db, idOf(req.path[1]), docId.value);
    if deleted.Fail? {
      return Fail(deleted.code, deleted.message);
    }
    r := Success(deleted.code, NoContent);
  }
}
