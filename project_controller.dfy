/**
 * backend/controllers/projectController.js: the project and document
 * handlers, as methods over the store. Each takes what the handler reads
 * from the request (the actor from `req.user`, path ids, body fields) and
 * returns the status code with the message or the record it sends.
 * Persistence failures (the generic 500 of each catch block) are not part of
 * the model; model validation failures on create and save are, and they end
 * in that same 500.
 */
module ProjectController {

  import opened Wrappers
  import opened Text
  import opened Http
  import opened UserModel
  import opened ProjectModel
  import opened DocumentModel
  import opened Upload
  import opened Db

  const MsgMissingFields := "Please provide name, description, deadline, and lead"
  const MsgLeadNotFound := "Lead user not found"
  const MsgTeamNotFound := "One or more team members not found"
  const MsgCreateFailed := "Failed to create project"
  const MsgProjectNotFound := "Project not found"
  const MsgNoView := "You do not have permission to view this project"
  const MsgFetchFailed := "Failed to fetch project"
  const MsgNoUpdate := "You do not have permission to update this project"
  const MsgUpdateFailed := "Failed to update project"
  const MsgDocNotFound := "Document not found"
  const MsgNameRequired := "Document name is required"
  const MsgLinkRequired := "Document link is required"
  const MsgInvalidUrl := "Invalid URL format"
  const MsgLinkFailed := "Failed to upload document link"
  const MsgNoFile := "No file uploaded"
  const MsgUploadFailed := "Failed to upload document"
  const MsgWrongProject := "Document does not belong to this project"

  /** The body of a create or update request; an absent `lead` stands for any falsy value. */
  datatype ProjectBody = ProjectBody(
    name: Option<string>,
    description: Option<string>,
    deadline: Option<string>,
    status: Option<string>,
    lead: Option<Id>,
    team: Option<seq<TeamEntry>>)

  // ---------------------------------------------------------------------------
  // The batch team lookup

  function TeamIds(team: seq<TeamEntry>): (ids: seq<Id>)
    ensures |ids| == |team|
    ensures forall i :: 0 <= i < |team| ==> ids[i] == team[i].userId
  {
    seq(|team|, i requires 0 <= i < |team| => team[i].userId)
  }

  /** `(await User.find({ _id: { $in: ids } })).length`: every existing user once, however often it is listed. */
  function FoundCount(users: map<Id, User>, team: seq<TeamEntry>): nat {
    |Elements(TeamIds(team)) * users.Keys|
  }

  /** The check `teamMembers.length === team.length`. */
  predicate TeamLookupPasses(users: map<Id, User>, team: seq<TeamEntry>) {
    FoundCount(users, team) == |team|
  }

  predicate Distinct(s: seq<Id>) {
    forall i, j :: 0 <= i < j < |s| ==> s[i] != s[j]
  }

  lemma {:induction false} ElementCount(s: seq<Id>)
    ensures |Elements(s)| <= |s|
    ensures |Elements(s)| == |s| <==> Distinct(s)
  {
    if s != [] {
      var t := s[1..];
      ElementCount(t);
      ElementsOfCons(s);
      assert Distinct(s) <==> s[0] !in t && Distinct(t) by {
        if Distinct(s) {
          assert forall i, j :: 0 <= i < j < |t| ==> t[i] == s[i + 1] && t[j] == s[j + 1];
          assert forall j :: 0 <= j < |t| ==> t[j] == s[j + 1];
        }
        if s[0] !in t && Distinct(t) {
          forall i, j | 0 <= i < j < |s| ensures s[i] != s[j] {
            if i == 0 {
              assert s[j] == t[j - 1];
            } else {
              assert s[i] == t[i - 1] && s[j] == t[j - 1];
            }
          }
        }
      }
      if s[0] in t {
        assert Elements(s) == Elements(t);
      }
    }
  }

  lemma SubsetSmaller(a: set<Id>, b: set<Id>, x: Id)
    requires a <= b && x in b && x !in a
    ensures |a| < |b|
  {
    var c := b - a;
    assert a * c == {};
    assert b == a + c;
    assert x in c;
  }

  /** Of the distinct ids in `s`, all of them are in `keys` and there are |s| of them, exactly when `s` is duplicate-free within `keys`. */
  lemma IntersectCount(s: seq<Id>, keys: set<Id>)
    ensures |Elements(s) * keys| == |s| <==> (forall i :: 0 <= i < |s| ==> s[i] in keys) && Distinct(s)
  {
    ElementCount(s);
    var found := Elements(s) * keys;
    assert found <= Elements(s);
    if forall i :: 0 <= i < |s| ==> s[i] in keys {
      assert found == Elements(s);
    } else {
      var i :| 0 <= i < |s| && s[i] !in keys;
      SubsetSmaller(found, Elements(s), s[i]);
    }
  }

  /** The batch check passes exactly when every listed user exists and none is listed twice. */
  lemma TeamLookupPassesIff(users: map<Id, User>, team: seq<TeamEntry>)
    ensures TeamLookupPasses(users, team) <==>
      (forall i :: 0 <= i < |team| ==> team[i].userId in users) && Distinct(TeamIds(team))
  {
    IntersectCount(TeamIds(team), users.Keys);
  }

  // ---------------------------------------------------------------------------
  // createProject

  predicate HasRequiredFields(b: ProjectBody) {
    Truthy(b.name) && Truthy(b.description) && Truthy(b.deadline) && b.lead.Some?
  }

  /** Whether the handler runs the team lookup: `team && team.length > 0`. */
  predicate TeamChecked(b: ProjectBody) {
    b.team.Some? && |b.team.value| > 0
  }

  /** The values passed to `Project.create`, with `status: status || 'active'`. */
  function CreationDraft(b: ProjectBody): ProjectDraft
    requires HasRequiredFields(b)
  {
    ProjectDraft(b.name.value, b.description.value, b.deadline.value,
      Some(if Truthy(b.status) then b.status.value else "active"), b.lead.value, b.team)
  }

  /**
   * The reply of `createProject`: 400 for missing fields, then for an unknown
   * lead, then for a team that fails the batch check; 500 when validation
   * fails; otherwise 201 with the new project under the fresh id, populated.
   */
  twostate predicate CreateReply(db: Store, body: ProjectBody, new r: Reply<ProjectView>)
    reads db
  {
    && (!HasRequiredFields(body) ==> r == Fail(400, MsgMissingFields))
    && (HasRequiredFields(body) && body.lead.value !in old(db.users) ==> r == Fail(400, MsgLeadNotFound))
    && (HasRequiredFields(body) && body.lead.value in old(db.users) ==>
          if TeamChecked(body) && !TeamLookupPasses(old(db.users), body.team.value) then r == Fail(400, MsgTeamNotFound)
          else if CastProject(CreationDraft(body)).None? then r == Fail(500, MsgCreateFailed)
          else r.Success?)
    && (r.Success? ==>
          && HasRequiredFields(body) && r.code == 201 && r.data.id == old(db.nextId)
          && CastProject(CreationDraft(body)) == Some(r.data.project)
          && db.projects == old(db.projects)[r.data.id := r.data.project]
          && r.data == ViewOf(db.users, r.data.id, r.data.project))
  }

  method CreateProject(db: Store, body: ProjectBody) returns (r: Reply<ProjectView>)
    requires db.Valid()
    modifies db
    ensures db.Valid()
    ensures unchanged(db`users, db`documents)
    ensures r.Fail? ==> unchanged(db)
    ensures CreateReply(db, body, r)
    ensures r.Success? ==>
      StatusName(r.data.project.status) == (if Truthy(body.status) then body.status.value else "active")
  {
    if !HasRequiredFields(body) {
      return Fail(400, MsgMissingFields);
    }
    if body.lead.value !in db.users {
      return Fail(400, MsgLeadNotFound);
    }
    if body.team.Some? && |body.team.value| > 0 {
      if FoundCount(db.users, body.team.value) != |body.team.value| {
        return Fail(400, MsgTeamNotFound);
      }
    }
    var created := CastProject(CreationDraft(body));
    if created.None? {
      return Fail(500, MsgCreateFailed);
    }
    var id := db.InsertProject(created.value);
    r := Success(201, ViewOf(db.users, id, created.value));
  }

  /** A created project with a non-empty team lists existing users, each once. */
  lemma CreatedTeamIsResolved(users: map<Id, User>, body: ProjectBody)
    requires TeamChecked(body) && TeamLookupPasses(users, body.team.value)
    ensures forall i :: 0 <= i < |body.team.value| ==> body.team.value[i].userId in users
    ensures Distinct(TeamIds(body.team.value))
  {
    TeamLookupPassesIff(users, body.team.value);
  }

  // ---------------------------------------------------------------------------
  // getProjects

  predicate IsMember(uid: Option<Id>, p: Project) {
    exists i :: 0 <= i < |p.team| && Some(p.team[i].userId) == uid
  }

  /** The query chosen by role; any role other than developer or lead gets the empty query. */
  predicate InListing(actor: Actor, p: Project) {
    match actor.role
    case Developer => IsMember(actor.id, p) && p.status == Active
    case Lead => (actor.id == Some(p.lead) || IsMember(actor.id, p)) && p.status == Active
    case Admin => true
  }

  /** Who may fetch a single project: an admin, its lead, or a team member. */
  predicate CanView(actor: Actor, p: Project) {
    actor.role == Admin || actor.id == Some(p.lead) || IsMember(actor.id, p)
  }

  datatype ListedProject = ListedProject(view: ProjectView, documentCount: nat)

  /** The ids of a listing, in its order. */
  function IdsOf<T>(l: seq<T>, id: T -> Id): (ids: seq<Id>)
    ensures |ids| == |l| && forall i :: 0 <= i < |l| ==> ids[i] == id(l[i])
  {
    seq(|l|, i requires 0 <= i < |l| => id(l[i]))
  }

  function ListedIds(l: seq<ListedProject>): seq<Id> {
    IdsOf(l, (p: ListedProject) => p.view.id)
  }

  /**
   * The reply of `getProjects`: 200 with exactly the projects the role's query
   * selects, newest first, each populated and with its document count.
   */
  ghost predicate ProjectsReply(db: Store, actor: Actor, r: Reply<seq<ListedProject>>)
    reads db
  {
    && r.Success? && r.code == 200
    && StrictlyDecreasing(ListedIds(r.data))
    && (forall k :: k in ListedIds(r.data) <==> k in db.projects && InListing(actor, db.projects[k]))
    && (forall i :: 0 <= i < |r.data| ==>
          var id := r.data[i].view.id;
          && id in db.projects
          && r.data[i].view == ViewOf(db.users, id, db.projects[id])
          && r.data[i].documentCount == |DocsOf(db.documents, id)|)
  }

  method GetProjects(db: Store, actor: Actor) returns (r: Reply<seq<ListedProject>>)
    requires db.Valid()
    ensures ProjectsReply(db, actor, r)
  {
    var ids := FindDescending(db.projects, db.nextId, (p: Project) => InListing(actor, p));
    var listed: seq<ListedProject> := [];
    var i := 0;
    while i < |ids|
      invariant 0 <= i <= |ids|
      invariant |listed| == i
      invariant forall j :: 0 <= j < i ==>
        && listed[j].view.id == ids[j]
        && ids[j] in db.projects
        && listed[j].view == ViewOf(db.users, ids[j], db.projects[ids[j]])
        && listed[j].documentCount == |DocsOf(db.documents, ids[j])|
    {
      var count := CountDocuments(db.documents, db.nextId, ids[i]);
      listed := listed + [ListedProject(ViewOf(db.users, ids[i], db.projects[ids[i]]), count)];
      i := i + 1;
    }
    assert ListedIds(listed) == ids;
    r := Success(200, listed);
  }

  /** A developer's list holds only active projects they are a team member of. */
  lemma DeveloperListing(actor: Actor, p: Project)
    requires actor.role == Developer && InListing(actor, p)
    ensures p.status == Active && IsMember(actor.id, p)
  {
  }

  /** Everything listed passes the view check of `getProject`. */
  lemma ListingImpliesView(actor: Actor, p: Project)
    requires InListing(actor, p)
    ensures CanView(actor, p)
  {
  }

  /** An admin's list is not filtered by status: completed projects appear too. */
  lemma AdminListsEverything(actor: Actor, p: Project)
    requires actor.role == Admin
    ensures InListing(actor, p)
  {
  }

  // ---------------------------------------------------------------------------
  // getProject

  /** The first `i` entries of the populated team are present and none of them is `uid`. */
  predicate NoMatchBefore(team: seq<Option<MemberSummary>>, uid: Option<Id>, i: nat)
    requires i <= |team|
  {
    forall j :: 0 <= j < i ==> team[j].Some? && Some(team[j].value.id) != uid
  }

  /**
   * `project.team.some(m => m.userId.equals(userId))` on the populated team:
   * it stops at the first match, and None stands for reaching an entry whose
   * user is gone (null), on which `equals` throws.
   */
  function TeamScan(team: seq<Option<MemberSummary>>, uid: Option<Id>): (r: Option<bool>)
    ensures r.None? <==> exists i :: 0 <= i < |team| && team[i].None? && NoMatchBefore(team, uid, i)
    ensures r == Some(true) <==>
      exists i :: 0 <= i < |team| && team[i].Some? && Some(team[i].value.id) == uid && NoMatchBefore(team, uid, i)
    ensures r == Some(false) <==> NoMatchBefore(team, uid, |team|)
  {
    if team == [] then Some(false)
    else
      var rest := TeamScan(team[1..], uid);
      assert forall i :: 1 <= i <= |team| ==>
        (NoMatchBefore(team, uid, i) <==> team[0].Some? && Some(team[0].value.id) != uid && NoMatchBefore(team[1..], uid, i - 1));
      if team[0].None? then None
      else if Some(team[0].value.id) == uid then
        assert NoMatchBefore(team, uid, 0);
        Some(true)
      else
        assert forall i :: 1 <= i < |team| ==> team[i] == team[1..][i - 1];
        rest
  }

  /** The lead and every team member of `p` are stored users. */
  predicate RefsResolve(users: map<Id, User>, p: Project) {
    p.lead in users && forall i :: 0 <= i < |p.team| ==> p.team[i].userId in users
  }

  /**
   * The membership scan of `getProject` throws: walking the stored team, it
   * reaches an entry whose user is gone before any entry that is `uid`.
   */
  predicate ScanThrows(users: map<Id, User>, team: seq<TeamEntry>, uid: Option<Id>) {
    exists i :: 0 <= i < |team| && team[i].userId !in users
      && forall j :: 0 <= j < i ==> team[j].userId in users && Some(team[j].userId) != uid
  }

  /** The scan over the populated team, in terms of the stored project. */
  lemma ScanOfView(users: map<Id, User>, id: Id, p: Project, uid: Option<Id>)
    ensures var t := TeamScan(ViewOf(users, id, p).team, uid);
      && (t.None? <==> ScanThrows(users, p.team, uid))
      && (t.Some? ==> (t.value <==> IsMember(uid, p)))
  {
    ScanOfEntries(users, p.team, ViewOf(users, id, p).team, uid);
  }

  /** `team` is `entries` populated from `users`. */
  lemma {:induction false} ScanOfEntries(users: map<Id, User>, entries: seq<TeamEntry>,
                                         team: seq<Option<MemberSummary>>, uid: Option<Id>)
    requires |team| == |entries|
    requires forall i :: 0 <= i < |entries| ==> team[i] == MemberOf(users, entries[i].userId)
    ensures TeamScan(team, uid).None? <==> ScanThrows(users, entries, uid)
    ensures TeamScan(team, uid).Some? ==>
      (TeamScan(team, uid).value <==> exists i :: 0 <= i < |entries| && Some(entries[i].userId) == uid)
  {
    if entries == [] {
      assert TeamScan(team, uid) == Some(false);
    } else {
      var u := entries[0].userId;
      if u !in users {
        assert TeamScan(team, uid).None?;
        assert ScanThrows(users, entries, uid) by {
          assert 0 < |entries| && entries[0].userId !in users;
        }
      } else if Some(u) == uid {
        assert TeamScan(team, uid) == Some(true);
      } else {
        ScanOfEntries(users, entries[1..], team[1..], uid);
        assert TeamScan(team, uid) == TeamScan(team[1..], uid);
        ThrowsShift(users, entries, uid);
        assert (exists i :: 0 <= i < |entries| && Some(entries[i].userId) == uid) <==>
               (exists i :: 0 <= i < |entries[1..]| && Some(entries[1..][i].userId) == uid) by {
          if exists i :: 0 <= i < |entries| && Some(entries[i].userId) == uid {
            var i :| 0 <= i < |entries| && Some(entries[i].userId) == uid;
            assert i != 0 && entries[1..][i - 1] == entries[i];
          }
        }
      }
    }
  }

  /** Past a first entry that is stored and is not `uid`, the scan throws iff it throws on the rest. */
  lemma ThrowsShift(users: map<Id, User>, entries: seq<TeamEntry>, uid: Option<Id>)
    requires entries != [] && entries[0].userId in users && Some(entries[0].userId) != uid
    ensures ScanThrows(users, entries, uid) <==> ScanThrows(users, entries[1..], uid)
  {
    var rest := entries[1..];
    if ScanThrows(users, entries, uid) {
      var i :| 0 <= i < |entries| && entries[i].userId !in users
        && forall j :: 0 <= j < i ==> entries[j].userId in users && Some(entries[j].userId) != uid;
      assert i != 0 && rest[i - 1] == entries[i];
      assert forall j :: 0 <= j < i - 1 ==> rest[j] == entries[j + 1];
    }
    if ScanThrows(users, rest, uid) {
      var i :| 0 <= i < |rest| && rest[i].userId !in users
        && forall j :: 0 <= j < i ==> rest[j].userId in users && Some(rest[j].userId) != uid;
      assert entries[i + 1] == rest[i];
      assert forall j :: 1 <= j < i + 1 ==> entries[j] == rest[j - 1];
    }
  }

  function GetProject(db: Store, actor: Actor, id: Id): (r: Reply<ProjectView>)
    reads db
    ensures id !in db.projects ==> r == Fail(404, MsgProjectNotFound)
    ensures r.Success? ==>
      id in db.projects && r.code == 200 && r.data == ViewOf(db.users, id, db.projects[id])
      && CanView(actor, db.projects[id])
    ensures id in db.projects ==>
      var p := db.projects[id];
      && (r == Fail(500, MsgFetchFailed) <==>
            ScanThrows(db.users, p.team, actor.id) || (actor.role != Admin && p.lead !in db.users))
      && (r.Success? <==>
            !ScanThrows(db.users, p.team, actor.id) && (actor.role == Admin || (p.lead in db.users && CanView(actor, p))))
    ensures id in db.projects && RefsResolve(db.users, db.projects[id]) ==>
      (r.Success? <==> CanView(actor, db.projects[id]))
      && (r.Fail? ==> r == Fail(403, MsgNoView))
    ensures r.Fail? ==> r == Fail(404, MsgProjectNotFound) || r == Fail(403, MsgNoView) || r == Fail(500, MsgFetchFailed)
  {
    if id !in db.projects then Fail(404, MsgProjectNotFound)
    else
      var p := db.projects[id];
      var v := ViewOf(db.users, id, p);
      ScanOfView(db.users, id, p, actor.id);
      assert RefsResolve(db.users, p) ==> !ScanThrows(db.users, p.team, actor.id);
      match TeamScan(v.team, actor.id)
      case None => Fail(500, MsgFetchFailed)
      case Some(isTeamMember) =>
        if actor.role == Admin then Success(200, v)
        else if v.lead.None? then Fail(500, MsgFetchFailed)
        else if Some(v.lead.value.id) != actor.id && !isTeamMember then Fail(403, MsgNoView)
        else Success(200, v)
  }

  /** A listed project whose lead and team all resolve is fetched by id with 200. */
  lemma ListedIsFetchable(db: Store, actor: Actor, id: Id)
    requires id in db.projects && InListing(actor, db.projects[id]) && RefsResolve(db.users, db.projects[id])
    ensures GetProject(db, actor, id) == Success(200, ViewOf(db.users, id, db.projects[id]))
  {
  }

  /** A listed project whose membership scan meets a gone user first is answered with 500. */
  lemma ListedButThrows(db: Store, actor: Actor, id: Id)
    requires id in db.projects && InListing(actor, db.projects[id])
    requires ScanThrows(db.users, db.projects[id].team, actor.id)
    ensures GetProject(db, actor, id) == Fail(500, MsgFetchFailed)
  {
  }

  /**
   * Such a project exists: a developer on an active team whose first entry is
   * a user that was deleted.
   */
  lemma ListedButThrowsExample()
    ensures var p := Project("p", "", "", Active, 2, [TeamEntry(0), TeamEntry(1)]);
      var actor := Actor(Some(1), Developer);
      var users := map[1 := User(None, "d@x", "h", Developer, [], None), 2 := User(None, "l@x", "h", Lead, [], None)];
      InListing(actor, p) && ScanThrows(users, p.team, actor.id)
  {
    var p := Project("p", "", "", Active, 2, [TeamEntry(0), TeamEntry(1)]);
    assert p.team[1].userId == 1;
    assert p.team[0].userId == 0;
  }

  // ---------------------------------------------------------------------------
  // updateProject

  /** Ownership: an admin, or the project's own lead. */
  predicate MayUpdate(actor: Actor, p: Project) {
    actor.role == Admin || actor.id == Some(p.lead)
  }

  /** The lead check that answers 400: an admin names a lead that does not exist. */
  predicate LeadRejected(users: map<Id, User>, actor: Actor, b: ProjectBody) {
    actor.role == Admin && b.lead.Some? && b.lead.value !in users
  }

  /** The team check that answers 400: a supplied team fails the batch lookup. */
  predicate TeamRejected(users: map<Id, User>, b: ProjectBody) {
    b.team.Some? && !TeamLookupPasses(users, b.team.value)
  }

  /** `updateProject`'s field merge: truthy fields overwrite, only an admin moves the lead, a supplied team replaces the old one. */
  function MergedDraft(p: Project, actor: Actor, b: ProjectBody): ProjectDraft {
    ProjectDraft(
      if Truthy(b.name) then b.name.value else p.name,
      if Truthy(b.description) then b.description.value else p.description,
      if Truthy(b.deadline) then b.deadline.value else p.deadline,
      Some(if Truthy(b.status) then b.status.value else StatusName(p.status)),
      if actor.role == Admin && b.lead.Some? then b.lead.value else p.lead,
      Some(if b.team.Some? then b.team.value else p.team))
  }

  datatype Merge = Rejected(code: nat, message: string) | Merged(draft: ProjectDraft)

  /** `updateProject`'s field merge as written: the loaded record's fields overwritten one by one, with the two reference checks. */
  method MergeBody(users: map<Id, User>, project: Project, actor: Actor, body: ProjectBody) returns (m: Merge)
    ensures LeadRejected(users, actor, body) ==> m == Rejected(400, MsgLeadNotFound)
    ensures !LeadRejected(users, actor, body) && TeamRejected(users, body) ==> m == Rejected(400, MsgTeamNotFound)
    ensures !LeadRejected(users, actor, body) && !TeamRejected(users, body) ==> m == Merged(MergedDraft(project, actor, body))
  {
    var draft := DraftOf(project);
    draft := draft.(name := if Truthy(body.name) then body.name.value else draft.name);
    draft := draft.(description := if Truthy(body.description) then body.description.value else draft.description);
    draft := draft.(deadline := if Truthy(body.deadline) then body.deadline.value else draft.deadline);
    draft := draft.(status := if Truthy(body.status) then body.status else draft.status);
    if actor.role == Admin && body.lead.Some? {
      if body.lead.value !in users {
        return Rejected(400, MsgLeadNotFound);
      }
      draft := draft.(lead := body.lead.value);
    }
    if body.team.Some? {
      if FoundCount(users, body.team.value) != |body.team.value| {
        return Rejected(400, MsgTeamNotFound);
      }
      draft := draft.(team := body.team);
    }
    m := Merged(draft);
  }

  /**
   * What an update answers, checked in the handler's order: 404, 403, the
   * lead check, the team check, then schema validation on save (500).
   */
  function UpdateOutcome(users: map<Id, User>, projects: map<Id, Project>, actor: Actor, id: Id, body: ProjectBody): (r: Reply<Project>)
    ensures r.Success? ==>
      && id in projects && MayUpdate(actor, projects[id]) && r.code == 200
      && !LeadRejected(users, actor, body) && !TeamRejected(users, body)
      && ProjectValid(r.data)
      && r.data.lead == (if actor.role == Admin && body.lead.Some? then body.lead.value else projects[id].lead)
      && r.data.team == (if body.team.Some? then body.team.value else projects[id].team)
  {
    if id !in projects then Fail(404, MsgProjectNotFound)
    else if !MayUpdate(actor, projects[id]) then Fail(403, MsgNoUpdate)
    else if LeadRejected(users, actor, body) then Fail(400, MsgLeadNotFound)
    else if TeamRejected(users, body) then Fail(400, MsgTeamNotFound)
    else match CastProject(MergedDraft(projects[id], actor, body))
      case None => Fail(500, MsgUpdateFailed)
      case Some(q) => Success(200, q)
  }

  /** The handler up to the save: the lookups, the ownership check and the merge, with nothing written. */
  method CheckUpdate(users: map<Id, User>, projects: map<Id, Project>, actor: Actor, id: Id, body: ProjectBody)
    returns (o: Reply<Project>)
    ensures o == UpdateOutcome(users, projects, actor, id, body)
  {
    if id !in projects {
      return Fail(404, MsgProjectNotFound);
    }
    var project := projects[id];
    if actor.role != Admin && actor.id != Some(project.lead) {
      return Fail(403, MsgNoUpdate);
    }
    var merged := MergeBody(users, project, actor, body);
    if merged.Rejected? {
      return Fail(merged.code, merged.message);
    }
    var saved := CastProject(merged.draft);
    if saved.None? {
      return Fail(500, MsgUpdateFailed);
    }
    o := Success(200, saved.value);
  }

  method UpdateProject(db: Store, actor: Actor, id: Id, body: ProjectBody) returns (r: Reply<ProjectView>)
    requires db.Valid()
    modifies db
    ensures db.Valid()
    ensures unchanged(db`users, db`documents, db`nextId)
    ensures var o := UpdateOutcome(old(db.users), old(db.projects), actor, id, body);
      if o.Fail? then r == Fail(o.code, o.message) && unchanged(db)
      else r == Success(200, ViewOf(db.users, id, o.data)) && db.projects == old(db.projects)[id := o.data]
  {
    var o := CheckUpdate(db.users, db.projects, actor, id, body);
    if o.Fail? {
      return Fail(o.code, o.message);
    }
    db.SaveProject(id, o.data);
    r := Success(200, ViewOf(db.users, id, o.data));
  }

  /** The merge rules as they land in the stored record. */
  lemma UpdateMergeRules(p: Project, actor: Actor, b: ProjectBody, q: Project)
    requires ProjectValid(p)
    requires CastProject(MergedDraft(p, actor, b)) == Some(q)
    ensures q.name == if Truthy(b.name) then Trim(b.name.value) else p.name
    ensures q.description == if Truthy(b.description) then Trim(b.description.value) else p.description
    ensures q.deadline == if Truthy(b.deadline) then b.deadline.value else p.deadline
    ensures q.status == if Truthy(b.status) then ParseStatus(b.status.value).value else p.status
    ensures q.lead == if actor.role == Admin && b.lead.Some? then b.lead.value else p.lead
    ensures q.team == if b.team.Some? then b.team.value else p.team
  {
    var d := MergedDraft(p, actor, b);
    assert q.name == Trim(d.name) && q.description == Trim(d.description);
    assert StatusName(q.status) == d.status.value;
    StatusRoundTrip(q.status);
    if !Truthy(b.status) {
      StatusRoundTrip(p.status);
    }
  }

  /** A lead supplied by anyone but an admin is ignored. */
  lemma NonAdminKeepsLead(p: Project, actor: Actor, b: ProjectBody)
    requires actor.role != Admin
    ensures MergedDraft(p, actor, b).lead == p.lead
  {
  }

  /** An update whose fields are all falsy or absent saves the project unchanged. */
  lemma EmptyUpdateIsIdentity(p: Project, actor: Actor)
    requires ProjectValid(p)
    ensures CastProject(MergedDraft(p, actor, ProjectBody(None, None, None, None, None, None))) == Some(p)
  {
    assert MergedDraft(p, actor, ProjectBody(None, None, None, None, None, None)) == DraftOf(p);
    ResaveIsIdentity(p);
  }

  // ---------------------------------------------------------------------------
  // deleteProject

  /**
   * No authorization check: the handler never reads `req.user`. `between` is
   * the store after the first step: documents already gone, project still there.
   */
  method DeleteProject(db: Store, id: Id) returns (r: Reply<()>, ghost between: Snapshot)
    requires db.Valid()
    modifies db
    ensures db.Valid()
    ensures unchanged(db`users, db`nextId)
    ensures id !in old(db.projects) ==> r == Fail(404, MsgProjectNotFound) && unchanged(db)
    ensures id in old(db.projects) ==>
      && r == Success(204, ())
      && db.documents == WithoutProjectDocuments(old(db.documents), id)
      && db.projects == old(db.projects) - {id}
      && between == Snapshot(old(db.projects), db.documents)
  {
    between := Snapshot(db.projects, db.documents);
    if id !in db.projects {
      return Fail(404, MsgProjectNotFound), between;
    }
    db.RemoveDocumentsOf(id);
    between := Snapshot(db.projects, db.documents);
    db.RemoveProject(id);
    r := Success(204, ());
  }

  /** After the cascade no document refers to the deleted project, and the others are as they were. */
  lemma CascadeComplete(docs: map<Id, Document>, pid: Id)
    ensures DocsOf(WithoutProjectDocuments(docs, pid), pid) == {}
    ensures forall q :: q != pid ==> DocsOf(WithoutProjectDocuments(docs, pid), q) == DocsOf(docs, q)
  {
  }

  // ---------------------------------------------------------------------------
  // getProjectDocuments and downloadDocument

  function DocIds(l: seq<ListedDocument>): seq<Id> {
    IdsOf(l, (d: ListedDocument) => d.id)
  }

  /** Any authenticated caller may list: there is no membership check. */
  ghost predicate DocumentsReply(db: Store, pid: Id, r: Reply<seq<ListedDocument>>)
    reads db
  {
    && (pid !in db.projects ==> r == Fail(404, MsgProjectNotFound))
    && (pid in db.projects ==>
          && r.Success? && r.code == 200
          && StrictlyDecreasing(DocIds(r.data))
          && (forall k :: k in DocIds(r.data) <==> k in db.documents && db.documents[k].project == pid)
          && (forall i :: 0 <= i < |r.data| ==>
                r.data[i].id in db.documents
                && r.data[i] == ListedDocumentOf(db.users, r.data[i].id, db.documents[r.data[i].id])))
  }

  method GetProjectDocuments(db: Store, pid: Id) returns (r: Reply<seq<ListedDocument>>)
    requires db.Valid()
    ensures DocumentsReply(db, pid, r)
  {
    if pid !in db.projects {
      return Fail(404, MsgProjectNotFound);
    }
    var ids := FindDescending(db.documents, db.nextId, (d: Document) => d.project == pid);
    var listed: seq<ListedDocument> := [];
    var i := 0;
    while i < |ids|
      invariant 0 <= i <= |ids|
      invariant |listed| == i
      invariant forall j :: 0 <= j < i ==>
        listed[j].id == ids[j] && ids[j] in db.documents
        && listed[j] == ListedDocumentOf(db.users, ids[j], db.documents[ids[j]])
    {
      listed := listed + [ListedDocumentOf(db.users, ids[i], db.documents[ids[i]])];
      i := i + 1;
    }
    assert DocIds(listed) == ids;
    r := Success(200, listed);
  }

  /** What the download response carries: the headers' name, type and length, and the body. */
  datatype Download = Download(name: string, contentType: Option<string>, size: Option<nat>, data: Option<seq<byte>>)

  /** The lookup and 404 of `downloadDocument`; `projectId` is read from the path as text and never used, not even cast. */
  function DownloadDocument(db: Store, projectId: string, docId: Id): (r: Reply<Download>)
    reads db
    ensures docId !in db.documents ==> r == Fail(404, MsgDocNotFound)
    ensures docId in db.documents ==>
      var d := db.documents[docId];
      r.Success? && r.code == 200 && r.data.data == d.data
      && r.data == Download(d.name, d.contentType, d.size, d.data)
  {
    if docId !in db.documents then Fail(404, MsgDocNotFound)
    else
      var d := db.documents[docId];
      Success(200, Download(d.name, d.contentType, d.size, d.data))
  }

  /** The document is found by id alone, whatever project the path names. */
  lemma DownloadIgnoresProject(db: Store, p: string, q: string, docId: Id)
    ensures DownloadDocument(db, p, docId) == DownloadDocument(db, q, docId)
  {
  }

  // ---------------------------------------------------------------------------
  // uploadDocumentLink and uploadDocument

  /** `!v || !v.trim()`. */
  predicate Blank(v: Option<string>) {
    !Truthy(v) || Trim(v.value) == ""
  }

  datatype LinkBody = LinkBody(name: Option<string>, link: Option<string>)

  /** The record a link upload stores: trimmed name, trimmed link, no file fields. */
  function LinkDocument(pid: Id, b: LinkBody, uploader: Id): (d: Document)
    requires !Blank(b.name) && !Blank(b.link)
    ensures IsLinkForm(d) && DocumentValid(d)
  {
    Document(pid, Trim(b.name.value), None, None, None, Some(Trim(b.link.value)), uploader)
  }

  /**
   * The reply of `uploadDocumentLink`: 400 for a blank name, then a blank
   * link, then an invalid URL; 500 when the project id or uploader cannot be
   * cast; otherwise 201 with the new link document under the fresh id.
   */
  twostate predicate LinkReply(db: Store, actor: Actor, new pid: Option<Id>, body: LinkBody, isUrl: string -> bool,
                               new r: Reply<ListedDocument>)
    reads db
  {
    && (Blank(body.name) ==> r == Fail(400, MsgNameRequired))
    && (!Blank(body.name) && Blank(body.link) ==> r == Fail(400, MsgLinkRequired))
    && (!Blank(body.name) && !Blank(body.link) ==>
          if !isUrl(body.link.value) then r == Fail(400, MsgInvalidUrl)
          else if pid.None? || actor.id.None? then r == Fail(500, MsgLinkFailed)
          else r.Success?)
    && (r.Success? ==>
          && !Blank(body.name) && !Blank(body.link) && pid.Some? && actor.id.Some?
          && r.code == 201 && r.data.id == old(db.nextId)
          && db.documents == old(db.documents)[r.data.id := LinkDocument(pid.value, body, actor.id.value)]
          && r.data == ListedDocumentOf(db.users, r.data.id, db.documents[r.data.id]))
  }

  /**
   * `isUrl` stands for `new URL(link)` not throwing. The project id is not
   * looked up: a link can be attached to a project id that does not exist;
   * `pid` is None when the path segment is not an ObjectId, which fails the
   * cast on create.
   */
  method UploadDocumentLink(db: Store, actor: Actor, pid: Option<Id>, body: LinkBody, isUrl: string -> bool)
    returns (r: Reply<ListedDocument>)
    requires db.Valid()
    modifies db
    ensures db.Valid()
    ensures unchanged(db`users, db`projects)
    ensures r.Fail? ==> unchanged(db)
    ensures LinkReply(db, actor, pid, body, isUrl, r)
  {
    if !Truthy(body.name) || Trim(body.name.value) == "" {
      return Fail(400, MsgNameRequired);
    }
    if !Truthy(body.link) || Trim(body.link.value) == "" {
      return Fail(400, MsgLinkRequired);
    }
    if !isUrl(body.link.value) {
      return Fail(400, MsgInvalidUrl);
    }
    var created := CastDocument(DocumentInput(pid, Some(Trim(body.name.value)), None, None, None, body.link, actor.id));
    if created.None? {
      return Fail(500, MsgLinkFailed);
    }
    assert created.value == LinkDocument(pid.value, body, actor.id.value);
    var id := db.InsertDocument(created.value);
    r := Success(201, ListedDocumentOf(db.users, id, created.value));
  }

  /** `${name.trim()}.${originalname.split('.').pop()}`. */
  function StoredFileName(name: string, originalname: string): string {
    Trim(name) + "." + LastSegment(originalname, '.')
  }

  /** The stored name of a file with a non-blank base name is not blank: it holds the dot. */
  lemma StoredNameNotBlank(name: string, originalname: string)
    requires !AllSpace(name)
    ensures !AllSpace(StoredFileName(name, originalname))
  {
    var stored := StoredFileName(name, originalname);
    assert stored[|Trim(name)|] == '.';
  }

  /** The record a file upload stores: payload, type and size from the file, no link. */
  function FileDocument(pid: Id, name: string, f: UploadedFile, uploader: Id): (d: Document)
    requires !AllSpace(name)
    ensures IsFileForm(d) && DocumentValid(d)
    ensures d.data == Some(f.buffer) && d.contentType == Some(f.mimetype) && d.size == Some(|f.buffer|)
  {
    var stored := StoredFileName(name, f.originalname);
    StoredNameNotBlank(name, f.originalname);
    Document(pid, Trim(stored), Some(f.buffer), Some(f.mimetype), Some(|f.buffer|), None, uploader)
  }

  /**
   * The stored name survives the schema's trim setter unless the original
   * name's last dot-separated piece ends in whitespace, which it then cuts.
   */
  lemma StoredNameShape(name: string, originalname: string)
    requires !AllSpace(name)
    requires var ext := LastSegment(originalname, '.'); ext == [] || !IsSpace(ext[|ext| - 1])
    ensures Trim(StoredFileName(name, originalname)) == StoredFileName(name, originalname)
  {
    TrimDottedName(Trim(name), LastSegment(originalname, '.'));
  }

  /**
   * The reply of `uploadDocument`: 400 without a file, then for a blank name;
   * 500 when the project id or uploader cannot be cast; otherwise 201 with the
   * new file document under the fresh id.
   */
  twostate predicate FileReply(db: Store, actor: Actor, new pid: Option<Id>, name: Option<string>, file: Option<UploadedFile>,
                               new r: Reply<ListedDocument>)
    reads db
  {
    && (file.None? ==> r == Fail(400, MsgNoFile))
    && (file.Some? && Blank(name) ==> r == Fail(400, MsgNameRequired))
    && (file.Some? && !Blank(name) ==>
          if pid.None? || actor.id.None? then r == Fail(500, MsgUploadFailed) else r.Success?)
    && (r.Success? ==>
          && file.Some? && !Blank(name) && pid.Some? && actor.id.Some?
          && r.code == 201 && r.data.id == old(db.nextId)
          && db.documents == old(db.documents)[r.data.id := FileDocument(pid.value, name.value, file.value, actor.id.value)]
          && r.data == ListedDocumentOf(db.users, r.data.id, db.documents[r.data.id]))
  }

  method UploadDocument(db: Store, actor: Actor, pid: Option<Id>, name: Option<string>, file: Option<UploadedFile>)
    returns (r: Reply<ListedDocument>)
    requires db.Valid()
    modifies db
    ensures db.Valid()
    ensures unchanged(db`users, db`projects)
    ensures r.Fail? ==> unchanged(db)
    ensures FileReply(db, actor, pid, name, file, r)
    ensures r.Success? ==> forall path :: DownloadDocument(db, path, r.data.id).data.data == Some(file.value.buffer)
  {
    if file.None? {
      return Fail(400, MsgNoFile);
    }
    if !Truthy(name) || Trim(name.value) == "" {
      return Fail(400, MsgNameRequired);
    }
    var f := file.value;
    var fileName := StoredFileName(name.value, f.originalname);
    StoredNameNotBlank(name.value, f.originalname);
    var created := CastDocument(DocumentInput(pid, Some(fileName), Some(f.buffer), Some(f.mimetype), Some(|f.buffer|), None, actor.id));
    if created.None? {
      return Fail(500, MsgUploadFailed);
    }
    var stored := FileDocument(pid.value, name.value, f, actor.id.value);
    assert created.value == stored;
    var id := db.InsertDocument(stored);
    r := Success(201, ListedDocumentOf(db.users, id, stored));
  }

  // ---------------------------------------------------------------------------
  // deleteDocument

  /**
   * The reply of `deleteDocument`: 404 for an unknown document, 400 when it
   * belongs to another project, otherwise 204 with that document removed.
   */
  twostate predicate DeleteDocumentReply(db: Store, new pid: Option<Id>, docId: Id, new r: Reply<()>)
    reads db
  {
    && (docId !in old(db.documents) ==> r == Fail(404, MsgDocNotFound))
    && (docId in old(db.documents) && pid != Some(old(db.documents)[docId].project) ==> r == Fail(400, MsgWrongProject))
    && (docId in old(db.documents) && pid == Some(old(db.documents)[docId].project) ==>
          r == Success(204, ()) && db.documents == old(db.documents) - {docId})
  }

  /**
   * No authorization check beyond the route gate: the handler never compares
   * the caller with the project. `pid` is None when the path segment is not an
   * ObjectId, which `equals` treats as a mismatch.
   */
  method DeleteDocument(db: Store, pid: Option<Id>, docId: Id) returns (r: Reply<()>)
    requires db.Valid()
    modifies db
    ensures db.Valid()
    ensures unchanged(db`users, db`projects, db`nextId)
    ensures r.Fail? ==> unchanged(db)
    ensures DeleteDocumentReply(db, pid, docId, r)
  {
    if docId !in db.documents {
      return Fail(404, MsgDocNotFound);
    }
    if pid != Some(db.documents[docId].project) {
      return Fail(400, MsgWrongProject);
    }
    db.RemoveDocument(docId);
    r := Success(204, ());
  }

  // ---------------------------------------------------------------------------
  // getAvailableUsers

  function MemberIds(l: seq<MemberSummary>): seq<Id> {
    IdsOf(l, (m: MemberSummary) => m.id)
  }

  /** The reply of `getAvailableUsers`: 200 with each lead and developer once, as name, email and role. */
  ghost predicate AvailableReply(db: Store, r: Reply<seq<MemberSummary>>)
    reads db
  {
    && r.Success? && r.code == 200
    && (forall k :: k in MemberIds(r.data) <==> k in db.users && (db.users[k].role == Lead || db.users[k].role == Developer))
    && (forall i :: 0 <= i < |r.data| ==> MemberOf(db.users, r.data[i].id) == Some(r.data[i]))
    && (forall i, j :: 0 <= i < j < |r.data| ==> r.data[i].id != r.data[j].id)
  }

  /** Users whose role is lead or developer, as name, email and role; the source sets no order. */
  method GetAvailableUsers(db: Store) returns (r: Reply<seq<MemberSummary>>)
    requires forall k :: k in db.users ==> k < db.nextId
    ensures AvailableReply(db, r)
  {
    var users := db.users;
    var ids := FindDescending(users, db.nextId, (u: User) => u.role == Lead || u.role == Developer);
    var listed: seq<MemberSummary> := [];
    var i := 0;
    while i < |ids|
      invariant 0 <= i <= |ids|
      invariant |listed| == i
      invariant forall j :: 0 <= j < i ==> listed[j].id == ids[j] && MemberOf(users, ids[j]) == Some(listed[j])
    {
      assert ids[i] in ids;
      listed := listed + [MemberOf(users, ids[i]).value];
      i := i + 1;
    }
    assert MemberIds(listed) == ids;
    r := Success(200, listed);
  }
}
