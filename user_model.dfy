/**
 * The User schema (backend/models/User.js): field setters (trim, lowercase),
 * required fields, the role enum and its default, the password minimum length
 * and the secret excluded from default selection.
 */
module UserModel {

  import opened Wrappers
  import opened Text
  import opened Http

  datatype Role = Admin | Lead | Developer

  function RoleName(r: Role): string {
    match r
    case Admin => "admin"
    case Lead => "lead"
    case Developer => "developer"
  }

  /** The enum validator on `role`. */
  function ParseRole(s: string): (r: Option<Role>)
    ensures r.Some? <==> s == "admin" || s == "lead" || s == "developer"
    ensures r.Some? ==> RoleName(r.value) == s
  {
    if s == "admin" then Some(Admin)
    else if s == "lead" then Some(Lead)
    else if s == "developer" then Some(Developer)
    else None
  }

  datatype ProjectRole = LeadOfProject | Member

  /** The enum validator on `projects[].roleInProject`. */
  function ParseProjectRole(s: string): (r: Option<ProjectRole>)
    ensures r.Some? <==> s == "lead" || s == "member"
    ensures r == Some(LeadOfProject) <==> s == "lead"
  {
    if s == "lead" then Some(LeadOfProject) else if s == "member" then Some(Member) else None
  }

  datatype ProjectLink = ProjectLink(projectId: Option<Id>, roleInProject: Option<ProjectRole>)

  /** A stored user record; `password` holds the stored hash. */
  datatype User = User(
    name: Option<string>,
    email: string,
    password: string,
    role: Role,
    projects: seq<ProjectLink>,
    mfaSecret: Option<string>)

  /** The `trim` then `lowercase` setters on `email`. */
  function NormalizeEmail(e: string): (r: string)
    ensures IsTrimmed(r)
    ensures forall i :: 0 <= i < |r| ==> !IsUpperAscii(r[i])
    ensures r == "" <==> AllSpace(e)
  {
    Lower(Trim(e))
  }

  /** The normalised address is the input with its outer white space cut and its ASCII letters lowered. */
  lemma NormalizeEmailValue(e: string)
    ensures exists i, j ::
      && 0 <= i <= j <= |e| && AllSpace(e[..i]) && AllSpace(e[j..])
      && |NormalizeEmail(e)| == j - i && forall k :: 0 <= k < j - i ==> NormalizeEmail(e)[k] == LowerChar(e[i + k])
  {
    var t := Trim(e);
    var r := NormalizeEmail(e);
    TrimCutsOuterSpace(e);
    var i, j :| 0 <= i <= j <= |e| && t == e[i..j] && AllSpace(e[..i]) && AllSpace(e[j..]);
    forall k | 0 <= k < j - i
      ensures r[k] == LowerChar(e[i + k])
    {
      assert t[k] == e[i + k];
    }
    assert |r| == j - i;
  }

  /** Normalising an already normalised address changes nothing. */
  lemma NormalizeEmailIdempotent(e: string)
    ensures NormalizeEmail(NormalizeEmail(e)) == NormalizeEmail(e)
  {
    var r := NormalizeEmail(e);
    assert Trim(r) == r;
  }

  /** What the email setters leave behind: non-empty, trimmed, no uppercase ASCII letter. */
  predicate IsNormalEmail(e: string) {
    e != "" && IsTrimmed(e) && forall i :: 0 <= i < |e| ==> !IsUpperAscii(e[i])
  }

  /** The normal addresses are exactly the non-empty fixed points of normalisation. */
  lemma NormalEmailIsFixedPoint(e: string)
    ensures IsNormalEmail(e) <==> e != "" && NormalizeEmail(e) == e
  {
    if IsNormalEmail(e) {
      assert Trim(e) == e;
    }
  }

  predicate UserValid(u: User) {
    && (u.name.Some? ==> IsTrimmed(u.name.value))
    && IsNormalEmail(u.email)
    && |u.password| >= 4
  }

  /** The unique index on `email`. */
  predicate EmailsUnique(users: map<Id, User>) {
    forall a, b :: a in users && b in users && users[a].email == users[b].email ==> a == b
  }

  datatype ProjectLinkInput = ProjectLinkInput(projectId: Option<Id>, roleInProject: Option<string>)

  /** The fields handed to the model when a user document is built. */
  datatype UserInput = UserInput(
    name: Option<string>,
    email: Option<string>,
    password: Option<string>,
    role: Option<string>,
    projects: seq<ProjectLinkInput>,
    mfaSecret: Option<string>)

  predicate LinkRoleOk(l: ProjectLinkInput) {
    l.roleInProject.None? || ParseProjectRole(l.roleInProject.value).Some?
  }

  function CastLink(l: ProjectLinkInput): (r: ProjectLink)
    requires LinkRoleOk(l)
    ensures r.projectId == l.projectId
    ensures r.roleInProject.None? <==> l.roleInProject.None?
    ensures r.roleInProject.Some? ==> ParseProjectRole(l.roleInProject.value) == r.roleInProject
  {
    ProjectLink(l.projectId,
      if l.roleInProject.None? then None else ParseProjectRole(l.roleInProject.value))
  }

  predicate LinksOk(links: seq<ProjectLinkInput>) {
    forall k :: 0 <= k < |links| ==> LinkRoleOk(links[k])
  }

  function CastLinks(links: seq<ProjectLinkInput>): (r: seq<ProjectLink>)
    requires LinksOk(links)
    ensures |r| == |links|
    ensures forall k :: 0 <= k < |links| ==> r[k] == CastLink(links[k])
  {
    seq(|links|, k requires 0 <= k < |links| => CastLink(links[k]))
  }

  /** Casting and validation of a new user document: setters, required, minlength, enum, default. */
  function CastUser(input: UserInput): (r: Option<User>)
    ensures r.Some? <==>
      && input.email.Some? && !AllSpace(input.email.value)
      && input.password.Some? && |input.password.value| >= 4
      && (input.role.None? || ParseRole(input.role.value).Some?)
      && LinksOk(input.projects)
    ensures r.Some? ==> UserValid(r.value)
    ensures r.Some? ==> r.value.email == NormalizeEmail(input.email.value)
    ensures r.Some? && input.role.None? ==> r.value.role == Developer
    ensures r.Some? && input.role.Some? ==> RoleName(r.value.role) == input.role.value
    ensures r.Some? ==> r.value.mfaSecret == input.mfaSecret
    ensures r.Some? ==> r.value.name == (if input.name.None? then None else Some(Trim(input.name.value)))
    ensures r.Some? ==> r.value.password == input.password.value
    ensures r.Some? ==> r.value.projects == CastLinks(input.projects)
  {
    if input.email.None? || AllSpace(input.email.value) then None
    else if input.password.None? || |input.password.value| < 4 then None
    else if input.role.Some? && ParseRole(input.role.value).None? then None
    else if !LinksOk(input.projects) then None
    else
      var email := NormalizeEmail(input.email.value);
      assert IsNormalEmail(email);
      var u := User(
        if input.name.None? then None else Some(Trim(input.name.value)),
        email,
        input.password.value,
        if input.role.None? then Developer else ParseRole(input.role.value).value,
        CastLinks(input.projects),
        input.mfaSecret);
      assert UserValid(u);
      Some(u)
  }

  /** A user as the backend hands it on: default selection (no secret), plus its id if it has one. */
  datatype SessionUser = SessionUser(
    id: Option<Id>,
    name: Option<string>,
    email: string,
    password: Option<string>,
    role: Role,
    projects: seq<ProjectLink>)

  /** A query's default projection: every field except `mfaSecret` (`select: false`). */
  function SelectDefault(id: Id, u: User): (s: SessionUser)
    ensures s.id == Some(id) && s.email == u.email && s.role == u.role
    ensures s.password == Some(u.password)
  {
    SessionUser(Some(id), u.name, u.email, Some(u.password), u.role, u.projects)
  }

  /** Default selection forgets the secret and nothing else. */
  lemma SelectForgetsOnlySecret(id: Id, u: User, v: User)
    ensures SelectDefault(id, u) == SelectDefault(id, v) <==> u.(mfaSecret := v.mfaSecret) == v
  {
  }

  /** `user.password = undefined`. */
  function StripPassword(s: SessionUser): (r: SessionUser)
    ensures r.password.None?
    ensures r.(password := s.password) == s
  {
    s.(password := None)
  }

  /** What the handlers read from `req.user`: its `_id` (if any) and its role. */
  datatype Actor = Actor(id: Option<Id>, role: Role)

  function ActorOf(s: SessionUser): Actor {
    Actor(s.id, s.role)
  }
}
