/**
 * The persistence store the handlers run against: three collections held as
 * maps from ids to records, one id counter whose order is the creation order
 * (so "newest first" is descending id order), the `find` query with its
 * sort, `countDocuments`, `findOne` by email and `populate` as record reads.
 */
module Db {

  import opened Wrappers
  import opened Http
  import opened UserModel
  import opened ProjectModel
  import opened DocumentModel

  predicate StrictlyDecreasing(s: seq<Id>) {
    forall i, j :: 0 <= i < j < |s| ==> s[i] > s[j]
  }

  function Elements(s: seq<Id>): set<Id> {
    set x | x in s
  }

  /** A strictly decreasing list has no repeats, so it has as many elements as its set. */
  lemma {:induction false} DecreasingCount(s: seq<Id>)
    requires StrictlyDecreasing(s)
    ensures |Elements(s)| == |s|
  {
    if s != [] {
      var t := s[1..];
      assert StrictlyDecreasing(t) by {
        forall i, j | 0 <= i < j < |t| ensures t[i] > t[j] {
          assert t[i] == s[i + 1] && t[j] == s[j + 1];
        }
      }
      DecreasingCount(t);
      assert s[0] !in t by {
        forall j | 0 <= j < |t| ensures t[j] < s[0] {
          assert t[j] == s[j + 1];
        }
      }
      ElementsOfCons(s);
      assert s[0] !in Elements(t);
    }
  }

  lemma ElementsOfCons(s: seq<Id>)
    requires s != []
    ensures Elements(s) == {s[0]} + Elements(s[1..])
  {
    assert forall x :: x in s <==> x == s[0] || x in s[1..];
  }

  /**
   * `Model.find(filter).sort('-createdAt')` over a collection: the ids of the
   * records that satisfy `keep`, newest first.
   */
  method FindDescending<T>(m: map<Id, T>, bound: nat, keep: T -> bool) returns (ids: seq<Id>)
    requires forall k :: k in m ==> k < bound
    ensures StrictlyDecreasing(ids)
    ensures forall k :: k in ids <==> k in m && keep(m[k])
  {
    ids := [];
    var i := bound;
    while i > 0
      invariant i <= bound
      invariant StrictlyDecreasing(ids)
      invariant forall j :: 0 <= j < |ids| ==> i <= ids[j]
      invariant forall k :: k in ids <==> i <= k && k in m && keep(m[k])
    {
      i := i - 1;
      if i in m && keep(m[i]) {
        ids := ids + [i];
      }
    }
  }

  /** The documents whose `project` reference is `pid`. */
  ghost function DocsOf(docs: map<Id, Document>, pid: Id): set<Id> {
    set d | d in docs && docs[d].project == pid
  }

  /** `Document.countDocuments({ project: pid })`. */
  method CountDocuments(docs: map<Id, Document>, bound: nat, pid: Id) returns (n: nat)
    requires forall k :: k in docs ==> k < bound
    ensures n == |DocsOf(docs, pid)|
  {
    var ids := FindDescending(docs, bound, (d: Document) => d.project == pid);
    DecreasingCount(ids);
    assert Elements(ids) == DocsOf(docs, pid);
    n := |ids|;
  }

  /** `User.findOne({ email })` scanning ids from `i`; the query value is cast by the email setters. */
  function FindEmailFrom(users: map<Id, User>, email: string, i: nat, bound: nat): (r: Option<Id>)
    ensures r.Some? ==> r.value in users && users[r.value].email == email && i <= r.value < bound
    ensures r.None? ==> forall k :: k in users && i <= k < bound ==> users[k].email != email
    decreases bound - i
  {
    if i >= bound then None
    else if i in users && users[i].email == email then Some(i)
    else FindEmailFrom(users, email, i + 1, bound)
  }

  datatype UserSummary = UserSummary(id: Id, name: Option<string>, email: string)

  datatype MemberSummary = MemberSummary(id: Id, name: Option<string>, email: string, role: Role)

  /** `populate(path, 'name email')`: the referenced user's display fields, or null if it is gone. */
  function SummaryOf(users: map<Id, User>, id: Id): (r: Option<UserSummary>)
    ensures r.Some? <==> id in users
    ensures r.Some? ==> r.value.id == id && r.value.email == users[id].email
  {
    if id in users then Some(UserSummary(id, users[id].name, users[id].email)) else None
  }

  /** `populate(path, 'name email role')`. */
  function MemberOf(users: map<Id, User>, id: Id): (r: Option<MemberSummary>)
    ensures r.Some? <==> id in users
    ensures r.Some? ==> r.value.id == id && r.value.role == users[id].role
  {
    if id in users then Some(MemberSummary(id, users[id].name, users[id].email, users[id].role)) else None
  }

  /** A project with `lead` and `team.userId` populated. */
  datatype ProjectView = ProjectView(
    id: Id,
    project: Project,
    lead: Option<UserSummary>,
    team: seq<Option<MemberSummary>>)

  function ViewOf(users: map<Id, User>, id: Id, p: Project): (v: ProjectView)
    ensures v.id == id && v.project == p
    ensures v.lead.Some? <==> p.lead in users
    ensures v.lead.Some? ==> v.lead.value.id == p.lead
    ensures |v.team| == |p.team|
    ensures forall i :: 0 <= i < |p.team| ==> (v.team[i].Some? <==> p.team[i].userId in users)
    ensures forall i :: 0 <= i < |p.team| && v.team[i].Some? ==> v.team[i].value.id == p.team[i].userId
  {
    ProjectView(id, p, SummaryOf(users, p.lead),
      seq(|p.team|, i requires 0 <= i < |p.team| => MemberOf(users, p.team[i].userId)))
  }

  /** A listed document: its JSON (no payload) with `uploadedBy` populated. */
  datatype ListedDocument = ListedDocument(id: Id, doc: DocumentJson, uploader: Option<UserSummary>)

  function ListedDocumentOf(users: map<Id, User>, id: Id, d: Document): (r: ListedDocument)
    ensures r.id == id && WithPayload(r.doc, d.data) == d
    ensures r.uploader == SummaryOf(users, d.uploadedBy)
  {
    ListedDocument(id, ToJSON(d), SummaryOf(users, d.uploadedBy))
  }

  /** The documents that remain after deleting every document of project `pid`. */
  function WithoutProjectDocuments(docs: map<Id, Document>, pid: Id): (r: map<Id, Document>)
    ensures forall d :: d in r ==> d in docs && r[d] == docs[d] && r[d].project != pid
    ensures forall d :: d in docs && docs[d].project != pid ==> d in r
  {
    map d | d in docs && docs[d].project != pid :: docs[d]
  }

  datatype Snapshot = Snapshot(projects: map<Id, Project>, documents: map<Id, Document>)

  class Store {
    var users: map<Id, User>
    var projects: map<Id, Project>
    var documents: map<Id, Document>
    /** The next id to issue; every stored id is smaller. */
    var nextId: nat

    /** Ids come from the counter, records satisfy their schema, emails are unique and every document has one form. */
    ghost predicate Valid()
      reads this
    {
      && (forall k :: k in users ==> k < nextId)
      && (forall k :: k in projects ==> k < nextId)
      && (forall k :: k in documents ==> k < nextId)
      && (forall k :: k in users ==> UserValid(users[k]))
      && EmailsUnique(users)
      && (forall k :: k in projects ==> ProjectValid(projects[k]))
      && (forall k :: k in documents ==> DocumentValid(documents[k]) && HasOneForm(documents[k]))
    }

    constructor ()
      ensures Valid()
      ensures users == map[] && projects == map[] && documents == map[]
    {
      users, projects, documents, nextId := map[], map[], map[], 0;
    }

    /** A new ObjectId: larger than every id issued so far. */
    method FreshId() returns (id: Id)
      requires Valid()
      modifies this`nextId
      ensures Valid()
      ensures id == old(nextId) && nextId == id + 1
      ensures id !in users && id !in projects && id !in documents
    {
      id := nextId;
      nextId := nextId + 1;
    }

    /** `Project.create` of a record that passed its schema: stored under a fresh id. */
    method InsertProject(p: Project) returns (id: Id)
      requires Valid() && ProjectValid(p)
      modifies this
      ensures Valid()
      ensures id == old(nextId) && id !in old(projects)
      ensures projects == old(projects)[id := p]
      ensures unchanged(this`users, this`documents)
    {
      id := FreshId();
      projects := projects[id := p];
    }

    /** `project.save()` of a record that passed its schema. */
    method SaveProject(id: Id, p: Project)
      requires Valid() && id in projects && ProjectValid(p)
      modifies this`projects
      ensures Valid()
      ensures projects == old(projects)[id := p]
    {
      projects := projects[id := p];
    }

    /** `Project.findByIdAndDelete`. */
    method RemoveProject(id: Id)
      requires Valid()
      modifies this`projects
      ensures Valid()
      ensures projects == old(projects) - {id}
    {
      projects := projects - {id};
    }

    /** `Document.create` of a record that passed its schema: stored under a fresh id. */
    method InsertDocument(d: Document) returns (id: Id)
      requires Valid() && DocumentValid(d) && HasOneForm(d)
      modifies this
      ensures Valid()
      ensures id == old(nextId) && id !in old(documents)
      ensures documents == old(documents)[id := d]
      ensures unchanged(this`users, this`projects)
    {
      id := FreshId();
      documents := documents[id := d];
    }

    /** `Document.deleteMany({ project: pid })`. */
    method RemoveDocumentsOf(pid: Id)
      requires Valid()
      modifies this`documents
      ensures Valid()
      ensures documents == WithoutProjectDocuments(old(documents), pid)
    {
      documents := WithoutProjectDocuments(documents, pid);
    }

    /** `Document.findByIdAndDelete`. */
    method RemoveDocument(id: Id)
      requires Valid()
      modifies this`documents
      ensures Valid()
      ensures documents == old(documents) - {id}
    {
      documents := documents - {id};
    }
  }
}
