/**
 * The Project schema (backend/models/Project.js): trimmed required name and
 * description, required deadline, the status enum with default `active`, a
 * required lead reference and a possibly empty team of `{userId}` entries.
 */
module ProjectModel {

  import opened Wrappers
  import opened Text
  import opened Http

  datatype Status = Active | Completed

  function StatusName(s: Status): string {
    match s
    case Active => "active"
    case Completed => "completed"
  }

  /** The enum validator on `status`. */
  function ParseStatus(s: string): (r: Option<Status>)
    ensures r.Some? <==> s == "active" || s == "completed"
    ensures r.Some? ==> StatusName(r.value) == s
  {
    if s == "active" then Some(Active) else if s == "completed" then Some(Completed) else None
  }

  /** Status names are distinct and parse back to their status. */
  lemma StatusRoundTrip(s: Status)
    ensures ParseStatus(StatusName(s)) == Some(s)
    ensures forall t :: StatusName(t) == StatusName(s) ==> t == s
  {
  }

  /** One team membership record; the schema imposes no uniqueness across entries. */
  datatype TeamEntry = TeamEntry(userId: Id)

  /**
   * A stored project. The deadline is kept as the text the client sent: the
   * cast to a date is not part of this model.
   */
  datatype Project = Project(
    name: string,
    description: string,
    deadline: string,
    status: Status,
    lead: Id,
    team: seq<TeamEntry>)

  predicate ProjectValid(p: Project) {
    && p.name != "" && IsTrimmed(p.name)
    && p.description != "" && IsTrimmed(p.description)
    && p.deadline != ""
  }

  /** The values a handler assigns before the document is validated (on create or save). */
  datatype ProjectDraft = ProjectDraft(
    name: string,
    description: string,
    deadline: string,
    status: Option<string>,
    lead: Id,
    team: Option<seq<TeamEntry>>)

  /** Casting and validation: trim setters, required checks after trimming, enum, defaults. */
  function CastProject(d: ProjectDraft): (r: Option<Project>)
    ensures r.Some? <==>
      && !AllSpace(d.name) && !AllSpace(d.description) && d.deadline != ""
      && (d.status.None? || ParseStatus(d.status.value).Some?)
    ensures r.Some? ==> ProjectValid(r.value)
    ensures r.Some? ==> r.value.name == Trim(d.name) && r.value.description == Trim(d.description)
    ensures r.Some? ==> r.value.deadline == d.deadline && r.value.lead == d.lead
    ensures r.Some? ==> r.value.team == d.team.GetOr([])
    ensures r.Some? && d.status.None? ==> r.value.status == Active
    ensures r.Some? && d.status.Some? ==> StatusName(r.value.status) == d.status.value
  {
    if AllSpace(d.name) || AllSpace(d.description) || d.deadline == "" then None
    else if d.status.Some? && ParseStatus(d.status.value).None? then None
    else
      Some(Project(
        Trim(d.name),
        Trim(d.description),
        d.deadline,
        if d.status.None? then Active else ParseStatus(d.status.value).value,
        d.lead,
        d.team.GetOr([])))
  }

  /** The draft of a loaded project that nobody has changed. */
  function DraftOf(p: Project): ProjectDraft {
    ProjectDraft(p.name, p.description, p.deadline, Some(StatusName(p.status)), p.lead, Some(p.team))
  }

  /** Saving a valid project without changes stores it as it was. */
  lemma ResaveIsIdentity(p: Project)
    requires ProjectValid(p)
    ensures CastProject(DraftOf(p)) == Some(p)
  {
    assert !AllSpace(p.name) by { assert !IsSpace(p.name[0]); }
    assert !AllSpace(p.description) by { assert !IsSpace(p.description[0]); }
    assert ParseStatus(StatusName(p.status)) == Some(p.status) by {
      match p.status
      case Active =>
      case Completed =>
    }
  }
}
