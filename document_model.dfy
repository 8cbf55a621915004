/**
 * The Document schema (backend/models/Document.js): required project
 * reference, trimmed required name and required uploader; optional binary
 * payload, content type and size for file documents; optional trimmed link
 * for link documents; and the JSON projection that drops the payload.
 */
module DocumentModel {

  import opened Wrappers
  import opened Text
  import opened Http

  datatype Document = Document(
    project: Id,
    name: string,
    data: Option<seq<byte>>,
    contentType: Option<string>,
    size: Option<nat>,
    link: Option<string>,
    uploadedBy: Id)

  predicate DocumentValid(d: Document) {
    && d.name != "" && IsTrimmed(d.name)
    && (d.link.Some? ==> IsTrimmed(d.link.value))
  }

  /** A stored file: payload, content type and its byte count, and no link. */
  predicate IsFileForm(d: Document) {
    && d.data.Some? && d.contentType.Some? && d.size == Some(|d.data.value|)
    && d.link.None?
  }

  /** A stored link: a link and none of the file fields. */
  predicate IsLinkForm(d: Document) {
    d.data.None? && d.contentType.None? && d.size.None? && d.link.Some?
  }

  predicate HasOneForm(d: Document) {
    IsFileForm(d) || IsLinkForm(d)
  }

  lemma FormsExclusive(d: Document)
    ensures !(IsFileForm(d) && IsLinkForm(d))
  {
  }

  /** The fields handed to `Document.create`. */
  datatype DocumentInput = DocumentInput(
    project: Option<Id>,
    name: Option<string>,
    data: Option<seq<byte>>,
    contentType: Option<string>,
    size: Option<nat>,
    link: Option<string>,
    uploadedBy: Option<Id>)

  /** Casting and validation: trim setters, then the three required fields. */
  function CastDocument(i: DocumentInput): (r: Option<Document>)
    ensures r.Some? <==> i.project.Some? && i.name.Some? && !AllSpace(i.name.value) && i.uploadedBy.Some?
    ensures r.Some? ==> DocumentValid(r.value)
    ensures r.Some? ==> r.value.project == i.project.value && r.value.uploadedBy == i.uploadedBy.value
    ensures r.Some? ==> r.value.name == Trim(i.name.value)
    ensures r.Some? ==> r.value.data == i.data && r.value.contentType == i.contentType && r.value.size == i.size
    ensures r.Some? ==> r.value.link == (if i.link.None? then None else Some(Trim(i.link.value)))
  {
    if i.project.None? || i.name.None? || AllSpace(i.name.value) || i.uploadedBy.None? then None
    else
      Some(Document(
        i.project.value,
        Trim(i.name.value),
        i.data,
        i.contentType,
        i.size,
        if i.link.None? then None else Some(Trim(i.link.value)),
        i.uploadedBy.value))
  }

  /** A document as `toJSON` and `select('-data')` present it: everything except the payload. */
  datatype DocumentJson = DocumentJson(
    project: Id,
    name: string,
    contentType: Option<string>,
    size: Option<nat>,
    link: Option<string>,
    uploadedBy: Id)

  function WithPayload(j: DocumentJson, data: Option<seq<byte>>): Document {
    Document(j.project, j.name, data, j.contentType, j.size, j.link, j.uploadedBy)
  }

  /** `documentSchema.methods.toJSON`: the record with `data` removed; the stored record is a value, so untouched. */
  function ToJSON(d: Document): (j: DocumentJson)
    ensures WithPayload(j, d.data) == d
  {
    DocumentJson(d.project, d.name, d.contentType, d.size, d.link, d.uploadedBy)
  }

  /** Two documents have the same JSON exactly when they differ at most in their payload. */
  lemma ToJSONForgetsOnlyPayload(d: Document, e: Document)
    ensures ToJSON(d) == ToJSON(e) <==> d.(data := e.data) == e
  {
  }
}
