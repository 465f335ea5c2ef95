/**
 * The Document schema: two required user references, three required file
 * strings, the document-type enum defaulting to OTHER, a creation timestamp,
 * and the collection.
 */
module DocumentModel {
  import opened Wrappers
  import opened Ids
  import opened Collections
  import opened Validation
  import UserModel

  datatype DocumentType = PRESCRIPTION | LAB_RESULT | MEDICAL_REPORT | OTHER

  function DocumentTypeName(t: DocumentType): string
  {
    match t
    case PRESCRIPTION => "PRESCRIPTION"
    case LAB_RESULT => "LAB_RESULT"
    case MEDICAL_REPORT => "MEDICAL_REPORT"
    case OTHER => "OTHER"
  }

  function ParseDocumentType(s: string): (r: Option<DocumentType>)
    ensures forall x :: r == Some(x) <==> s == DocumentTypeName(x)
  {
    if s == "PRESCRIPTION" then Some(PRESCRIPTION)
    else if s == "LAB_RESULT" then Some(LAB_RESULT)
    else if s == "MEDICAL_REPORT" then Some(MEDICAL_REPORT)
    else if s == "OTHER" then Some(OTHER)
    else None
  }

  datatype Document = Document(
    id: Id,
    patient: Id,
    uploadedBy: Id,
    fileName: string,
    filePath: string,
    fileType: string,
    documentType: DocumentType,
    createdAt: int)

  predicate ValidDocument(d: Document)
  {
    d.fileName != "" && d.filePath != "" && d.fileType != ""
  }

  /** What a new document is built from; the patient reference comes from the request body as text. */
  datatype Draft = Draft(
    patient: IdArg,
    uploadedBy: Id,
    documentType: Option<string>,
    fileName: string,
    filePath: string,
    fileType: string)

  predicate Fails(d: Draft, p: Path)
  {
    match p
    case PatientPath => !d.patient.Given?
    case FileNamePath => d.fileName == ""
    case FilePathPath => d.filePath == ""
    case FileTypePath => d.fileType == ""
    case DocumentTypePath => d.documentType.Some? && ParseDocumentType(d.documentType.value).None?
    case _ => false
  }

  /** The paths that fail validation, in schema order. */
  function DraftErrors(d: Draft): (errs: seq<Path>)
    ensures forall p :: p in errs <==> Fails(d, p)
    ensures errs == [] <==>
      && !Fails(d, PatientPath) && !Fails(d, FileNamePath) && !Fails(d, FilePathPath)
      && !Fails(d, FileTypePath) && !Fails(d, DocumentTypePath)
  {
    (if Fails(d, PatientPath) then [PatientPath] else [])
    + (if Fails(d, FileNamePath) then [FileNamePath] else [])
    + (if Fails(d, FilePathPath) then [FilePathPath] else [])
    + (if Fails(d, FileTypePath) then [FileTypePath] else [])
    + (if Fails(d, DocumentTypePath) then [DocumentTypePath] else [])
  }

  function Build(d: Draft, id: Id, now: int): (doc: Document)
    requires DraftErrors(d) == []
    ensures ValidDocument(doc)
    ensures doc.id == id && doc.createdAt == now
    ensures doc.patient == d.patient.id && doc.uploadedBy == d.uploadedBy
    ensures doc.fileName == d.fileName && doc.filePath == d.filePath && doc.fileType == d.fileType
    ensures d.documentType.None? ==> doc.documentType == OTHER
    ensures d.documentType.Some? ==> DocumentTypeName(doc.documentType) == d.documentType.value
  {
    Document(
      id, d.patient.id, d.uploadedBy, d.fileName, d.filePath, d.fileType,
      if d.documentType.None? then OTHER else ParseDocumentType(d.documentType.value).value,
      now)
  }

  predicate TableOk(rows: seq<Document>, nextId: nat)
  {
    && (forall i :: 0 <= i < |rows| ==> rows[i].id < nextId && ValidDocument(rows[i]))
    && (forall i, j :: 0 <= i < j < |rows| ==> rows[i].id != rows[j].id)
  }

  /** `Document.findById(id)`, as the position of the record. */
  function IndexOf(rows: seq<Document>, id: Id): (r: Option<nat>)
    ensures r.Some? ==> r.value < |rows| && rows[r.value].id == id
    ensures r.None? <==> forall i :: 0 <= i < |rows| ==> rows[i].id != id
  {
    FirstIndex(rows, (d: Document) => d.id == id)
  }

  /** A document as a read returns it, with its two references left bare or populated. */
  datatype DocumentView = DocumentView(doc: Document, patient: UserModel.Party, uploadedBy: UserModel.Party)

  function Records(items: seq<DocumentView>): (r: seq<Document>)
    ensures |r| == |items| && forall i :: 0 <= i < |r| ==> r[i] == items[i].doc
  {
    seq(|items|, i requires 0 <= i < |items| => items[i].doc)
  }

  datatype SaveResult = Saved(record: Document) | Invalid(paths: seq<Path>)

  class Documents {
    var rows: seq<Document>
    var nextId: nat

    ghost predicate Valid()
      reads this
    {
      TableOk(rows, nextId)
    }

    constructor ()
      ensures Valid() && rows == []
    {
      rows := [];
      nextId := 0;
    }

    /** `new Document(draft).save()`; the timestamp `now` is supplied by the caller. */
    method Save(d: Draft, now: int) returns (r: SaveResult)
      requires Valid()
      modifies this
      ensures Valid()
      ensures DraftErrors(d) != [] ==> r == Invalid(DraftErrors(d)) && unchanged(this)
      ensures DraftErrors(d) == [] ==>
                && r == Saved(Build(d, old(nextId), now))
                && rows == old(rows) + [r.record]
                && nextId == old(nextId) + 1
    {
      var errs := DraftErrors(d);
      if errs != [] {
        return Invalid(errs);
      }
      var doc := Build(d, nextId, now);
      rows := rows + [doc];
      nextId := nextId + 1;
      r := Saved(doc);
    }

    /** `document.deleteOne()` on the record at position `k`. */
    method Delete(k: nat)
      requires Valid() && k < |rows|
      modifies this
      ensures Valid()
      ensures rows == RemoveAt(old(rows), k) && nextId == old(nextId)
    {
      rows := RemoveAt(rows, k);
    }
  }
}
