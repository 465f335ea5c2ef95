/**
 * The document handlers: the patient's own list, upload by a doctor, a
 * patient's list read by a doctor, the administrator's list, and deletion.
 */
module DocumentController {
  import opened Wrappers
  import opened Ids
  import opened Collections
  import opened Text
  import opened DocumentModel
  import opened Http
  import UserModel

  const NoFile: string := "Please upload a file"
  const DocumentNotFound: string := "Document not found"
  const Removed: string := "Document removed"

  function CreatedAt(d: Document): int
  {
    d.createdAt
  }

  /** The uploader populated with name and specialty; the patient left as a reference. */
  function UploaderViews(users: seq<UserModel.User>, s: seq<Document>): (r: seq<DocumentView>)
    ensures |r| == |s|
    ensures forall i :: 0 <= i < |s| ==>
      r[i] == DocumentView(s[i], UserModel.Ref(s[i].patient), UserModel.NameSpecialtyOf(users, s[i].uploadedBy))
  {
    seq(|s|, i requires 0 <= i < |s| =>
      DocumentView(s[i], UserModel.Ref(s[i].patient), UserModel.NameSpecialtyOf(users, s[i].uploadedBy)))
  }

  /** Both references populated: the patient with name and email, the uploader with name and specialty. */
  function FullViews(users: seq<UserModel.User>, s: seq<Document>): (r: seq<DocumentView>)
    ensures |r| == |s|
    ensures forall i :: 0 <= i < |s| ==>
      r[i] == DocumentView(s[i], UserModel.NameEmailOf(users, s[i].patient), UserModel.NameSpecialtyOf(users, s[i].uploadedBy))
  {
    seq(|s|, i requires 0 <= i < |s| =>
      DocumentView(s[i], UserModel.NameEmailOf(users, s[i].patient), UserModel.NameSpecialtyOf(users, s[i].uploadedBy)))
  }

  /**
   * `find({ patient }).populate('uploadedBy', 'name specialty').sort({ createdAt: 'desc' })`:
   * exactly the patient's documents, newest first.
   */
  function DocumentsOf(users: seq<UserModel.User>, rows: seq<Document>, patient: Id): (r: seq<DocumentView>)
    ensures SortedDesc(Records(r), CreatedAt)
    ensures forall x {:trigger multiset(Records(r))[x]} ::
      multiset(Records(r))[x] == if x.patient == patient then multiset(rows)[x] else 0
    ensures forall i :: 0 <= i < |r| ==>
      && r[i].doc.patient == patient
      && r[i].uploadedBy == UserModel.NameSpecialtyOf(users, r[i].doc.uploadedBy)
  {
    var theirs := SortDesc(Filter(rows, (d: Document) => d.patient == patient), CreatedAt);
    var views := UploaderViews(users, theirs);
    assert Records(views) == theirs;
    assert forall i :: 0 <= i < |theirs| ==> theirs[i] in multiset(theirs);
    views
  }

  /** `getMyDocuments`: the caller's own documents. */
  function MyDocuments(users: seq<UserModel.User>, rows: seq<Document>, caller: UserModel.SafeUser): (r: Response)
    ensures r.status == 200 && r.body.DocumentList?
    ensures forall x {:trigger multiset(Records(r.body.docs))[x]} ::
      multiset(Records(r.body.docs))[x] == if x.patient == caller.id then multiset(rows)[x] else 0
    ensures SortedDesc(Records(r.body.docs), CreatedAt)
  {
    Response(200, DocumentList(DocumentsOf(users, rows, caller.id)))
  }

  /** `getDocumentsForPatient`: the named patient's documents; a malformed id makes the query throw. */
  function DocumentsForPatient(users: seq<UserModel.User>, rows: seq<Document>, param: string): (r: Response)
    ensures ParseId(param).Malformed? ==> r == Response(500, Text(ServerErrorText))
    ensures ParseId(param).Given? ==>
      && r.status == 200 && r.body.DocumentList?
      && SortedDesc(Records(r.body.docs), CreatedAt)
      && forall x {:trigger multiset(Records(r.body.docs))[x]} ::
           multiset(Records(r.body.docs))[x] == if x.patient == ParseId(param).id then multiset(rows)[x] else 0
  {
    if ParseId(param).Malformed? then Response(500, Text(ServerErrorText))
    else Response(200, DocumentList(DocumentsOf(users, rows, ParseId(param).id)))
  }

  /** `getAllDocuments`: every document, newest first, both references populated. */
  function AllDocuments(users: seq<UserModel.User>, rows: seq<Document>): (r: Response)
    ensures r.status == 200 && r.body.DocumentList?
    ensures SortedDesc(Records(r.body.docs), CreatedAt)
    ensures multiset(Records(r.body.docs)) == multiset(rows)
    ensures forall i :: 0 <= i < |r.body.docs| ==>
      && r.body.docs[i].patient == UserModel.NameEmailOf(users, r.body.docs[i].doc.patient)
      && r.body.docs[i].uploadedBy == UserModel.NameSpecialtyOf(users, r.body.docs[i].doc.uploadedBy)
  {
    var sorted := SortDesc(rows, CreatedAt);
    var views := FullViews(users, sorted);
    assert Records(views) == sorted;
    Response(200, DocumentList(views))
  }

  // ---- uploadDocument

  /** What the upload step leaves in `req.file`. */
  datatype UploadedFile = UploadedFile(originalname: string, path: string, mimetype: string)

  /** The text fields of the multipart body. */
  datatype UploadBody = UploadBody(patient: IdArg, documentType: Option<string>)

  /** The document the handler constructs from the caller, the body and the file. */
  function UploadDraft(caller: UserModel.SafeUser, b: UploadBody, f: UploadedFile): (d: Draft)
    ensures d.uploadedBy == caller.id && d.patient == b.patient && d.documentType == b.documentType
    ensures d.fileName == f.originalname && d.fileType == f.mimetype
    ensures d.filePath == ReplaceBackslashes(f.path) && '\\' !in d.filePath
  {
    Draft(b.patient, caller.id, b.documentType, f.originalname, ReplaceBackslashes(f.path), f.mimetype)
  }

  /** The refusal `uploadDocument` answers with, or `None` when it inserts. */
  function UploadRejection(caller: UserModel.SafeUser, b: UploadBody, file: Option<UploadedFile>): (r: Option<Response>)
    ensures file.None? ==> r == Some(Response(400, Msg(NoFile)))
    ensures file.Some? ==>
      (r.None? <==> DraftErrors(UploadDraft(caller, b, file.value)) == [])
    ensures file.Some? && r.Some? ==>
      r == Some(Response(400, ValidationFailed(DraftErrors(UploadDraft(caller, b, file.value)))))
  {
    if file.None? then Some(Response(400, Msg(NoFile)))
    else
      var errs := DraftErrors(UploadDraft(caller, b, file.value));
      if errs != [] then Some(Response(400, ValidationFailed(errs))) else None
  }

  /** `uploadDocument`: inserts one document and answers with it, the uploader populated. */
  method UploadDocument(users: seq<UserModel.User>, store: Documents, caller: UserModel.SafeUser,
                        b: UploadBody, file: Option<UploadedFile>, now: int)
    returns (resp: Response)
    requires store.Valid()
    modifies store
    ensures store.Valid()
    ensures UploadRejection(caller, b, file).Some? ==>
              resp == UploadRejection(caller, b, file).value && unchanged(store)
    ensures UploadRejection(caller, b, file).None? ==>
              && file.Some?
              && var doc := Build(UploadDraft(caller, b, file.value), old(store.nextId), now);
              && doc.uploadedBy == caller.id && doc.fileName == file.value.originalname
              && doc.fileType == file.value.mimetype && doc.filePath == ReplaceBackslashes(file.value.path)
              && store.rows == old(store.rows) + [doc]
              && resp == Response(201, OneDocument(
                   DocumentView(doc, UserModel.Ref(doc.patient), UserModel.NameSpecialtyOf(users, caller.id))))
  {
    if file.None? {
      return Response(400, Msg(NoFile));
    }
    var saved := store.Save(UploadDraft(caller, b, file.value), now);
    match saved
    case Invalid(errs) =>
      resp := Response(400, ValidationFailed(errs));
    case Saved(doc) =>
      resp := Response(201, OneDocument(
        DocumentView(doc, UserModel.Ref(doc.patient), UserModel.NameSpecialtyOf(users, doc.uploadedBy))));
  }

  // ---- deleteDocument

  /** The refusal `deleteDocument` answers with: a malformed id is reported as not found too. */
  function DeleteRejection(rows: seq<Document>, param: string): (r: Option<Response>)
    ensures r.Some? ==> r == Some(Response(404, Msg(DocumentNotFound)))
    ensures r.None? <==> ParseId(param).Given? && IndexOf(rows, ParseId(param).id).Some?
  {
    if ParseId(param).Malformed? || IndexOf(rows, ParseId(param).id).None? then Some(Response(404, Msg(DocumentNotFound)))
    else None
  }

  /**
   * `deleteDocument`: removes the record. The file unlink runs in the
   * background and its outcome `unlinkOk` is not waited for, so it changes
   * neither the record removal nor the answer.
   */
  method DeleteDocument(store: Documents, param: string, unlinkOk: bool) returns (resp: Response)
    requires store.Valid()
    modifies store
    ensures store.Valid()
    ensures DeleteRejection(old(store.rows), param).Some? ==>
              resp == DeleteRejection(old(store.rows), param).value && unchanged(store)
    ensures DeleteRejection(old(store.rows), param).None? ==>
              && store.rows == RemoveAt(old(store.rows), IndexOf(old(store.rows), ParseId(param).id).value)
              && resp == Response(200, Msg(Removed))
  {
    var rejection := DeleteRejection(store.rows, param);
    if rejection.Some? {
      return rejection.value;
    }
    var k := IndexOf(store.rows, ParseId(param).id).value;
    store.Delete(k);
    resp := Response(200, Msg(Removed));
  }
}
