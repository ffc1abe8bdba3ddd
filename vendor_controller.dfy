/** The vendor's own handlers (backend/controllers/vendorController.js): read
    the profile, update it from a multipart form, upload one document. */
module VendorController {
  import opened Common
  import opened VendorModel
  import TrustScore

  const AccessDenied: string := "Access denied"
  const UpdateFailed: string := "Update failed."
  const NoFileReceived: string := "No file received"
  const DocumentUploadFailed: string := "Document upload failed"

  /** The vendor without its password (`.select("-password")`). */
  function WithoutPassword(v: Vendor): (w: Vendor)
    ensures "password" !in w.text
    ensures forall path :: path != "password" ==> Lookup(w.text, path) == Lookup(v.text, path)
    ensures w.(text := v.text) == v
  {
    v.(text := v.text - {"password"})
  }

  /** `getProfile`: only a caller with role "vendor" gets past the guard, which
      comes before the lookup; then not-found, or the record without password. */
  method GetProfile(db: VendorCollection, caller: Caller) returns (r: Result<Vendor>)
    requires db.Valid()
    ensures caller.role != "vendor" ==> r == Err(Forbidden(AccessDenied))
    ensures caller.role == "vendor" && caller.id !in db.records ==> r == Err(NotFound(VendorNotFound))
    ensures caller.role == "vendor" && caller.id in db.records ==> r == Ok(WithoutPassword(db.records[caller.id]))
  {
    if caller.role != "vendor" {
      return Err(Forbidden(AccessDenied));
    }
    var found := db.FindById(caller.id);
    if found.None? {
      return Err(NotFound(VendorNotFound));
    }
    r := Ok(WithoutPassword(found.value));
  }

  /** The thirteen schema fields a vendor may set from the profile form, in
      the order the handler lists them. */
  const ProfileFieldList: seq<string> := [
    "companyName", "description", "gstNumber", "panNumber", "cin",
    "phone", "altPhone", "spocName", "entityType",
    "promoterNames", "address", "accountNumber", "ifsc"]

  /** The profile fields are text paths of the schema; status, trust, email,
      password and role are not among them. */
  lemma ProfileFieldsAreTextPaths()
    ensures forall f :: f in ProfileFieldList ==> f in TextPaths
    ensures forall f :: f in ["kycStatus", "trust", "email", "password", "role", "documents"] ==> f !in ProfileFieldList
  {
  }

  /** The body entries the handler keeps: whitelisted fields that are present. */
  function Whitelisted(body: map<string, string>): (updates: map<string, string>)
    ensures forall f :: f in updates <==> f in body && f in ProfileFieldList
    ensures forall f :: f in updates ==> updates[f] == body[f]
  {
    map f | f in body && f in ProfileFieldList :: body[f]
  }

  /** The `schemaFields.forEach` loop that builds `updates`. */
  method CollectUpdates(body: map<string, string>) returns (updates: map<string, string>)
    ensures updates == Whitelisted(body)
  {
    updates := map[];
    var i := 0;
    while i < |ProfileFieldList|
      invariant 0 <= i <= |ProfileFieldList|
      invariant updates == map f | f in body && f in ProfileFieldList[..i] :: body[f]
    {
      var field := ProfileFieldList[i];
      if field in body {
        updates := updates[field := body[field]];
      }
      assert ProfileFieldList[..i + 1] == ProfileFieldList[..i] + [field];
      i := i + 1;
    }
    assert ProfileFieldList[..i] == ProfileFieldList;
  }

  /** One stored file of the profile form: a `panFile` becomes the PAN card, a
      `gstFile` the GST certificate; any other field name changes nothing. */
  function FileIntoSlot(docs: Documents, file: UploadedFile): Documents
    requires file.stored.Some?
  {
    if file.fieldName == "panFile" then docs.(slots := docs.slots["panCard" := file.stored.value])
    else if file.fieldName == "gstFile" then docs.(slots := docs.slots["gstCert" := file.stored.value])
    else docs
  }

  /** The `for (const file of req.files)` loop: each file is uploaded in turn
      and filed; the first failed upload aborts the request. */
  function FiledDocuments(docs: Documents, files: seq<UploadedFile>): Option<Documents>
    decreases files
  {
    if files == [] then Some(docs)
    else if files[0].stored.None? then None
    else FiledDocuments(FileIntoSlot(docs, files[0]), files[1..])
  }

  /** The URL of the last stored file with the given field name. */
  function LastUpload(files: seq<UploadedFile>, fieldName: string): Option<string>
  {
    if files == [] then None
    else
      var later := LastUpload(files[1..], fieldName);
      if later.Some? then later
      else if files[0].fieldName == fieldName then files[0].stored
      else None
  }

  /** What filing the uploaded files does to the documents object: it fails
      exactly when an upload fails; otherwise the PAN card and GST certificate
      hold the last panFile and gstFile (or stay as they were), and every other
      document and the certifications are kept. */
  lemma {:induction false} FiledDocumentsEffect(docs: Documents, files: seq<UploadedFile>)
    decreases files
    ensures FiledDocuments(docs, files).Some? <==> AllStored(files)
    ensures FiledDocuments(docs, files).Some? ==>
      var d := FiledDocuments(docs, files).value;
      && d.certifications == docs.certifications
      && d.slots.Keys >= docs.slots.Keys
      && (forall kind :: kind != "panCard" && kind != "gstCert" ==> Lookup(d.slots, kind) == Lookup(docs.slots, kind))
      && Lookup(d.slots, "panCard") == (if LastUpload(files, "panFile").Some? then LastUpload(files, "panFile") else Lookup(docs.slots, "panCard"))
      && Lookup(d.slots, "gstCert") == (if LastUpload(files, "gstFile").Some? then LastUpload(files, "gstFile") else Lookup(docs.slots, "gstCert"))
  {
    if files != [] {
      if files[0].stored.None? {
        assert !AllStored(files);
      } else {
        FiledDocumentsEffect(FileIntoSlot(docs, files[0]), files[1..]);
        assert AllStored(files) <==> AllStored(files[1..]) by {
          if AllStored(files[1..]) {
            forall i | 0 <= i < |files| ensures files[i].stored.Some? {
              if i > 0 { assert files[i] == files[1..][i - 1]; }
            }
          }
        }
      }
    }
  }

  /** The upload loop of `updateProfile`, file by file. */
  method UploadProfileFiles(docs: Documents, files: seq<UploadedFile>) returns (result: Option<Documents>)
    ensures result == FiledDocuments(docs, files)
  {
    var current := docs;
    var i := 0;
    while i < |files|
      invariant 0 <= i <= |files|
      invariant FiledDocuments(docs, files) == FiledDocuments(current, files[i..])
    {
      assert files[i..][1..] == files[i + 1..];
      if files[i].stored.None? {
        return None;
      }
      current := FileIntoSlot(current, files[i]);
      i := i + 1;
    }
    result := Some(current);
  }

  /** The record `updateProfile` writes, or None when an upload failed. */
  function ProfileUpdated(v: Vendor, body: map<string, string>, files: seq<UploadedFile>): (r: Option<Vendor>)
    ensures r.Some? <==> AllStored(files)
    ensures r.Some? ==>
      && r.value.kycStatus == v.kycStatus && r.value.trust == v.trust
      && r.value.id == v.id && r.value.user == v.user && r.value.createdAt == v.createdAt
    ensures r.Some? ==> forall f :: f in body && f in ProfileFieldList ==> f in r.value.text && r.value.text[f] == body[f]
    ensures r.Some? ==> forall f :: !(f in body && f in ProfileFieldList) ==> Lookup(r.value.text, f) == Lookup(v.text, f)
    ensures r.Some? && files == [] ==> r.value.documents == v.documents
    ensures r.Some? && files != [] ==> FiledDocuments(v.documents, files) == Some(r.value.documents)
    ensures r.Some? && ValidVendor(v) ==> ValidVendor(r.value)
  {
    FiledDocumentsEffect(v.documents, files);
    ProfileFieldsAreTextPaths();
    match FiledDocuments(v.documents, files)
    case None => None
    case Some(docs) => Some(v.(text := v.text + Whitelisted(body), documents := docs))
  }

  /** `updateProfile`: the caller's record, or not-found; the whitelisted body
      fields and the filed uploads are written with `$set`; an upload that
      throws is answered with a server error and nothing is written. */
  method UpdateProfile(db: VendorCollection, caller: Caller, body: map<string, string>, files: seq<UploadedFile>)
    returns (r: Result<Vendor>)
    requires db.Valid()
    modifies db
    ensures db.Valid()
    ensures caller.id !in old(db.records) ==> r == Err(NotFound(VendorNotFound)) && db.records == old(db.records)
    ensures caller.id in old(db.records) && !AllStored(files) ==>
      r == Err(ServerError(UpdateFailed)) && db.records == old(db.records)
    ensures caller.id in old(db.records) && AllStored(files) ==>
      var updated := ProfileUpdated(old(db.records)[caller.id], body, files).value;
      db.records == old(db.records)[caller.id := updated] && r == Ok(updated)
  {
    var found := db.FindById(caller.id);
    if found.None? {
      return Err(NotFound(VendorNotFound));
    }
    var vendor := found.value;
    var updates := CollectUpdates(body);
    var documents := vendor.documents;
    if |files| > 0 {
      var filed := UploadProfileFiles(documents, files);
      if filed.None? {
        assert ProfileUpdated(vendor, body, files).None?;
        return Err(ServerError(UpdateFailed));
      }
      documents := filed.value;
    }
    var updated := vendor.(text := vendor.text + updates, documents := documents);
    assert Some(updated) == ProfileUpdated(vendor, body, files);
    db.Save(updated);
    r := Ok(updated);
  }

  /** Where an uploaded document goes: type "certification" appends its URL to
      the certifications; any other type (the text "undefined" when the form
      sent none) overwrites that one document. */
  function AddDocument(docs: Documents, kind: string, url: string): (d: Documents)
    ensures kind == "certification" ==> d.certifications == docs.certifications + [url] && d.slots == docs.slots
    ensures kind != "certification" ==>
      d.certifications == docs.certifications && d.slots == docs.slots[kind := url]
    ensures d.slots.Keys >= docs.slots.Keys
  {
    if kind == "certification" then docs.(certifications := docs.certifications + [url])
    else docs.(slots := docs.slots[kind := url])
  }

  /** The record after a document upload: the document filed and the KYC
      status forced back to pending, whatever it was. */
  function DocumentUploaded(v: Vendor, kind: string, url: string): (w: Vendor)
    ensures w.kycStatus == Pending
    ensures w.documents == AddDocument(v.documents, kind, url)
    ensures w.text == v.text && w.trust == v.trust && w.id == v.id && w.user == v.user && w.createdAt == v.createdAt
    ensures ValidVendor(v) ==> ValidVendor(w)
  {
    v.(documents := AddDocument(v.documents, kind, url), kycStatus := Pending)
  }

  /** The answer to a successful upload. */
  datatype UploadAnswer = UploadAnswer(documentUrl: string, trustScore: nat)

  /** `uploadVendorDocument`: a request without a file is refused before the
      lookup; then not-found; a failed upload is a server error; otherwise the
      document is filed, the status reset to pending, and the answer carries the
      URL and the trust score of the updated record. */
  method UploadVendorDocument(db: VendorCollection, caller: Caller, docType: Option<string>, file: Option<UploadedFile>)
    returns (r: Result<UploadAnswer>)
    requires db.Valid()
    modifies db
    ensures db.Valid()
    ensures file.None? ==> r == Err(BadRequest(NoFileReceived)) && db.records == old(db.records)
    ensures file.Some? && caller.id !in old(db.records) ==>
      r == Err(NotFound(VendorNotFound)) && db.records == old(db.records)
    ensures file.Some? && caller.id in old(db.records) && file.value.stored.None? ==>
      r == Err(ServerError(DocumentUploadFailed)) && db.records == old(db.records)
    ensures file.Some? && caller.id in old(db.records) && file.value.stored.Some? ==>
      var url := file.value.stored.value;
      && db.records == old(db.records)[caller.id := DocumentUploaded(old(db.records)[caller.id], docType.GetOr("undefined"), url)]
      && r == Ok(UploadAnswer(url, TrustScore.TrustScore(ScoreView(db.records[caller.id]))))
  {
    if file.None? {
      return Err(BadRequest(NoFileReceived));
    }
    var found := db.FindById(caller.id);
    if found.None? {
      return Err(NotFound(VendorNotFound));
    }
    if file.value.stored.None? {
      return Err(ServerError(DocumentUploadFailed));
    }
    var url := file.value.stored.value;
    var vendor := found.value;
    vendor := vendor.(documents := AddDocument(vendor.documents, docType.GetOr("undefined"), url));
    var trustScore := TrustScore.CalculateTrustScore(ScoreView(vendor));
    ScoreIgnoresKycStatus(vendor, Pending);
    vendor := vendor.(kycStatus := Pending);
    db.Save(vendor);
    r := Ok(UploadAnswer(url, trustScore));
  }
}
