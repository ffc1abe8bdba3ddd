/** The stored vendor record (backend/models/Vendor.js) and the collection that
    holds it. The schema is declarative: it becomes a datatype, the defaults a
    constructor function and the validators a validity predicate. */
module VendorModel {
  import opened Common
  import opened Js
  import TrustScore

  /** The message of every handler's 404 for a missing vendor. */
  const VendorNotFound: string := "Vendor not found"

  /** The `kycStatus` enum. */
  datatype KycStatus = Pending | Approved | Rejected

  /** The string stored for a status. */
  function KycName(k: KycStatus): string
  {
    match k
    case Pending => "pending"
    case Approved => "approved"
    case Rejected => "rejected"
  }

  /** The enum validator: which strings name a status. */
  function ParseKycStatus(s: string): (k: Option<KycStatus>)
    ensures k.Some? ==> KycName(k.value) == s
    ensures k.None? ==> forall status: KycStatus :: KycName(status) != s
  {
    if s == "pending" then Some(Pending)
    else if s == "approved" then Some(Approved)
    else if s == "rejected" then Some(Rejected)
    else None
  }

  /** The admin's review: a rating in [0, 5], who gave it and when. */
  datatype Trust = Trust(rating: real, reviewedBy: Option<Id>, reviewedAt: Option<Time>)

  /** The documents object: URLs by document kind, and the certification URLs. */
  datatype Documents = Documents(slots: map<string, string>, certifications: seq<string>)

  /** The document kinds the schema declares, each defaulting to "". */
  const DeclaredSlots: set<string> := {"gstCert", "panCard", "license"}

  /** The String paths of the schema. `address` is one string, and the bank
      fields sit at the top level: there is no bankDetails and no isVerified. */
  const TextPaths: set<string> := {
    "name", "email", "password", "companyName", "description", "gstNumber",
    "panNumber", "cin", "phone", "altPhone", "spocName", "entityType",
    "promoterNames", "address", "accountNumber", "ifsc", "role"}

  /** A vendor document. `user` is the required reference to its login;
      `text` holds the String paths that are set (an absent key is undefined). */
  datatype Vendor = Vendor(
    id: Id,
    user: Id,
    text: map<string, string>,
    documents: Documents,
    kycStatus: KycStatus,
    trust: Trust,
    createdAt: Time)

  /** The min/max validators on `trust.rating`. */
  predicate RatingInRange(rating: real)
  {
    0.0 <= rating <= 5.0
  }

  /** What every stored vendor satisfies: only schema text paths, the declared
      document kinds present, the rating within its bounds. */
  predicate ValidVendor(v: Vendor)
  {
    && v.text.Keys <= TextPaths
    && DeclaredSlots <= v.documents.slots.Keys
    && RatingInRange(v.trust.rating)
  }

  /** The documents object a new vendor gets. */
  function DefaultDocuments(): (d: Documents)
    ensures d.slots.Keys == DeclaredSlots
    ensures forall kind :: kind in d.slots ==> d.slots[kind] == ""
    ensures d.certifications == []
  {
    Documents(map["gstCert" := "", "panCard" := "", "license" := ""], [])
  }

  /** A vendor as the schema creates it from the given text paths: every
      default applied (pending KYC, rating 0, empty documents, role "vendor"
      unless one is given, creation time now). */
  function NewVendor(id: Id, user: Id, text: map<string, string>, now: Time): (v: Vendor)
    requires text.Keys <= TextPaths
    ensures ValidVendor(v)
    ensures v.id == id && v.user == user && v.createdAt == now
    ensures v.kycStatus == Pending
    ensures v.trust == Trust(0.0, None, None)
    ensures v.documents == DefaultDocuments()
    ensures "role" in v.text && v.text["role"] == (if "role" in text then text["role"] else "vendor")
    ensures forall path :: path in text ==> path in v.text && v.text[path] == text[path]
    ensures v.text.Keys == text.Keys + {"role"}
  {
    var role := if "role" in text then text["role"] else "vendor";
    Vendor(id, user, text["role" := role], DefaultDocuments(), Pending, Trust(0.0, None, None), now)
  }

  /** The text paths as string values. */
  function TextObject(text: map<string, string>): (o: map<string, JsValue>)
    ensures o.Keys == text.Keys
    ensures forall path :: path in text ==> o[path] == Str(text[path])
  {
    map path | path in text :: Str(text[path])
  }

  /** The documents object as a JavaScript object. */
  function DocumentsObject(d: Documents): JsValue
  {
    var slots := map kind | kind in d.slots :: Str(d.slots[kind]);
    var certifications := seq(|d.certifications|, i requires 0 <= i < |d.certifications| => Str(d.certifications[i]));
    Obj(slots["certifications" := Arr(certifications)])
  }

  /** The vendor document as a JavaScript object, the way the score function
      reads it: text paths as strings, the documents object, the status and the
      trust object. */
  function ScoreView(v: Vendor): (o: map<string, JsValue>)
    requires ValidVendor(v)
    ensures TrustScore.StoredShape(o)
    ensures "email" in v.text ==> "email" in o && o["email"] == Str(v.text["email"])
  {
    var text := TextObject(v.text);
    assert "bankDetails" !in TextPaths && "isVerified" !in TextPaths;
    var withDocuments := text["documents" := DocumentsObject(v.documents)];
    var withStatus := withDocuments["kycStatus" := Str(KycName(v.kycStatus))];
    withStatus["trust" := Obj(map["rating" := Num(v.trust.rating)])]
  }

  /** A stored vendor never earns the structured-address, bank-details or
      verified points, so its trust score is at most 70. */
  lemma StoredVendorScoresAtMostSeventy(v: Vendor)
    requires ValidVendor(v)
    ensures TrustScore.TrustScore(ScoreView(v)) <= 70
  {
    TrustScore.StoredShapeScoresAtMostSeventy(ScoreView(v));
  }

  /** The score does not read the KYC status. */
  lemma ScoreIgnoresKycStatus(v: Vendor, k: KycStatus)
    requires ValidVendor(v)
    ensures ValidVendor(v.(kycStatus := k))
    ensures TrustScore.TrustScore(ScoreView(v.(kycStatus := k))) == TrustScore.TrustScore(ScoreView(v))
  {
    var a, b := ScoreView(v), ScoreView(v.(kycStatus := k));
    assert TrustScore.Criteria(a) == TrustScore.Criteria(b);
  }

  /** The vendors collection: the records by id. Each request finds a record,
      changes its copy and saves it back; requests run one after another. */
  class VendorCollection {
    var records: map<Id, Vendor>

    /** Every record is stored under its own id and satisfies the schema. */
    ghost predicate Valid()
      reads this
    {
      forall id :: id in records ==> records[id].id == id && ValidVendor(records[id])
    }

    constructor ()
      ensures Valid() && records == map[]
    {
      records := map[];
    }

    /** `Vendor.findById`. */
    method FindById(id: Id) returns (found: Option<Vendor>)
      requires Valid()
      ensures found.Some? <==> id in records
      ensures found.Some? ==> found.value == records[id] && found.value.id == id && ValidVendor(found.value)
    {
      if id in records {
        found := Some(records[id]);
      } else {
        found := None;
      }
    }

    /** `vendor.save()` (and `findByIdAndUpdate` with `$set`) on a record that exists. */
    method Save(v: Vendor)
      requires Valid() && v.id in records && ValidVendor(v)
      modifies this
      ensures Valid()
      ensures records == old(records)[v.id := v]
    {
      records := records[v.id := v];
    }
  }
}
