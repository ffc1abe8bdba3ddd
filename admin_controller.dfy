/** The admin review handlers (backend/controllers/adminController.js): read
    one vendor, set its KYC status, rate it. */
module AdminController {
  import opened Common
  import opened VendorModel

  const RatingOutOfRange: string := "Rating must be between 0 and 5"
  const KycUpdateFailed: string := "Failed to update KYC"

  /** `getVendor`: the record, or not-found. */
  method GetVendor(db: VendorCollection, id: Id) returns (r: Result<Vendor>)
    requires db.Valid()
    ensures id !in db.records <==> r == Err(NotFound(VendorNotFound))
    ensures id in db.records ==> r == Ok(db.records[id])
  {
    var found := db.FindById(id);
    if found.None? {
      return Err(NotFound(VendorNotFound));
    }
    r := Ok(found.value);
  }

  /** The record after `vendor.kycStatus = status`. */
  function WithKycStatus(v: Vendor, status: KycStatus): (w: Vendor)
    ensures w.kycStatus == status
    ensures w.trust == v.trust && w.documents == v.documents && w.text == v.text
    ensures w.id == v.id && w.user == v.user && w.createdAt == v.createdAt
    ensures ValidVendor(v) ==> ValidVendor(w)
  {
    v.(kycStatus := status)
  }

  /** Setting the same status twice gives the same record as setting it once. */
  lemma KycUpdateIdempotent(v: Vendor, status: KycStatus)
    ensures WithKycStatus(WithKycStatus(v, status), status) == WithKycStatus(v, status)
  {
  }

  /** `updateKYC`: not-found for an unknown id; otherwise the requested status is
      assigned and saved. A string outside the enum fails the save's validation
      and is answered with the handler's server error; nothing is written. */
  method UpdateKyc(db: VendorCollection, id: Id, status: string) returns (r: Result<Vendor>)
    requires db.Valid()
    modifies db
    ensures db.Valid()
    ensures id !in old(db.records) ==> r == Err(NotFound(VendorNotFound)) && db.records == old(db.records)
    ensures id in old(db.records) && ParseKycStatus(status).None? ==>
      r == Err(ServerError(KycUpdateFailed)) && db.records == old(db.records)
    ensures id in old(db.records) && ParseKycStatus(status).Some? ==>
      && db.records == old(db.records)[id := WithKycStatus(old(db.records)[id], ParseKycStatus(status).value)]
      && r == Ok(db.records[id])
  {
    var found := db.FindById(id);
    if found.None? {
      return Err(NotFound(VendorNotFound));
    }
    var k := ParseKycStatus(status);
    if k.None? {
      return Err(ServerError(KycUpdateFailed));
    }
    var vendor := WithKycStatus(found.value, k.value);
    db.Save(vendor);
    r := Ok(vendor);
  }

  /** The handler's range guard `rating < 0 || rating > 5`, as written: a
      missing (undefined or null) rating compares false both ways and passes. */
  predicate RatingGuardAsWritten(rating: Option<real>)
  {
    match rating
    case None => true
    case Some(x) => !(x < 0.0 || x > 5.0)
  }

  /** The guard as intended: a rating is present and lies in [0, 5]. */
  predicate RatingAccepted(rating: Option<real>)
  {
    rating.Some? && RatingInRange(rating.value)
  }

  /** A request without a rating gets past the guard as written, though the
      intended check refuses it. */
  lemma MissingRatingPassesGuardAsWritten()
    ensures RatingGuardAsWritten(None) && !RatingAccepted(None)
  {
  }

  /** On every numeric rating the two guards agree, and the bounds 0 and 5 pass. */
  lemma GuardsAgreeOnNumbers(x: real)
    ensures RatingGuardAsWritten(Some(x)) == RatingAccepted(Some(x))
    ensures RatingAccepted(Some(0.0)) && RatingAccepted(Some(5.0))
    ensures x < 0.0 || x > 5.0 ==> !RatingAccepted(Some(x))
  {
  }

  /** The trust object after a rating: the rating, the acting admin, the time. */
  function Rated(rating: real, admin: Id, now: Time): (t: Trust)
    ensures t.rating == rating && t.reviewedBy == Some(admin) && t.reviewedAt == Some(now)
  {
    Trust(rating, Some(admin), Some(now))
  }

  /** `rateVendor`: the range check comes first, so an out-of-range rating is
      refused even for an unknown id; then not-found; then the trust object is
      rewritten and returned exactly as stored. The status is not touched. */
  method RateVendor(db: VendorCollection, id: Id, rating: Option<real>, admin: Caller, now: Time)
    returns (r: Result<Trust>)
    requires db.Valid()
    modifies db
    ensures db.Valid()
    ensures !RatingAccepted(rating) ==> r == Err(BadRequest(RatingOutOfRange)) && db.records == old(db.records)
    ensures RatingAccepted(rating) && id !in old(db.records) ==>
      r == Err(NotFound(VendorNotFound)) && db.records == old(db.records)
    ensures RatingAccepted(rating) && id in old(db.records) ==>
      && db.records == old(db.records)[id := old(db.records)[id].(trust := Rated(rating.value, admin.id, now))]
      && db.records[id].kycStatus == old(db.records)[id].kycStatus
      && r == Ok(db.records[id].trust)
  {
    if !RatingAccepted(rating) {
      return Err(BadRequest(RatingOutOfRange));
    }
    var found := db.FindById(id);
    if found.None? {
      return Err(NotFound(VendorNotFound));
    }
    var vendor := found.value.(trust := Rated(rating.value, admin.id, now));
    db.Save(vendor);
    r := Ok(vendor.trust);
  }
}
