/** A vendor as the listing pages receive it from the API: only the paths
    they read, each possibly absent. */
module VendorView {
  import opened Common

  datatype TrustView = TrustView(rating: Option<real>)

  datatype Listed = Listed(
    name: Option<string>,
    companyName: Option<string>,
    kycStatus: Option<string>,
    trust: Option<TrustView>)

  /** `v.trust?.rating || 0`: a missing trust, a missing rating and a zero
      rating all count as 0. */
  function SortRating(v: Listed): (r: real)
    ensures v.trust.None? || v.trust.value.rating.None? ==> r == 0.0
    ensures v.trust.Some? && v.trust.value.rating.Some? ==> r == v.trust.value.rating.value
  {
    match v.trust
    case None => 0.0
    case Some(t) => t.rating.GetOr(0.0)
  }

  /** `v.kycStatus === status`. */
  predicate HasStatus(v: Listed, status: string)
  {
    v.kycStatus == Some(status)
  }
}
