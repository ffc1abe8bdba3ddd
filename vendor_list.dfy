/** The public vendor list (frontend/src/pages/vendorList.jsx): approved
    vendors only, highest rating first, ties in response order. */
module VendorList {
  import opened VendorView

  const ApprovedStatus := "approved"

  /** `.filter(v => v.kycStatus === "approved")`. */
  function Approved(vs: seq<Listed>): (r: seq<Listed>)
    ensures forall i :: 0 <= i < |r| ==> HasStatus(r[i], ApprovedStatus)
    ensures forall v :: multiset(r)[v] == if HasStatus(v, ApprovedStatus) then multiset(vs)[v] else 0
  {
    if vs == [] then []
    else
      assert vs == [vs[0]] + vs[1..];
      if HasStatus(vs[0], ApprovedStatus) then [vs[0]] + Approved(vs[1..]) else Approved(vs[1..])
  }

  /** The filter keeps the response order: filtering a concatenation
      filters each part and keeps the parts in order. */
  lemma {:induction false} ApprovedConcat(a: seq<Listed>, b: seq<Listed>)
    ensures Approved(a + b) == Approved(a) + Approved(b)
  {
    if a != [] {
      assert (a + b)[0] == a[0];
      assert (a + b)[1..] == a[1..] + b;
      ApprovedConcat(a[1..], b);
    } else {
      assert a + b == b;
    }
  }

  /** Non-increasing by rating. */
  predicate SortedDown(s: seq<Listed>)
  {
    forall i, j :: 0 <= i < j < |s| ==> SortRating(s[i]) >= SortRating(s[j])
  }

  /** Places `x` in front of the first element rated no higher than it. */
  function Insert(x: Listed, s: seq<Listed>): seq<Listed>
  {
    if s == [] || SortRating(s[0]) <= SortRating(x) then [x] + s
    else [s[0]] + Insert(x, s[1..])
  }

  /** `.sort((a, b) => rating(b) - rating(a))`, a stable sort: each vendor is
      inserted into the sorted rest of the list. */
  function SortByRating(vs: seq<Listed>): seq<Listed>
  {
    if vs == [] then [] else Insert(vs[0], SortByRating(vs[1..]))
  }

  lemma {:induction false} InsertPermutes(x: Listed, s: seq<Listed>)
    ensures multiset(Insert(x, s)) == multiset(s) + multiset{x}
  {
    if s != [] && SortRating(s[0]) > SortRating(x) {
      InsertPermutes(x, s[1..]);
      assert s == [s[0]] + s[1..];
    }
  }

  lemma {:induction false} InsertKeepsOrder(x: Listed, s: seq<Listed>)
    requires SortedDown(s)
    ensures SortedDown(Insert(x, s))
  {
    if s != [] && SortRating(s[0]) > SortRating(x) {
      InsertKeepsOrder(x, s[1..]);
      InsertPermutes(x, s[1..]);
      var rest := Insert(x, s[1..]);
      forall y | y in rest
        ensures SortRating(s[0]) >= SortRating(y)
      {
        assert y in multiset(rest);
        if y != x {
          assert y in multiset(s[1..]);
        }
      }
      forall i, j | 0 <= i < j < |[s[0]] + rest|
        ensures SortRating(([s[0]] + rest)[i]) >= SortRating(([s[0]] + rest)[j])
      {
        if i == 0 {
          assert ([s[0]] + rest)[j] in rest;
        }
      }
    }
  }

  /** The sorted list holds exactly the vendors it was given. */
  lemma {:induction false} SortPermutes(vs: seq<Listed>)
    ensures multiset(SortByRating(vs)) == multiset(vs)
  {
    if vs != [] {
      SortPermutes(vs[1..]);
      InsertPermutes(vs[0], SortByRating(vs[1..]));
      assert vs == [vs[0]] + vs[1..];
    }
  }

  /** The sorted list is non-increasing by rating. */
  lemma {:induction false} SortOrders(vs: seq<Listed>)
    ensures SortedDown(SortByRating(vs))
  {
    if vs != [] {
      SortOrders(vs[1..]);
      InsertKeepsOrder(vs[0], SortByRating(vs[1..]));
    }
  }

  /** The vendors of `s` rated exactly `k`, in order. */
  function RatedAt(s: seq<Listed>, k: real): (r: seq<Listed>)
    ensures forall i :: 0 <= i < |r| ==> SortRating(r[i]) == k
  {
    if s == [] then []
    else if SortRating(s[0]) == k then [s[0]] + RatedAt(s[1..], k)
    else RatedAt(s[1..], k)
  }

  lemma {:induction false} InsertRatedAt(x: Listed, s: seq<Listed>, k: real)
    ensures RatedAt(Insert(x, s), k) == if SortRating(x) == k then [x] + RatedAt(s, k) else RatedAt(s, k)
  {
    if s != [] && SortRating(s[0]) > SortRating(x) {
      InsertRatedAt(x, s[1..], k);
      assert Insert(x, s)[1..] == Insert(x, s[1..]);
    }
  }

  /** Stability: vendors with equal ratings keep their order. */
  lemma {:induction false} SortIsStable(vs: seq<Listed>, k: real)
    ensures RatedAt(SortByRating(vs), k) == RatedAt(vs, k)
  {
    if vs != [] {
      SortIsStable(vs[1..], k);
      InsertRatedAt(vs[0], SortByRating(vs[1..]), k);
    }
  }

  /** The list the page shows: the approved vendors, rearranged into
      non-increasing rating order. */
  function Displayed(vs: seq<Listed>): (r: seq<Listed>)
    ensures multiset(r) == multiset(Approved(vs))
    ensures SortedDown(r)
  {
    SortPermutes(Approved(vs));
    SortOrders(Approved(vs));
    SortByRating(Approved(vs))
  }

  /** Every approved vendor of the response is shown as often as it occurs
      there, and nothing else is shown. */
  lemma DisplayedArePreciselyTheApproved(vs: seq<Listed>)
    ensures forall v :: multiset(Displayed(vs))[v] == if HasStatus(v, ApprovedStatus) then multiset(vs)[v] else 0
    ensures forall v :: v in Displayed(vs) ==> HasStatus(v, ApprovedStatus)
  {
    SortPermutes(Approved(vs));
    forall v | v in Displayed(vs)
      ensures HasStatus(v, ApprovedStatus)
    {
      assert v in multiset(Displayed(vs));
    }
  }

  /** Filtering by status and picking one rating commute: the approved
      vendors of one rating appear in the order the response has them. */
  lemma {:induction false} ApprovedRatedAtCommute(vs: seq<Listed>, k: real)
    ensures RatedAt(Approved(vs), k) == Approved(RatedAt(vs, k))
  {
    if vs != [] {
      ApprovedRatedAtCommute(vs[1..], k);
    }
  }

  /** The page shows the vendors highest rating first, equal ratings in the
      order the response listed them. */
  lemma DisplayedOrder(vs: seq<Listed>, k: real)
    ensures SortedDown(Displayed(vs))
    ensures RatedAt(Displayed(vs), k) == RatedAt(Approved(vs), k)
    ensures RatedAt(Displayed(vs), k) == Approved(RatedAt(vs, k))
  {
    SortOrders(Approved(vs));
    SortIsStable(Approved(vs), k);
    ApprovedRatedAtCommute(vs, k);
  }

  /** A vendor without a trust record is listed after every vendor with a
      positive rating. */
  lemma UnratedAfterRated(vs: seq<Listed>, i: int, j: int)
    requires 0 <= i < |Displayed(vs)| && 0 <= j < |Displayed(vs)|
    requires Displayed(vs)[i].trust.None?
    requires SortRating(Displayed(vs)[j]) > 0.0
    ensures j < i
  {
    DisplayedOrder(vs, 0.0);
  }
}
