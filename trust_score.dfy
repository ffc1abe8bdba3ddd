/** The completeness score a vendor earns for the information it has supplied:
    eight guarded additions over the vendor object, clamped to 100
    (backend/utils/trustScore.js). */
module TrustScore {
  import opened Common
  import opened Js

  /** The points of the eight tests, in the order they are made: email,
      company name, GST number, PAN number, full address, bank details,
      both tax documents, verified flag. */
  const Weights: seq<nat> := [10, 10, 20, 10, 10, 20, 20, 20]

  /** The score never exceeds this. */
  const Cap: nat := 100

  /** `address?.street && address?.city && address?.state && address?.pincode`. */
  predicate HasFullAddress(vendor: map<string, JsValue>)
  {
    var address := Lookup(vendor, "address");
    Truthy(Member(address, "street")) && Truthy(Member(address, "city"))
      && Truthy(Member(address, "state")) && Truthy(Member(address, "pincode"))
  }

  /** `bankDetails?.accountNumber && bankDetails?.ifsc`. */
  predicate HasBankDetails(vendor: map<string, JsValue>)
  {
    var bank := Lookup(vendor, "bankDetails");
    Truthy(Member(bank, "accountNumber")) && Truthy(Member(bank, "ifsc"))
  }

  /** `documents?.gstCert && documents?.panCard`. */
  predicate HasTaxDocuments(vendor: map<string, JsValue>)
  {
    var documents := Lookup(vendor, "documents");
    Truthy(Member(documents, "gstCert")) && Truthy(Member(documents, "panCard"))
  }

  /** Which of the eight tests the vendor object passes. Every read is optional:
      a missing, empty or otherwise falsy value only fails its own test. */
  function Criteria(vendor: map<string, JsValue>): (met: seq<bool>)
    ensures |met| == |Weights|
  {
    [ Truthy(Lookup(vendor, "email")),
      Truthy(Lookup(vendor, "companyName")),
      Truthy(Lookup(vendor, "gstNumber")),
      Truthy(Lookup(vendor, "panNumber")),
      HasFullAddress(vendor),
      HasBankDetails(vendor),
      HasTaxDocuments(vendor),
      Truthy(Lookup(vendor, "isVerified")) ]
  }

  /** The sum of all weights. */
  function Total(weights: seq<nat>): nat
  {
    if weights == [] then 0 else weights[0] + Total(weights[1..])
  }

  /** The points a test contributes. */
  function Points(passed: bool, weight: nat): nat
  {
    if passed then weight else 0
  }

  /** The weights of the tests that were passed. */
  function Earned(met: seq<bool>, weights: seq<nat>): (points: nat)
    requires |met| == |weights|
    ensures points <= Total(weights)
  {
    if met == [] then 0 else Points(met[0], weights[0]) + Earned(met[1..], weights[1..])
  }

  /** The unclamped sum. */
  function RawScore(vendor: map<string, JsValue>): nat
  {
    Earned(Criteria(vendor), Weights)
  }

  /** `calculateTrustScore`: the raw sum clamped to 100. */
  function TrustScore(vendor: map<string, JsValue>): (score: nat)
    ensures score <= Cap
    ensures score <= RawScore(vendor)
    ensures RawScore(vendor) <= Cap ==> score == RawScore(vendor)
    ensures Cap <= RawScore(vendor) ==> score == Cap
  {
    if RawScore(vendor) < Cap then RawScore(vendor) else Cap
  }

  /** The eight additions of the source, written out with their constants. */
  function GuardedSum(met: seq<bool>): nat
    requires |met| == 8
  {
    Points(met[0], 10) + Points(met[1], 10) + Points(met[2], 20) + Points(met[3], 10)
    + Points(met[4], 10) + Points(met[5], 20) + Points(met[6], 20) + Points(met[7], 20)
  }

  /** One step of the sum, taken at position k. */
  lemma EarnedFrom(met: seq<bool>, weights: seq<nat>, k: nat)
    requires |met| == |weights| && k < |met|
    ensures Earned(met[k..], weights[k..])
      == Points(met[k], weights[k]) + Earned(met[k + 1..], weights[k + 1..])
  {
    assert met[k..][1..] == met[k + 1..];
    assert weights[k..][1..] == weights[k + 1..];
  }

  /** A sum over eight tests, term by term. */
  lemma {:induction false} EarnedOfEight(met: seq<bool>, weights: seq<nat>)
    requires |met| == 8 && |weights| == 8
    ensures Earned(met, weights)
      == Points(met[0], weights[0]) + Points(met[1], weights[1]) + Points(met[2], weights[2])
       + Points(met[3], weights[3]) + Points(met[4], weights[4]) + Points(met[5], weights[5])
       + Points(met[6], weights[6]) + Points(met[7], weights[7])
  {
    assert met[8..] == [] && weights[8..] == [];
    EarnedFrom(met, weights, 7);
    EarnedFrom(met, weights, 6);
    EarnedFrom(met, weights, 5);
    EarnedFrom(met, weights, 4);
    EarnedFrom(met, weights, 3);
    EarnedFrom(met, weights, 2);
    EarnedFrom(met, weights, 1);
    EarnedFrom(met, weights, 0);
    assert met[0..] == met && weights[0..] == weights;
  }

  /** The weight table and the eight guarded additions agree. */
  lemma RawScoreIsGuardedSum(vendor: map<string, JsValue>)
    ensures RawScore(vendor) == GuardedSum(Criteria(vendor))
  {
    EarnedOfEight(Criteria(vendor), Weights);
    assert Weights[0] == 10 && Weights[1] == 10 && Weights[2] == 20 && Weights[3] == 10;
    assert Weights[4] == 10 && Weights[5] == 20 && Weights[6] == 20 && Weights[7] == 20;
  }

  /** The accumulation of trustScore.js: a local score raised by each test
      that passes, then `Math.min(score, 100)`. */
  method CalculateTrustScore(vendor: map<string, JsValue>) returns (score: nat)
    ensures score == TrustScore(vendor)
  {
    ghost var met := Criteria(vendor);
    score := 0;
    if Truthy(Lookup(vendor, "email")) { score := score + 10; }
    assert score == Points(met[0], 10);
    if Truthy(Lookup(vendor, "companyName")) { score := score + 10; }
    assert score == Points(met[0], 10) + Points(met[1], 10);
    if Truthy(Lookup(vendor, "gstNumber")) { score := score + 20; }
    ghost var sum := Points(met[0], 10) + Points(met[1], 10) + Points(met[2], 20);
    assert score == sum;
    if Truthy(Lookup(vendor, "panNumber")) { score := score + 10; }
    sum := sum + Points(met[3], 10);
    assert score == sum;
    if HasFullAddress(vendor) { score := score + 10; }
    sum := sum + Points(met[4], 10);
    assert score == sum;
    if HasBankDetails(vendor) { score := score + 20; }
    sum := sum + Points(met[5], 20);
    assert score == sum;
    if HasTaxDocuments(vendor) { score := score + 20; }
    sum := sum + Points(met[6], 20);
    assert score == sum;
    if Truthy(Lookup(vendor, "isVerified")) { score := score + 20; }
    sum := sum + Points(met[7], 20);
    assert score == GuardedSum(met);
    if score > 100 { score := 100; }
    ClampedGuardedSum(vendor);
  }

  /** Clamping the written-out sum gives the score. */
  lemma ClampedGuardedSum(vendor: map<string, JsValue>)
    ensures TrustScore(vendor) == if GuardedSum(Criteria(vendor)) > 100 then 100 else GuardedSum(Criteria(vendor))
  {
    RawScoreIsGuardedSum(vendor);
  }

  /** The weights add up to 120, so the clamp is reachable. */
  lemma WeightsTotal()
    ensures Total(Weights) == 120
  {
    assert Weights[1..][1..][1..][1..][1..][1..][1..][1..] == [];
  }

  /** A vendor object with no fields scores 0. */
  lemma EmptyRecordScoresZero()
    ensures TrustScore(map[]) == 0
  {
    RawScoreIsGuardedSum(map[]);
  }

  /** A vendor object holding only a non-empty email scores 10. */
  lemma EmailOnlyScoresTen(email: string)
    requires email != ""
    ensures TrustScore(map["email" := Str(email)]) == 10
  {
    RawScoreIsGuardedSum(map["email" := Str(email)]);
  }

  /** Passing every test gives the raw sum 120, which is clamped to 100. */
  lemma AllTestsPassedScoresHundred(vendor: map<string, JsValue>)
    requires forall i :: 0 <= i < |Weights| ==> Criteria(vendor)[i]
    ensures RawScore(vendor) == 120
    ensures TrustScore(vendor) == Cap
  {
    RawScoreIsGuardedSum(vendor);
    var c := Criteria(vendor);
    assert c[0] && c[1] && c[2] && c[3] && c[4] && c[5] && c[6] && c[7];
  }

  /** A complete vendor object in the shape the score reads: structured address,
      a bankDetails object and the verified flag. */
  function CompleteExample(): map<string, JsValue>
  {
    map[
      "email" := Str("a@b.in"), "companyName" := Str("Acme"),
      "gstNumber" := Str("22ABCDE1234F1Z5"), "panNumber" := Str("ABCDE1234F"),
      "address" := Obj(map["street" := Str("1 Main Rd"), "city" := Str("Pune"),
                           "state" := Str("MH"), "pincode" := Str("411001")]),
      "bankDetails" := Obj(map["accountNumber" := Str("1234"), "ifsc" := Str("SBIN0001")]),
      "documents" := Obj(map["gstCert" := Str("https://g"), "panCard" := Str("https://p")]),
      "isVerified" := Bool(true)]
  }

  /** The worked example: everything set gives 120 raw, 100 after the clamp. */
  lemma CompleteExampleScoresHundred()
    ensures RawScore(CompleteExample()) == 120
    ensures TrustScore(CompleteExample()) == 100
  {
    var v := CompleteExample();
    assert HasFullAddress(v) && HasBankDetails(v) && HasTaxDocuments(v);
    AllTestsPassedScoresHundred(v);
  }

  /** The address test passes only for an object whose four parts are all truthy:
      a flat string address, or one missing part, earns nothing. */
  lemma AddressNeedsFourParts(vendor: map<string, JsValue>)
    ensures HasFullAddress(vendor) <==>
      "address" in vendor && vendor["address"].Obj?
      && Truthy(Lookup(vendor["address"].fields, "street"))
      && Truthy(Lookup(vendor["address"].fields, "city"))
      && Truthy(Lookup(vendor["address"].fields, "state"))
      && Truthy(Lookup(vendor["address"].fields, "pincode"))
    ensures "address" in vendor && vendor["address"].Str? ==> !Criteria(vendor)[4]
  {
  }

  /** Bank points need both parts of a bankDetails object; document points need
      both the GST certificate and the PAN card. */
  lemma BankAndDocumentsNeedBothParts(vendor: map<string, JsValue>)
    ensures HasBankDetails(vendor) <==>
      "bankDetails" in vendor && vendor["bankDetails"].Obj?
      && Truthy(Lookup(vendor["bankDetails"].fields, "accountNumber"))
      && Truthy(Lookup(vendor["bankDetails"].fields, "ifsc"))
    ensures HasTaxDocuments(vendor) <==>
      "documents" in vendor && vendor["documents"].Obj?
      && Truthy(Lookup(vendor["documents"].fields, "gstCert"))
      && Truthy(Lookup(vendor["documents"].fields, "panCard"))
  {
  }

  /** Passing one more test adds exactly that test's weight to the sum. */
  lemma {:induction false} EarnedFlip(a: seq<bool>, b: seq<bool>, weights: seq<nat>, i: nat)
    requires |a| == |b| == |weights| && i < |a|
    requires !a[i] && b[i]
    requires forall j :: 0 <= j < |a| && j != i ==> a[j] == b[j]
    ensures Earned(b, weights) == Earned(a, weights) + weights[i]
  {
    if i == 0 {
      assert a[1..] == b[1..];
    } else {
      EarnedFlip(a[1..], b[1..], weights[1..], i - 1);
    }
  }

  /** Passing more tests never earns less. */
  lemma {:induction false} EarnedMonotone(a: seq<bool>, b: seq<bool>, weights: seq<nat>)
    requires |a| == |b| == |weights|
    requires forall j :: 0 <= j < |a| ==> a[j] ==> b[j]
    ensures Earned(a, weights) <= Earned(b, weights)
  {
    if a != [] {
      EarnedMonotone(a[1..], b[1..], weights[1..]);
    }
  }

  /** Each test adds its own weight: two vendor objects that differ only in
      test i, which the second passes, differ in raw score by Weights[i]. */
  lemma CriterionAddsItsWeight(v: map<string, JsValue>, w: map<string, JsValue>, i: nat)
    requires i < |Weights|
    requires !Criteria(v)[i] && Criteria(w)[i]
    requires forall j :: 0 <= j < |Weights| && j != i ==> Criteria(v)[j] == Criteria(w)[j]
    ensures RawScore(w) == RawScore(v) + Weights[i]
  {
    EarnedFlip(Criteria(v), Criteria(w), Weights, i);
  }

  /** A vendor object that passes every test another one passes scores at least as much. */
  lemma ScoreMonotone(v: map<string, JsValue>, w: map<string, JsValue>)
    requires forall j :: 0 <= j < |Weights| ==> Criteria(v)[j] ==> Criteria(w)[j]
    ensures TrustScore(v) <= TrustScore(w)
  {
    EarnedMonotone(Criteria(v), Criteria(w), Weights);
  }

  /** Filling a field that was missing or empty, all else equal, never lowers the score. */
  lemma FillingFieldNeverLowers(v: map<string, JsValue>, key: string, x: JsValue)
    requires !Truthy(Lookup(v, key))
    ensures TrustScore(v) <= TrustScore(v[key := x])
  {
    var w := v[key := x];
    assert Criteria(v)[4] ==> Criteria(w)[4];
    assert Criteria(v)[5] ==> Criteria(w)[5];
    assert Criteria(v)[6] ==> Criteria(w)[6];
    ScoreMonotone(v, w);
  }

  /** Filling a missing or empty part of a nested object (an address part, a
      bank detail, a document URL), all else equal, never lowers the score. */
  lemma FillingPartNeverLowers(v: map<string, JsValue>, key: string, part: string, x: JsValue)
    requires key in v && v[key].Obj? && !Truthy(Lookup(v[key].fields, part))
    ensures TrustScore(v) <= TrustScore(v[key := Obj(v[key].fields[part := x])])
  {
    var w := v[key := Obj(v[key].fields[part := x])];
    forall k: string, sub: string
      ensures Truthy(Lookup(v, k)) ==> Truthy(Lookup(w, k))
      ensures Truthy(Member(Lookup(v, k), sub)) ==> Truthy(Member(Lookup(w, k), sub))
    {
      if k == key && sub == part {
        assert Member(Lookup(v, k), sub) == Lookup(v[key].fields, part);
      }
    }
    ScoreMonotone(v, w);
  }

  /** The shape of a stored vendor: the address is one string, the bank fields
      sit at the top level (not under bankDetails) and there is no isVerified. */
  predicate StoredShape(vendor: map<string, JsValue>)
  {
    && ("address" in vendor ==> vendor["address"].Str?)
    && "bankDetails" !in vendor
    && "isVerified" !in vendor
  }

  /** A vendor object of the stored shape can never earn the address, bank or
      verified points, so it scores at most 70. */
  lemma StoredShapeScoresAtMostSeventy(vendor: map<string, JsValue>)
    requires StoredShape(vendor)
    ensures TrustScore(vendor) <= 70
  {
    RawScoreIsGuardedSum(vendor);
    assert !Criteria(vendor)[4] && !Criteria(vendor)[5] && !Criteria(vendor)[7];
  }
}
