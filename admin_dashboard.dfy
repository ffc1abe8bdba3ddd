/** The admin dashboard (frontend/src/admin/dashboard.jsx): the search over the
    fetched vendors, the status counts and the star row of each vendor. */
module AdminDashboard {
  import opened Common
  import opened VendorView

  // ---------- Text search ----------

  /** `toLowerCase` on ASCII letters. */
  function LowerChar(c: char): (d: char)
    ensures 'A' <= c <= 'Z' ==> d as int == c as int + 32
    ensures !('A' <= c <= 'Z') ==> d == c
  {
    if 'A' <= c <= 'Z' then (c as int + 32) as char else c
  }

  function Lower(s: string): (t: string)
    ensures |t| == |s|
    ensures forall i :: 0 <= i < |s| ==> t[i] == LowerChar(s[i])
  {
    if s == [] then [] else [LowerChar(s[0])] + Lower(s[1..])
  }

  /** Lowering twice is lowering once. */
  lemma LowerIdempotent(s: string)
    ensures Lower(Lower(s)) == Lower(s)
  {
  }

  /** `s.includes(t)`: `t` starts somewhere in `s`. */
  predicate Includes(s: string, t: string)
    decreases |s|
  {
    (|t| <= |s| && s[..|t|] == t) || (s != [] && Includes(s[1..], t))
  }

  /** `t` occurs in `s` starting at position `i`. */
  predicate OccursAt(s: string, t: string, i: int)
  {
    0 <= i && i + |t| <= |s| && s[i..i + |t|] == t
  }

  /** `includes` holds iff `t` occurs at some position of `s`. */
  lemma {:induction false} IncludesIff(s: string, t: string)
    ensures Includes(s, t) <==> exists i :: OccursAt(s, t, i)
    decreases |s|
  {
    if s == [] {
      if exists i :: OccursAt(s, t, i) {
        var i :| OccursAt(s, t, i);
        assert i == 0 && t == [];
      }
      if Includes(s, t) {
        assert OccursAt(s, t, 0);
      }
    } else {
      IncludesIff(s[1..], t);
      if exists i :: OccursAt(s, t, i) {
        var i :| OccursAt(s, t, i);
        if i > 0 {
          assert s[1..][i - 1..i - 1 + |t|] == s[i..i + |t|];
          assert OccursAt(s[1..], t, i - 1);
        } else {
          assert s[..|t|] == t;
        }
      }
      if Includes(s[1..], t) {
        var i :| OccursAt(s[1..], t, i);
        assert s[i + 1..i + 1 + |t|] == s[1..][i..i + |t|];
        assert OccursAt(s, t, i + 1);
      }
      if |t| <= |s| && s[..|t|] == t {
        assert OccursAt(s, t, 0);
      }
    }
  }

  /** Every text includes the empty text. */
  lemma IncludesEmpty(s: string)
    ensures Includes(s, "")
  {
    assert s[..0] == "";
  }

  /** `v.x?.toLowerCase().includes(term.toLowerCase())` for a missing or text `x`. */
  predicate FieldMatches(x: Option<string>, term: string)
  {
    x.Some? && Includes(Lower(x.value), Lower(term))
  }

  /** The search keeps a vendor whose name or company name contains the term,
      case aside. */
  predicate MatchesSearch(v: Listed, term: string)
  {
    FieldMatches(v.name, term) || FieldMatches(v.companyName, term)
  }

  /** `vendors.filter(...)`. */
  function Filtered(vs: seq<Listed>, term: string): (r: seq<Listed>)
    ensures |r| <= |vs|
    ensures forall v :: v in r <==> v in vs && MatchesSearch(v, term)
    ensures forall v :: multiset(r)[v] == if MatchesSearch(v, term) then multiset(vs)[v] else 0
  {
    if vs == [] then []
    else
      assert vs == [vs[0]] + vs[1..];
      if MatchesSearch(vs[0], term) then [vs[0]] + Filtered(vs[1..], term)
      else Filtered(vs[1..], term)
  }

  /** `a` is `b` with some elements left out, the rest in their order. */
  predicate SubsequenceOf(a: seq<Listed>, b: seq<Listed>)
    decreases |b|
  {
    if a == [] then true
    else if b == [] then false
    else if a[0] == b[0] then SubsequenceOf(a[1..], b[1..])
    else SubsequenceOf(a, b[1..])
  }

  /** The filtered list keeps the fetched order. */
  lemma {:induction false} FilteredKeepsOrder(vs: seq<Listed>, term: string)
    ensures SubsequenceOf(Filtered(vs, term), vs)
  {
    if vs != [] {
      FilteredKeepsOrder(vs[1..], term);
      if !MatchesSearch(vs[0], term) {
        var r := Filtered(vs[1..], term);
        if r != [] {
          assert r[0] in r;
        }
      }
    }
  }

  /** A vendor without a name and a company name is never listed, even for an
      empty search. */
  lemma NamelessNeverListed(vs: seq<Listed>, v: Listed, term: string)
    requires v.name.None? && v.companyName.None?
    ensures v !in Filtered(vs, term)
  {
  }

  /** With an empty search every vendor with a name or a company name is listed. */
  lemma EmptySearchListsNamed(vs: seq<Listed>, v: Listed)
    requires v in vs && (v.name.Some? || v.companyName.Some?)
    ensures v in Filtered(vs, "")
  {
    if v.name.Some? {
      IncludesEmpty(Lower(v.name.value));
    } else {
      IncludesEmpty(Lower(v.companyName.value));
    }
  }

  /** The search ignores the case of the term. */
  lemma SearchIgnoresCase(vs: seq<Listed>, term: string)
    ensures Filtered(vs, Lower(term)) == Filtered(vs, term)
  {
    LowerIdempotent(term);
    assert forall v :: MatchesSearch(v, Lower(term)) == MatchesSearch(v, term);
  }

  // ---------- Status counts ----------

  /** `vendors.filter(v => v.kycStatus === status).length`. */
  function CountStatus(vs: seq<Listed>, status: string): (n: nat)
    ensures n <= |vs|
    ensures n == 0 <==> forall i :: 0 <= i < |vs| ==> !HasStatus(vs[i], status)
    ensures n == |vs| <==> forall i :: 0 <= i < |vs| ==> HasStatus(vs[i], status)
  {
    if vs == [] then 0
    else (if HasStatus(vs[0], status) then 1 else 0) + CountStatus(vs[1..], status)
  }

  /** One vendor counts once under its own status and not at all under any other. */
  lemma CountSingle(v: Listed, status: string)
    ensures CountStatus([v], status) == if HasStatus(v, status) then 1 else 0
  {
    assert [v][1..] == [];
  }

  /** Counts add up over a concatenation. */
  lemma {:induction false} CountConcat(a: seq<Listed>, b: seq<Listed>, status: string)
    ensures CountStatus(a + b, status) == CountStatus(a, status) + CountStatus(b, status)
  {
    if a != [] {
      assert (a + b)[0] == a[0];
      assert (a + b)[1..] == a[1..] + b;
      CountConcat(a[1..], b, status);
    } else {
      assert a + b == b;
    }
  }

  /** The three stat cards, always taken over the whole fetched list. */
  datatype Stats = Stats(total: nat, pending: nat, approved: nat)

  function StatsOf(vs: seq<Listed>): (s: Stats)
    ensures s.total == |vs|
    ensures s.pending == CountStatus(vs, "pending") && s.approved == CountStatus(vs, "approved")
    ensures s.pending + s.approved <= s.total
  {
    CountsDisjoint(vs, "pending", "approved");
    Stats(|vs|, CountStatus(vs, "pending"), CountStatus(vs, "approved"))
  }

  /** No vendor is counted under two different statuses. */
  lemma {:induction false} CountsDisjoint(vs: seq<Listed>, a: string, b: string)
    requires a != b
    ensures CountStatus(vs, a) + CountStatus(vs, b) <= |vs|
  {
    if vs != [] {
      CountsDisjoint(vs[1..], a, b);
    }
  }

  /** Filtering never raises a count: the cards may show more than the table. */
  lemma {:induction false} FilterLowersCounts(vs: seq<Listed>, term: string, status: string)
    ensures CountStatus(Filtered(vs, term), status) <= CountStatus(vs, status)
  {
    if vs != [] {
      FilterLowersCounts(vs[1..], term, status);
    }
  }

  // ---------- Star row ----------

  /** The rating column: None is the "Unrated" label, otherwise five stars,
      star `s` (1 to 5) at index `s - 1`, filled iff `s <= rating`. The page
      reads `v.trust.rating`, so it needs the trust record. */
  function StarRow(t: TrustView): (row: Option<seq<bool>>)
    ensures row.None? <==> t.rating.None? || t.rating.value <= 0.0
    ensures row.Some? ==> |row.value| == 5 && forall i :: 0 <= i < 5 ==> (row.value[i] <==> (i + 1) as real <= t.rating.value)
  {
    match t.rating
    case None => None
    case Some(r) =>
      if r <= 0.0 then None
      else Some(seq(5, i requires 0 <= i < 5 => (i + 1) as real <= r))
  }

  /** The filled stars come first. */
  lemma FilledStarsFirst(t: TrustView, i: int, j: int)
    requires StarRow(t).Some? && 0 <= i < j < 5 && StarRow(t).value[j]
    ensures StarRow(t).value[i]
  {
    var row := StarRow(t).value;
    assert row[j] <==> (j + 1) as real <= t.rating.value;
    assert row[i] <==> (i + 1) as real <= t.rating.value;
  }

  /** A rating strictly between 0 and 1 shows five empty stars, not "Unrated". */
  lemma SmallRatingShowsEmptyStars(r: real)
    requires 0.0 < r < 1.0
    ensures StarRow(TrustView(Some(r))) == Some([false, false, false, false, false])
  {
    var row := StarRow(TrustView(Some(r))).value;
    forall i | 0 <= i < 5
      ensures !row[i]
    {
      assert row[i] <==> (i + 1) as real <= r;
    }
    assert row == [false, false, false, false, false];
  }
}
