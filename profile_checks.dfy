/** The pure parts of the vendor profile wizard (frontend/src/pages/profile.jsx):
    the fixed-width format checks, which of them each step applies, which form
    values go into the request, and how a loaded profile becomes the form. */
module ProfileChecks {
  import opened Common
  import opened Js

  // ---------- Fixed-width character-class patterns ----------

  /** The character classes the anchored patterns use. */
  datatype CharClass =
    | Digit                  // \d and [0-9]
    | Upper                  // [A-Z]
    | NonZeroDigitOrUpper    // [1-9A-Z]
    | DigitOrUpper           // [0-9A-Z]
    | Exactly(c: char)       // a literal character

  predicate IsDigit(c: char) { '0' <= c <= '9' }
  predicate IsUpper(c: char) { 'A' <= c <= 'Z' }

  predicate InClass(c: char, k: CharClass)
  {
    match k
    case Digit => IsDigit(c)
    case Upper => IsUpper(c)
    case NonZeroDigitOrUpper => ('1' <= c <= '9') || IsUpper(c)
    case DigitOrUpper => IsDigit(c) || IsUpper(c)
    case Exactly(x) => c == x
  }

  /** `k{n}`. */
  function Repeat(k: CharClass, n: nat): (p: seq<CharClass>)
    ensures |p| == n
    ensures forall i :: 0 <= i < n ==> p[i] == k
  {
    if n == 0 then [] else [k] + Repeat(k, n - 1)
  }

  /** `^p$`: the pattern consumes the text one class per character, from the
      front, and both run out together. */
  predicate Matches(s: string, p: seq<CharClass>)
    decreases p
  {
    if p == [] then s == []
    else s != [] && InClass(s[0], p[0]) && Matches(s[1..], p[1..])
  }

  /** An anchored fixed-width pattern accepts exactly the texts of its length
      whose every character is in the class at the same position. */
  lemma {:induction false} MatchesPointwise(s: string, p: seq<CharClass>)
    ensures Matches(s, p) <==> |s| == |p| && forall i :: 0 <= i < |s| ==> InClass(s[i], p[i])
    decreases p
  {
    if p != [] && s != [] {
      MatchesPointwise(s[1..], p[1..]);
      if |s| == |p| && forall i :: 0 <= i < |s| ==> InClass(s[i], p[i]) {
        forall i | 0 <= i < |s| - 1
          ensures InClass(s[1..][i], p[1..][i])
        {
          assert s[1..][i] == s[i + 1] && p[1..][i] == p[i + 1];
        }
      }
      if Matches(s, p) {
        forall i | 0 <= i < |s|
          ensures InClass(s[i], p[i])
        {
          if i > 0 {
            assert s[1..][i - 1] == s[i] && p[1..][i - 1] == p[i];
          }
        }
      }
    }
  }

  /** Matching a concatenated pattern splits the text at the first pattern's length. */
  lemma MatchesConcat(s: string, p: seq<CharClass>, q: seq<CharClass>)
    ensures Matches(s, p + q) <==> |s| >= |p| && Matches(s[..|p|], p) && Matches(s[|p|..], q)
  {
    MatchesPointwise(s, p + q);
    if |s| >= |p| {
      MatchesPointwise(s[..|p|], p);
      MatchesPointwise(s[|p|..], q);
      if Matches(s[..|p|], p) && Matches(s[|p|..], q) {
        forall i | 0 <= i < |s|
          ensures InClass(s[i], (p + q)[i])
        {
          if i < |p| {
            assert s[..|p|][i] == s[i];
          } else {
            assert s[|p|..][i - |p|] == s[i];
          }
        }
      }
    }
  }

  /** `/^\d{10}$/`. */
  const PhonePattern: seq<CharClass> := Repeat(Digit, 10)
  /** `/^[A-Z]{5}[0-9]{4}[A-Z]{1}$/`. */
  const PanPattern: seq<CharClass> := Repeat(Upper, 5) + Repeat(Digit, 4) + [Upper]
  /** `/^[0-9]{2}[A-Z]{5}[0-9]{4}[A-Z]{1}[1-9A-Z]{1}Z[0-9A-Z]{1}$/`. */
  const GstPattern: seq<CharClass> := Repeat(Digit, 2) + PanPattern + [NonZeroDigitOrUpper, Exactly('Z'), DigitOrUpper]
  /** `/^[A-Z]{1}[0-9]{5}[A-Z]{2}[0-9]{4}[A-Z]{3}[0-9]{6}$/`. */
  const CinPattern: seq<CharClass> :=
    [Upper] + Repeat(Digit, 5) + Repeat(Upper, 2) + Repeat(Digit, 4) + Repeat(Upper, 3) + Repeat(Digit, 6)

  /** A phone number is accepted iff it is exactly ten decimal digits. */
  lemma PhoneShape(s: string)
    ensures Matches(s, PhonePattern) <==> |s| == 10 && forall i :: 0 <= i < 10 ==> IsDigit(s[i])
  {
    MatchesPointwise(s, PhonePattern);
  }

  /** A PAN is accepted iff it is five capitals, four digits and a capital. */
  lemma PanShape(s: string)
    ensures Matches(s, PanPattern) <==>
      && |s| == 10
      && (forall i :: 0 <= i < 5 ==> IsUpper(s[i]))
      && (forall i :: 5 <= i < 9 ==> IsDigit(s[i]))
      && IsUpper(s[9])
  {
    MatchesPointwise(s, PanPattern);
    assert |PanPattern| == 10;
    assert forall i :: 0 <= i < 5 ==> PanPattern[i] == Upper;
    assert forall i :: 5 <= i < 9 ==> PanPattern[i] == Digit;
    assert PanPattern[9] == Upper;
  }

  /** A GST number is accepted iff it is two digits, an accepted PAN, one of
      [1-9A-Z], the letter Z and one of [0-9A-Z]; in particular it has fifteen
      characters and those at positions 2 to 11 form an accepted PAN. */
  lemma GstEmbedsPan(s: string)
    ensures Matches(s, GstPattern) <==>
      && |s| == 15
      && IsDigit(s[0]) && IsDigit(s[1])
      && Matches(s[2..12], PanPattern)
      && InClass(s[12], NonZeroDigitOrUpper) && s[13] == 'Z' && InClass(s[14], DigitOrUpper)
  {
    var digits, tail := Repeat(Digit, 2), [NonZeroDigitOrUpper, Exactly('Z'), DigitOrUpper];
    assert GstPattern == digits + (PanPattern + tail);
    MatchesConcat(s, digits, PanPattern + tail);
    if |s| >= 2 {
      MatchesConcat(s[2..], PanPattern, tail);
      MatchesPointwise(s[..2], digits);
      assert |PanPattern| == 10;
      if |s| >= 12 {
        MatchesPointwise(s[2..][10..], tail);
      }
      if |s| == 15 {
        assert s[2..][..10] == s[2..12];
        assert s[2..][10..] == s[12..];
      }
    }
  }

  /** A CIN is accepted iff it is a capital, five digits, two capitals, four
      digits, three capitals and six digits: 21 characters. */
  lemma CinShape(s: string)
    ensures Matches(s, CinPattern) <==>
      && |s| == 21
      && IsUpper(s[0])
      && (forall i :: 1 <= i < 6 ==> IsDigit(s[i]))
      && (forall i :: 6 <= i < 8 ==> IsUpper(s[i]))
      && (forall i :: 8 <= i < 12 ==> IsDigit(s[i]))
      && (forall i :: 12 <= i < 15 ==> IsUpper(s[i]))
      && (forall i :: 15 <= i < 21 ==> IsDigit(s[i]))
  {
    MatchesPointwise(s, CinPattern);
    var p := CinPattern;
    assert |p| == 21;
    assert p[0] == Upper;
    assert forall i :: 1 <= i < 6 ==> p[i] == Digit;
    assert forall i :: 6 <= i < 8 ==> p[i] == Upper;
    assert forall i :: 8 <= i < 12 ==> p[i] == Digit;
    assert forall i :: 12 <= i < 15 ==> p[i] == Upper;
    assert forall i :: 15 <= i < 21 ==> p[i] == Digit;
  }

  /** A lower-case letter anywhere makes every check fail; the wizard upper-cases
      PAN, GST and CIN as they are typed. */
  lemma LowerCaseRefused(s: string, i: nat, p: seq<CharClass>)
    requires i < |s| && 'a' <= s[i] <= 'z'
    requires forall j :: 0 <= j < |p| ==> p[j] != Exactly(s[i])
    ensures !Matches(s, p)
  {
    MatchesPointwise(s, p);
  }

  // ---------- Which check each step applies ----------

  const PhoneMessage := "Phone number must be exactly 10 digits"
  const PanMessage := "Invalid PAN No."
  const GstMessage := "Invalid GST No."
  const CinMessage := "Invalid CIN"

  /** `pattern.test(value)` for the values the form holds. A string is tested
      as it is; every other value is treated as refused. */
  predicate Passes(v: Option<JsValue>, p: seq<CharClass>)
  {
    v.Some? && v.value.Str? && Matches(v.value.s, p)
  }

  /** The form field `key` is set and fails the pattern. */
  predicate Fails(form: map<string, JsValue>, key: string, p: seq<CharClass>)
  {
    Truthy(Lookup(form, key)) && !Passes(Lookup(form, key), p)
  }

  /** The message of the first check that fails on `step`, or None when saving
      may proceed. Step 1 checks the phone; step 2 checks PAN, then GST, then
      CIN; no other step checks anything. */
  function StepError(step: int, form: map<string, JsValue>): (e: Option<string>)
    ensures e.Some? ==> step == 1 || step == 2
    ensures step == 1 ==> (e.Some? <==> Fails(form, "phone", PhonePattern))
    ensures step == 2 ==> (e.Some? <==>
      Fails(form, "panNumber", PanPattern) || Fails(form, "gstNumber", GstPattern) || Fails(form, "cin", CinPattern))
    ensures step == 2 && Fails(form, "panNumber", PanPattern) ==> e == Some(PanMessage)
  {
    if step == 1 && Fails(form, "phone", PhonePattern) then Some(PhoneMessage)
    else if step == 2 && Fails(form, "panNumber", PanPattern) then Some(PanMessage)
    else if step == 2 && Fails(form, "gstNumber", GstPattern) then Some(GstMessage)
    else if step == 2 && Fails(form, "cin", CinPattern) then Some(CinMessage)
    else None
  }

  /** An empty or missing value is never checked: the phone on step 1 and the
      identifiers on step 2 may be left blank. */
  lemma BlankFieldsPass(form: map<string, JsValue>)
    requires forall key :: key in form && key in {"phone", "panNumber", "gstNumber", "cin"} ==> form[key] == Str("")
    ensures StepError(1, form) == None && StepError(2, form) == None
  {
    assert !Truthy(Lookup(form, "phone")) && !Truthy(Lookup(form, "panNumber"));
    assert !Truthy(Lookup(form, "gstNumber")) && !Truthy(Lookup(form, "cin"));
  }

  /** A check on one step never blocks another: step 1 reads only the phone,
      step 2 never reads it. */
  lemma StepsReadTheirOwnFields(form: map<string, JsValue>, key: string, v: JsValue)
    ensures key != "phone" ==> StepError(1, form[key := v]) == StepError(1, form)
    ensures key == "phone" ==> StepError(2, form[key := v]) == StepError(2, form)
  {
    assert key != "phone" ==> Lookup(form[key := v], "phone") == Lookup(form, "phone");
    if key == "phone" {
      assert Lookup(form[key := v], "panNumber") == Lookup(form, "panNumber");
      assert Lookup(form[key := v], "gstNumber") == Lookup(form, "gstNumber");
      assert Lookup(form[key := v], "cin") == Lookup(form, "cin");
    }
  }

  // ---------- The request body ----------

  /** The values `FormData.append` receives: files, strings and numbers. */
  predicate IsSendable(v: JsValue)
  {
    v.File? || v.Str? || v.Num?
  }

  /** The form entries that go into the request. */
  function Sendable(form: map<string, JsValue>): (fd: map<string, JsValue>)
    ensures forall k :: k in fd <==> k in form && IsSendable(form[k])
    ensures forall k :: k in fd ==> fd[k] == form[k]
  {
    map k | k in form && IsSendable(form[k]) :: form[k]
  }

  // ---------- Loading the profile into the form ----------

  /** The keys never copied from a loaded profile into the form. */
  const FileKeys: set<string> := {"panFile", "gstFile", "documents"}

  /** A legacy address object becomes its street, or "" without one. */
  function FlatAddress(a: JsValue): (r: JsValue)
    ensures !IsObjectLike(a) ==> r == a
    ensures IsObjectLike(a) ==> (if Truthy(Member(Some(a), "street")) then Some(r) == Member(Some(a), "street") else r == Str(""))
  {
    if IsObjectLike(a) then
      var street := Member(Some(a), "street");
      if Truthy(street) then street.value else Str("")
    else a
  }

  /** The form built from a loaded profile (`data || {}`): the address
      flattened, and the file keys removed. */
  function LoadedForm(data: Option<map<string, JsValue>>): (form: map<string, JsValue>)
    ensures data.None? ==> form == map[]
    ensures data.Some? ==> forall k :: k in form <==> k in data.value && k !in FileKeys
    ensures data.Some? ==> forall k :: k in form && k != "address" ==> form[k] == data.value[k]
    ensures "address" in form ==> form["address"] == FlatAddress(data.value["address"])
  {
    match data
    case None => map[]
    case Some(d) =>
      map k | k in d && k !in FileKeys :: if k == "address" then FlatAddress(d[k]) else d[k]
  }

  /** A loaded form holds no file slot and no nested address: the address is a
      string whenever the street it came from was. */
  lemma LoadedAddressIsFlat(data: map<string, JsValue>)
    requires "address" in data && data["address"].Obj?
    requires var street := Member(Some(data["address"]), "street"); !Truthy(street) || street.value.Str?
    ensures "address" in LoadedForm(Some(data)) && LoadedForm(Some(data))["address"].Str?
  {
  }

  /** Loading twice changes nothing more than loading once, for profiles whose
      address street is a string. */
  lemma LoadIdempotent(data: map<string, JsValue>)
    requires "address" in data && data["address"].Obj? ==>
      var street := Member(Some(data["address"]), "street"); !Truthy(street) || street.value.Str?
    ensures LoadedForm(Some(LoadedForm(Some(data)))) == LoadedForm(Some(data))
  {
    var once := LoadedForm(Some(data));
    var twice := LoadedForm(Some(once));
    assert forall k :: k in twice ==> twice[k] == once[k] by {
      forall k | k in twice
        ensures twice[k] == once[k]
      {
        if k == "address" {
          assert !IsObjectLike(once[k]);
        }
      }
    }
  }
}
