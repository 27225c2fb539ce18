/** The authentication hook: the profile-completeness predicate that every
    route guard consults, the normalisation applied to credentials before they
    reach the auth service, and the profile-update guard. The auth service and
    the database are not modelled; their answers are parameters. */
module Auth {
  import opened Wrappers
  import opened Text
  import opened Dict
  import Onboarding
  import OnboardingFlow

  /** A JSON value as stored in a `jsonb` column. Numbers are integers here;
      NaN is not modelled. */
  datatype Json =
    | JNull
    | JBool(b: bool)
    | JNumber(n: int)
    | JString(s: string)
    | JArray(items: seq<Json>)
    | JObject(fields: seq<Entry<Json>>)

  /** The profile row as read from the `profiles` table. Text columns may be
      NULL, hence `Option`; only the columns the hook inspects or the
      onboarding writes are kept. */
  datatype Profile = Profile(
    id: string,
    email: string,
    fullName: string,
    displayName: Option<string>,
    role: Option<string>,
    location: Option<string>,
    experienceLevel: Option<string>,
    phoneNumber: Option<string>,
    animalTypes: Option<seq<string>>,
    serviceCategories: Option<seq<string>>,
    contactMethods: Option<Json>)

  /** A required column counts as missing when it is NULL, empty or only
      white space (`!value || value.trim() === ''`). */
  predicate Missing(o: Option<string>) {
    o.None? || Blank(o.value)
  }

  /** `Object.values(v)` of an object or array; other values have none. */
  function JsonValues(v: Json): seq<Json> {
    match v
    case JArray(items) => items
    case JObject(fields) => Values(fields)
    case _ => []
  }

  /** `values.some(method => method === true)`. */
  function SomeTrue(vs: seq<Json>): (r: bool)
    ensures r <==> JBool(true) in vs
  {
    if vs == [] then false
    else vs[0] == JBool(true) || SomeTrue(vs[1..])
  }

  /** `cm && typeof cm === 'object' && Object.values(cm).some(m => m === true)`:
      NULL is falsy, and only arrays and objects have values. */
  function HasContactMethods(cm: Option<Json>): (r: bool)
    ensures r <==> cm.Some? && (cm.value.JObject? || cm.value.JArray?) && JBool(true) in JsonValues(cm.value)
  {
    match cm
    case None => false
    case Some(v) => (v.JObject? || v.JArray?) && SomeTrue(JsonValues(v))
  }

  /** `.filter(([_, value]) => missing).map(([key]) => key)`. */
  function MissingKeys(es: seq<Entry<Option<string>>>): (r: seq<string>)
    ensures |r| <= |es|
    ensures |r| == 0 <==> forall i | 0 <= i < |es| :: !Missing(es[i].value)
  {
    if es == [] then []
    else
      var rest := MissingKeys(es[1..]);
      assert forall i | 1 <= i < |es| :: es[i] == es[1..][i - 1];
      (if Missing(es[0].value) then [es[0].key] else []) + rest
  }

  /** The keys of the required columns that are missing, in the order the
      source lists them. */
  function MissingFields(p: Profile): (r: seq<string>)
    ensures |r| == 0 <==> !Missing(p.role) && !Missing(p.displayName)
                          && !Missing(p.location) && !Missing(p.experienceLevel)
  {
    var required := [
      Entry("role", p.role), Entry("display_name", p.displayName),
      Entry("location", p.location), Entry("experience_level", p.experienceLevel)];
    assert required[0].value == p.role && required[1].value == p.displayName;
    assert required[2].value == p.location && required[3].value == p.experienceLevel;
    MissingKeys(required)
  }

  /** `isProfileComplete`: false while loading or without a profile; otherwise
      true iff none of role, display name, location and experience level is
      missing and some contact-method value is exactly `true` (a truthy
      non-boolean such as `"yes"` does not count). */
  function IsProfileComplete(profile: Option<Profile>, loading: bool): (r: bool)
    ensures r <==>
      profile.Some? && !loading
      && !Missing(profile.value.role) && !Missing(profile.value.displayName)
      && !Missing(profile.value.location) && !Missing(profile.value.experienceLevel)
      && HasContactMethods(profile.value.contactMethods)
  {
    if profile.None? || loading then false
    else
      var p := profile.value;
      var missing := MissingFields(p);
      |missing| == 0 && p.location != Some("") && HasContactMethods(p.contactMethods)
  }

  /** A contact-method map whose values are truthy strings and numbers, but
      never the boolean `true`, leaves the profile incomplete. */
  lemma TruthyContactValuesDoNotCount(p: Profile, loading: bool)
    requires p.contactMethods == Some(JObject([Entry("email", JString("true")), Entry("phone", JNumber(1))]))
    ensures !IsProfileComplete(Some(p), loading)
  {
    var vs := JsonValues(p.contactMethods.value);
    assert vs == [JString("true"), JNumber(1)];
  }

  /** The row `createProfile` inserts right after sign-up. */
  function NewProfile(userId: string, email: string, fullName: string): (r: Profile)
    ensures r.id == userId && r.email == email && r.fullName == fullName
    ensures r.displayName == Some(fullName) && r.role == Some("communicator")
    ensures r.location == Some("") && r.contactMethods == Some(JObject([]))
  {
    Profile(userId, email, fullName, Some(fullName), Some("communicator"), Some(""),
            Some("beginner"), None, Some([]), Some([]), Some(JObject([])))
  }

  /** A freshly created profile has an empty location and no contact methods,
      so it is never complete: every new account goes through onboarding. */
  lemma NewProfileNeverComplete(userId: string, email: string, fullName: string, loading: bool)
    ensures !IsProfileComplete(Some(NewProfile(userId, email, fullName)), loading)
  {
    assert Blank("");
  }

  function RoleName(r: Onboarding.Role): string {
    match r
    case NoRole => ""
    case Communicator => "communicator"
    case Parent => "parent"
  }

  function LevelName(l: Onboarding.ExperienceLevel): string {
    match l
    case NoLevel => ""
    case Beginner => "beginner"
    case Intermediate => "intermediate"
    case Expert => "expert"
  }

  /** The onboarding's contact-method flags as the JSON object it stores. */
  function ContactJson(cm: Onboarding.ContactMethods): (r: Json)
    ensures r.JObject?
    ensures JBool(true) in JsonValues(r) <==> Onboarding.AnyContact(cm)
  {
    var r := JObject([
      Entry("email", JBool(cm.email)), Entry("phone", JBool(cm.phone)),
      Entry("whatsapp", JBool(cm.whatsapp)), Entry("video", JBool(cm.video)),
      Entry("inPerson", JBool(cm.inPerson))]);
    assert JsonValues(r) == [JBool(cm.email), JBool(cm.phone), JBool(cm.whatsapp), JBool(cm.video), JBool(cm.inPerson)];
    r
  }

  /** The row after the database applies the onboarding's profile update. */
  function ApplyUpdates(p: Profile, u: OnboardingFlow.ProfileUpdates): (r: Profile)
    ensures r.id == p.id && r.email == p.email && r.fullName == p.fullName
    ensures r.displayName == Some(u.displayName) && r.location == Some(u.location)
    ensures r.role == Some(RoleName(u.role)) && r.experienceLevel == Some(LevelName(u.experienceLevel))
    ensures r.contactMethods == Some(ContactJson(u.contactMethods))
  {
    p.(displayName := Some(u.displayName), role := Some(RoleName(u.role)),
       location := Some(u.location), experienceLevel := Some(LevelName(u.experienceLevel)),
       phoneNumber := Some(u.phoneNumber), animalTypes := Some(u.animalTypes),
       serviceCategories := Some(u.serviceCategories), contactMethods := Some(ContactJson(u.contactMethods)))
  }

  /** A profile written by a successful onboarding submission is complete iff
      the display name and the location are not only white space: the wizard
      checks them for emptiness without trimming, the hook trims. */
  lemma {:induction false} SubmittedProfileComplete(w: Onboarding.Wizard, fullName: Option<string>, p: Profile)
    requires OnboardingFlow.HandleNext(w, fullName).Submit?
    ensures var u := OnboardingFlow.HandleNext(w, fullName).updates;
      (IsProfileComplete(Some(ApplyUpdates(p, u)), false)
       <==> !Blank(w.data.displayName) && !Blank(w.data.location))
  {
    var u := OnboardingFlow.HandleNext(w, fullName).updates;
    OnboardingFlow.SubmittedPayloadHasNoFallbacks(w, fullName);
    UpdatedProfileComplete(p, u);
  }

  /** An update with a role, a level and some contact method completes the
      profile iff its display name and location are not blank. */
  lemma UpdatedProfileComplete(p: Profile, u: OnboardingFlow.ProfileUpdates)
    requires u.role != Onboarding.NoRole && u.experienceLevel != Onboarding.NoLevel
    requires Onboarding.AnyContact(u.contactMethods)
    ensures IsProfileComplete(Some(ApplyUpdates(p, u)), false)
        <==> !Blank(u.displayName) && !Blank(u.location)
  {
    NamesNotBlank(u.role, u.experienceLevel);
  }

  lemma NamesNotBlank(r: Onboarding.Role, l: Onboarding.ExperienceLevel)
    requires r != Onboarding.NoRole && l != Onboarding.NoLevel
    ensures !Blank(RoleName(r)) && !Blank(LevelName(l))
  {
    assert !IsSpace(RoleName(r)[0]);
    assert !IsSpace(LevelName(l)[0]);
  }

  /** A display name of two spaces passes every onboarding check, yet the
      stored profile stays incomplete, so the guards send the user back to
      onboarding. */
  lemma BlankDisplayNameStaysIncomplete(w: Onboarding.Wizard, fullName: Option<string>, p: Profile)
    requires OnboardingFlow.HandleNext(w, fullName).Submit?
    requires w.data.displayName == "  "
    ensures !IsProfileComplete(Some(ApplyUpdates(p, OnboardingFlow.HandleNext(w, fullName).updates)), false)
  {
    TwoSpacesBlank();
    SubmittedProfileComplete(w, fullName, p);
  }

  lemma TwoSpacesBlank()
    ensures Blank("  ")
  {
    assert IsSpace("  "[0]) && IsSpace("  "[1]);
  }

  /** `email.trim().toLowerCase()`. */
  function NormaliseEmail(e: string): (r: string)
    ensures |r| <= |e|
    ensures forall i | 0 <= i < |r| :: !('A' <= r[i] <= 'Z')
    ensures r == [] || (!IsSpace(r[0]) && !IsSpace(r[|r| - 1]))
    ensures |r| == |Trim(e)| && forall i | 0 <= i < |r| :: r[i] == LowerChar(Trim(e)[i])
  {
    var t := Trim(e);
    ToLowerKeepsSpaces(t);
    ToLower(t)
  }

  /** Trimming a string that neither starts nor ends with white space leaves
      it unchanged. */
  lemma TrimUntrimmable(s: string)
    requires s == [] || (!IsSpace(s[0]) && !IsSpace(s[|s| - 1]))
    ensures Trim(s) == s
  {
    assert TrimOffset(s) == 0;
    assert s == [] || SkipSpacesBack(s, 0, |s|) == |s|;
  }

  lemma LowerCharSpace(c: char)
    ensures IsSpace(LowerChar(c)) <==> IsSpace(c)
  {
    if 'A' <= c <= 'Z' {
      assert !IsSpace(c) && !IsSpace(LowerChar(c));
    }
  }

  lemma {:induction false} SkipSpacesLower(s: string, i: nat)
    requires i <= |s|
    ensures SkipSpaces(ToLower(s), i) == SkipSpaces(s, i)
    decreases |s| - i
  {
    if i < |s| {
      LowerCharSpace(s[i]);
      if IsSpace(s[i]) {
        SkipSpacesLower(s, i + 1);
      }
    }
  }

  lemma {:induction false} SkipSpacesBackLower(s: string, lo: nat, j: nat)
    requires lo <= j <= |s|
    ensures SkipSpacesBack(ToLower(s), lo, j) == SkipSpacesBack(s, lo, j)
    decreases j - lo
  {
    if lo < j {
      LowerCharSpace(s[j - 1]);
      if IsSpace(s[j - 1]) {
        SkipSpacesBackLower(s, lo, j - 1);
      }
    }
  }

  /** Normalisation is idempotent. */
  lemma NormaliseEmailIdempotent(e: string)
    ensures NormaliseEmail(NormaliseEmail(e)) == NormaliseEmail(e)
  {
    var t := Trim(e);
    var r := ToLower(t);
    assert r == NormaliseEmail(e);
    TrimUntrimmable(r);
    calc {
      NormaliseEmail(r);
      ToLower(Trim(r));
      { assert Trim(r) == r; }
      ToLower(ToLower(t));
      { ToLowerIdempotent(t); }
      r;
    }
  }

  /** Normalisation ignores ASCII letter case: two spellings of one address
      that differ only in case reach the service as one. */
  lemma NormaliseEmailIgnoresCase(e: string)
    ensures NormaliseEmail(ToLower(e)) == NormaliseEmail(e)
  {
    TrimLower(e);
    ToLowerIdempotent(Trim(e));
  }

  /** Trimming and lower-casing commute. */
  lemma TrimLower(e: string)
    ensures Trim(ToLower(e)) == ToLower(Trim(e))
  {
    SkipSpacesLower(e, 0);
    var i := TrimOffset(e);
    SkipSpacesBackLower(e, i, |e|);
    ToLowerSlice(e, i, SkipSpacesBack(e, i, |e|));
  }

  lemma ToLowerSlice(s: string, i: nat, j: nat)
    requires i <= j <= |s|
    ensures ToLower(s)[i..j] == ToLower(s[i..j])
  {
  }



  /** What `signIn` sends to the auth service. */
  datatype Credentials = Credentials(email: string, password: string)

  /** What `signUp` sends: the metadata name is trimmed as well. */
  datatype SignUpRequest = SignUpRequest(email: string, password: string, fullName: string)

  function SignInRequest(email: string, password: string): (r: Credentials)
    ensures r.email == NormaliseEmail(email) && r.password == password
  {
    Credentials(NormaliseEmail(email), password)
  }

  function SignUpPayload(email: string, password: string, fullName: string): (r: SignUpRequest)
    ensures r.email == NormaliseEmail(email) && r.password == password
    ensures r.fullName == Trim(fullName)
  {
    SignUpRequest(NormaliseEmail(email), password, Trim(fullName))
  }

  /** The hook's state. */
  datatype AuthState = AuthState(user: Option<string>, profile: Option<Profile>, loading: bool, error: Option<string>)

  /** `updateProfile(updates)`. Without a signed-in user it throws
      "No user logged in" before touching any state. Otherwise `db` is the
      database's answer: a stored row becomes the profile; a failure becomes
      the hook's error (its message when it is an `Error`, `None` here when it
      is not) and the profile is kept. */
  function UpdateProfile(s: AuthState, db: Result<Profile, Option<string>>): (r: (AuthState, Result<Profile, string>))
    ensures s.user.None? ==> r == (s, Failure("No user logged in"))
    ensures s.user.Some? && db.Success? ==> r == (s.(profile := Some(db.value)), Success(db.value))
    ensures s.user.Some? && db.Failure? ==>
      r.0 == s.(error := Some(db.error.GetOr("Profile update failed"))) && r.1.Failure?
  {
    if s.user.None? then (s, Failure("No user logged in"))
    else match db
      case Success(p) => (s.(profile := Some(p)), Success(p))
      case Failure(e) => (s.(error := Some(e.GetOr("Profile update failed"))), Failure(e.GetOr("Profile update failed")))
  }
}
