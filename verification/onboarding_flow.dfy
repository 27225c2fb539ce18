/** The wizard's navigation handlers: "Continue" advances, or on the last step
    re-validates the record and submits it; the submission builds the profile
    update, the first-service row and the certification rows. */
module OnboardingFlow {
  import opened Wrappers
  import opened Text
  import opened Onboarding
  import BookingTypes

  /** The profile update sent when onboarding completes. */
  datatype ProfileUpdates = ProfileUpdates(
    role: Role,
    displayName: string,
    location: string,
    experienceLevel: ExperienceLevel,
    animalTypes: seq<string>,
    serviceCategories: seq<string>,
    contactMethods: ContactMethods,
    phoneNumber: string)

  datatype AbortReason = MissingRequiredFields | NoContactMethod | MissingPhoneNumber

  datatype NextOutcome = Advanced(wizard: Wizard) | Aborted(reason: AbortReason) | Submit(updates: ProfileUpdates)

  /** Role, display name, location and experience level are all set. */
  predicate HasRequiredFields(d: OnboardingData) {
    d.role != NoRole && d.displayName != "" && d.location != "" && d.experienceLevel != NoLevel
  }

  /** The payload, with the fallbacks of the source: the display name falls
      back to the account's full name, then to ""; the experience level to
      'beginner'; location and phone number to "". `fullName` is the signed-in
      user's metadata name, if any. */
  function BuildProfileUpdates(d: OnboardingData, fullName: Option<string>): (r: ProfileUpdates)
    ensures d.displayName != "" ==> r.displayName == d.displayName
    ensures d.displayName == "" ==> r.displayName == OptOr(fullName, "")
    ensures r.experienceLevel != NoLevel
    ensures d.experienceLevel != NoLevel ==> r.experienceLevel == d.experienceLevel
    ensures r.location == d.location
    ensures r.phoneNumber == OptOr(d.phoneNumber, "")
    ensures r.role == d.role && r.contactMethods == d.contactMethods
    ensures r.animalTypes == d.animalTypes && r.serviceCategories == d.serviceCategories
  {
    ProfileUpdates(
      d.role,
      OrElse(d.displayName, OptOr(fullName, "")),
      OrElse(d.location, ""),
      if d.experienceLevel != NoLevel then d.experienceLevel else Beginner,
      d.animalTypes,
      d.serviceCategories,
      d.contactMethods,
      OptOr(d.phoneNumber, ""))
  }

  /** `handleNext`. Before the last step it only advances; on the last step
      it checks, in order, the required fields, some contact method, and a
      phone number when phone or WhatsApp is chosen (the latter untrimmed). */
  function HandleNext(w: Wizard, fullName: Option<string>): (r: NextOutcome)
    ensures w.step != TotalSteps ==> r == Advanced(NextStep(w))
    ensures w.step == TotalSteps ==> !r.Advanced?
    ensures w.step == TotalSteps && !HasRequiredFields(w.data) ==> r == Aborted(MissingRequiredFields)
    ensures w.step == TotalSteps && HasRequiredFields(w.data) && !AnyContact(w.data.contactMethods)
            ==> r == Aborted(NoContactMethod)
    ensures r.Submit? <==>
      w.step == TotalSteps && HasRequiredFields(w.data) && AnyContact(w.data.contactMethods)
      && (NeedsPhone(w.data.contactMethods) ==> w.data.phoneNumber.Some? && w.data.phoneNumber.value != "")
    ensures r.Submit? ==> r.updates == BuildProfileUpdates(w.data, fullName)
  {
    if w.step == TotalSteps then
      var d := w.data;
      if !HasRequiredFields(d) then Aborted(MissingRequiredFields)
      else if !AnyContact(d.contactMethods) then Aborted(NoContactMethod)
      else if NeedsPhone(d.contactMethods) && OptOr(d.phoneNumber, "") == "" then Aborted(MissingPhoneNumber)
      else Submit(BuildProfileUpdates(d, fullName))
    else Advanced(NextStep(w))
  }

  /** Once the checks pass, none of the payload's fallbacks is used: the
      payload carries the record's own values. */
  lemma SubmittedPayloadHasNoFallbacks(w: Wizard, fullName: Option<string>)
    requires HandleNext(w, fullName).Submit?
    ensures var u := HandleNext(w, fullName).updates;
      u.displayName == w.data.displayName && u.location == w.data.location
      && u.experienceLevel == w.data.experienceLevel
      && (NeedsPhone(w.data.contactMethods) ==> u.phoneNumber == w.data.phoneNumber.value)
  {
  }

  /** The flow's phone check does not trim: a whitespace-only number passes
      it although the step-5 completion predicate rejects it. */
  lemma BlankPhonePassesFlowCheck(w: Wizard, fullName: Option<string>)
    requires w.step == TotalSteps && HasRequiredFields(w.data)
    requires w.data.contactMethods == NoContactMethods.(phone := true)
    requires w.data.phoneNumber == Some("  ")
    ensures HandleNext(w, fullName).Submit?
    ensures !IsStepComplete(w.data, 5)
  {
    assert IsSpace("  "[0]) && IsSpace("  "[1]);
  }

  /** Whenever the last step's completion predicate holds (the Continue button
      is enabled), the flow's contact checks pass. */
  lemma StepCompleteImpliesContactChecks(d: OnboardingData)
    requires IsStepComplete(d, 5)
    ensures AnyContact(d.contactMethods)
    ensures NeedsPhone(d.contactMethods) ==> d.phoneNumber.Some? && d.phoneNumber.value != ""
  {
  }

  /** `handlePrev`: the guard repeats the one inside `prevStep`. */
  function HandlePrev(w: Wizard): (r: Wizard)
    ensures r == PrevStep(w)
  {
    if w.step > 1 then PrevStep(w) else w
  }

  /** The row inserted into `services` for the first service. */
  datatype ServiceRow = ServiceRow(
    communicatorId: string, title: string, description: string,
    duration: int, price: int, serviceType: BookingTypes.SessionType, isActive: bool)

  /** The row inserted into `certifications` per certification. */
  datatype CertRow = CertRow(
    userId: string, name: string, issuer: string, issueDate: string,
    certificateImage: Option<string>, isVerified: bool)

  function CertRowOf(userId: string, c: Certification): (r: CertRow)
    ensures r.userId == userId && r.name == c.name && r.issuer == c.issuer && r.issueDate == c.date
    ensures !r.isVerified
    ensures r.certificateImage.None? <==> c.imageUrl == ""
    ensures r.certificateImage.Some? ==> r.certificateImage.value == c.imageUrl
  {
    CertRow(userId, c.name, c.issuer, c.date, if c.imageUrl != "" then Some(c.imageUrl) else None, false)
  }

  /** `certifications.map(...)`: one row per certification, in order. */
  function CertRows(userId: string, certs: seq<Certification>): (r: seq<CertRow>)
    ensures |r| == |certs|
    ensures forall i | 0 <= i < |certs| :: r[i] == CertRowOf(userId, certs[i])
  {
    if certs == [] then [] else [CertRowOf(userId, certs[0])] + CertRows(userId, certs[1..])
  }

  /** What the submission leaves behind: the rows written, the wizard state and
      the navigation target. */
  datatype Completion = Completion(
    serviceRow: Option<ServiceRow>, certRows: seq<CertRow>, wizard: Wizard, navigateTo: string)

  /** The continuation of a submission. `userId` is the signed-in user;
      `profileSaved` says whether the profile update succeeded. On success the
      first service (when it has a title) and the certifications are written
      and the record is reset; on failure nothing is written and the record
      is kept. Either way the app goes to the dashboard. */
  function Finish(w: Wizard, userId: Option<string>, profileSaved: bool): (r: Completion)
    ensures r.navigateTo == "/dashboard"
    ensures !profileSaved ==> r.wizard == w && r.serviceRow.None? && r.certRows == []
    ensures profileSaved ==> r.wizard == CompleteOnboarding(w)
    ensures r.serviceRow.Some? <==>
      profileSaved && userId.Some? && w.data.firstService.Some? && w.data.firstService.value.title != ""
    ensures r.serviceRow.Some? ==>
      var s := w.data.firstService.value;
      r.serviceRow.value == ServiceRow(userId.value, s.title, s.description, s.duration, s.price,
                                       BookingTypes.ClassifyTitle(s.title), true)
    ensures profileSaved && userId.Some? ==> r.certRows == CertRows(userId.value, w.data.certifications)
    ensures userId.None? ==> r.certRows == []
  {
    if !profileSaved then Completion(None, [], w, "/dashboard")
    else
      var d := w.data;
      var service :=
        if d.firstService.Some? && d.firstService.value.title != "" && userId.Some? then
          var s := d.firstService.value;
          Some(ServiceRow(userId.value, s.title, s.description, s.duration, s.price,
                          BookingTypes.ClassifyTitle(s.title), true))
        else None;
      var certs := if |d.certifications| > 0 && userId.Some? then CertRows(userId.value, d.certifications) else [];
      Completion(service, certs, CompleteOnboarding(w), "/dashboard")
  }
}
