/** The onboarding wizard: a step cursor over five profile steps, the partial
    profile record the steps fill in, the merge update every step uses, the
    per-step completion predicates, the skip rule and the reset. */
module Onboarding {
  import opened Wrappers
  import opened Text
  import opened Dict

  const TotalSteps := 5

  /** `role: 'communicator' | 'parent' | ''`; `NoRole` is the empty string. */
  datatype Role = NoRole | Communicator | Parent

  /** `experienceLevel: 'beginner' | 'intermediate' | 'expert' | ''`. */
  datatype ExperienceLevel = NoLevel | Beginner | Intermediate | Expert

  datatype Service = Service(id: string, title: string, duration: int, price: int, description: string)

  datatype Certification = Certification(
    id: string, name: string, issuer: string, date: string, imageUrl: string, verified: bool)

  datatype ContactMethod = Email | Phone | WhatsApp | Video | InPerson

  /** The five contact flags, in the key order of the source object. */
  datatype ContactMethods = ContactMethods(email: bool, phone: bool, whatsapp: bool, video: bool, inPerson: bool)

  const NoContactMethods := ContactMethods(false, false, false, false, false)

  /** `contactMethods[m]`. */
  function Flag(cm: ContactMethods, m: ContactMethod): bool {
    match m
    case Email => cm.email
    case Phone => cm.phone
    case WhatsApp => cm.whatsapp
    case Video => cm.video
    case InPerson => cm.inPerson
  }

  /** `{ ...contactMethods, [m]: b }`. */
  function WithFlag(cm: ContactMethods, m: ContactMethod, b: bool): (r: ContactMethods)
    ensures Flag(r, m) == b
    ensures forall n | n != m :: Flag(r, n) == Flag(cm, n)
  {
    match m
    case Email => cm.(email := b)
    case Phone => cm.(phone := b)
    case WhatsApp => cm.(whatsapp := b)
    case Video => cm.(video := b)
    case InPerson => cm.(inPerson := b)
  }

  /** `Object.values(contactMethods).some(method => method)`. */
  predicate AnyContact(cm: ContactMethods) {
    cm.email || cm.phone || cm.whatsapp || cm.video || cm.inPerson
  }

  lemma AnyContactIffSomeFlag(cm: ContactMethods)
    ensures AnyContact(cm) <==> exists m :: Flag(cm, m)
  {
    if cm.email { assert Flag(cm, Email); }
    if cm.phone { assert Flag(cm, Phone); }
    if cm.whatsapp { assert Flag(cm, WhatsApp); }
    if cm.video { assert Flag(cm, Video); }
    if cm.inPerson { assert Flag(cm, InPerson); }
  }

  /** Phone calls and WhatsApp both need a phone number. */
  predicate NeedsPhone(cm: ContactMethods) {
    cm.phone || cm.whatsapp
  }

  /** The onboarding record. `availability` and `services` are written by the
      availability and services steps although the record's declared shape
      omits them; they start out absent. */
  datatype OnboardingData = OnboardingData(
    role: Role,
    termsAccepted: bool,
    displayName: string,
    location: string,
    experienceLevel: ExperienceLevel,
    animalTypes: seq<string>,
    serviceCategories: seq<string>,
    firstService: Option<Service>,
    contactMethods: ContactMethods,
    phoneNumber: Option<string>,
    profilePicture: Option<string>,
    bio: Option<string>,
    certifications: seq<Certification>,
    portfolioImages: seq<string>,
    introVideo: Option<string>,
    socialLinks: Dict<string>,
    availability: Option<Dict<seq<string>>>,
    services: Option<seq<Service>>)

  const InitialData := OnboardingData(
    NoRole, false, "", "", NoLevel, [], [], None, NoContactMethods, None,
    None, None, [], [], None, [], None, None)

  /** `Partial<OnboardingData>`: `None` is a key the patch does not carry. An
      optional field can be carried with the value `undefined`, hence the
      nested options. */
  datatype Patch = Patch(
    role: Option<Role>,
    termsAccepted: Option<bool>,
    displayName: Option<string>,
    location: Option<string>,
    experienceLevel: Option<ExperienceLevel>,
    animalTypes: Option<seq<string>>,
    serviceCategories: Option<seq<string>>,
    firstService: Option<Option<Service>>,
    contactMethods: Option<ContactMethods>,
    phoneNumber: Option<Option<string>>,
    profilePicture: Option<Option<string>>,
    bio: Option<Option<string>>,
    certifications: Option<seq<Certification>>,
    portfolioImages: Option<seq<string>>,
    introVideo: Option<Option<string>>,
    socialLinks: Option<Dict<string>>,
    availability: Option<Option<Dict<seq<string>>>>,
    services: Option<Option<seq<Service>>>)

  const EmptyPatch := Patch(
    None, None, None, None, None, None, None, None, None,
    None, None, None, None, None, None, None, None, None)

  /** `setData(prev => ({ ...prev, ...stepData }))`. */
  function UpdateData(d: OnboardingData, p: Patch): OnboardingData {
    OnboardingData(
      p.role.GetOr(d.role),
      p.termsAccepted.GetOr(d.termsAccepted),
      p.displayName.GetOr(d.displayName),
      p.location.GetOr(d.location),
      p.experienceLevel.GetOr(d.experienceLevel),
      p.animalTypes.GetOr(d.animalTypes),
      p.serviceCategories.GetOr(d.serviceCategories),
      p.firstService.GetOr(d.firstService),
      p.contactMethods.GetOr(d.contactMethods),
      p.phoneNumber.GetOr(d.phoneNumber),
      p.profilePicture.GetOr(d.profilePicture),
      p.bio.GetOr(d.bio),
      p.certifications.GetOr(d.certifications),
      p.portfolioImages.GetOr(d.portfolioImages),
      p.introVideo.GetOr(d.introVideo),
      p.socialLinks.GetOr(d.socialLinks),
      p.availability.GetOr(d.availability),
      p.services.GetOr(d.services))
  }

  /** `{ ...p, ...q }`: the keys of `q` win. */
  function MergePatch(p: Patch, q: Patch): Patch {
    Patch(
      if q.role.Some? then q.role else p.role,
      if q.termsAccepted.Some? then q.termsAccepted else p.termsAccepted,
      if q.displayName.Some? then q.displayName else p.displayName,
      if q.location.Some? then q.location else p.location,
      if q.experienceLevel.Some? then q.experienceLevel else p.experienceLevel,
      if q.animalTypes.Some? then q.animalTypes else p.animalTypes,
      if q.serviceCategories.Some? then q.serviceCategories else p.serviceCategories,
      if q.firstService.Some? then q.firstService else p.firstService,
      if q.contactMethods.Some? then q.contactMethods else p.contactMethods,
      if q.phoneNumber.Some? then q.phoneNumber else p.phoneNumber,
      if q.profilePicture.Some? then q.profilePicture else p.profilePicture,
      if q.bio.Some? then q.bio else p.bio,
      if q.certifications.Some? then q.certifications else p.certifications,
      if q.portfolioImages.Some? then q.portfolioImages else p.portfolioImages,
      if q.introVideo.Some? then q.introVideo else p.introVideo,
      if q.socialLinks.Some? then q.socialLinks else p.socialLinks,
      if q.availability.Some? then q.availability else p.availability,
      if q.services.Some? then q.services else p.services)
  }

  /** The patch that carries every field of `d`. */
  function FullPatch(d: OnboardingData): Patch {
    Patch(
      Some(d.role), Some(d.termsAccepted), Some(d.displayName), Some(d.location),
      Some(d.experienceLevel), Some(d.animalTypes), Some(d.serviceCategories),
      Some(d.firstService), Some(d.contactMethods), Some(d.phoneNumber),
      Some(d.profilePicture), Some(d.bio), Some(d.certifications),
      Some(d.portfolioImages), Some(d.introVideo), Some(d.socialLinks),
      Some(d.availability), Some(d.services))
  }

  /** An empty patch changes nothing. */
  lemma UpdateEmpty(d: OnboardingData)
    ensures UpdateData(d, EmptyPatch) == d
  {
  }

  /** Applying the same patch twice is applying it once. */
  lemma UpdateIdempotent(d: OnboardingData, p: Patch)
    ensures UpdateData(UpdateData(d, p), p) == UpdateData(d, p)
  {
  }

  /** Two updates in a row are one update with the merged patch. */
  lemma UpdateCompose(d: OnboardingData, p: Patch, q: Patch)
    ensures UpdateData(UpdateData(d, p), q) == UpdateData(d, MergePatch(p, q))
  {
  }

  /** A patch carrying every field replaces the whole record. */
  lemma UpdateFull(d: OnboardingData, e: OnboardingData)
    ensures UpdateData(d, FullPatch(e)) == e
  {
  }

  /** A patch with one key overwrites exactly that field; every other field
      keeps its value. The steps write through these single-key patches. */
  lemma UpdateOneField(d: OnboardingData)
    ensures forall v :: UpdateData(d, EmptyPatch.(contactMethods := Some(v))) == d.(contactMethods := v)
    ensures forall v :: UpdateData(d, EmptyPatch.(phoneNumber := Some(v))) == d.(phoneNumber := v)
    ensures forall v :: UpdateData(d, EmptyPatch.(animalTypes := Some(v))) == d.(animalTypes := v)
    ensures forall v :: UpdateData(d, EmptyPatch.(serviceCategories := Some(v))) == d.(serviceCategories := v)
    ensures forall v :: UpdateData(d, EmptyPatch.(certifications := Some(v))) == d.(certifications := v)
    ensures forall v :: UpdateData(d, EmptyPatch.(portfolioImages := Some(v))) == d.(portfolioImages := v)
    ensures forall v :: UpdateData(d, EmptyPatch.(socialLinks := Some(v))) == d.(socialLinks := v)
    ensures forall v :: UpdateData(d, EmptyPatch.(availability := Some(v))) == d.(availability := v)
    ensures forall v :: UpdateData(d, EmptyPatch.(services := Some(v))) == d.(services := v)
  {
  }

  /** The wizard's state: the step cursor and the record. */
  datatype Wizard = Wizard(step: int, data: OnboardingData)

  const InitialWizard := Wizard(1, InitialData)

  predicate ValidStep(n: int) {
    1 <= n <= TotalSteps
  }

  function NextStep(w: Wizard): (r: Wizard)
    ensures ValidStep(w.step) ==> ValidStep(r.step)
    ensures w.step >= TotalSteps ==> r == w
    ensures w.step < TotalSteps ==> r.step == w.step + 1
    ensures r.data == w.data
  {
    if w.step < TotalSteps then w.(step := w.step + 1) else w
  }

  function PrevStep(w: Wizard): (r: Wizard)
    ensures ValidStep(w.step) ==> ValidStep(r.step)
    ensures w.step <= 1 ==> r == w
    ensures w.step > 1 ==> r.step == w.step - 1
    ensures r.data == w.data
  {
    if w.step > 1 then w.(step := w.step - 1) else w
  }

  function GoToStep(w: Wizard, n: int): (r: Wizard)
    ensures ValidStep(w.step) ==> ValidStep(r.step)
    ensures r.step == n <==> ValidStep(n) || w.step == n
    ensures !ValidStep(n) ==> r == w
    ensures r.data == w.data
  {
    if 1 <= n && n <= TotalSteps then w.(step := n) else w
  }

  /** Only the specialization step (step 3) may be skipped. */
  predicate CanSkipStep(n: int) {
    n == 3
  }

  function SkipStep(w: Wizard): (r: Wizard)
    ensures r.step == if w.step == 3 then 4 else w.step
    ensures r.data == w.data
  {
    if CanSkipStep(w.step) then NextStep(w) else w
  }

  /** Resets the record; the cursor stays where it is. */
  function CompleteOnboarding(w: Wizard): (r: Wizard)
    ensures r.step == w.step
    ensures r.data == InitialData
  {
    w.(data := InitialData)
  }

  /** The phone number is present when needed: `!needsPhone ||
      (phoneNumber && phoneNumber.trim() !== '')`. */
  predicate HasPhoneWhenNeeded(d: OnboardingData) {
    !NeedsPhone(d.contactMethods)
    || (d.phoneNumber.Some? && d.phoneNumber.value != "" && Trim(d.phoneNumber.value) != "")
  }

  /** Steps 1 to 4 test presence only: the step-2 texts are not trimmed, so
      a blank display name still completes step 2. Step 5 trims the phone. */
  function IsStepComplete(d: OnboardingData, step: int): (r: bool)
    ensures r ==> ValidStep(step)
    ensures step == 1 ==> (r <==> d.role != NoRole && d.termsAccepted)
    ensures step == 2 ==>
      (r <==> |d.displayName| > 0 && |d.location| > 0 && d.experienceLevel != NoLevel)
    ensures step == 3 ==> (r <==> |d.animalTypes| > 0 && |d.serviceCategories| > 0)
    ensures step == 4 ==> (r <==> d.firstService.Some?)
    ensures step == 5 ==>
      (r <==> AnyContact(d.contactMethods)
              && (NeedsPhone(d.contactMethods) ==> d.phoneNumber.Some? && !Blank(d.phoneNumber.value)))
  {
    match step
    case 1 => d.role != NoRole && d.termsAccepted
    case 2 => d.displayName != "" && d.location != "" && d.experienceLevel != NoLevel
    case 3 => |d.animalTypes| > 0 && |d.serviceCategories| > 0
    case 4 => d.firstService.Some?
    case 5 => AnyContact(d.contactMethods) && HasPhoneWhenNeeded(d)
    case _ => false
  }

  /** Nothing on the fresh record is complete. */
  lemma InitialDataIncomplete(step: int)
    ensures !IsStepComplete(InitialData, step)
  {
  }

  /** A display name of two spaces completes step 2, although the profile
      check trims it and calls it missing. */
  lemma BlankDisplayNameCompletesStep2(d: OnboardingData)
    requires d.displayName == "  " && d.location == "Austin" && d.experienceLevel != NoLevel
    ensures IsStepComplete(d, 2)
    ensures Blank(d.displayName)
  {
    assert IsSpace(d.displayName[0]) && IsSpace(d.displayName[1]);
  }

  lemma Step5Examples(d: OnboardingData)
    requires d.contactMethods == NoContactMethods.(phone := true)
    ensures d.phoneNumber == Some("") ==> !IsStepComplete(d, 5)
    ensures d.phoneNumber == Some("   ") ==> !IsStepComplete(d, 5)
    ensures d.phoneNumber == Some("555-0100") ==> IsStepComplete(d, 5)
  {
    assert IsSpace("   "[0]) && IsSpace("   "[1]) && IsSpace("   "[2]);
    assert !IsSpace("555-0100"[0]);
  }

  /** Every operation the context exposes, as a wizard transition. */
  datatype Action = Next | Prev | GoTo(n: int) | Skip | Update(p: Patch) | Complete

  function Apply(w: Wizard, a: Action): Wizard {
    match a
    case Next => NextStep(w)
    case Prev => PrevStep(w)
    case GoTo(n) => GoToStep(w, n)
    case Skip => SkipStep(w)
    case Update(p) => w.(data := UpdateData(w.data, p))
    case Complete => CompleteOnboarding(w)
  }

  function Run(w: Wizard, actions: seq<Action>): Wizard
    decreases |actions|
  {
    if actions == [] then w else Run(Apply(w, actions[0]), actions[1..])
  }

  /** The cursor stays within 1..5 under any sequence of operations. */
  lemma {:induction false} RunKeepsStepValid(w: Wizard, actions: seq<Action>)
    requires ValidStep(w.step)
    ensures ValidStep(Run(w, actions).step)
    decreases |actions|
  {
    if actions != [] {
      RunKeepsStepValid(Apply(w, actions[0]), actions[1..]);
    }
  }
}
