/** The contact-preferences step. Its local copy of the flags and of the phone
    number starts from the onboarding record and every change is written to
    both, so the step's state is the record itself. */
module ContactPreferencesStep {
  import opened Wrappers
  import opened Onboarding

  /** `handleContactMethodToggle(m)`: flips flag `m` and writes the new map. */
  function ToggleContactMethod(d: OnboardingData, m: ContactMethod): (r: OnboardingData)
    ensures Flag(r.contactMethods, m) == !Flag(d.contactMethods, m)
    ensures forall n | n != m :: Flag(r.contactMethods, n) == Flag(d.contactMethods, n)
    ensures r == d.(contactMethods := r.contactMethods)
  {
    var updated := WithFlag(d.contactMethods, m, !Flag(d.contactMethods, m));
    UpdateOneField(d);
    UpdateData(d, EmptyPatch.(contactMethods := Some(updated)))
  }

  /** Flipping the same flag twice restores the record. */
  lemma ToggleContactMethodTwice(d: OnboardingData, m: ContactMethod)
    ensures ToggleContactMethod(ToggleContactMethod(d, m), m) == d
  {
    var r := ToggleContactMethod(ToggleContactMethod(d, m), m);
    assert forall n :: Flag(r.contactMethods, n) == Flag(d.contactMethods, n);
    assert Flag(r.contactMethods, Email) == Flag(d.contactMethods, Email);
    assert Flag(r.contactMethods, Phone) == Flag(d.contactMethods, Phone);
    assert Flag(r.contactMethods, WhatsApp) == Flag(d.contactMethods, WhatsApp);
    assert Flag(r.contactMethods, Video) == Flag(d.contactMethods, Video);
    assert Flag(r.contactMethods, InPerson) == Flag(d.contactMethods, InPerson);
  }

  /** `handlePhoneNumberChange`: stores the raw, untrimmed value. */
  function ChangePhoneNumber(d: OnboardingData, value: string): (r: OnboardingData)
    ensures r == d.(phoneNumber := Some(value))
  {
    UpdateOneField(d);
    UpdateData(d, EmptyPatch.(phoneNumber := Some(Some(value))))
  }

  function B2I(b: bool): nat {
    if b then 1 else 0
  }

  /** `Object.values(contactMethods).filter(Boolean).length`. */
  function SelectedCount(cm: ContactMethods): (r: nat)
    ensures r <= 5
    ensures r == 0 <==> !AnyContact(cm)
    ensures r == 5 <==> forall m :: Flag(cm, m)
  {
    assert (forall m :: Flag(cm, m)) <==>
      Flag(cm, Email) && Flag(cm, Phone) && Flag(cm, WhatsApp) && Flag(cm, Video) && Flag(cm, InPerson);
    B2I(cm.email) + B2I(cm.phone) + B2I(cm.whatsapp) + B2I(cm.video) + B2I(cm.inPerson)
  }

  /** Toggling a flag moves the count by exactly one. */
  lemma ToggleChangesCountByOne(d: OnboardingData, m: ContactMethod)
    ensures var before := SelectedCount(d.contactMethods);
            var after := SelectedCount(ToggleContactMethod(d, m).contactMethods);
            if Flag(d.contactMethods, m) then after == before - 1 else after == before + 1
  {
    var r := ToggleContactMethod(d, m).contactMethods;
    assert Flag(r, Email) == (if m == Email then !d.contactMethods.email else d.contactMethods.email);
    assert Flag(r, Phone) == (if m == Phone then !d.contactMethods.phone else d.contactMethods.phone);
    assert Flag(r, WhatsApp) == (if m == WhatsApp then !d.contactMethods.whatsapp else d.contactMethods.whatsapp);
    assert Flag(r, Video) == (if m == Video then !d.contactMethods.video else d.contactMethods.video);
    assert Flag(r, InPerson) == (if m == InPerson then !d.contactMethods.inPerson else d.contactMethods.inPerson);
  }

  /** The phone field is shown, and required, iff phone or WhatsApp is on. */
  predicate ShowsPhoneField(cm: ContactMethods) {
    cm.phone || cm.whatsapp
  }

  lemma PhoneFieldIffNeeded(cm: ContactMethods)
    ensures ShowsPhoneField(cm) <==> Flag(cm, Phone) || Flag(cm, WhatsApp)
    ensures ShowsPhoneField(cm) <==> NeedsPhone(cm)
  {
  }

  /** The step opens with nothing selected and no phone field. */
  lemma InitialSelection()
    ensures SelectedCount(InitialData.contactMethods) == 0
    ensures !ShowsPhoneField(InitialData.contactMethods)
  {
  }
}
