/** The services step: ready-made templates, a custom-service form and the
    service list, which mirrors the record's `services`. `freshId` stands for
    the millisecond clock the source turns into an id. */
module ServicesStep {
  import opened Wrappers
  import opened Seqs
  import opened Onboarding

  /** A service without its id: a template or the custom form. Price and
      duration are the integers `parseInt` produced. */
  datatype ServiceDraft = ServiceDraft(title: string, duration: int, price: int, description: string)

  const EmptyDraft := ServiceDraft("", 60, 0, "")

  const Templates: seq<ServiceDraft> := [
    ServiceDraft("Animal Communication Session", 60, 120,
      "Connect with your pet to understand their thoughts, feelings, and needs."),
    ServiceDraft("Pet Trauma Healing", 90, 150,
      "Help your pet heal from past trauma through energy work and communication."),
    ServiceDraft("Behavioral Consultation", 45, 100,
      "Address behavioral issues by understanding your pet's perspective."),
    ServiceDraft("End-of-Life Support", 60, 130,
      "Provide comfort and communication during your pet's transition.")]

  datatype State = State(data: OnboardingData, form: ServiceDraft, showAddForm: bool)

  function Services(s: State): seq<Service> {
    s.data.services.GetOr([])
  }

  /** `addService(draft)`: appends the draft under a fresh id, closes the form
      and resets it. */
  function AddService(s: State, draft: ServiceDraft, freshId: string): (r: State)
    ensures Services(r) == Services(s) + [Service(freshId, draft.title, draft.duration, draft.price, draft.description)]
    ensures r.data == s.data.(services := r.data.services)
    ensures r.form == EmptyDraft && !r.showAddForm
  {
    var added := Service(freshId, draft.title, draft.duration, draft.price, draft.description);
    UpdateOneField(s.data);
    State(UpdateData(s.data, EmptyPatch.(services := Some(Some(Services(s) + [added])))), EmptyDraft, false)
  }

  function IdOtherThan(id: string): Service -> bool {
    (v: Service) => v.id != id
  }

  /** `removeService(id)`: drops the services with that id, keeping order. */
  function RemoveService(s: State, id: string): (r: State)
    ensures r.data == s.data.(services := r.data.services)
    ensures forall v | v in Services(r) :: v.id != id
    ensures forall v | v in Services(s) && v.id != id :: v in Services(r)
    ensures forall v :: multiset(Services(r))[v] == if v.id != id then multiset(Services(s))[v] else 0
  {
    UpdateOneField(s.data);
    s.(data := UpdateData(s.data, EmptyPatch.(services := Some(Some(Filter(Services(s), IdOtherThan(id)))))))
  }

  /** `addFromTemplate(template)`: the new service copies the template's title,
      duration, price and description. */
  function AddFromTemplate(s: State, i: int, freshId: string): (r: State)
    requires 0 <= i < |Templates|
    ensures |Services(r)| == |Services(s)| + 1
    ensures var v := Services(r)[|Services(s)|];
      v.title == Templates[i].title && v.duration == Templates[i].duration
      && v.price == Templates[i].price && v.description == Templates[i].description
  {
    AddService(s, Templates[i], freshId)
  }

  /** `handleAddCustomService()`: adds the form's draft iff its title is set
      and its price positive; the description is not checked. */
  function AddCustomService(s: State, freshId: string): (r: State)
    ensures s.form.title != "" && s.form.price > 0 ==> r == AddService(s, s.form, freshId)
    ensures s.form.title == "" || s.form.price <= 0 ==> r == s
  {
    if s.form.title != "" && s.form.price > 0 then AddService(s, s.form, freshId) else s
  }

  /** The "Add Service" button's enabled state, which also wants a description. */
  predicate AddButtonEnabled(form: ServiceDraft) {
    form.title != "" && form.description != "" && form.price > 0
  }

  /** Every click the button allows adds the service; the handler on its own
      would also add one without a description. */
  lemma AddButtonStricterThanHandler(s: State, freshId: string)
    ensures AddButtonEnabled(s.form) ==> |Services(AddCustomService(s, freshId))| == |Services(s)| + 1
    ensures s.form == ServiceDraft("Reading", 30, 50, "") ==>
      !AddButtonEnabled(s.form) && |Services(AddCustomService(s, freshId))| == |Services(s)| + 1
  {
  }

  /** Removing a just-added service by its fresh id restores the list. */
  lemma RemoveUndoesAdd(s: State, draft: ServiceDraft, freshId: string)
    requires forall v | v in Services(s) :: v.id != freshId
    ensures Services(RemoveService(AddService(s, draft, freshId), freshId)) == Services(s)
  {
    var added := Service(freshId, draft.title, draft.duration, draft.price, draft.description);
    FilterAppend(Services(s), [added], IdOtherThan(freshId));
    FilterAll(Services(s), IdOtherThan(freshId));
    assert Filter([added], IdOtherThan(freshId)) == [];
  }
}
