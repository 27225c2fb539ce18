/** The certifications step: an add form and the certification list. The
    list mirrors the record's `certifications`; `freshId` stands for the
    millisecond clock the source turns into an id. */
module CertificationsStep {
  import opened Wrappers
  import opened Seqs
  import opened Onboarding

  datatype CertForm = CertForm(name: string, issuer: string, date: string, imageUrl: string)

  const EmptyForm := CertForm("", "", "", "")

  datatype State = State(data: OnboardingData, form: CertForm, showAddForm: bool)

  /** `addCertification()`: with name, issuer and date all filled in, appends
      one unverified certification copied from the form, then clears and
      closes the form; otherwise nothing changes. */
  function AddCertification(s: State, freshId: string): (r: State)
    ensures s.form.name == "" || s.form.issuer == "" || s.form.date == "" ==> r == s
    ensures s.form.name != "" && s.form.issuer != "" && s.form.date != "" ==>
      r.data == s.data.(certifications := r.data.certifications)
      && |r.data.certifications| == |s.data.certifications| + 1
      && r.data.certifications[..|s.data.certifications|] == s.data.certifications
      && r.form == EmptyForm && !r.showAddForm
      && (var c := r.data.certifications[|s.data.certifications|];
          c.id == freshId && c.name == s.form.name && c.issuer == s.form.issuer
          && c.date == s.form.date && c.imageUrl == s.form.imageUrl && !c.verified)
  {
    var f := s.form;
    if f.name != "" && f.issuer != "" && f.date != "" then
      var cert := Certification(freshId, f.name, f.issuer, f.date, f.imageUrl, false);
      var updated := s.data.certifications + [cert];
      UpdateOneField(s.data);
      State(UpdateData(s.data, EmptyPatch.(certifications := Some(updated))), EmptyForm, false)
    else s
  }

  function IdOtherThan(id: string): Certification -> bool {
    (c: Certification) => c.id != id
  }

  /** `removeCertification(id)`: drops every certification with that id. */
  function RemoveCertification(s: State, id: string): (r: State)
    ensures r.data == s.data.(certifications := r.data.certifications)
    ensures r.form == s.form && r.showAddForm == s.showAddForm
    ensures forall c | c in r.data.certifications :: c.id != id
    ensures forall c | c in s.data.certifications && c.id != id :: c in r.data.certifications
    ensures forall c :: multiset(r.data.certifications)[c]
                     == if c.id != id then multiset(s.data.certifications)[c] else 0
  {
    var updated := Filter(s.data.certifications, IdOtherThan(id));
    UpdateOneField(s.data);
    s.(data := UpdateData(s.data, EmptyPatch.(certifications := Some(updated))))
  }

  /** Removing a just-added certification by its fresh id restores the list. */
  lemma RemoveUndoesAdd(s: State, freshId: string)
    requires s.form.name != "" && s.form.issuer != "" && s.form.date != ""
    requires forall c | c in s.data.certifications :: c.id != freshId
    ensures RemoveCertification(AddCertification(s, freshId), freshId).data == s.data
  {
    var added := AddCertification(s, freshId).data.certifications;
    assert added == s.data.certifications + [added[|added| - 1]];
    FilterAppend(s.data.certifications, [added[|added| - 1]], IdOtherThan(freshId));
    FilterAll(s.data.certifications, IdOtherThan(freshId));
    assert Filter([added[|added| - 1]], IdOtherThan(freshId)) == [];
  }
}
