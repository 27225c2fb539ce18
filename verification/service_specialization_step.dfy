/** The specialization step: two tag lists (animal types and service
    categories), each changed by toggling a tag. */
module ServiceSpecializationStep {
  import opened Wrappers
  import opened Seqs
  import opened Onboarding

  /** `handleAnimalTypeToggle(t)`. */
  function ToggleAnimalType(d: OnboardingData, t: string): (r: OnboardingData)
    ensures t in r.animalTypes <==> t !in d.animalTypes
    ensures forall u | u != t :: u in r.animalTypes <==> u in d.animalTypes
    ensures r == d.(animalTypes := r.animalTypes)
  {
    UpdateOneField(d);
    UpdateData(d, EmptyPatch.(animalTypes := Some(Toggle(d.animalTypes, t))))
  }

  /** `handleServiceCategoryToggle(c)`. */
  function ToggleServiceCategory(d: OnboardingData, c: string): (r: OnboardingData)
    ensures c in r.serviceCategories <==> c !in d.serviceCategories
    ensures forall u | u != c :: u in r.serviceCategories <==> u in d.serviceCategories
    ensures r == d.(serviceCategories := r.serviceCategories)
  {
    UpdateOneField(d);
    UpdateData(d, EmptyPatch.(serviceCategories := Some(Toggle(d.serviceCategories, c))))
  }

  /** The other animal types keep their relative order, and a duplicate-free
      list stays duplicate-free. */
  lemma ToggleAnimalTypeKeepsOrder(d: OnboardingData, t: string)
    ensures Filter(ToggleAnimalType(d, t).animalTypes, Except(t)) == Filter(d.animalTypes, Except(t))
    ensures NoDuplicates(d.animalTypes) ==> NoDuplicates(ToggleAnimalType(d, t).animalTypes)
  {
    ToggleKeepsOthers(d.animalTypes, t);
    if NoDuplicates(d.animalTypes) {
      ToggleKeepsNoDuplicates(d.animalTypes, t);
    }
  }

  lemma ToggleServiceCategoryKeepsOrder(d: OnboardingData, c: string)
    ensures Filter(ToggleServiceCategory(d, c).serviceCategories, Except(c)) == Filter(d.serviceCategories, Except(c))
    ensures NoDuplicates(d.serviceCategories) ==> NoDuplicates(ToggleServiceCategory(d, c).serviceCategories)
  {
    ToggleKeepsOthers(d.serviceCategories, c);
    if NoDuplicates(d.serviceCategories) {
      ToggleKeepsNoDuplicates(d.serviceCategories, c);
    }
  }

  /** Toggling an absent tag twice restores the record; toggling a present
      one twice moves it to the end of the list. */
  lemma ToggleAnimalTypeTwice(d: OnboardingData, t: string)
    ensures t !in d.animalTypes ==> ToggleAnimalType(ToggleAnimalType(d, t), t) == d
    ensures t in d.animalTypes ==>
      ToggleAnimalType(ToggleAnimalType(d, t), t).animalTypes == Filter(d.animalTypes, Except(t)) + [t]
  {
    ToggleTwice(d.animalTypes, t);
  }
}
