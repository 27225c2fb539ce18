/** The session-notes editor: the next-step list, the star rating and the
    save, which stamps the completion time. */
module SessionNotesModal {
  import opened Wrappers
  import opened Text
  import opened Seqs
  import opened BookingTypes
  import SessionHistory

  /** The modal's notes and its next-step draft. */
  datatype Editor = Editor(notes: SessionNotes, draft: string)

  /** `addNextStep`: a draft that is not blank is appended trimmed and the
      draft cleared; a blank draft changes nothing. */
  function AddNextStep(e: Editor): (r: Editor)
    ensures Blank(e.draft) ==> r == e
    ensures !Blank(e.draft) ==>
      r.notes == e.notes.(nextSteps := e.notes.nextSteps + [Trim(e.draft)]) && r.draft == ""
    ensures !Blank(e.draft) ==> !Blank(r.notes.nextSteps[|r.notes.nextSteps| - 1])
  {
    var t := Trim(e.draft);
    if t != "" then
      TrimIdempotent(e.draft);
      Editor(e.notes.(nextSteps := e.notes.nextSteps + [t]), "")
    else e
  }

  /** `removeNextStep(i)`: drops index `i` only. */
  function RemoveNextStep(e: Editor, i: int): (r: Editor)
    ensures 0 <= i < |e.notes.nextSteps| ==>
      r.notes.nextSteps == e.notes.nextSteps[..i] + e.notes.nextSteps[i + 1..]
    ensures !(0 <= i < |e.notes.nextSteps|) ==> r == e
    ensures r.notes == e.notes.(nextSteps := r.notes.nextSteps) && r.draft == e.draft
  {
    RemoveIndexSpec(e.notes.nextSteps, i);
    e.(notes := e.notes.(nextSteps := RemoveIndex(e.notes.nextSteps, i)))
  }

  /** Removing the step just added restores the list. */
  lemma RemoveUndoesAdd(e: Editor)
    requires !Blank(e.draft)
    ensures RemoveNextStep(AddNextStep(e), |e.notes.nextSteps|).notes == e.notes
  {
    var added := AddNextStep(e).notes.nextSteps;
    assert added[..|e.notes.nextSteps|] == e.notes.nextSteps;
  }

  /** `handleRatingChange(star)` from star `star`: afterwards exactly `star`
      stars are drawn filled, and nothing but the rating changed. */
  function ChangeRating(e: Editor, star: int): (r: Editor)
    requires 1 <= star <= 5
    ensures r.notes.rating == star
    ensures SessionHistory.FilledStars(r.notes.rating) == star
    ensures r.notes == e.notes.(rating := r.notes.rating) && r.draft == e.draft
  {
    e.(notes := e.notes.(rating := star))
  }

  /** `handleSave`: the saved notes keep an existing completion time and
      otherwise take `nowIso`; every other field is passed through. */
  function Save(n: SessionNotes, nowIso: string): (r: SessionNotes)
    ensures r == n.(completedAt := r.completedAt)
    ensures n.completedAt.Some? && n.completedAt.value != "" ==> r.completedAt == n.completedAt
    ensures !(n.completedAt.Some? && n.completedAt.value != "") ==> r.completedAt == Some(nowIso)
  {
    n.(completedAt := Some(OptOr(n.completedAt, nowIso)))
  }

  /** Saving again, later, does not move the completion time. */
  lemma SaveIdempotent(n: SessionNotes, first: string, later: string)
    requires first != ""
    ensures Save(Save(n, first), later) == Save(n, first)
  {
  }
}
