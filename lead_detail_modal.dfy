/**
 * The lead detail dialog (client/components/LeadDetailModal.tsx): the lead's
 * list fields as shown, and its activity log of notes, which the dialog loads,
 * adds to and deletes from. The note queries live outside the data layer
 * modelled here, so their answers are parameters.
 */
module LeadDetailModal {
  import opened Wrappers
  import opened Text
  import opened Lists
  import opened CrmTypes

  /** The status choices the dialog offers for a note. */
  const NoteStatuses: seq<string> := [
    "Not lifted", "Not connected", "Voice Message", "Quotation sent",
    "Site visit", "Advance payment", "Lead finished", "Contacted"]

  datatype LeadNote = LeadNote(
    id: string,
    leadId: string,
    description: string,
    status: Option<string>,
    createdAt: string,
    createdBy: Option<string>)

  /** `xs.filter(x => x)`: the empty strings dropped, the rest kept in order. */
  function NonEmpty(xs: seq<string>): (r: seq<string>)
    ensures forall i :: 0 <= i < |r| ==> r[i] != "" && r[i] in xs
    ensures forall i :: 0 <= i < |xs| && xs[i] != "" ==> xs[i] in r
  {
    Filter(xs, (x: string) => x != "")
  }

  /** A list field as displayed: `xs.filter(x => x).join(", ")`. */
  function Displayed(xs: seq<string>): string {
    Join(NonEmpty(xs), ", ")
  }

  /** A list without empty entries is shown as it is. */
  lemma DisplayedWithoutBlanks(xs: seq<string>)
    requires forall i :: 0 <= i < |xs| ==> xs[i] != ""
    ensures Displayed(xs) == Join(xs, ", ")
  {
    FilterAll(xs, (x: string) => x != "");
  }

  /** The shown text is empty exactly when every entry is empty: no separator is left dangling. */
  lemma DisplayedEmptyIff(xs: seq<string>)
    ensures Displayed(xs) == "" <==> forall i :: 0 <= i < |xs| ==> xs[i] == ""
  {
    var ys := NonEmpty(xs);
    if ys != [] {
      JoinNonEmpty(ys, ", ");
      assert ys[0] in xs;
    }
  }

  lemma {:induction false} JoinNonEmpty(ys: seq<string>, sep: string)
    requires ys != [] && forall i :: 0 <= i < |ys| ==> ys[i] != ""
    ensures Join(ys, sep) != ""
  {
    if |ys| > 1 {
      assert |ys[0] + sep + Join(ys[1..], sep)| >= |ys[0]|;
    }
  }

  /** `notes.filter(n => n.id !== noteId)`. */
  function DeleteNotes(notes: seq<LeadNote>, noteId: string): (r: seq<LeadNote>)
    ensures forall i :: 0 <= i < |r| ==> r[i].id != noteId
    ensures forall i :: 0 <= i < |notes| && notes[i].id != noteId ==> notes[i] in r
  {
    Filter(notes, (n: LeadNote) => n.id != noteId)
  }

  /** Deleting keeps exactly the other notes, each as often as before. */
  lemma DeleteNotesCounts(notes: seq<LeadNote>, noteId: string, x: LeadNote)
    ensures multiset(DeleteNotes(notes, noteId))[x] == if x.id == noteId then 0 else multiset(notes)[x]
  {
    FilterMultiset(notes, (n: LeadNote) => n.id != noteId, x);
  }

  /** "No activity logs yet" appears when there are no notes and no main note. */
  predicate ShowsEmptyLog(notes: seq<LeadNote>, mainNote: Option<string>) {
    |notes| == 0 && !Truthy(mainNote)
  }

  /** Once a note is added the empty-log message is gone, whatever the main note. */
  lemma AddedNoteHidesEmptyLog(note: LeadNote, notes: seq<LeadNote>, mainNote: Option<string>)
    ensures !ShowsEmptyLog([note] + notes, mainNote)
  {
  }

  /** The request `addLeadNote(lead.id, text, status || undefined)`. */
  datatype NoteRequest = NoteRequest(leadId: string, description: string, status: Option<string>)

  datatype AddOutcome = NoteRequired | NoteAdded | AddFailed

  class Modal {
    const lead: Lead
    var notes: seq<LeadNote>
    var newNoteText: string
    var selectedStatus: string
    var isLoadingNotes: bool
    var isAddingNote: bool

    /** The status choice starts at the lead's status, or "" when it has none. */
    constructor (lead: Lead)
      ensures this.lead == lead && notes == [] && newNoteText == ""
      ensures selectedStatus == (if Truthy(lead.status) then lead.status.value else "")
      ensures !isLoadingNotes && !isAddingNote
    {
      this.lead := lead;
      notes, newNoteText := [], "";
      selectedStatus := Or(lead.status, Some("")).value;
      isLoadingNotes, isAddingNote := false, false;
    }

    /** `loadNotes`: the answer replaces the notes; a failure keeps them. */
    method LoadNotes(reply: Reply<seq<LeadNote>>)
      modifies this
      ensures notes == (if reply.Returned? then reply.value else old(notes))
      ensures !isLoadingNotes
      ensures newNoteText == old(newNoteText) && selectedStatus == old(selectedStatus) && isAddingNote == old(isAddingNote)
    {
      isLoadingNotes := true;
      if reply.Returned? {
        notes := reply.value;
      }
      isLoadingNotes := false;
    }

    /**
     * `handleAddNote`: a blank text is refused with no request; otherwise the
     * request carries the text and the chosen status (none when ""), and the
     * created note goes to the front, clearing the text and the status.
     */
    method AddNote(reply: Reply<LeadNote>) returns (outcome: AddOutcome, sent: Option<NoteRequest>)
      modifies this
      ensures IsBlank(old(newNoteText)) ==>
        outcome == NoteRequired && sent.None? && notes == old(notes)
        && newNoteText == old(newNoteText) && selectedStatus == old(selectedStatus)
      ensures !IsBlank(old(newNoteText)) ==>
        sent == Some(NoteRequest(lead.id, old(newNoteText), EmptyToNone(old(selectedStatus))))
      ensures !IsBlank(old(newNoteText)) && reply.Returned? ==>
        outcome == NoteAdded && notes == [reply.value] + old(notes) && newNoteText == "" && selectedStatus == ""
      ensures !IsBlank(old(newNoteText)) && reply.Threw? ==>
        outcome == AddFailed && notes == old(notes) && newNoteText == old(newNoteText) && selectedStatus == old(selectedStatus)
      ensures isLoadingNotes == old(isLoadingNotes)
      ensures !IsBlank(old(newNoteText)) ==> !isAddingNote
    {
      if IsBlank(newNoteText) {
        return NoteRequired, None;
      }
      outcome, sent := SendNote(reply);
    }

    /** The request part of `handleAddNote`, once the text is known not to be blank. */
    method SendNote(reply: Reply<LeadNote>) returns (outcome: AddOutcome, sent: Option<NoteRequest>)
      modifies this
      ensures sent == Some(NoteRequest(lead.id, old(newNoteText), EmptyToNone(old(selectedStatus))))
      ensures reply.Returned? ==>
        outcome == NoteAdded && notes == [reply.value] + old(notes) && newNoteText == "" && selectedStatus == ""
      ensures reply.Threw? ==>
        outcome == AddFailed && notes == old(notes) && newNoteText == old(newNoteText) && selectedStatus == old(selectedStatus)
      ensures isLoadingNotes == old(isLoadingNotes) && !isAddingNote
    {
      isAddingNote := true;
      sent := Some(NoteRequest(lead.id, newNoteText, EmptyToNone(selectedStatus)));
      if reply.Returned? {
        notes := [reply.value] + notes;
        newNoteText, selectedStatus := "", "";
        outcome := NoteAdded;
      } else {
        outcome := AddFailed;
      }
      isAddingNote := false;
    }

    /** `handleDeleteNote`: only after the confirmation and the backend's success. */
    method DeleteNote(noteId: string, confirmed: bool, backendOk: bool) returns (deleted: bool)
      modifies this
      ensures deleted == (confirmed && backendOk)
      ensures notes == (if deleted then DeleteNotes(old(notes), noteId) else old(notes))
      ensures newNoteText == old(newNoteText) && selectedStatus == old(selectedStatus)
      ensures isLoadingNotes == old(isLoadingNotes) && isAddingNote == old(isAddingNote)
    {
      deleted := confirmed && backendOk;
      if deleted {
        notes := DeleteNotes(notes, noteId);
      }
    }
  }
}
