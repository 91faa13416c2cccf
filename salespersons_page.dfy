/**
 * The sales team page (client/pages/Salespersons.tsx): one form that either adds
 * a salesperson or edits the one whose id it holds. The store's answers are
 * parameters, as in the store itself.
 */
module SalespersonsPage {
  import opened Wrappers
  import opened Text
  import opened CrmTypes
  import opened CrmStore

  /**
   * The form's state. It starts with name, email and phone only; editing copies
   * the whole salesperson into it, so it may also carry `id` and `createdAt`.
   */
  datatype SalespersonForm = SalespersonForm(
    name: string,
    email: string,
    phoneNumber: string,
    id: Option<string>,
    createdAt: Option<string>)

  const EmptyForm: SalespersonForm := SalespersonForm("", "", "", None, None)

  /** What `updateSalesperson(editingId, formData)` merges: every field the form holds. */
  function PatchOfForm(f: SalespersonForm): (p: SalespersonPatch)
    ensures p.name == Some(f.name) && p.email == Some(f.email) && p.phoneNumber == Some(f.phoneNumber)
    ensures p.id == f.id && p.createdAt == f.createdAt
  {
    SalespersonPatch(f.id, Some(f.name), Some(f.email), Some(f.phoneNumber), f.createdAt)
  }

  /** What `addSalesperson(formData)` receives; this page links no account. */
  function InputOfForm(f: SalespersonForm, authId: Option<string>): (i: SalespersonInput)
    ensures i.name == f.name && i.email == f.email && i.phoneNumber == f.phoneNumber && i.authId == authId
  {
    SalespersonInput(f.name, f.email, f.phoneNumber, authId)
  }

  /** `setFormData(salesperson)`: the whole record, id and timestamp included. */
  function FormOf(s: Salesperson): (f: SalespersonForm)
    ensures f.name == s.name && f.email == s.email && f.phoneNumber == s.phoneNumber
    ensures f.id == Some(s.id) && f.createdAt == Some(s.createdAt)
  {
    SalespersonForm(s.name, s.email, s.phoneNumber, Some(s.id), Some(s.createdAt))
  }

  /** Saving an edit loaded from a record and left untouched gives that record back. */
  lemma SaveUnchangedEdit(s: Salesperson)
    ensures MergeSalesperson(s, PatchOfForm(FormOf(s))) == s
  {
  }

  /** An edited record keeps its id and creation time, whatever the form's text fields hold. */
  lemma EditKeepsIdentity(s: Salesperson, name: string, email: string, phone: string)
    ensures var f := FormOf(s).(name := name, email := email, phoneNumber := phone);
      MergeSalesperson(s, PatchOfForm(f)) == Salesperson(s.id, name, email, phone, s.createdAt)
  {
  }

  datatype SubmitOutcome = NameRequired | Updated | Added | SaveFailed

  class Page {
    var formData: SalespersonForm
    var editingId: Option<string>
    var showForm: bool
    var isSubmitting: bool

    constructor ()
      ensures formData == EmptyForm && editingId.None? && !showForm && !isSubmitting
    {
      formData, editingId, showForm, isSubmitting := EmptyForm, None, false, false;
    }

    /**
     * `handleSubmit`: a name blank after trimming is refused with no store call;
     * a truthy `editingId` updates, anything else adds. Success clears the form,
     * the edit and the open form; failure keeps all three.
     */
    method Submit(store: Store, addReply: Reply<Salesperson>, updateOk: bool)
      returns (outcome: SubmitOutcome, sent: Option<SalespersonInput>)
      modifies this, store
      ensures store.leads == old(store.leads)
      ensures IsBlank(old(formData.name)) ==>
        outcome == NameRequired && sent.None? && store.salespersons == old(store.salespersons)
        && formData == old(formData) && editingId == old(editingId) && showForm == old(showForm)
      ensures !IsBlank(old(formData.name)) && Truthy(old(editingId)) ==>
        sent.None?
        && store.salespersons == (if updateOk then UpdateSalespersons(old(store.salespersons), old(editingId).value, PatchOfForm(old(formData)))
                                  else old(store.salespersons))
        && outcome == (if updateOk then Updated else SaveFailed)
      ensures !IsBlank(old(formData.name)) && !Truthy(old(editingId)) ==>
        sent == Some(InputOfForm(old(formData), None))
        && store.salespersons == (if addReply.Returned? then [addReply.value] + old(store.salespersons) else old(store.salespersons))
        && outcome == (if addReply.Returned? then Added else SaveFailed)
      ensures outcome == Updated ==> formData == EmptyForm && editingId.None? && !showForm
      ensures outcome == Added ==> formData == EmptyForm && editingId == old(editingId) && !showForm
      ensures outcome == SaveFailed ==>
        formData == old(formData) && editingId == old(editingId) && showForm == old(showForm)
      ensures outcome != NameRequired ==> !isSubmitting
    {
      if IsBlank(formData.name) {
        return NameRequired, None;
      }
      isSubmitting := true;
      if Truthy(editingId) {
        sent := None;
        outcome := SaveEdit(store, updateOk);
      } else {
        sent := Some(InputOfForm(formData, None));
        outcome := SaveNew(store, addReply);
      }
      isSubmitting := false;
    }

    /** The update branch of `handleSubmit`, for the salesperson being edited. */
    method SaveEdit(store: Store, updateOk: bool) returns (outcome: SubmitOutcome)
      requires editingId.Some?
      modifies this, store
      ensures store.leads == old(store.leads)
      ensures store.salespersons == (if updateOk then UpdateSalespersons(old(store.salespersons), old(editingId).value, PatchOfForm(old(formData)))
                                     else old(store.salespersons))
      ensures updateOk ==> outcome == Updated && formData == EmptyForm && editingId.None? && !showForm
      ensures !updateOk ==> outcome == SaveFailed && formData == old(formData) && editingId == old(editingId) && showForm == old(showForm)
      ensures isSubmitting == old(isSubmitting)
    {
      var ok := store.UpdateSalesperson(editingId.value, PatchOfForm(formData), updateOk);
      if ok {
        formData, editingId, showForm := EmptyForm, None, false;
        outcome := Updated;
      } else {
        outcome := SaveFailed;
      }
    }

    /** The add branch of `handleSubmit`: the created salesperson goes to the front of the list. */
    method SaveNew(store: Store, addReply: Reply<Salesperson>) returns (outcome: SubmitOutcome)
      modifies this, store
      ensures store.leads == old(store.leads)
      ensures store.salespersons == (if addReply.Returned? then [addReply.value] + old(store.salespersons) else old(store.salespersons))
      ensures addReply.Returned? ==> outcome == Added && formData == EmptyForm && !showForm
      ensures addReply.Threw? ==> outcome == SaveFailed && formData == old(formData) && showForm == old(showForm)
      ensures editingId == old(editingId) && isSubmitting == old(isSubmitting)
    {
      var r := store.AddSalesperson(addReply);
      if r.Returned? {
        formData, showForm := EmptyForm, false;
        outcome := Added;
      } else {
        outcome := SaveFailed;
      }
    }

    /** `handleEditSalesperson`: the record goes into the form, which opens on it. */
    method EditSalesperson(s: Salesperson)
      modifies this
      ensures formData == FormOf(s) && editingId == Some(s.id) && showForm
      ensures isSubmitting == old(isSubmitting)
    {
      formData, editingId, showForm := FormOf(s), Some(s.id), true;
    }

    /** The add button: it opens a closed form and closes an open one. */
    method ToggleForm()
      modifies this
      ensures showForm == !old(showForm)
      ensures formData == old(formData) && editingId == old(editingId) && isSubmitting == old(isSubmitting)
    {
      showForm := !showForm;
    }

    /** `handleCancel`. */
    method Cancel()
      modifies this
      ensures formData == EmptyForm && editingId.None? && !showForm
      ensures isSubmitting == old(isSubmitting)
    {
      formData, editingId, showForm := EmptyForm, None, false;
    }

    /** `handleDeleteSalesperson`: only a confirmed delete reaches the store. */
    method DeleteSalesperson(store: Store, id: string, confirmed: bool, backendOk: bool) returns (deleted: bool)
      modifies store
      ensures deleted == (confirmed && backendOk)
      ensures store.salespersons == (if deleted then DeleteSalespersons(old(store.salespersons), id) else old(store.salespersons))
      ensures store.leads == old(store.leads)
    {
      deleted := false;
      if confirmed {
        deleted := store.DeleteSalesperson(id, backendOk);
      }
    }
  }
}
