/**
 * The admin page (client/pages/Admin.tsx): the same salesperson form as the
 * sales team page, but a new salesperson first gets a sign-in account from the
 * server's sign-up endpoint, whose answer is a parameter here.
 */
module AdminPage {
  import opened Wrappers
  import opened Text
  import opened CrmTypes
  import opened CrmStore
  import SalespersonsPage

  /** Only a user whose role is "admin" sees the page; everyone else gets "Access denied". */
  predicate AccessDenied(user: Option<AuthUser>) {
    !HasRole(user, "admin")
  }

  /** The authentication context never sets a role, so nobody it signs in gets past the check. */
  lemma SignedInUsersAreDenied(id: string, email: string, name: string)
    ensures AccessDenied(Some(SessionUser(id, email, name)))
    ensures AccessDenied(None)
  {
    SessionUserHasNoRole(id, email, name, "admin");
  }

  /** The submit checks, in the order they run. */
  datatype AdminError = NameRequired | EmailRequired | PasswordRequired | PasswordsDiffer | PasswordTooShort

  /** The first failing check; the three password checks apply only when creating. */
  function FirstFailure(form: SalespersonsPage.SalespersonForm, password: string, confirmPassword: string, editing: bool): (r: Option<AdminError>)
    ensures r == Some(NameRequired) <==> IsBlank(form.name)
    ensures r == Some(EmailRequired) <==> !IsBlank(form.name) && IsBlank(form.email)
    ensures r == Some(PasswordRequired) <==> !IsBlank(form.name) && !IsBlank(form.email) && !editing && password == ""
    ensures r == Some(PasswordsDiffer) <==>
      !IsBlank(form.name) && !IsBlank(form.email) && !editing && password != "" && password != confirmPassword
    ensures r == Some(PasswordTooShort) <==>
      !IsBlank(form.name) && !IsBlank(form.email) && !editing && password != "" && password == confirmPassword && |password| < 6
    ensures r.None? <==>
      !IsBlank(form.name) && !IsBlank(form.email) && (editing || (password == confirmPassword && |password| >= 6))
  {
    if IsBlank(form.name) then Some(NameRequired)
    else if IsBlank(form.email) then Some(EmailRequired)
    else if editing then None
    else if password == "" then Some(PasswordRequired)
    else if password != confirmPassword then Some(PasswordsDiffer)
    else if |password| < 6 then Some(PasswordTooShort)
    else None
  }

  /** An edit is checked on name and email only, whatever the password fields hold. */
  lemma EditIgnoresPasswords(form: SalespersonsPage.SalespersonForm, p1: string, c1: string, p2: string, c2: string)
    ensures FirstFailure(form, p1, c1, true) == FirstFailure(form, p2, c2, true)
  {
  }

  /** The sign-up endpoint's answer. */
  datatype SignUpReply =
    | SignedUp(userId: Option<string>)
    | NoUser
    | Refused(error: Option<string>)
    | Unreachable(message: string)

  /** The account id to link, or the message the page shows: `Authentication error: ` and the cause. */
  function AuthResult(reply: SignUpReply): (r: Reply<Option<string>>)
    ensures reply.SignedUp? <==> r.Returned?
    ensures reply.SignedUp? ==> r.value == reply.userId
    ensures reply.NoUser? ==> r == Threw("Authentication error: No user returned from signup")
    ensures reply.Refused? ==>
      r == Threw("Authentication error: " + if Truthy(reply.error) then reply.error.value else "Failed to create account")
    ensures reply.Unreachable? ==> r == Threw("Authentication error: " + reply.message)
  {
    match reply
    case SignedUp(id) => Returned(id)
    case NoUser => Threw("Authentication error: No user returned from signup")
    case Refused(e) => Threw("Authentication error: " + Or(e, Some("Failed to create account")).value)
    case Unreachable(m) => Threw("Authentication error: " + m)
  }

  /** The three fields of `Omit<Salesperson, "id" | "createdAt">`. */
  function AdminFormOf(s: Salesperson): (f: SalespersonsPage.SalespersonForm)
    ensures f.name == s.name && f.email == s.email && f.phoneNumber == s.phoneNumber
    ensures f.id.None? && f.createdAt.None?
  {
    SalespersonsPage.SalespersonForm(s.name, s.email, s.phoneNumber, None, None)
  }

  datatype AdminOutcome = Invalid(error: AdminError) | Updated | Added | AuthFailed(message: string) | SaveFailed

  /** A sign-up request: the form's email and the password. */
  datatype SignUpRequest = SignUpRequest(email: string, password: string)

  class Page {
    const user: Option<AuthUser>
    var formData: SalespersonsPage.SalespersonForm
    var password: string
    var confirmPassword: string
    var editingId: Option<string>
    var showForm: bool
    var isSubmitting: bool

    constructor (user: Option<AuthUser>)
      ensures this.user == user && formData == SalespersonsPage.EmptyForm && password == "" && confirmPassword == ""
      ensures editingId.None? && !showForm && !isSubmitting
    {
      this.user := user;
      formData, password, confirmPassword := SalespersonsPage.EmptyForm, "", "";
      editingId, showForm, isSubmitting := None, false, false;
    }

    /**
     * `handleSubmit`. An edit updates the record. A new salesperson first gets an
     * account; a sign-up failure aborts before the store is called, and success
     * links the returned account id. Success clears the form and both passwords
     * and closes the form; failure keeps them.
     */
    method Submit(store: Store, signUp: SignUpReply, addReply: Reply<Salesperson>, updateOk: bool)
      returns (outcome: AdminOutcome, request: Option<SignUpRequest>, sent: Option<SalespersonInput>)
      modifies this, store
      ensures store.leads == old(store.leads)
      ensures FirstFailure(old(formData), old(password), old(confirmPassword), Truthy(old(editingId))).Some? ==>
        outcome == Invalid(FirstFailure(old(formData), old(password), old(confirmPassword), Truthy(old(editingId))).value)
        && request.None? && sent.None? && store.salespersons == old(store.salespersons)
        && formData == old(formData) && password == old(password) && confirmPassword == old(confirmPassword)
        && editingId == old(editingId) && showForm == old(showForm) && isSubmitting == old(isSubmitting)
      ensures FirstFailure(old(formData), old(password), old(confirmPassword), Truthy(old(editingId))).None? ==>
        if Truthy(old(editingId)) then
          request.None? && sent.None?
          && store.salespersons == (if updateOk then UpdateSalespersons(old(store.salespersons), old(editingId).value, SalespersonsPage.PatchOfForm(old(formData)))
                                    else old(store.salespersons))
          && outcome == (if updateOk then Updated else SaveFailed)
        else
          request == Some(SignUpRequest(old(formData).email, old(password)))
          && (AuthResult(signUp).Threw? ==>
                outcome == AuthFailed(AuthResult(signUp).message) && sent.None? && store.salespersons == old(store.salespersons))
          && (AuthResult(signUp).Returned? ==>
                sent == Some(SalespersonsPage.InputOfForm(old(formData), AuthResult(signUp).value))
                && store.salespersons == (if addReply.Returned? then [addReply.value] + old(store.salespersons) else old(store.salespersons))
                && outcome == (if addReply.Returned? then Added else SaveFailed))
      ensures outcome == Updated || outcome == Added ==>
        Cleared() && editingId == (if outcome == Updated then None else old(editingId))
      ensures outcome.AuthFailed? || outcome == SaveFailed ==>
        formData == old(formData) && password == old(password) && confirmPassword == old(confirmPassword)
        && editingId == old(editingId) && showForm == old(showForm) && !isSubmitting
    {
      var failure := FirstFailure(formData, password, confirmPassword, Truthy(editingId));
      if failure.Some? {
        return Invalid(failure.value), None, None;
      }
      if Truthy(editingId) {
        outcome := SaveEdit(store, updateOk);
        request, sent := None, None;
      } else {
        outcome, request, sent := SaveNew(store, signUp, addReply);
      }
    }

    /** The state a successful save leaves: an empty, closed form with no passwords. */
    predicate Cleared()
      reads this
    {
      formData == SalespersonsPage.EmptyForm && password == "" && confirmPassword == "" && !showForm && !isSubmitting
    }

    /** The edit branch of `handleSubmit`. */
    method SaveEdit(store: Store, updateOk: bool) returns (outcome: AdminOutcome)
      requires Truthy(editingId)
      modifies this, store
      ensures store.leads == old(store.leads)
      ensures store.salespersons == (if updateOk then UpdateSalespersons(old(store.salespersons), old(editingId).value, SalespersonsPage.PatchOfForm(old(formData)))
                                     else old(store.salespersons))
      ensures outcome == (if updateOk then Updated else SaveFailed)
      ensures updateOk ==> Cleared() && editingId.None?
      ensures !updateOk ==>
        formData == old(formData) && password == old(password) && confirmPassword == old(confirmPassword)
        && editingId == old(editingId) && showForm == old(showForm) && !isSubmitting
    {
      isSubmitting := true;
      var ok := store.UpdateSalesperson(editingId.value, SalespersonsPage.PatchOfForm(formData), updateOk);
      if !ok {
        isSubmitting := false;
        return SaveFailed;
      }
      editingId := None;
      outcome := Updated;
      formData, password, confirmPassword := SalespersonsPage.EmptyForm, "", "";
      showForm, isSubmitting := false, false;
    }

    /** The create branch of `handleSubmit`: the account first, then the record linked to it. */
    method SaveNew(store: Store, signUp: SignUpReply, addReply: Reply<Salesperson>)
      returns (outcome: AdminOutcome, request: Option<SignUpRequest>, sent: Option<SalespersonInput>)
      modifies this, store
      ensures store.leads == old(store.leads)
      ensures request == Some(SignUpRequest(old(formData).email, old(password)))
      ensures AuthResult(signUp).Threw? ==>
        outcome == AuthFailed(AuthResult(signUp).message) && sent.None? && store.salespersons == old(store.salespersons)
      ensures AuthResult(signUp).Returned? ==>
        sent == Some(SalespersonsPage.InputOfForm(old(formData), AuthResult(signUp).value))
        && store.salespersons == (if addReply.Returned? then [addReply.value] + old(store.salespersons) else old(store.salespersons))
        && outcome == (if addReply.Returned? then Added else SaveFailed)
      ensures outcome == Added ==> Cleared() && editingId == old(editingId)
      ensures outcome != Added ==>
        formData == old(formData) && password == old(password) && confirmPassword == old(confirmPassword)
        && editingId == old(editingId) && showForm == old(showForm) && !isSubmitting
    {
      isSubmitting := true;
      request, sent := Some(SignUpRequest(formData.email, password)), None;
      var auth := AuthResult(signUp);
      if auth.Threw? {
        isSubmitting := false;
        return AuthFailed(auth.message), request, None;
      }
      sent := Some(SalespersonsPage.InputOfForm(formData, auth.value));
      var r := store.AddSalesperson(addReply);
      if !r.Returned? {
        isSubmitting := false;
        return SaveFailed, request, sent;
      }
      outcome := Added;
      formData, password, confirmPassword := SalespersonsPage.EmptyForm, "", "";
      showForm, isSubmitting := false, false;
    }

    /** `handleEditSalesperson`: name, email and phone are loaded and both passwords cleared. */
    method EditSalesperson(s: Salesperson)
      modifies this
      ensures formData == AdminFormOf(s) && editingId == Some(s.id) && showForm
      ensures password == "" && confirmPassword == "" && isSubmitting == old(isSubmitting)
    {
      formData, editingId, showForm := AdminFormOf(s), Some(s.id), true;
      password, confirmPassword := "", "";
    }

    /** `handleDeleteSalesperson`: only a confirmed delete reaches the store; the form is untouched. */
    method DeleteSalesperson(store: Store, id: string, confirmed: bool, backendOk: bool) returns (deleted: bool)
      modifies store
      ensures deleted == (confirmed && backendOk)
      ensures store.salespersons == (if deleted then DeleteSalespersons(old(store.salespersons), id) else old(store.salespersons))
      ensures store.leads == old(store.leads)
    {
      deleted := false;
      if confirmed {
        deleted := store.DeleteSalesperson(id, backendOk);
      }
    }

    /** The add button: it opens a closed form and closes an open one. */
    method ToggleForm()
      modifies this
      ensures showForm == !old(showForm)
      ensures formData == old(formData) && editingId == old(editingId)
      ensures password == old(password) && confirmPassword == old(confirmPassword) && isSubmitting == old(isSubmitting)
    {
      showForm := !showForm;
    }

    /** `handleLogout`: the page moves to /login only when signing out succeeds. */
    method Logout(logoutOk: bool) returns (navigateTo: Option<string>)
      ensures navigateTo == (if logoutOk then Some("/login") else None)
    {
      navigateTo := if logoutOk then Some("/login") else None;
    }

    /** `handleCancel`: everything is cleared. */
    method Cancel()
      modifies this
      ensures formData == SalespersonsPage.EmptyForm && editingId.None? && !showForm
      ensures password == "" && confirmPassword == "" && isSubmitting == old(isSubmitting)
    {
      formData, editingId, showForm := SalespersonsPage.EmptyForm, None, false;
      password, confirmPassword := "", "";
    }
  }
}
