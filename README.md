# AXISPHERECRM core, modelled in Dafny

AXISPHERECRM is a small sales CRM. Admins and salespersons track leads and move them through a
Kanban of sales stages. Leads can be auto-assigned to salespersons in equal blocks. Each lead has
reminders and a log of activity notes. Admins manage salesperson accounts and create invoices
from a fixed catalogue of service packages. Companies are searched in a company-data provider,
imported, edited and deleted. A thin Express server maps provider records and bookmarks to
company rows, validates lead updates and syncs companies into the database. The Vite
development server sends client routes to the single-page application.

The project has one Dafny module per modelled source file, plus five helper modules:

- `Wrappers` provides `Option` and `Reply`. A `Reply` is a backend answer: a returned value, or a thrown error message.
- `Text` provides JavaScript string operations: truthiness, `||`, `trim`, `startsWith`, `includes`, `join` and number rendering.
- `Lists` provides `filter`, `map` with a condition, `find`, `slice`, counting and a sort. The sort is proved stable, as ECMAScript requires of `Array.prototype.sort`.
- `Json` provides JavaScript values and objects. An object is a map from key to value, and a missing key means `undefined`. It also models object spread.
- `Arith` provides division facts.

Each store or page whose fields the source updates in place is a class. Its handlers are methods
whose `ensures` state the whole new state. Row mappers, request builders, filters and date
arithmetic are functions, and lemmas prove what the source promises about them.

Every call to the hosted database, `fetch`, the provider, `confirm()` and the clock is a
parameter. It is a `bool` that says whether the call succeeded, a `Reply` holding its answer, or
an instant `now`. ISO date parsing and locale formatting are function parameters. Timestamps are
integer epoch milliseconds. Prices are whole rupees, and invoice amounts are whole paise.

No source defect is reported. Seven places where the code does something other than what it
suggests are proved as lemmas:

- `RoleAccess.ManageableWithoutUser`: with no user, the unassigned leads are still returned.
- `LeadsPage.LastSalespersonCanGetNone`: auto-assignment can leave a salesperson with nothing.
- `LeadsDashboard.DropOntoOwnColumnCanSend`: dropping a lead back onto its "No Stage" column can still send an update.
- `FormatDateIST.RelativeInvalid`: the two date functions handle an invalid string differently.
- `LeadsPage.SavedEditCopiesEditedLead`: the lead form keeps the edited lead's `id` and `createdAt`, so saving gives every stored lead with that id the edited lead's creation time.
- `CompaniesTable.IdLessEditOpensEveryIdLessRow`: an edit started on a company without an `id` opens every row without one, since `undefined === undefined`.
- `CompaniesTable.NothingEditedShowsAll`: before any edit, a company whose `id` is `null` already shows as inputs, since `null === null`.

The companies page and table compare a company's `id` as the raw value the server sent. The
`Company` type declares `id: string`, but nothing checks that at runtime.

## Model

| member | source | states |
|---|---|---|
| CrmTypes.SessionUser | client/contexts/AuthContext.tsx:4-8 | the user built after a sign-in has the given id and no role, since the user record declares only id, email and name |
| CrmTypes.SessionUserHasNoRole | client/contexts/AuthContext.tsx:49-53 | no user the authentication context builds passes any role test |
| CrmTypes.MergeEmpty | client/hooks/useCRMStore.ts:80 | spreading an empty update over a lead leaves the lead unchanged |
| CrmTypes.MergeFull | client/hooks/useCRMStore.ts:80 | spreading a full copy of one lead over any lead gives that copy |
| CrmTypes.MergeInput | client/hooks/useCRMStore.ts:80 | spreading an object with the form's fields and no id or creation time keeps the lead's id and creation time and takes every other field from the form |
| CrmStore.UpdateLeads | client/hooks/useCRMStore.ts:78-82 | the list keeps its length; each lead with the id becomes the lead merged with the update; every other lead is unchanged |
| CrmStore.DeleteLeads | client/hooks/useCRMStore.ts:94 | no lead with the id survives, and every lead with another id does |
| CrmStore.UpdateSalespersons | client/hooks/useCRMStore.ts:122-126 | the same as UpdateLeads, for salespersons |
| CrmStore.DeleteSalespersons | client/hooks/useCRMStore.ts:138-140 | no salesperson with the id survives, and every other one does |
| CrmStore.FindLead | client/pages/Leads.tsx:144 | a found lead is in the list and has the id; nothing is found exactly when no lead has the id; the lead found is the first with the id |
| CrmStore.FindSalesperson | client/pages/LeadsDashboard.tsx:78 | a found salesperson has the id and is the first with it; nothing is found exactly when no salesperson has the id |
| CrmStore.UpdateUnknownLead | client/hooks/useCRMStore.ts:78-82 | an update for an id no lead has leaves the list as it was |
| CrmStore.DeleteLeadsCounts | client/hooks/useCRMStore.ts:94 | after a delete, a lead with the id occurs zero times and every other lead as often as before |
| CrmStore.DeleteLeadsOrder | client/hooks/useCRMStore.ts:94 | delete distributes over concatenation, so the surviving leads keep their order |
| CrmStore.DeleteSalespersonsCounts | client/hooks/useCRMStore.ts:138-140 | after a delete, a salesperson with the id occurs zero times and every other one as often as before |
| CrmStore.Store.constructor | client/hooks/useCRMStore.ts:38-40 | both lists start empty and the store starts loading |
| CrmStore.Store.Load | client/hooks/useCRMStore.ts:43-61 | both lists become what the two queries return, and loading ends |
| CrmStore.Store.AddLead | client/hooks/useCRMStore.ts:63-72 | a created lead goes to the front and is returned; a failure is re-thrown and leaves the list unchanged |
| CrmStore.Store.UpdateLead | client/hooks/useCRMStore.ts:74-89 | the local list is merged only after the backend succeeds; a failure leaves it unchanged |
| CrmStore.Store.DeleteLead | client/hooks/useCRMStore.ts:91-99 | the lead is removed only after the backend succeeds |
| CrmStore.Store.AddSalesperson | client/hooks/useCRMStore.ts:101-116 | a created salesperson goes to the front and is returned; a failure is re-thrown and leaves the list unchanged |
| CrmStore.Store.UpdateSalesperson | client/hooks/useCRMStore.ts:118-133 | the local list is merged only after the backend succeeds |
| CrmStore.Store.DeleteSalesperson | client/hooks/useCRMStore.ts:135-145 | the salesperson is removed only after the backend succeeds |
| SupabaseDb.LeadOfRow | client/lib/supabase-db.ts:16-30 | each snake_case column goes to its camelCase field; a null array column becomes [] |
| SupabaseDb.GetLeads | client/lib/supabase-db.ts:5-31 | a query error or null data gives []; otherwise there is one lead per row, in row order |
| SupabaseDb.InsertPayload | client/lib/supabase-db.ts:36-50 | the insert object has exactly the eleven browser columns, each holding its field's value |
| SupabaseDb.StoredRowHoldsPayload | client/lib/supabase-db.ts:36-52 | the stored row holds, in every column sent, what the insert object sent |
| SupabaseDb.AddLead | client/lib/supabase-db.ts:54-73 | an error is re-thrown; a returned row is mapped back to a lead |
| SupabaseDb.AddLeadRoundTrip | client/lib/supabase-db.ts:33-74 | inserting the form data and mapping the row back gives the form's eleven fields unchanged, with the generated id and time; the assignee, status, note and reminder date the form holds are not saved |
| SupabaseDb.UpdatePayload | client/lib/supabase-db.ts:76-89 | each browser column is in the update object exactly when its field is defined in the update, holding that value |
| SupabaseDb.UpdateNeverWritesStoreFields | client/lib/supabase-db.ts:77-89 | the assignee, status, note and reminder-date columns are never written, whatever the update holds |
| SupabaseDb.StatusUpdateSendsNothing | client/lib/supabase-db.ts:77-94 | a status-only update, as a Kanban drop sends it, writes an empty object |
| SupabaseDb.Completed | client/lib/supabase-db.ts:96-99 | the call throws exactly when the query reports an error, with that error |
| SupabaseDb.SalespersonOfRow | client/lib/supabase-db.ts:123-129 | each column goes to its field |
| SupabaseDb.GetSalespersons | client/lib/supabase-db.ts:112-130 | a query error or null data gives []; otherwise there is one record per row, in order |
| SupabaseDb.SalespersonInsert | client/lib/supabase-db.ts:135-141 | the insert object has exactly name, email and phone_number |
| SupabaseDb.AddSalespersonRoundTrip | client/lib/supabase-db.ts:132-157 | the inserted salesperson read back keeps its name, email and phone; no auth id column is sent |
| SupabaseDb.AddSalesperson | client/lib/supabase-db.ts:145-156 | an error is re-thrown; a returned row is mapped back |
| SupabaseDb.SalespersonUpdatePayload | client/lib/supabase-db.ts:159-164 | each of the three columns is present exactly when its field is defined, holding that value, and no other column is present |
| RoleAccess.CanViewLead | client/hooks/useRoleBasedAccess.ts:13-19 | a lead is viewable exactly when a user is signed in |
| RoleAccess.CanEditLead | client/hooks/useRoleBasedAccess.ts:21-30 | under the fixed salesperson role, a lead is editable exactly by the signed-in user it is assigned to |
| RoleAccess.CanDeleteLead | client/hooks/useRoleBasedAccess.ts:32-41 | deleting is allowed exactly when editing is |
| RoleAccess.CanAssignLeads | client/hooks/useRoleBasedAccess.ts:43-46 | the salesperson role may not assign leads |
| RoleAccess.CanAutoAssignLeads | client/hooks/useRoleBasedAccess.ts:48-51 | the salesperson role may not auto-assign leads |
| RoleAccess.GetViewableLeads | client/hooks/useRoleBasedAccess.ts:53-60 | every lead is viewable: the list is returned unchanged |
| RoleAccess.NoUserNoAccess | client/hooks/useRoleBasedAccess.ts:13-41 | with nobody signed in, no lead can be viewed, edited or deleted |
| RoleAccess.ManageableIsEditable | client/hooks/useRoleBasedAccess.ts:62-69 | for a signed-in user, the manageable leads are exactly the editable ones, in their original order |
| RoleAccess.ManageableWithoutUser | client/hooks/useRoleBasedAccess.ts:68 | with nobody signed in, the filter keeps the unassigned leads, although none of them is editable |
| InvoiceStore.DeleteInvoices | client/hooks/useInvoiceStore.ts:58-60 | no invoice with the id survives, and every invoice with another id does |
| InvoiceStore.DeleteInvoicesCounts | client/hooks/useInvoiceStore.ts:58-60 | after a delete, an invoice with the id occurs zero times and every other invoice as often as before |
| InvoiceStore.DeleteInvoicesOrder | client/hooks/useInvoiceStore.ts:58-60 | delete distributes over concatenation, so the survivors keep their order |
| InvoiceStore.Store.constructor | client/hooks/useInvoiceStore.ts:11-12 | the list starts empty and the store starts loading |
| InvoiceStore.Store.Load | client/hooks/useInvoiceStore.ts:15-29 | the fetched list replaces the list; a failed fetch keeps it; loading ends either way |
| InvoiceStore.Store.AddInvoice | client/hooks/useInvoiceStore.ts:31-43 | a created invoice goes to the front and is returned; a failure is re-thrown and leaves the list unchanged |
| InvoiceStore.Store.GetInvoiceById | client/hooks/useInvoiceStore.ts:45-53 | the backend's answer or error is handed back as it is |
| InvoiceStore.Store.DeleteInvoice | client/hooks/useInvoiceStore.ts:55-65 | the invoice is removed only after the backend succeeds |
| Packages.FindPackage | client/pages/CreateInvoice.tsx:20 | a found package is in the catalogue and has the id; nothing is found only when no catalogue package has it |
| Packages.IdsDistinct | client/lib/packages.ts:10-73 | the three ids differ, and each finds its own package |
| Packages.UnknownIdNotFound | client/lib/packages.ts:10-73 | an id other than starter, growth or enterprise finds no package |
| Packages.PricesIncrease | client/lib/packages.ts:14-56 | the prices are positive and strictly increase along the catalogue: 30000, 75000, 150000 |
| Packages.FeaturesNonEmpty | client/lib/packages.ts:10-73 | every package lists at least one feature |
| Packages.FeaturesDistinct | client/lib/packages.ts:10-73 | no package lists a feature twice, so the per-feature checklist has one box per feature |
| CreateInvoice.FirstFailure | client/pages/CreateInvoice.tsx:65-108 | the five checks run in order (name, email, phone, tax not negative, paid amount above 0); each error is reported exactly when it is the first that fails, and none exactly when all pass |
| CreateInvoice.AllSelected | client/pages/CreateInvoice.tsx:38-44 | the selection has exactly the package's features as keys, each included |
| CreateInvoice.Toggle | client/pages/CreateInvoice.tsx:152-157 | the toggled feature flips (a missing entry counts as unchecked) and every other feature keeps its state |
| CreateInvoice.ToggleTwice | client/pages/CreateInvoice.tsx:152-157 | toggling the same feature twice restores every feature's state |
| CreateInvoice.Scope | client/pages/CreateInvoice.tsx:110-113 | one scope entry per package feature, in catalogue order, included exactly when the feature is checked |
| CreateInvoice.ScopeAllSelected | client/pages/CreateInvoice.tsx:37-46 | with the initial all-checked selection, every scope entry is included |
| CreateInvoice.ScopeAfterToggle | client/pages/CreateInvoice.tsx:110-113 | after unchecking one feature, exactly the entries for that feature are left out |
| CreateInvoice.Draft | client/pages/CreateInvoice.tsx:117-129 | the invoice sent carries the form's fields, the package's id, name and price, the scope, and a tax rate of 18 whatever the form's tax field holds |
| CreateInvoice.DraftPriceFromCatalogue | client/pages/CreateInvoice.tsx:124 | a catalogue package's invoice is priced at 30000, 75000 or 150000 |
| CreateInvoice.Page.constructor | client/pages/CreateInvoice.tsx:18-34 | the package is looked up by the route's id; the paid amount starts at its price, or 0; the other fields start empty |
| CreateInvoice.Page.Render | client/pages/CreateInvoice.tsx:36-60 | a missing package shows "Package not found"; an empty selection is filled with every feature checked; nothing else changes |
| CreateInvoice.Page.ToggleFeature | client/pages/CreateInvoice.tsx:152-157 | the selection becomes its toggle at that feature, and the form is untouched |
| CreateInvoice.Page.SelectAllFeatures | client/pages/CreateInvoice.tsx:159-168 | the selection is rebuilt with every feature checked |
| CreateInvoice.Page.Submit | client/pages/CreateInvoice.tsx:62-150 | a failed check returns that error and sends nothing; otherwise the draft is sent, a created invoice leads to /invoice/ and its id, a failure stays; submitting ends either way |
| InvoiceView.InvoiceTotals | client/pages/InvoiceView.tsx:129-131 | the subtotal is the package price, the tax is the subtotal times the rate over 100 (exact in paise), and the total is their sum |
| InvoiceView.ListAmount | client/pages/InvoicesList.tsx:131-132 | the invoice list's amount is the price plus 18 percent of it, exact in paise |
| InvoiceView.ViewTotalMatchesList | client/pages/InvoiceView.tsx:129-131 | at the stored rate of 18 percent, the viewer's total equals the list's amount for every price |
| InvoiceView.OtherRatesDisagree | client/pages/InvoiceView.tsx:130 | at any other rate, the two amounts differ for every non-zero price |
| InvoiceView.PdfFilename | client/pages/InvoiceView.tsx:78 | the PDF is named after the invoice number, or "invoice" when there is none, with ".pdf" added |
| InvoiceView.DueDate | client/pages/InvoiceView.tsx:148-150 | the due date is exactly 30 whole days after the creation instant |
| InvoiceView.PrevPage | client/pages/InvoiceView.tsx:423 | the previous-page target is never below page 1 and goes back one page from any later page |
| InvoiceView.NextPage | client/pages/InvoiceView.tsx:434 | the next-page target is never above page 2 and goes on one page from any earlier page |
| InvoiceView.NavigationStaysInRange | client/pages/InvoiceView.tsx:413-445 | from either page, both buttons land on page 1 or 2; back always reaches the bill and on always reaches the scope |
| InvoiceView.Viewer.constructor | client/pages/InvoiceView.tsx:22-24 | no invoice yet, loading, on page 1 |
| InvoiceView.Viewer.Load | client/pages/InvoiceView.tsx:28-67 | a missing id leaves for /admin before any lookup; a found invoice is shown; a missing one or a failed lookup leaves for /admin; once the lookup starts, loading ends whatever the outcome |
| InvoiceView.Viewer.ShowBill | client/pages/InvoiceView.tsx:413 | the bill page is shown |
| InvoiceView.Viewer.ShowScope | client/pages/InvoiceView.tsx:444 | the scope page is shown |
| InvoiceView.Viewer.Prev | client/pages/InvoiceView.tsx:423-426 | the page becomes the previous-page target and stays 1 or 2 |
| InvoiceView.Viewer.Next | client/pages/InvoiceView.tsx:434-437 | the page becomes the next-page target and stays 1 or 2 |
| SalespersonsPage.PatchOfForm | client/pages/Salespersons.tsx:43 | the update sent carries every field the form holds: name, email and phone always, and the id and creation time when an edit loaded them |
| SalespersonsPage.InputOfForm | client/pages/Salespersons.tsx:50 | the new salesperson sent carries the form's name, email and phone and the given account id |
| SalespersonsPage.FormOf | client/pages/Salespersons.tsx:76 | editing copies the whole record, id and creation time included, into the form |
| SalespersonsPage.SaveUnchangedEdit | client/pages/Salespersons.tsx:42-43 | saving an edit loaded from a record and left untouched gives that record back |
| SalespersonsPage.EditKeepsIdentity | client/pages/Salespersons.tsx:42-43 | an edited record keeps its id and creation time, whatever the text fields now hold |
| SalespersonsPage.Page.constructor | client/pages/Salespersons.tsx:18-27 | the form starts empty and closed, with no edit and nothing submitting |
| SalespersonsPage.Page.Submit | client/pages/Salespersons.tsx:29-73 | a name blank after trimming is refused with no store call; an edit id updates and anything else adds; success clears the form and closes it, and an update also ends the edit; a failure keeps all of them |
| SalespersonsPage.Page.SaveEdit | client/pages/Salespersons.tsx:42-62 | the update goes to the store for the record being edited; success clears the form, ends the edit and closes the form, and failure keeps all three |
| SalespersonsPage.Page.SaveNew | client/pages/Salespersons.tsx:49-62 | the created salesperson goes to the front of the list; success clears and closes the form, and failure keeps it |
| SalespersonsPage.Page.EditSalesperson | client/pages/Salespersons.tsx:75-79 | the record goes into the form, its id becomes the edit, and the form opens |
| SalespersonsPage.Page.DeleteSalesperson | client/pages/Salespersons.tsx:81-98 | only a confirmed delete reaches the store, and the salesperson leaves the list only when the backend succeeds |
| SalespersonsPage.Page.ToggleForm | client/pages/Salespersons.tsx:134 | the add button opens a closed form and closes an open one |
| SalespersonsPage.Page.Cancel | client/pages/Salespersons.tsx:100-108 | the form is cleared and closed and the edit ends |
| AdminPage.AccessDenied | client/pages/Admin.tsx:39-48 | everyone but a signed-in user whose role is "admin" is shown "Access denied" |
| AdminPage.SignedInUsersAreDenied | client/pages/Admin.tsx:39 | users built by the authentication context, and nobody signed in, are all denied, because no role is ever set |
| AdminPage.FirstFailure | client/pages/Admin.tsx:54-100 | name, then email, and then, for a new salesperson only, the password: present, equal to its confirmation, at least 6 characters; each error is reported exactly when it is the first that fails |
| AdminPage.EditIgnoresPasswords | client/pages/Admin.tsx:72 | an edit is checked on name and email only, whatever the password fields hold |
| AdminPage.AuthResult | client/pages/Admin.tsx:114-147 | a created account gives its id; every sign-up failure becomes "Authentication error: " and its cause, and the server's refusal falls back to "Failed to create account" |
| AdminPage.AdminFormOf | client/pages/Admin.tsx:186-190 | editing loads only name, email and phone into the form |
| AdminPage.Page.constructor | client/pages/Admin.tsx:23-34 | the form and both passwords start empty, closed, with no edit |
| AdminPage.Page.Submit | client/pages/Admin.tsx:51-183 | a failed check sends nothing; an edit updates the record; a new salesperson first gets an account, and a sign-up failure stops before the store is called, while success links the account id; success clears the form and both passwords, failure keeps them |
| AdminPage.Page.SaveEdit | client/pages/Admin.tsx:104-111 | the edit branch: the record is merged only after the backend succeeds, which also ends the edit and clears the form |
| AdminPage.Page.SaveNew | client/pages/Admin.tsx:112-169 | the create branch: the sign-up request carries the form's email and the password, and the record is added, linked to the new account, only after both calls succeed |
| AdminPage.Page.EditSalesperson | client/pages/Admin.tsx:185-195 | name, email and phone are loaded, the edit id is set, both passwords are cleared and the form opens |
| AdminPage.Page.DeleteSalesperson | client/pages/Admin.tsx:197-214 | only a confirmed delete reaches the store, and the salesperson leaves the list only when the backend succeeds |
| AdminPage.Page.ToggleForm | client/pages/Admin.tsx:270 | the add button opens a closed form and closes an open one |
| AdminPage.Page.Logout | client/pages/Admin.tsx:228-243 | the page moves to /login only when signing out succeeds |
| AdminPage.Page.Cancel | client/pages/Admin.tsx:216-226 | the form and both passwords are cleared, the form closes and the edit ends |
| LeadDetailModal.NonEmpty | client/components/LeadDetailModal.tsx:200 | the empty entries are dropped and every non-empty entry is kept |
| LeadDetailModal.DisplayedWithoutBlanks | client/components/LeadDetailModal.tsx:200-267 | a list field without empty entries is shown as its entries joined by ", " |
| LeadDetailModal.DisplayedEmptyIff | client/components/LeadDetailModal.tsx:200-267 | the shown text is empty exactly when every entry is empty, so no separator is left dangling |
| LeadDetailModal.DeleteNotes | client/components/LeadDetailModal.tsx:118 | no note with the id survives, and every other note does |
| LeadDetailModal.DeleteNotesCounts | client/components/LeadDetailModal.tsx:118 | after a delete, a note with the id occurs zero times and every other note as often as before |
| LeadDetailModal.AddedNoteHidesEmptyLog | client/components/LeadDetailModal.tsx:350-353 | once a note is added the "No activity logs yet" message is gone, whatever the main note |
| LeadDetailModal.Modal.constructor | client/components/LeadDetailModal.tsx:45-51 | no notes and no text yet; the status choice starts at the lead's status, or "" when it has none |
| LeadDetailModal.Modal.LoadNotes | client/components/LeadDetailModal.tsx:60-75 | the fetched notes replace the list; a failure keeps it; loading ends either way |
| LeadDetailModal.Modal.AddNote | client/components/LeadDetailModal.tsx:77-111 | a blank text is refused with no request; otherwise the request carries the lead id, the text and the status (none for ""), and a created note goes to the front and clears the text and the status; a failure keeps them |
| LeadDetailModal.Modal.SendNote | client/components/LeadDetailModal.tsx:87-110 | the request carries the lead id, the text and the status (none for ""); a created note goes to the front and clears the text and the status, a failure keeps all three; adding ends either way |
| LeadDetailModal.Modal.DeleteNote | client/components/LeadDetailModal.tsx:113-130 | the note is removed only after the confirmation and the backend's success |
| CompaniesRoute.LeadingDigits | server/routes/companies.ts:16-17 | the digit run parseInt reads is a prefix of the text, all digits, and maximal |
| CompaniesRoute.ParseIntRoundTrip | server/routes/companies.ts:16-17 | parseInt reads back a rendered count followed by any non-digit text as that count |
| CompaniesRoute.ParseIntNegative | server/routes/companies.ts:16-17 | with a minus sign in front, it reads back the negated count |
| CompaniesRoute.Limit | server/routes/companies.ts:16 | the limit is always 1 to 500; a missing, unreadable or zero value gives 100; a value in range is kept; larger values give 500 and negative ones 1 |
| CompaniesRoute.Page | server/routes/companies.ts:17 | the page is always at least 1; a readable value of 1 or more is kept and anything else gives 1 |
| CompaniesRoute.Copied | server/routes/companies.ts:101-115 | each of the fifteen copied properties comes from its snake_case provider field, and nothing else is copied |
| CompaniesRoute.IdAndNameNotCopied | server/routes/companies.ts:99-100 | id and name are not among the plainly copied properties; each mapper sets them itself |
| CompaniesRoute.MapOrganization | server/routes/companies.ts:97-117 | the id is `id`, or `organization_id` when `id` is falsy; the name is `name`; the fifteen details are copied; nothing else is set |
| CompaniesRoute.MapBookmark | server/routes/companies.ts:119-139 | the id is `organization_id`, or `id` when that is falsy; the name is `organization_name`, or `name`; the fifteen details are copied; nothing else is set |
| CompaniesRoute.MappersAgreeOnDetails | server/routes/companies.ts:97-139 | the two mappers agree on every property except id and name |
| CompaniesRoute.IdPrecedenceDiffers | server/routes/companies.ts:99 | a record carrying both ids gets a different id from each mapper |
| CompaniesRoute.CompanyOf | server/routes/companies.ts:53-75 | a bookmark yields a company exactly when it has a truthy id |
| CompaniesRoute.CompaniesSpec | server/routes/companies.ts:52-79 | bookmarks without an id are dropped, and every other bookmark gives exactly one company, in bookmark order |
| CompaniesRoute.FailedDetailFallsBack | server/routes/companies.ts:63-74 | a bookmark whose detail request fails, throws or answers `null` (whose `organization` read throws) is reported from its own fields |
| CompaniesRoute.DetailAnswerMapped | server/routes/companies.ts:69-70 | an object answer is mapped as an organization: its `organization` when truthy, the answer itself otherwise |
| CompaniesRoute.Total | server/routes/companies.ts:83 | the total is the provider's total_entries when truthy, and otherwise the number of companies |
| CompaniesRoute.HasMore | server/routes/companies.ts:86 | with no page count there is no more; with a numeric one, there is more exactly when the page is below it |
| CompaniesRoute.HandleGetCompanies | server/routes/companies.ts:5-95 | no key gives an error before any request; the bookmark request carries the clamped limit and page; a failed request's status is passed through; a thrown error is reported; a listed response carries the companies, the total, the page, the limit and whether more exist; a bookmarks value that is not an array, or a null bookmark, is an error |
| CompaniesRoute.ListBookmarks | server/routes/companies.ts:46-87 | a missing or falsy list gives no companies; a list gives one company per bookmark, with the total, the page, the limit and whether more exist; a list value that is not an array, or a null bookmark, throws |
| SyncCompaniesRoute.SyncRow | server/routes/sync-companies.ts:32-36 | the row's key is `apolloId`, or `id` when that is falsy; the name is copied; the status is "synced"; no other column is set |
| SyncCompaniesRoute.SyncRows | server/routes/sync-companies.ts:32 | one row per company, in the same order |
| SyncCompaniesRoute.SyncedCount | server/routes/sync-companies.ts:58-66 | the count is the number of rows the database returned, or 0 when it returned none |
| SyncCompaniesRoute.HandleSyncCompanies | server/routes/sync-companies.ts:13-82 | a body whose companies value is missing, falsy or not an array is refused with nothing upserted; a null company makes the mapping throw; otherwise the rows are upserted and a database error or success is reported |
| SyncCompaniesRoute.RowKeys | server/routes/sync-companies.ts:33-35 | every row is marked synced, and its key prefers `apolloId` over `id`; with neither there is no key |
| SyncCompaniesRoute.ReportedCountIsReturnedRows | server/routes/sync-companies.ts:58-66 | a successful sync reports as many companies as the database returned, whatever was sent |
| SyncCompaniesRoute.EmptyArraySyncsNothing | server/routes/sync-companies.ts:17 | an empty array passes the check and upserts no rows |
| LeadColumns.ClientColumnsOmitStoreFields | client/lib/supabase-db.ts:79-89 | the browser's update names no column for the assignee, status, note or reminder date |
| LeadColumns.ServerExtendsClient | server/routes/leads.ts:41-62 | the server route writes the browser's eleven columns under the same names, plus exactly the four store-only fields |
| LeadColumns.EveryFieldHasServerColumn | server/routes/leads.ts:41-62 | every lead field has a server column, and the table names that column for the field |
| LeadColumns.ColumnsOneToOne | server/routes/leads.ts:41-62 | no two server columns hold the same field |
| LeadColumns.OptStr | client/lib/supabase-db.ts:79-89 | an optional entry is written exactly when it is present and not `undefined` |
| LeadColumns.StatusPatchHasNoClientValue | client/lib/supabase-db.ts:79-89 | a status-only update has no value for any browser column, and has the status as the value of the status field |
| LeadColumns.Position | server/routes/leads.ts:41-62 | the fifteen assignments are numbered in source order, the four store-only fields last |
| LeadColumns.ColumnsNamedByField | server/routes/leads.ts:41-62 | each table names a field's column as the server column mapping does |
| LeadColumns.ColumnTablesInjective | client/lib/supabase-db.ts:79-89 | neither table gives two columns the same field |
| LeadColumns.FieldsHaveColumns | server/routes/leads.ts:41-62 | every stored field has a browser column and every field has a server column |
| LeadColumns.SetColumn | server/routes/leads.ts:41 | one guarded assignment: the column is set exactly when the field's value is defined, and the object so far stays correct for one more field |
| LeadColumns.WriteProfileColumns | server/routes/leads.ts:41-44 | after the name, job title, company and email steps, those four columns are written exactly when defined |
| LeadColumns.WriteListColumns | server/routes/leads.ts:45-50 | after the phone, action, link and location steps, the first eight columns are written exactly when defined |
| LeadColumns.WriteCompanyColumns | server/routes/leads.ts:51-56 | after the three company steps, the first eleven columns are written exactly when defined |
| LeadColumns.WriteStoreColumns | server/routes/leads.ts:57-62 | after the four store-field steps, all fifteen columns are written exactly when defined |
| LeadColumns.WrittenForAll | server/routes/leads.ts:39-62 | once every column's field is done, the object holds exactly the defined values under their columns |
| LeadColumns.ColumnTablesLayout | server/routes/leads.ts:41-62 | the browser's table has the eleven stored fields' columns and the server's has all fifteen |
| LeadColumns.WriteClientColumns | client/lib/supabase-db.ts:77-89 | the eleven guarded assignments, in order, build an object holding exactly the defined fields under their columns |
| LeadColumns.WriteServerColumns | server/routes/leads.ts:39-62 | the fifteen guarded assignments, in order, build an object holding exactly the defined fields under their columns |
| LeadsRoute.HandleUpdateLead | server/routes/leads.ts:21-88 | without a database client the answer is 500 before anything else; a falsy lead id or updates gives 400 with no call; otherwise the built object goes to the lead, and the database's answer gives 400 with its message, success, or 500 when it throws |
| LeadsRoute.OnlyNamedColumnsWritten | server/routes/leads.ts:39-62 | only the fifteen named columns are ever written, never id or created_at, whatever the request carries |
| LeadsRoute.ColumnIffPropertyPresent | server/routes/leads.ts:41-62 | a field's column is written exactly when the request's updates carry that property, with its value |
| LeadsRoute.UnknownPropertiesWriteNothing | server/routes/leads.ts:39-62 | updates naming only unknown properties write nothing |
| LeadsPage.LeadsPerPerson | client/pages/Leads.tsx:192-194 | `Math.ceil(n / m)`: the block size covers all `n` leads (`per * m >= n`) and is the least such size (`(per - 1) * m < n`) |
| LeadsPage.TargetInRange | client/pages/Leads.tsx:198-213 | the salesperson index the loop reaches for each lead is below the number of salespersons, so the wrap-around branch never fires |
| LeadsPage.CounterStep | client/pages/Leads.tsx:198-214 | one loop turn: after the "block full" reset the index equals `i / per`, stays in range, and the count advances by one |
| LeadsPage.AssignPrefixStep | client/pages/Leads.tsx:198-214 | the store after `k + 1` updates is the store after `k` updates with the next unassigned lead merged with `{ ...lead, assignedTo }` |
| LeadsPage.AutoAssign | client/pages/Leads.tsx:172-229 | no salespersons or no unassigned leads: nothing is sent; otherwise the unassigned leads are updated in order until the first failure, the store holding exactly the first updates that succeeded; the salespersons are unchanged |
| LeadsPage.AssignInOrder | client/pages/Leads.tsx:191-215 | the loop updates the unassigned leads in order and stops at the first failure, which it reports; the store then holds exactly the updates that succeeded |
| LeadsPage.NextSlot | client/pages/Leads.tsx:199-207 | the counters move on to the salesperson the lead goes to, which is always in range, and stay consistent with the number of leads handled |
| LeadsPage.UnassignedDistinct | client/pages/Leads.tsx:182 | filtering the unassigned leads keeps ids distinct |
| LeadsPage.SameIdSameLead | client/pages/Leads.tsx:182 | with distinct ids, an unassigned lead with the id of a stored lead is that lead |
| LeadsPage.AssignPatchIsCopy | client/pages/Leads.tsx:211-214 | the auto-assign update is the whole lead with only `assignedTo` replaced |
| LeadsPage.AssignPrefixShape | client/pages/Leads.tsx:198-214 | the assignments keep the list's length and each position's id |
| LeadsPage.AssignPrefixStepAt | client/pages/Leads.tsx:198-214 | one step changes the lead at a position exactly when that lead has the step's id |
| LeadsPage.AssignPrefixUntouched | client/pages/Leads.tsx:198-214 | steps for other ids leave a position untouched |
| LeadsPage.AssignPrefixHit | client/pages/Leads.tsx:182-214 | the step for the i-th unassigned lead leaves that lead with exactly the new assignee and nothing else changed |
| LeadsPage.AssignPrefixEffect | client/pages/Leads.tsx:182-214 | after `k` steps, the i-th unassigned lead (i < k) has assignee `Target(i)` and is otherwise unchanged; every other lead, including already-assigned ones, is untouched |
| LeadsPage.ShareClosedForm | client/pages/Leads.tsx:192-214 | salesperson `j` receives `min(per, n - j * per)` leads when positive, else none |
| LeadsPage.ShareBound | client/pages/Leads.tsx:192-214 | no salesperson receives more than `ceil(n / m)` leads |
| LeadsPage.LastSalespersonCanGetNone | client/pages/Leads.tsx:192-214 | five leads over four salespersons go 2, 2, 1, 0: the distribution is not even |
| LeadsPage.SetArray | client/pages/Leads.tsx:309-313 | `{ ...prev, [field]: xs }`: the chosen list field becomes `xs` and every other field is kept |
| LeadsPage.UpdateItem | client/pages/Leads.tsx:311-313 | same length; position `index` holds the new value and every other position is kept |
| LeadsPage.UpdateItemOutOfRange | client/pages/Leads.tsx:311-313 | an index outside the list changes nothing |
| LeadsPage.AddItem | client/pages/Leads.tsx:328-331 | the list gains one blank entry at the end, the rest kept |
| LeadsPage.RemoveItemSpec | client/pages/Leads.tsx:346-351 | removing deletes exactly position `index` and keeps the rest in order; an out-of-range index changes nothing |
| LeadsPage.RemoveAddedItem | client/pages/Leads.tsx:317-351 | removing the blank entry just added restores the list |
| LeadsPage.SessionUserSeesOwnLeads | client/pages/Leads.tsx:66-69 | a user without an admin role sees exactly the leads assigned to them, in order |
| LeadsPage.SalespersonLabel | client/pages/Leads.tsx:354-358 | "-" for no id, an unknown id or an empty name; otherwise the name of the first salesperson with that id |
| LeadsPage.EmptyForm | client/pages/Leads.tsx:48-64 | the blank form: empty name, one empty phone number, status "Not lifted", an assignee exactly when the user is a salesperson, and no id or creation time |
| LeadsPage.FormOf | client/pages/Leads.tsx:138 | the form holds the whole lead, its id and creation time included, so spreading the untouched form over any lead gives this lead back |
| LeadsPage.SavedEditCopiesEditedLead | client/pages/Leads.tsx:85 | saving an edit of a lead makes every stored lead with its id equal to that lead with the form's fields, its creation time included; the other leads are unchanged |
| LeadsPage.LeadForm.constructor | client/pages/Leads.tsx:45-64 | the form starts blank, closed, not editing and not submitting |
| LeadsPage.LeadForm.UpdateArrayField | client/pages/Leads.tsx:296-315 | one entry of the chosen list field is replaced; the edit state is kept |
| LeadsPage.LeadForm.AddArrayField | client/pages/Leads.tsx:317-332 | the chosen list field gains a blank entry; the edit state is kept |
| LeadsPage.LeadForm.RemoveArrayField | client/pages/Leads.tsx:334-352 | the chosen list field loses one entry; the edit state is kept |
| LeadsPage.LeadForm.Submit | client/pages/Leads.tsx:71-127 | a blank name is refused with no call; a truthy `editingId` spreads the whole form into that lead, otherwise the lead is added at the front; success resets and closes the form (and ends the edit), failure keeps everything; `isSubmitting` is cleared once the call settles |
| LeadsPage.LeadForm.SaveEdit | client/pages/Leads.tsx:84-117 | the form is spread into the leads with the edited id only when the update succeeds, and then the form is reset, closed and the edit ends; either way `isSubmitting` is cleared, as the `finally` block does |
| LeadsPage.LeadForm.SaveNew | client/pages/Leads.tsx:91-117 | the created lead goes first only when the add succeeds, and then the form is reset and closed; either way `isSubmitting` is cleared |
| LeadsPage.LeadForm.EditLead | client/pages/Leads.tsx:129-141 | a lead the user may not edit is refused with nothing changed; otherwise the form holds the whole lead, id and creation time included, and opens on its id |
| LeadsPage.LeadForm.Cancel | client/pages/Leads.tsx:274-294 | the form is blank, closed and not editing |
| LeadsPage.LeadForm.DeleteLead | client/pages/Leads.tsx:143-170 | a missing or non-deletable lead is refused; without confirmation nothing is sent; otherwise the lead leaves the store only when the delete succeeds |
| LeadsPage.AssignChangePatch | client/pages/Leads.tsx:256-259 | the update is the whole lead with `assignedTo` set to the choice, an empty choice becoming `undefined` |
| LeadsPage.AssignChange | client/pages/Leads.tsx:251-272 | an unknown lead id sends nothing; success merges the assignee update into that lead; failure leaves the leads unchanged |
| LeadsPage.StatusChange | client/pages/Leads.tsx:231-249 | an unknown lead id sends nothing; success replaces that lead's status; failure leaves the leads unchanged |
| LeadsPage.AssignChangeEffect | client/pages/Leads.tsx:251-259 | a successful assignee change leaves the lead with exactly the chosen assignee and nothing else changed |
| LeadsDashboard.ColumnOf | client/pages/LeadsDashboard.tsx:67-73 | a lead is shown in its claimed stage (`status \|\| "No Stage"`) when that is one of the seven stages, and under "No Stage" otherwise; the column is always one of the seven |
| LeadsDashboard.GroupKeysAreStages | client/pages/LeadsDashboard.tsx:8-16 | the grouping record's keys are exactly the seven stages |
| LeadsDashboard.PushLead | client/pages/LeadsDashboard.tsx:67-73 | the `forEach` callback keeps every column equal to the leads seen so far that belong in it |
| LeadsDashboard.GroupByStatus | client/pages/LeadsDashboard.tsx:57-74 | one array per stage, each holding exactly the leads of that column in list order |
| LeadsDashboard.GroupStep | client/pages/LeadsDashboard.tsx:67-73 | pushing a lead onto its own column keeps every column equal to the filter of the leads seen so far |
| LeadsDashboard.ExactlyOneColumn | client/pages/LeadsDashboard.tsx:57-74 | a lead appears in its own column exactly as often as in the list, and in no other column |
| LeadsDashboard.ColumnOrder | client/pages/LeadsDashboard.tsx:67-73 | columns keep the leads' relative order |
| LeadsDashboard.UnknownStatusGoesToNoStage | client/pages/LeadsDashboard.tsx:68-72 | a lead with no status, or a status outside the seven stages, is under "No Stage" |
| LeadsDashboard.ColumnsTotalCovering | client/pages/LeadsDashboard.tsx:57-74 | over distinct stages covering every lead's column, the column sizes add up to the number of leads |
| LeadsDashboard.StagesDistinct | client/pages/LeadsDashboard.tsx:8-16 | the seven stage names are distinct |
| LeadsDashboard.ColumnSizesSum | client/pages/LeadsDashboard.tsx:139-141 | the seven column counts add up to the number of leads: no lead is lost or shown twice |
| LeadsDashboard.SalespersonName | client/pages/LeadsDashboard.tsx:76-80 | "Unassigned" for no assignee; "Unknown" for an unknown id or an empty name; otherwise the first matching salesperson's name |
| LeadsDashboard.Board.constructor | client/pages/LeadsDashboard.tsx:41-42 | nothing is being dragged or highlighted |
| LeadsDashboard.Board.DragStart | client/pages/LeadsDashboard.tsx:82-84 | the lead becomes the dragged one; the highlight is kept |
| LeadsDashboard.Board.DragEnd | client/pages/LeadsDashboard.tsx:86-89 | the drag and the highlight are cleared |
| LeadsDashboard.Board.DragOver | client/pages/LeadsDashboard.tsx:91-95 | the column under the pointer is highlighted; the dragged lead is kept |
| LeadsDashboard.Board.DragLeave | client/pages/LeadsDashboard.tsx:97-101 | the highlight is cleared only when the event comes from the column itself |
| LeadsDashboard.Board.Drop | client/pages/LeadsDashboard.tsx:103-124 | an update is sent exactly when a lead is dragged and its claimed stage differs from the target; a successful one sets that lead's status; the drag state is cleared in every case and an error is swallowed |
| LeadsDashboard.DropEffect | client/pages/LeadsDashboard.tsx:115 | a successful drop changes only the dropped lead's status |
| LeadsDashboard.DropOntoOwnColumnCanSend | client/pages/LeadsDashboard.tsx:113-114 | a lead with status "Contacted" sits under "No Stage" yet its claimed stage differs, so dropping it onto "No Stage" still sends an update |
| RemindersPanel.AssignedLeadsById | client/components/RemindersPanel.tsx:10 | which leads count as the user's depends on the user's id alone |
| RemindersPanel.RemindersSpec | client/components/RemindersPanel.tsx:13-19 | the reminders are sorted by ascending date and hold exactly the user's leads that have a reminder date, each as often as in the list; reminders due at the same instant keep the leads list's order |
| RemindersPanel.ListedUpcomingEarliest | client/components/RemindersPanel.tsx:139 | the listed reminders are the ten earliest upcoming ones: ascending, none before now, and no upcoming reminder left out is due before a listed one |
| RemindersPanel.OverdueUpcomingPartition | client/components/RemindersPanel.tsx:21-27 | for one `now`, every reminder is overdue or upcoming and never both; the two counts add up to the total |
| RemindersPanel.WindowWithinUpcoming | client/components/RemindersPanel.tsx:29-38 | the next-days window equals the same window taken from the upcoming reminders, so the "Later" count is never negative |
| RemindersPanel.TodayReminders | client/components/RemindersPanel.tsx:40-43 | today's actions come from the one-day window and fall on today's calendar day |
| RemindersPanel.CeilDays | client/components/RemindersPanel.tsx:63 | `Math.ceil(ms / day)`: the least whole number of days covering the interval |
| RemindersPanel.DaysUntilWindow | client/components/RemindersPanel.tsx:59-65 | a reminder within the next `days` days is due in between zero and `days` days |
| RemindersPanel.DayLabel | client/components/RemindersPanel.tsx:182-184 | "Today" exactly for zero days, "Tomorrow" exactly for one, "In n days" otherwise |
| RemindersPanel.ListedUpcoming | client/components/RemindersPanel.tsx:139 | ten, or every upcoming reminder when there are fewer, and a prefix of the upcoming reminders |
| RemindersPanel.StatusColor | client/components/RemindersPanel.tsx:45-57 | a missing status is coloured as "Not lifted"; a known status gets its colour; any other gets the default |
| Lists.SortByStable | client/pages/Index.tsx:22-28 | the sort is stable: for every key, the elements with that key come out in their input order |
| Lists.SortByTakeLeast | client/pages/Index.tsx:31-37 | sorting then taking the first n keeps min(n, length) elements, ascending, drawn from the input, and no element left out has a smaller key than one kept |
| HomePage.UpcomingRemindersSpec | client/pages/Index.tsx:20-29 | the five nearest reminders: five, or all of them when there are fewer, ascending by date, drawn from the user's leads that have a reminder date, and no reminder left out is due before one shown |
| HomePage.NewestSpec | client/pages/Index.tsx:31-43 | the newest five: five, or all of them when there are fewer, newest first, drawn from the list, and nothing left out was created after one kept |
| HomePage.QuickStats | client/pages/Index.tsx:45-63 | the assigned-lead count counts the leads assigned to the user (all of them exactly when every lead is, zero exactly when none is), the reminder count is five or the number of the user's reminders when there are fewer, and the salesperson count is the number of salespersons |
| HomePage.UpcomingRemindersCount | client/pages/Index.tsx:22-29 | the reminder card shows five, or every one of the user's reminders when there are fewer |
| HomePage.AssignedStatIgnoresRole | client/pages/Index.tsx:20 | "My Assigned Leads" filters by assignee only; the user's role does not matter |
| HomePage.LeadsWithEmail | client/pages/Index.tsx:253 | the email count equals the number of leads exactly when every lead has an email, and is zero exactly when none has one |
| HomePage.LeadsWithEmailAppend | client/pages/Index.tsx:253 | the email count of two lists together is the sum of their counts |
| HomePage.LeadsWithPhone | client/pages/Index.tsx:259 | the phone count equals the number of leads exactly when every lead has a non-empty phone number, and is zero exactly when none has one |
| HomePage.LeadsWithPhoneAppend | client/pages/Index.tsx:259 | the phone count of two lists together is the sum of their counts |
| HomePage.BlankPhoneNotCounted | client/pages/Index.tsx:259 | a lead whose phone list is `[""]`, as the empty form leaves it, is not counted as having a phone |
| FormatDateIST.IstOffsetIsFiveThirty | client/lib/formatDateIST.ts:5 | the offset `5.5 * 60 * 60 * 1000` is 19 800 000 ms, five hours thirty minutes |
| FormatDateIST.FormatIST | client/lib/formatDateIST.ts:13-49 | an invalid string comes back unchanged, an invalid `Date` as "Invalid date"; a valid instant is shifted by the IST offset and formatted in the requested format |
| FormatDateIST.StringAndDateAgree | client/lib/formatDateIST.ts:18-19 | a string and a `Date` for the same valid instant format the same |
| FormatDateIST.FormatActivityLogDate | client/lib/formatDateIST.ts:56-58 | the date and time in IST, with the same fallbacks for invalid input |
| FormatDateIST.FormatDateOnly | client/lib/formatDateIST.ts:65-67 | the date in IST, with the same fallbacks for invalid input |
| FormatDateIST.IstCalendarDay | client/lib/formatDateIST.ts:26-28 | the shift moves an instant to the next calendar day exactly when its UTC time of day is 18:30 or later |
| FormatDateIST.TenPmUtcIsNextDay | client/lib/formatDateIST.spec.ts:67-74 | 22:00 UTC is 03:30 of the next day in IST |
| FormatDateIST.ChainedFloors | client/lib/formatDateIST.ts:86-89 | the chained floors are the floors of the elapsed milliseconds by one minute, one hour and one day |
| FormatDateIST.RelativeBuckets | client/lib/formatDateIST.ts:75-98 | under a minute (future instants included) gives "just now", then whole minutes, hours and days ago with the plural only above one, and the IST date from seven days on |
| FormatDateIST.RelativeInvalid | client/lib/formatDateIST.ts:80-82 | an invalid date string gives "Invalid date", whereas `formatDateIST` returns the string itself |
| FormatDateIST.HoursExamples | client/lib/formatDateIST.ts:94-95 | one hour and ninety minutes ago both read "1 hour ago"; two hours ago reads "2 hours ago" |
| CompaniesPage.CompaniesIn | client/pages/Companies.tsx:79-81 | `data.companies \|\| []`: no list when the field is falsy, otherwise one object per element in order |
| CompaniesPage.WithoutCompany | client/pages/Companies.tsx:172 | no remaining company has the id, and every company with another id is kept |
| CompaniesPage.WithoutCompanyOrder | client/pages/Companies.tsx:172 | deleting keeps the other companies in their order |
| CompaniesPage.WithoutCompanyCounts | client/pages/Companies.tsx:172 | deleting drops every company with that id and keeps each other one as often as before |
| CompaniesPage.UpdateCompanies | client/pages/Companies.tsx:189-191 | same length; unmatched companies are kept; a matched one gets the union of keys, the update's values winning |
| CompaniesPage.UpdateKeepsIds | client/pages/Companies.tsx:189-191 | an update without an `id` key keeps each company matched or unmatched as before |
| CompaniesPage.IdLessUpdateMergesAll | client/pages/Companies.tsx:187-191 | an update sent for a company without an id is merged into every saved company without one |
| CompaniesPage.SearchRequestOf | client/pages/Companies.tsx:119-124 | the query is sent as the name, empty filters as `undefined`, and the limit is always 50 |
| CompaniesPage.Page.constructor | client/pages/Companies.tsx:50-62 | nothing loaded yet, loading, no error, empty search fields and results, nothing imported |
| CompaniesPage.Page.LoadSavedCompanies | client/pages/Companies.tsx:69-103 | the answer replaces the list and an empty one is announced; a non-ok answer records "Failed to fetch companies: " plus the status text; a thrown error records its message; loading ends every time |
| CompaniesPage.Page.Search | client/pages/Companies.tsx:105-149 | a blank query is refused with no request; otherwise the request is sent, an answer replaces the results, a failure keeps them, and searching ends |
| CompaniesPage.Page.ImportCompany | client/pages/Companies.tsx:151-167 | the id joins the imported set only when the import succeeds; the set never shrinks |
| CompaniesPage.Page.DeleteCompany | client/pages/Companies.tsx:169-185 | the company leaves the saved list only when the delete succeeds |
| CompaniesPage.Page.UpdateCompany | client/pages/Companies.tsx:187-191 | the merge is applied to the local list only |
| CompaniesTable.CompanyId | client/components/CompaniesTable.tsx:23-24 | the company's id, present exactly when it is a string |
| CompaniesTable.FieldOr | client/components/CompaniesTable.tsx:242 | `c[k] \|\| fallback`: the field when it is a non-empty string, the fallback otherwise |
| CompaniesTable.Href | client/components/CompaniesTable.tsx:246-250 | a website starting with "http" is kept, any other gets "https://" in front; the link always starts with "http" |
| CompaniesTable.HrefIdempotent | client/components/CompaniesTable.tsx:246-250 | normalising a link twice changes nothing more |
| CompaniesTable.HrefKeepsWebsite | client/components/CompaniesTable.tsx:246-250 | the link ends with the website as stored |
| CompaniesTable.WebsiteCellOf | client/components/CompaniesTable.tsx:244-260 | "N/A" exactly when there is no website; otherwise a link to the normalised website, showing the domain when there is one and the website otherwise |
| CompaniesTable.Row | client/components/CompaniesTable.tsx:156-198 | the row being edited shows the edit data's fields (empty when missing); any other row shows the company with "N/A" for missing fields, and its delete button is disabled exactly when its raw id equals the one being deleted |
| CompaniesTable.Render | client/components/CompaniesTable.tsx:119-136 | loading wins, then "No companies found" for an empty list, then one row per company in order |
| CompaniesTable.NothingEditedShowsAll | client/components/CompaniesTable.tsx:155 | with `editingId` still `null`, a row shows as inputs exactly when its company's id is `null` |
| CompaniesTable.AtMostOneEditedRow | client/components/CompaniesTable.tsx:155 | with distinct raw ids (at most one company without an id) at most one row is open for editing |
| CompaniesTable.IdLessEditOpensEveryIdLessRow | client/components/CompaniesTable.tsx:155 | an edit started on a company without an id opens exactly the rows whose company has no id |
| CompaniesTable.SavedEditReplacesCompany | client/pages/Companies.tsx:187-191 | an edit saved through the companies page replaces that company by the edited copy, whatever its id |
| CompaniesTable.Table.constructor | client/components/CompaniesTable.tsx:51-54 | no edit open, no edit data, nothing deleting or saving |
| CompaniesTable.Table.EditStart | client/components/CompaniesTable.tsx:56-59 | the edit opens on a copy of the whole company, under its raw id, for every company with that same id, which may be `undefined` |
| CompaniesTable.Table.EditCancel | client/components/CompaniesTable.tsx:61-64 | the edit closes and its data is cleared |
| CompaniesTable.Table.EditChange | client/components/CompaniesTable.tsx:66-68 | one field is set to the typed text and the others are kept |
| CompaniesTable.Table.Save | client/components/CompaniesTable.tsx:70-95 | without an update callback the edit closes and keeps its data; otherwise the edit data is sent for the company's raw id, `undefined` when it has none, success closes the edit and clears the data, failure keeps both, and saving ends |
| CompaniesTable.Table.Delete | client/components/CompaniesTable.tsx:97-117 | without a delete callback nothing happens; otherwise the delete is requested and the row's spinner is cleared however it ends |
| DevServer.Rewritten | vite.config.ts:44-46 | a URL outside "/api" with no "." becomes "/index.html" and any other URL is kept; the result always starts with "/api" or has a "." |
| DevServer.RewriteIdempotent | vite.config.ts:44-46 | rewriting twice is rewriting once |
| DevServer.ApiAndAssetsUntouched | vite.config.ts:44-46 | API requests and dotted asset paths reach the next middleware unchanged |
| DevServer.ClientRouteServesIndex | vite.config.ts:41-48 | "/leads" is served the index page; "/api/leads" and "/assets/app.js" pass unchanged |
| DevServer.Request.constructor | vite.config.ts:41 | the request holds its URL |
| DevServer.Fallback | vite.config.ts:41-48 | the request's URL is rewritten as above and `next()` is always called |

## Left out

- Authentication (`server/routes/auth.ts`, `client/contexts/AuthContext.tsx`, `client/lib/supabase.ts`) is not part of this model. It wraps a foreign authentication library. The session user is an input.
- The Express `/api` mount at vite.config.ts:38 is not modelled. The server application is not part of this model; only the catch-all fallback is.
- The company-data provider search (`client/lib/apollo.ts`) and its proxy (`server/routes/apollo.ts`) only forward requests. Their answers are parameters.
- Route wiring (`server/index.ts`, `netlify/functions/api.ts`) is not part of this model.
- The dev-server settings (host, port, the file-system allow and deny lists, path aliases) are configuration only, not behaviour.
- No database or network call is computed. Each outcome is a `bool` or a `Reply` parameter, so no retries, timeouts or partial writes are modelled.
- `getLeadNotes`, `addLeadNote` and `deleteLeadNote` are not defined in `client/lib/supabase-db.ts`. The same holds for `getInvoices`, `addInvoice`, `getInvoiceById` and `deleteInvoice`, and for `getCompanies`, `addCompany` and `deleteCompany`, which `client/pages/Companies.tsx` imports. Their answers are parameters: `CompaniesPage.Page.LoadSavedCompanies`, `ImportCompany` and `DeleteCompany` take the backend's answer as an argument.
- The promises from the store's `deleteLead` and `deleteSalesperson` are a `backendOk` parameter.
- Toasts, `console.error`, JSX markup, CSS class choices and navigation are left out. Navigation appears only as a returned target; toasts are not modelled at all.
- The input `onChange` setters are not modelled. They only copy typed text into a field.
- PDF generation (`html2pdf`) and the PDF file's layout are not modelled. The filename is.
- React's batched and asynchronous state updates are not modelled, and neither are stale closures. `isSubmitting` is kept as a field, but a second submit while one is pending, which its disabled button prevents, is not modelled. Each `await` is one sequential step on the current state. The auto-assign loop reads one snapshot.
- `Promise.all` concurrency in the companies route is modelled as a sequential map over the bookmarks.
- ISO date parsing and `NaN` dates are a parsing function. `RemindersPanel` takes `parse: string -> int`, so a reminder with an unparsable date is never treated as invalid there.
- Locale rendering (`toLocaleDateString`, `toLocaleString`) and the host time zone are an uninterpreted formatter. `toDateString()` is the `dayOf` parameter.
- Daylight saving time in the invoice due date is not modelled. The due date adds whole days in epoch milliseconds.
- Floating-point money display is not modelled. Invoice amounts are whole paise, which keeps the 18 percent tax exact.
- `parseInt` of query parameters ignores hexadecimal prefixes and floating-point results for very large values. It is modelled as optional decimal digits.
- A `total_pages` that is not a number is coerced by the source. The model reads it as missing.
- JSON numbers are integers in the model (`Json.JNum`), so a fractional `total_entries` or `total_pages` cannot be represented.
- LeadsDashboard.ColumnOf: status keys that collide with `Object.prototype` members (such as "constructor") are not modelled. The model treats them as unknown stages, whereas the source's record lookup would find the inherited member.
- SupabaseDb.AddLead: maps the returned row's list columns with `|| []`. The source's `addLead` copies them as they are, so a missing `phone_numbers` gives an undefined `phoneNumbers` there.
- CompaniesPage.CompaniesIn: reads a saved company that is not an object as `{}`, and reads a truthy `companies` value that is not an array as no companies (the page would store that value as it is and not announce an empty list); both arise only from a malformed server answer, and the model keeps the saved companies as a list of objects.
- CompaniesPage.HasId: compares raw ids with value equality. JavaScript's `===` compares an object or array id by identity, so two equal-looking object ids would differ there.
- AdminPage.FirstFailure: measures the password with `|password|`, which counts characters. JavaScript's `password.length` counts UTF-16 code units, so a password with characters outside the Basic Multilingual Plane can pass the six-character check in the source and fail it here.
- CompaniesTable.FieldOr: reads a company field that is not a string as missing. In the source, a truthy non-string would be rendered.
- V8's exact error message for reading a property of `null` is represented by one fixed string.
- The sync route's success message text is not modelled; only the row count is.
