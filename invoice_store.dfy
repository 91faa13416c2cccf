/**
 * Invoices and their store (client/hooks/useInvoiceStore.ts). Like the CRM store,
 * it changes the local list only after the backend call returns. Amounts are
 * whole rupees.
 */
module InvoiceStore {
  import opened Wrappers
  import opened Lists

  /** One line of an invoice's scope of work. */
  datatype ScopeItem = ScopeItem(name: string, included: bool)

  /** What the create-invoice page sends: an invoice without `id`, `invoiceNumber`, `createdAt`. */
  datatype InvoiceInput = InvoiceInput(
    fullName: string,
    email: string,
    phoneNumber: string,
    companyName: string,
    packageId: string,
    packageName: string,
    packagePrice: int,
    scope: seq<ScopeItem>,
    paidAmount: int,
    additionalNotes: string,
    taxPercentage: int)

  datatype Invoice = Invoice(
    id: string,
    invoiceNumber: Option<string>,
    createdAt: string,
    details: InvoiceInput)

  /** `prev.filter(invoice => invoice.id !== id)`. */
  function DeleteInvoices(vs: seq<Invoice>, id: string): (r: seq<Invoice>)
    ensures forall i :: 0 <= i < |r| ==> r[i].id != id
    ensures forall i :: 0 <= i < |vs| && vs[i].id != id ==> vs[i] in r
  {
    Filter(vs, (v: Invoice) => v.id != id)
  }

  /** Deleting keeps exactly the other invoices, each as often as before. */
  lemma DeleteInvoicesCounts(vs: seq<Invoice>, id: string, x: Invoice)
    ensures multiset(DeleteInvoices(vs, id))[x] == if x.id == id then 0 else multiset(vs)[x]
  {
    FilterMultiset(vs, (v: Invoice) => v.id != id, x);
  }

  /** Deleting keeps the survivors in order. */
  lemma DeleteInvoicesOrder(a: seq<Invoice>, b: seq<Invoice>, id: string)
    ensures DeleteInvoices(a + b, id) == DeleteInvoices(a, id) + DeleteInvoices(b, id)
  {
    FilterAppend(a, b, (v: Invoice) => v.id != id);
  }

  class Store {
    var invoices: seq<Invoice>
    var isLoading: bool

    constructor ()
      ensures invoices == [] && isLoading
    {
      invoices, isLoading := [], true;
    }

    /** The load on mount: the fetched list replaces the empty one; a failed fetch keeps it. Loading ends either way. */
    method Load(reply: Reply<seq<Invoice>>)
      modifies this
      ensures invoices == if reply.Returned? then reply.value else old(invoices)
      ensures !isLoading
    {
      isLoading := true;
      if reply.Returned? {
        invoices := reply.value;
      }
      isLoading := false;
    }

    method AddInvoice(reply: Reply<Invoice>) returns (result: Reply<Invoice>)
      modifies this
      ensures result == reply
      ensures invoices == if reply.Returned? then [reply.value] + old(invoices) else old(invoices)
      ensures isLoading == old(isLoading)
    {
      result := reply;
      if reply.Returned? {
        invoices := [reply.value] + invoices;
      }
    }

    /** A lookup goes to the backend and hands back its answer (or its error); the list is not touched. */
    method GetInvoiceById(id: string, reply: Reply<Option<Invoice>>) returns (result: Reply<Option<Invoice>>)
      ensures result == reply
    {
      result := reply;
    }

    method DeleteInvoice(id: string, backendOk: bool) returns (ok: bool)
      modifies this
      ensures ok == backendOk
      ensures invoices == if backendOk then DeleteInvoices(old(invoices), id) else old(invoices)
      ensures isLoading == old(isLoading)
    {
      ok := backendOk;
      if backendOk {
        invoices := DeleteInvoices(invoices, id);
      }
    }
  }
}
