/**
 * The invoice viewer (client/pages/InvoiceView.tsx): loading one invoice, its
 * totals, the two-page navigation (bill and scope), the PDF name and the due
 * date. Money is in whole paise so the 18 percent tax stays exact; the lookup's
 * answer is a parameter.
 */
module InvoiceView {
  import opened Wrappers
  import opened Text
  import opened InvoiceStore

  const DayMs: int := 86400000

  /** The viewer's amounts. */
  datatype Totals = Totals(subtotal: int, tax: int, total: int)

  /**
   * `subtotal = packagePrice`, `tax = subtotal * (taxPercentage / 100)`,
   * `total = subtotal + tax`, for a price in rupees, in paise.
   */
  function InvoiceTotals(packagePrice: int, taxPercentage: int): (t: Totals)
    ensures t.subtotal == 100 * packagePrice
    ensures 100 * t.tax == t.subtotal * taxPercentage
    ensures t.total == t.subtotal + t.tax
  {
    Totals(100 * packagePrice, packagePrice * taxPercentage, 100 * packagePrice + packagePrice * taxPercentage)
  }

  /** The invoice list's amount, `packagePrice + packagePrice * 0.18`, in paise. */
  function ListAmount(packagePrice: int): (paise: int)
    ensures 100 * paise == 100 * 100 * packagePrice + 18 * 100 * packagePrice
  {
    100 * packagePrice + 18 * packagePrice
  }

  /** Invoices are saved with 18 percent, so the viewer's total and the list's amount agree. */
  lemma ViewTotalMatchesList(packagePrice: int)
    ensures InvoiceTotals(packagePrice, 18).total == ListAmount(packagePrice)
  {
  }

  /** A stored tax rate other than 18 percent would make the two disagree for any non-zero price. */
  lemma OtherRatesDisagree(packagePrice: int, taxPercentage: int)
    requires packagePrice != 0 && taxPercentage != 18
    ensures InvoiceTotals(packagePrice, taxPercentage).total != ListAmount(packagePrice)
  {
    assert InvoiceTotals(packagePrice, taxPercentage).total - ListAmount(packagePrice) == packagePrice * (taxPercentage - 18);
    MulNonZero(packagePrice, taxPercentage - 18);
  }

  lemma MulNonZero(a: int, b: int)
    requires a != 0 && b != 0
    ensures a * b != 0
  {
  }

  /** `${invoice?.invoiceNumber || "invoice"}.pdf`. */
  function PdfFilename(invoiceNumber: Option<string>): (name: string)
    ensures Truthy(invoiceNumber) ==> name == invoiceNumber.value + ".pdf"
    ensures !Truthy(invoiceNumber) ==> name == "invoice.pdf"
  {
    Or(invoiceNumber, Some("invoice")).value + ".pdf"
  }

  /** `date.setDate(date.getDate() + 30)` on the creation instant, as epoch milliseconds. */
  function DueDate(createdAt: int): (due: int)
    ensures due > createdAt && (due - createdAt) % DayMs == 0 && (due - createdAt) / DayMs == 30
  {
    createdAt + 30 * DayMs
  }

  /** The previous-page button's target, `Math.max(1, page - 1)`. */
  function PrevPage(page: int): (r: int)
    ensures r >= 1 && r <= (if page > 1 then page else 1)
    ensures page > 1 ==> r == page - 1
  {
    if page - 1 > 1 then page - 1 else 1
  }

  /** The next-page button's target, `Math.min(2, page + 1)`. */
  function NextPage(page: int): (r: int)
    ensures r <= 2 && r >= (if page < 2 then page else 2)
    ensures page < 2 ==> r == page + 1
  {
    if page + 1 < 2 then page + 1 else 2
  }

  /** From either page, both buttons land on a page of the two; back from the scope is the bill and on from the bill is the scope. */
  lemma NavigationStaysInRange(page: int)
    requires 1 <= page <= 2
    ensures 1 <= PrevPage(page) <= 2 && 1 <= NextPage(page) <= 2
    ensures PrevPage(page) == 1 && NextPage(page) == 2
    ensures PrevPage(NextPage(page)) == 1 && NextPage(PrevPage(page)) == 2
  {
  }

  class Viewer {
    var invoice: Option<Invoice>
    var isLoading: bool
    var currentPage: int

    /** The page number is the bill (1) or the scope (2). */
    predicate Valid()
      reads this
    {
      1 <= currentPage <= 2
    }

    constructor ()
      ensures invoice.None? && isLoading && currentPage == 1 && Valid()
    {
      invoice, isLoading, currentPage := None, true, 1;
    }

    /**
     * `loadInvoice`: a missing id leaves to /admin before the lookup (and so
     * never clears the loading flag); a not-found invoice or a failed lookup
     * leaves to /admin too; a found invoice is shown. Once the lookup starts,
     * loading ends whatever its outcome.
     */
    method Load(invoiceId: Option<string>, reply: Reply<Option<Invoice>>) returns (navigateTo: Option<string>)
      modifies this
      ensures !Truthy(invoiceId) ==> navigateTo == Some("/admin") && invoice == old(invoice) && isLoading == old(isLoading)
      ensures Truthy(invoiceId) ==> !isLoading
      ensures Truthy(invoiceId) && reply.Returned? && reply.value.Some? ==>
        navigateTo.None? && invoice == reply.value
      ensures Truthy(invoiceId) && !(reply.Returned? && reply.value.Some?) ==>
        navigateTo == Some("/admin") && invoice == old(invoice)
      ensures currentPage == old(currentPage)
    {
      if !Truthy(invoiceId) {
        return Some("/admin");
      }
      isLoading := true;
      match reply {
        case Returned(found) =>
          if found.Some? {
            invoice := found;
            navigateTo := None;
          } else {
            navigateTo := Some("/admin");
          }
        case Threw(_) => navigateTo := Some("/admin");
      }
      isLoading := false;
    }

    predicate PrevDisabled()
      reads this
    {
      currentPage == 1
    }

    predicate NextDisabled()
      reads this
    {
      currentPage == 2
    }

    /** The "Bill" button. */
    method ShowBill()
      modifies this
      ensures currentPage == 1 && Valid()
      ensures invoice == old(invoice) && isLoading == old(isLoading)
    {
      currentPage := 1;
    }

    /** The "Scope" button. */
    method ShowScope()
      modifies this
      ensures currentPage == 2 && Valid()
      ensures invoice == old(invoice) && isLoading == old(isLoading)
    {
      currentPage := 2;
    }

    /** The previous-page button: the page stays valid. */
    method Prev()
      requires Valid()
      modifies this
      ensures currentPage == PrevPage(old(currentPage)) && Valid()
      ensures invoice == old(invoice) && isLoading == old(isLoading)
    {
      currentPage := PrevPage(currentPage);
    }

    /** The next-page button: the page stays valid. */
    method Next()
      requires Valid()
      modifies this
      ensures currentPage == NextPage(old(currentPage)) && Valid()
      ensures invoice == old(invoice) && isLoading == old(isLoading)
    {
      currentPage := NextPage(currentPage);
    }
  }
}
