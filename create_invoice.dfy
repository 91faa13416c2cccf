/**
 * The invoice creation page (client/pages/CreateInvoice.tsx): a form for one
 * catalogue package, the feature checklist that becomes the invoice's scope,
 * and the submit checks. The store's `addInvoice` answer is a parameter.
 */
module CreateInvoice {
  import opened Wrappers
  import opened Text
  import opened Packages
  import opened InvoiceStore

  /** The submit checks, in the order they run. */
  datatype FormError = FullNameRequired | EmailRequired | PhoneRequired | NegativeTax | NonPositivePaid

  /** The first failing check, or none when the form may be submitted. */
  function FirstFailure(fullName: string, email: string, phoneNumber: string, taxPercentage: int, paidAmount: int): (r: Option<FormError>)
    ensures r == Some(FullNameRequired) <==> IsBlank(fullName)
    ensures r == Some(EmailRequired) <==> !IsBlank(fullName) && IsBlank(email)
    ensures r == Some(PhoneRequired) <==> !IsBlank(fullName) && !IsBlank(email) && IsBlank(phoneNumber)
    ensures r == Some(NegativeTax) <==>
      !IsBlank(fullName) && !IsBlank(email) && !IsBlank(phoneNumber) && taxPercentage < 0
    ensures r == Some(NonPositivePaid) <==>
      !IsBlank(fullName) && !IsBlank(email) && !IsBlank(phoneNumber) && taxPercentage >= 0 && paidAmount <= 0
    ensures r.None? <==>
      !IsBlank(fullName) && !IsBlank(email) && !IsBlank(phoneNumber) && taxPercentage >= 0 && paidAmount > 0
  {
    if IsBlank(fullName) then Some(FullNameRequired)
    else if IsBlank(email) then Some(EmailRequired)
    else if IsBlank(phoneNumber) then Some(PhoneRequired)
    else if taxPercentage < 0 then Some(NegativeTax)
    else if paidAmount <= 0 then Some(NonPositivePaid)
    else None
  }

  /** `selectedFeatures[f] || false`: a feature missing from the map is not included. */
  predicate Included(selection: map<string, bool>, feature: string) {
    feature in selection && selection[feature]
  }

  /** The `reduce` that marks every feature of the package as selected. */
  function AllSelected(features: seq<string>): (r: map<string, bool>)
    ensures r.Keys == set f | f in features
    ensures forall f :: f in features ==> Included(r, f)
  {
    map f | f in features :: true
  }

  /** `{ ...prev, [feature]: !prev[feature] }`; a missing entry reads as false and becomes true. */
  function Toggle(selection: map<string, bool>, feature: string): (r: map<string, bool>)
    ensures Included(r, feature) == !Included(selection, feature)
    ensures forall g :: g != feature ==> Included(r, g) == Included(selection, g)
    ensures r.Keys == selection.Keys + {feature}
  {
    selection[feature := !Included(selection, feature)]
  }

  /** Toggling the same feature twice restores whether every feature is included. */
  lemma ToggleTwice(selection: map<string, bool>, feature: string, g: string)
    ensures Included(Toggle(Toggle(selection, feature), feature), g) == Included(selection, g)
  {
  }

  /** `scope`: one entry per package feature, in catalogue order, marked with its inclusion. */
  function Scope(features: seq<string>, selection: map<string, bool>): (r: seq<ScopeItem>)
    ensures |r| == |features|
    ensures forall i :: 0 <= i < |r| ==> r[i].name == features[i] && (r[i].included <==> Included(selection, features[i]))
  {
    seq(|features|, i requires 0 <= i < |features| => ScopeItem(features[i], Included(selection, features[i])))
  }

  /** With every feature selected, as the page starts, every scope entry is included. */
  lemma ScopeAllSelected(features: seq<string>)
    ensures forall i :: 0 <= i < |features| ==> Scope(features, AllSelected(features))[i].included
  {
  }

  /** Unchecking one feature leaves exactly that feature's entries out of the scope. */
  lemma ScopeAfterToggle(features: seq<string>, feature: string, i: nat)
    requires i < |features|
    ensures Scope(features, Toggle(AllSelected(features), feature))[i].included <==> features[i] != feature
  {
  }

  /**
   * The invoice sent to the store: the customer fields as typed, the package's
   * id, name and catalogue price, the scope, and a tax of 18 percent whatever
   * the form's tax field holds (the function has no tax argument).
   */
  function Draft(pkg: Package, fullName: string, email: string, phoneNumber: string, companyName: string,
                 paidAmount: int, additionalNotes: string, selection: map<string, bool>): (r: InvoiceInput)
    ensures r.taxPercentage == 18 && r.packagePrice == pkg.price
    ensures r.packageId == pkg.id && r.packageName == pkg.name
    ensures r.scope == Scope(pkg.features, selection) && r.paidAmount == paidAmount
    ensures r.fullName == fullName && r.email == email && r.phoneNumber == phoneNumber
    ensures r.companyName == companyName && r.additionalNotes == additionalNotes
  {
    InvoiceInput(fullName, email, phoneNumber, companyName, pkg.id, pkg.name, pkg.price,
                 Scope(pkg.features, selection), paidAmount, additionalNotes, 18)
  }

  /** A catalogue package's invoice carries one of the three catalogue prices. */
  lemma DraftPriceFromCatalogue(id: string, fullName: string, email: string, phoneNumber: string, companyName: string,
                                paidAmount: int, additionalNotes: string, selection: map<string, bool>)
    requires FindPackage(id).Some?
    ensures Draft(FindPackage(id).value, fullName, email, phoneNumber, companyName, paidAmount, additionalNotes, selection).packagePrice
      in {30000, 75000, 150000}
  {
  }

  datatype View = PackageNotFound | InvoiceForm

  /** The page's state: the form, the feature checklist and the submitting flag. */
  class Page {
    const selectedPackage: Option<Package>
    var fullName: string
    var email: string
    var phoneNumber: string
    var companyName: string
    var paidAmount: int
    var additionalNotes: string
    var taxPercentage: int
    var selectedFeatures: map<string, bool>
    var isSubmitting: bool

    /** The package is looked up by the route's id; the paid amount starts at its price, or 0. */
    constructor (packageId: string)
      ensures selectedPackage == FindPackage(packageId)
      ensures paidAmount == (if selectedPackage.Some? then selectedPackage.value.price else 0)
      ensures fullName == "" && email == "" && phoneNumber == "" && companyName == "" && additionalNotes == ""
      ensures taxPercentage == 0 && selectedFeatures == map[] && !isSubmitting
    {
      selectedPackage := FindPackage(packageId);
      var found := FindPackage(packageId);
      paidAmount := if found.Some? then found.value.price else 0;
      fullName, email, phoneNumber, companyName, additionalNotes := "", "", "", "", "";
      taxPercentage, selectedFeatures, isSubmitting := 0, map[], false;
    }

    /**
     * One render: with a package and an empty selection every feature is
     * selected first; without a package only "Package not found" is shown.
     */
    method Render() returns (view: View)
      modifies this
      ensures view == PackageNotFound <==> selectedPackage.None?
      ensures selectedPackage.Some? && old(selectedFeatures) == map[] ==>
        selectedFeatures == AllSelected(selectedPackage.value.features)
      ensures !(selectedPackage.Some? && old(selectedFeatures) == map[]) ==> selectedFeatures == old(selectedFeatures)
      ensures fullName == old(fullName) && email == old(email) && phoneNumber == old(phoneNumber)
      ensures companyName == old(companyName) && paidAmount == old(paidAmount)
      ensures additionalNotes == old(additionalNotes) && taxPercentage == old(taxPercentage)
      ensures isSubmitting == old(isSubmitting)
    {
      if selectedPackage.Some? && |selectedFeatures| == 0 {
        selectedFeatures := AllSelected(selectedPackage.value.features);
      }
      view := if selectedPackage.None? then PackageNotFound else InvoiceForm;
    }

    method ToggleFeature(feature: string)
      modifies this
      ensures selectedFeatures == Toggle(old(selectedFeatures), feature)
      ensures fullName == old(fullName) && email == old(email) && phoneNumber == old(phoneNumber)
      ensures companyName == old(companyName) && paidAmount == old(paidAmount)
      ensures additionalNotes == old(additionalNotes) && taxPercentage == old(taxPercentage)
      ensures isSubmitting == old(isSubmitting)
    {
      selectedFeatures := Toggle(selectedFeatures, feature);
    }

    /** The "select all" button: the selection is rebuilt with every feature true. */
    method SelectAllFeatures()
      requires selectedPackage.Some?
      modifies this
      ensures selectedFeatures == AllSelected(selectedPackage.value.features)
      ensures fullName == old(fullName) && email == old(email) && phoneNumber == old(phoneNumber)
      ensures companyName == old(companyName) && paidAmount == old(paidAmount)
      ensures additionalNotes == old(additionalNotes) && taxPercentage == old(taxPercentage)
      ensures isSubmitting == old(isSubmitting)
    {
      selectedFeatures := AllSelected(selectedPackage.value.features);
    }

    /**
     * `handleSubmit`: the first failing check aborts with no invoice created;
     * otherwise the draft is sent and, when the store returns the invoice, the
     * page moves to it. The form itself is never cleared.
     */
    method Submit(reply: Reply<Invoice>) returns (failure: Option<FormError>, sent: Option<InvoiceInput>, navigateTo: Option<string>)
      requires selectedPackage.Some?
      modifies this
      ensures failure == FirstFailure(old(fullName), old(email), old(phoneNumber), old(taxPercentage), old(paidAmount))
      ensures failure.Some? ==> sent.None? && navigateTo.None?
      ensures failure.None? ==>
        sent == Some(Draft(selectedPackage.value, fullName, email, phoneNumber, companyName,
                           paidAmount, additionalNotes, selectedFeatures))
        && navigateTo == (if reply.Returned? then Some("/invoice/" + reply.value.id) else None)
      ensures failure.None? ==> !isSubmitting
      ensures failure.Some? ==> isSubmitting == old(isSubmitting)
      ensures fullName == old(fullName) && email == old(email) && phoneNumber == old(phoneNumber)
      ensures companyName == old(companyName) && paidAmount == old(paidAmount)
      ensures additionalNotes == old(additionalNotes) && taxPercentage == old(taxPercentage)
      ensures selectedFeatures == old(selectedFeatures)
    {
      failure := FirstFailure(fullName, email, phoneNumber, taxPercentage, paidAmount);
      if failure.Some? {
        return failure, None, None;
      }
      var draft := Draft(selectedPackage.value, fullName, email, phoneNumber, companyName,
                         paidAmount, additionalNotes, selectedFeatures);
      isSubmitting := true;
      sent := Some(draft);
      navigateTo := if reply.Returned? then Some("/invoice/" + reply.value.id) else None;
      isSubmitting := false;
    }
  }
}
