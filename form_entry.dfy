/**
 * The number inputs of the income and expense forms (`type="number"`): an
 * input is either empty (`''`, falsy) or holds a number. The total field is
 * recomputed from quantity and unit price whenever either changes
 * (IncomeManagement.tsx:218-222, 234-238; ExpenseManagement.tsx:179-183,
 * 195-199).
 */
module FormEntry {

  datatype Entry = Blank | Entered(value: real)

  /** `quantity && unitPrice ? (parseFloat(quantity) * parseFloat(unitPrice)).toString() : ''`. */
  function AutoAmount(quantity: Entry, unitPrice: Entry): (amount: Entry)
    ensures amount.Entered? <==> quantity.Entered? && unitPrice.Entered?
    ensures amount.Entered? ==> amount.value == quantity.value * unitPrice.value
  {
    if quantity.Entered? && unitPrice.Entered? then Entered(quantity.value * unitPrice.value) else Blank
  }

  /** The total does not depend on which of the two inputs was filled in last. */
  lemma AutoAmountSymmetric(q: Entry, p: Entry)
    ensures AutoAmount(q, p).Entered? ==> AutoAmount(q, p).value == AutoAmount(p, q).value
    ensures AutoAmount(q, p).Entered? <==> AutoAmount(p, q).Entered?
  {
  }

  /** Clearing either input clears the total. */
  lemma ClearingClearsTotal(q: Entry, p: Entry)
    ensures AutoAmount(Blank, p) == Blank && AutoAmount(q, Blank) == Blank
  {
  }
}
