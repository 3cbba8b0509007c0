/** Supplier invoices (app/api/endpoints/invoice/invoice.py, the `Invoice`
    and `InvoiceItem` records of app/invoice_models.py): numbered INV-0001,
    INV-0002, ... after the most recently inserted invoice, created Pending
    with the totals the caller states and one line per entry of the item
    list. Amounts are reals; attachments are not part of this model. */
module Invoices {

  import opened Shared
  import opened Listing
  import opened Numbering

  /** One entry of the `items_json` list as the form sends it. */
  datatype InvoiceItemData = InvoiceItemData(materialId: int, description: Option<string>, quantity: real, rate: real,
                                             taxRate: real, itemClass: Option<string>, customerProject: Option<string>)

  /** A stored invoice line. */
  datatype InvoiceItem = InvoiceItem(description: Option<string>, quantity: real, rate: real, taxRate: real,
                                     itemClass: Option<string>, customerProject: Option<string>,
                                     invoiceId: nat, materialId: int)

  /** The caller's figures for an invoice. */
  datatype Totals = Totals(subtotal: real, taxTotal: real, grandTotal: real)

  /** A stored invoice. */
  datatype Invoice = Invoice(
    invoiceNumber: string,
    invoiceDate: Date,
    invoiceDueDate: Date,
    lpoId: Option<nat>,
    status: string,
    subtotal: Option<real>,
    taxTotal: Option<real>,
    grandTotal: Option<real>,
    messageToCustomer: Option<string>,
    memo: Option<string>,
    paymentMode: Option<string>,
    supplierId: nat,
    projectId: nat,
    createdById: UserId)

  const INVOICE_PREFIX := "INV"

  function InvoiceNumberOf(v: Invoice): string
  {
    v.invoiceNumber
  }

  /** `get_next_invoice_number` over the invoices with ids below `bound`. */
  function NextInvoiceNumber(invoices: map<nat, Invoice>, bound: nat): Result<string>
  {
    NextDocNumber(INVOICE_PREFIX, NewestNumber(invoices, bound, InvoiceNumberOf))
  }

  /** With no invoices the number is INV-0001; after an invoice numbered by
      the generator the next number follows it, and no earlier generated
      number comes back; it fails exactly when the newest invoice's number
      cannot be read. */
  lemma NextInvoiceNumberSpec(invoices: map<nat, Invoice>, bound: nat, v: Invoice, n: nat)
    requires forall k :: k in invoices ==> k < bound
    ensures (forall k :: k in invoices ==> k >= bound) ==> NextInvoiceNumber(invoices, bound) == Ok(Identifier(INVOICE_PREFIX, 1, 4))
    ensures NewestNumber(invoices, bound, InvoiceNumberOf).Some? ==>
      (NextInvoiceNumber(invoices, bound).Err? <==> NumberPart(NewestNumber(invoices, bound, InvoiceNumberOf).value).None?)
    ensures v.invoiceNumber == Identifier(INVOICE_PREFIX, n, 4) ==>
      NextInvoiceNumber(invoices[bound := v], bound + 1) == Ok(Identifier(INVOICE_PREFIX, n + 1, 4))
      && forall m: nat :: m <= n ==> Identifier(INVOICE_PREFIX, n + 1, 4) != Identifier(INVOICE_PREFIX, m, 4)
  {
    NextDocNumberCounts(INVOICE_PREFIX, n);
    NewestNumberAfterInsert(invoices, bound, InvoiceNumberOf, v);
    if NewestNumber(invoices, bound, InvoiceNumberOf).Some? {
      NextDocNumberReadsBack(INVOICE_PREFIX, NewestNumber(invoices, bound, InvoiceNumberOf).value);
    }
    var next := Identifier(INVOICE_PREFIX, n + 1, 4);
    NumberPartIdentifier(INVOICE_PREFIX, n + 1, 4);
    forall m: nat | m <= n ensures next != Identifier(INVOICE_PREFIX, m, 4) {
      NumberPartIdentifier(INVOICE_PREFIX, m, 4);
    }
  }

  /** `InvoiceItem(**item_data.dict())`: the stored line for one entry. */
  function ItemOf(d: InvoiceItemData, invoiceId: nat): (it: InvoiceItem)
    ensures it.invoiceId == invoiceId && it.materialId == d.materialId && it.description == d.description
    ensures it.quantity == d.quantity && it.rate == d.rate && it.taxRate == d.taxRate
    ensures it.itemClass == d.itemClass && it.customerProject == d.customerProject
  {
    InvoiceItem(d.description, d.quantity, d.rate, d.taxRate, d.itemClass, d.customerProject, invoiceId, d.materialId)
  }

  /** The invoice built by `create_invoice`: status Pending, the totals as
      stated by the caller, whatever the lines add up to. */
  function NewInvoice(number: string, lpoId: Option<nat>, invoiceDate: Date, dueDate: Date, supplierId: nat,
                      projectId: nat, paymentMode: Option<string>, message: Option<string>, memo: Option<string>,
                      totals: Totals, createdBy: UserId): (v: Invoice)
    ensures v.invoiceNumber == number && v.status == "Pending" && v.createdById == createdBy && v.lpoId == lpoId
    ensures v.subtotal == Some(totals.subtotal) && v.taxTotal == Some(totals.taxTotal)
      && v.grandTotal == Some(totals.grandTotal)
  {
    Invoice(number, invoiceDate, dueDate, lpoId, "Pending", Some(totals.subtotal), Some(totals.taxTotal),
            Some(totals.grandTotal), message, memo, paymentMode, supplierId, projectId, createdBy)
  }

  /** The loop of `create_invoice` that appends a line per entry: the lines
      come out in the order of the entries, each carrying its entry's
      fields. */
  method BuildItems(ds: seq<InvoiceItemData>, invoiceId: nat) returns (lines: seq<InvoiceItem>)
    ensures |lines| == |ds|
    ensures forall i :: 0 <= i < |ds| ==> lines[i] == ItemOf(ds[i], invoiceId)
  {
    lines := [];
    for i := 0 to |ds|
      invariant |lines| == i
      invariant forall j :: 0 <= j < i ==> lines[j] == ItemOf(ds[j], invoiceId)
    {
      lines := lines + [ItemOf(ds[i], invoiceId)];
    }
  }

  /** Ids below their counters, unique invoice numbers (the column is
      unique), and every line belongs to a stored invoice. */
  ghost predicate InvoicesValid(invoices: map<nat, Invoice>, items: map<nat, InvoiceItem>, nextInvoiceId: nat,
                                nextItemId: nat)
  {
    (forall k :: k in invoices ==> k < nextInvoiceId)
    && (forall k :: k in items ==> k < nextItemId)
    && (forall a, b :: a in invoices && b in invoices && invoices[a].invoiceNumber == invoices[b].invoiceNumber ==> a == b)
    && (forall k :: k in items ==> items[k].invoiceId in invoices)
  }

  /** Adding a fresh invoice with a number not yet taken, and lines that
      belong to it, keeps the tables valid. */
  lemma NewInvoiceValid(invoices: map<nat, Invoice>, items: map<nat, InvoiceItem>, nextInvoiceId: nat,
                        nextItemId: nat, v: Invoice, lines: seq<InvoiceItem>)
    requires InvoicesValid(invoices, items, nextInvoiceId, nextItemId)
    requires forall k :: k in invoices ==> invoices[k].invoiceNumber != v.invoiceNumber
    requires forall i :: 0 <= i < |lines| ==> lines[i].invoiceId == nextInvoiceId
    ensures InvoicesValid(invoices[nextInvoiceId := v], items + Numbered(nextItemId, lines), nextInvoiceId + 1,
                          nextItemId + |lines|)
  {
    var added := Numbered(nextItemId, lines);
    forall k | k in items + added ensures (items + added)[k].invoiceId in invoices[nextInvoiceId := v] {
      if k in added {
        assert added[k] == lines[k - nextItemId];
      }
    }
  }

  class InvoiceStore {
    var invoices: map<nat, Invoice>
    var items: map<nat, InvoiceItem>
    var nextInvoiceId: nat
    var nextItemId: nat

    ghost predicate Valid()
      reads this
    {
      InvoicesValid(invoices, items, nextInvoiceId, nextItemId)
    }

    constructor ()
      ensures Valid() && invoices == map[] && items == map[]
    {
      invoices, items, nextInvoiceId, nextItemId := map[], map[], 0, 0;
    }

    /** The invoice-number column, in id order. */
    function InvoiceNumbers(): seq<string>
      reads this
    {
      Column(invoices, nextInvoiceId, InvoiceNumberOf)
    }

    /** `create_invoice` without attachments. `itemsJson` is the parsed item
        list, None where it does not parse. A newest number that cannot be
        read, a list that does not parse, or a generated number already
        taken (the unique column refuses it) is rolled back as a 500;
        otherwise the invoice is stored Pending under the next number with
        the caller's totals and its lines in input order, and its id
        returned. */
    method CreateInvoice(lpoId: Option<nat>, invoiceDate: Date, dueDate: Date, supplierId: nat, projectId: nat,
                         paymentMode: Option<string>, message: Option<string>, memo: Option<string>,
                         itemsJson: Option<seq<InvoiceItemData>>, totals: Totals, caller: UserId)
      returns (r: Result<nat>)
      requires Valid()
      modifies this
      ensures Valid()
      ensures itemsJson.None? || NextInvoiceNumber(old(invoices), old(nextInvoiceId)).Err? ==>
        r == Err(Internal) && unchanged(this)
      ensures itemsJson.Some? && NextInvoiceNumber(old(invoices), old(nextInvoiceId)).Ok?
              && NextInvoiceNumber(old(invoices), old(nextInvoiceId)).value in old(InvoiceNumbers()) ==>
        r == Err(Internal) && unchanged(this)
      ensures (itemsJson.Some? && NextInvoiceNumber(old(invoices), old(nextInvoiceId)).Ok?
               && NextInvoiceNumber(old(invoices), old(nextInvoiceId)).value !in old(InvoiceNumbers())) ==> r.Ok?
      ensures r.Ok? ==>
        itemsJson.Some? && NextInvoiceNumber(old(invoices), old(nextInvoiceId)).Ok?
        && r.value == old(nextInvoiceId)
        && invoices == old(invoices)[r.value := NewInvoice(NextInvoiceNumber(old(invoices), old(nextInvoiceId)).value,
                                                           lpoId, invoiceDate, dueDate, supplierId, projectId,
                                                           paymentMode, message, memo, totals, caller)]
        && items == old(items) + Numbered(old(nextItemId),
                                          seq(|itemsJson.value|, i requires 0 <= i < |itemsJson.value| =>
                                                ItemOf(itemsJson.value[i], r.value)))
        && nextInvoiceId == old(nextInvoiceId) + 1 && nextItemId == old(nextItemId) + |itemsJson.value|
    {
      r := AddInvoice(NextInvoiceNumber(invoices, nextInvoiceId), lpoId, invoiceDate, dueDate, supplierId, projectId,
                      paymentMode, message, memo, itemsJson, totals, caller);
    }

    /** The body of `create_invoice` once the next number is generated. */
    method AddInvoice(number: Result<string>, lpoId: Option<nat>, invoiceDate: Date, dueDate: Date, supplierId: nat,
                      projectId: nat, paymentMode: Option<string>, message: Option<string>, memo: Option<string>,
                      itemsJson: Option<seq<InvoiceItemData>>, totals: Totals, caller: UserId)
      returns (r: Result<nat>)
      requires Valid()
      modifies this
      ensures Valid()
      ensures number.Err? || itemsJson.None? || number.value in old(InvoiceNumbers()) ==>
        r == Err(Internal) && unchanged(this)
      ensures number.Ok? && itemsJson.Some? && number.value !in old(InvoiceNumbers()) ==>
        r == Ok(old(nextInvoiceId))
        && invoices == old(invoices)[old(nextInvoiceId) := NewInvoice(number.value, lpoId, invoiceDate, dueDate,
                                                                     supplierId, projectId, paymentMode, message,
                                                                     memo, totals, caller)]
        && items == old(items) + Numbered(old(nextItemId),
                                          seq(|itemsJson.value|, i requires 0 <= i < |itemsJson.value| =>
                                                ItemOf(itemsJson.value[i], old(nextInvoiceId))))
        && nextInvoiceId == old(nextInvoiceId) + 1 && nextItemId == old(nextItemId) + |itemsJson.value|
    {
      if number.Err? || itemsJson.None? {
        return Err(Internal);
      }
      if number.value in InvoiceNumbers() {
        return Err(Internal);
      }
      var id := nextInvoiceId;
      var v := NewInvoice(number.value, lpoId, invoiceDate, dueDate, supplierId, projectId, paymentMode, message,
                          memo, totals, caller);
      var lines := BuildItems(itemsJson.value, id);
      assert lines == seq(|itemsJson.value|, i requires 0 <= i < |itemsJson.value| => ItemOf(itemsJson.value[i], id));
      assert forall k :: k in invoices ==> invoices[k].invoiceNumber != v.invoiceNumber by {
        forall k | k in invoices ensures invoices[k].invoiceNumber != v.invoiceNumber {
          assert InvoiceNumberOf(invoices[k]) in InvoiceNumbers();
        }
      }
      NewInvoiceValid(invoices, items, nextInvoiceId, nextItemId, v, lines);
      invoices := invoices[id := v];
      items := items + Numbered(nextItemId, lines);
      nextInvoiceId := id + 1;
      nextItemId := nextItemId + |lines|;
      r := Ok(id);
    }
  }
}
