/** Local purchase orders (app/api/endpoints/lpo/lpo.py, the `LPO` and
    `LPOItem` records of app/models.py): numbered LPO-0001, LPO-0002, ...
    after the most recently inserted order, created Pending with one line
    per entry of the form's item list. Amounts are reals; the two-decimal
    rounding of the database columns is not modelled. */
module Lpos {

  import opened Shared
  import opened Listing
  import opened Numbering

  /** One entry of the `items_json` list as the form sends it. */
  datatype LpoItemData = LpoItemData(materialId: int, description: Option<string>, quantity: real, rate: real, taxRate: real)

  /** A stored order line. */
  datatype LpoItem = LpoItem(description: Option<string>, quantity: real, rate: real, taxRate: real,
                             lpoId: nat, materialId: int)

  /** A stored order. The totals are nullable and left empty on creation. */
  datatype Lpo = Lpo(
    lpoNumber: string,
    lpoDate: Date,
    status: string,
    subtotal: Option<real>,
    taxTotal: Option<real>,
    grandTotal: Option<real>,
    messageToSupplier: Option<string>,
    memo: Option<string>,
    paymentMode: Option<string>,
    supplierId: nat,
    projectId: nat,
    createdById: UserId)

  const LPO_PREFIX := "LPO"

  function LpoNumberOf(o: Lpo): string
  {
    o.lpoNumber
  }

  /** `get_next_lpo_number` over the orders with ids below `bound`. */
  function NextLpoNumber(lpos: map<nat, Lpo>, bound: nat): Result<string>
  {
    NextDocNumber(LPO_PREFIX, NewestNumber(lpos, bound, LpoNumberOf))
  }

  /** With no orders the number is LPO-0001; after an order numbered by the
      generator, the next one is generated; it fails exactly when the newest
      order's number cannot be read. */
  lemma NextLpoNumberSpec(lpos: map<nat, Lpo>, bound: nat, o: Lpo, n: nat)
    requires forall k :: k in lpos ==> k < bound
    ensures (forall k :: k in lpos ==> k >= bound) ==> NextLpoNumber(lpos, bound) == Ok(Identifier(LPO_PREFIX, 1, 4))
    ensures o.lpoNumber == Identifier(LPO_PREFIX, n, 4) ==>
      NextLpoNumber(lpos[bound := o], bound + 1) == Ok(Identifier(LPO_PREFIX, n + 1, 4))
    ensures NewestNumber(lpos, bound, LpoNumberOf).Some? ==>
      (NextLpoNumber(lpos, bound).Err? <==> NumberPart(NewestNumber(lpos, bound, LpoNumberOf).value).None?)
  {
    NextDocNumberCounts(LPO_PREFIX, n);
    NewestNumberAfterInsert(lpos, bound, LpoNumberOf, o);
    if NewestNumber(lpos, bound, LpoNumberOf).Some? {
      NextDocNumberReadsBack(LPO_PREFIX, NewestNumber(lpos, bound, LpoNumberOf).value);
    }
  }

  /** The stored line for one entry of the form. */
  function ItemOf(d: LpoItemData, lpoId: nat): (it: LpoItem)
    ensures it.lpoId == lpoId && it.materialId == d.materialId && it.description == d.description
    ensures it.quantity == d.quantity && it.rate == d.rate && it.taxRate == d.taxRate
  {
    LpoItem(d.description, d.quantity, d.rate, d.taxRate, lpoId, d.materialId)
  }

  /** The order built by `create_lpo`: status Pending, totals empty. */
  function NewLpo(number: string, supplierId: nat, lpoDate: Date, projectId: nat, message: Option<string>,
                  memo: Option<string>, createdBy: UserId): (o: Lpo)
    ensures o.lpoNumber == number && o.status == "Pending" && o.createdById == createdBy
    ensures o.subtotal == None && o.taxTotal == None && o.grandTotal == None && o.paymentMode == None
  {
    Lpo(number, lpoDate, "Pending", None, None, None, message, memo, None, supplierId, projectId, createdBy)
  }

  /** The loop of `create_lpo` that appends a line per entry: the lines
      come out in the order of the entries, each carrying its entry's
      material, description, quantity, rate and tax rate. */
  method BuildItems(ds: seq<LpoItemData>, lpoId: nat) returns (lines: seq<LpoItem>)
    ensures |lines| == |ds|
    ensures forall i :: 0 <= i < |ds| ==> lines[i] == ItemOf(ds[i], lpoId)
  {
    lines := [];
    for i := 0 to |ds|
      invariant |lines| == i
      invariant forall j :: 0 <= j < i ==> lines[j] == ItemOf(ds[j], lpoId)
    {
      lines := lines + [ItemOf(ds[i], lpoId)];
    }
  }

  /** Ids below their counters, unique LPO numbers (the column is unique),
      and every line belongs to a stored order. */
  ghost predicate LposValid(lpos: map<nat, Lpo>, items: map<nat, LpoItem>, nextLpoId: nat, nextItemId: nat)
  {
    (forall k :: k in lpos ==> k < nextLpoId)
    && (forall k :: k in items ==> k < nextItemId)
    && (forall a, b :: a in lpos && b in lpos && lpos[a].lpoNumber == lpos[b].lpoNumber ==> a == b)
    && (forall k :: k in items ==> items[k].lpoId in lpos)
  }

  /** Adding a fresh order with a number not yet taken, and lines that
      belong to it, keeps the tables valid. */
  lemma NewLpoValid(lpos: map<nat, Lpo>, items: map<nat, LpoItem>, nextLpoId: nat, nextItemId: nat,
                    o: Lpo, lines: seq<LpoItem>)
    requires LposValid(lpos, items, nextLpoId, nextItemId)
    requires forall k :: k in lpos ==> lpos[k].lpoNumber != o.lpoNumber
    requires forall i :: 0 <= i < |lines| ==> lines[i].lpoId == nextLpoId
    ensures LposValid(lpos[nextLpoId := o], items + Numbered(nextItemId, lines), nextLpoId + 1, nextItemId + |lines|)
  {
    var added := Numbered(nextItemId, lines);
    forall k | k in items + added ensures (items + added)[k].lpoId in lpos[nextLpoId := o] {
      if k in added {
        assert added[k] == lines[k - nextItemId];
      }
    }
  }

  class LpoStore {
    var lpos: map<nat, Lpo>
    var items: map<nat, LpoItem>
    var nextLpoId: nat
    var nextItemId: nat

    ghost predicate Valid()
      reads this
    {
      LposValid(lpos, items, nextLpoId, nextItemId)
    }

    constructor ()
      ensures Valid() && lpos == map[] && items == map[]
    {
      lpos, items, nextLpoId, nextItemId := map[], map[], 0, 0;
    }

    /** The LPO-number column, in id order. */
    function LpoNumbers(): seq<string>
      reads this
    {
      Column(lpos, nextLpoId, LpoNumberOf)
    }

    /** `create_lpo`. `itemsJson` is the parsed item list, None where it
        does not parse. A list that does not parse, a newest number that
        cannot be read, or a generated number already taken (the unique
        column refuses it at commit) is rolled back as a 500; otherwise the
        order is stored Pending under the next number with its lines in
        input order, and its id returned. */
    method CreateLpo(supplierId: nat, lpoDate: Date, projectId: nat, message: Option<string>, memo: Option<string>,
                     itemsJson: Option<seq<LpoItemData>>, caller: UserId) returns (r: Result<nat>)
      requires Valid()
      modifies this
      ensures Valid()
      ensures itemsJson.None? || NextLpoNumber(old(lpos), old(nextLpoId)).Err? ==> r == Err(Internal) && unchanged(this)
      ensures itemsJson.Some? && NextLpoNumber(old(lpos), old(nextLpoId)).Ok?
              && NextLpoNumber(old(lpos), old(nextLpoId)).value in old(LpoNumbers()) ==>
        r == Err(Internal) && unchanged(this)
      ensures r.Ok? ==>
        itemsJson.Some? && NextLpoNumber(old(lpos), old(nextLpoId)).Ok?
        && NextLpoNumber(old(lpos), old(nextLpoId)).value !in old(LpoNumbers())
        && r.value == old(nextLpoId)
        && lpos == old(lpos)[r.value := NewLpo(NextLpoNumber(old(lpos), old(nextLpoId)).value, supplierId, lpoDate,
                                               projectId, message, memo, caller)]
        && items == old(items) + Numbered(old(nextItemId),
                                          seq(|itemsJson.value|, i requires 0 <= i < |itemsJson.value| =>
                                                ItemOf(itemsJson.value[i], r.value)))
        && nextLpoId == old(nextLpoId) + 1 && nextItemId == old(nextItemId) + |itemsJson.value|
      ensures (itemsJson.Some? && NextLpoNumber(old(lpos), old(nextLpoId)).Ok?
               && NextLpoNumber(old(lpos), old(nextLpoId)).value !in old(LpoNumbers())) ==> r.Ok?
    {
      if itemsJson.None? {
        return Err(Internal);
      }
      r := AddLpo(NextLpoNumber(lpos, nextLpoId), supplierId, lpoDate, projectId, message, memo, itemsJson.value, caller);
    }

    /** The body of `create_lpo` once the item list is parsed and the next
        number generated. */
    method AddLpo(number: Result<string>, supplierId: nat, lpoDate: Date, projectId: nat, message: Option<string>,
                  memo: Option<string>, ds: seq<LpoItemData>, caller: UserId) returns (r: Result<nat>)
      requires Valid()
      modifies this
      ensures Valid()
      ensures number.Err? || number.value in old(LpoNumbers()) ==> r == Err(Internal) && unchanged(this)
      ensures number.Ok? && number.value !in old(LpoNumbers()) ==>
        r == Ok(old(nextLpoId))
        && lpos == old(lpos)[old(nextLpoId) := NewLpo(number.value, supplierId, lpoDate, projectId, message, memo, caller)]
        && items == old(items) + Numbered(old(nextItemId),
                                          seq(|ds|, i requires 0 <= i < |ds| => ItemOf(ds[i], old(nextLpoId))))
        && nextLpoId == old(nextLpoId) + 1 && nextItemId == old(nextItemId) + |ds|
    {
      if number.Err? {
        return Err(Internal);
      }
      if number.value in LpoNumbers() {
        return Err(Internal);
      }
      var id := nextLpoId;
      var o := NewLpo(number.value, supplierId, lpoDate, projectId, message, memo, caller);
      var lines := BuildItems(ds, id);
      assert lines == seq(|ds|, i requires 0 <= i < |ds| => ItemOf(ds[i], id));
      assert forall k :: k in lpos ==> lpos[k].lpoNumber != o.lpoNumber by {
        forall k | k in lpos ensures lpos[k].lpoNumber != o.lpoNumber {
          assert LpoNumberOf(lpos[k]) in LpoNumbers();
        }
      }
      NewLpoValid(lpos, items, nextLpoId, nextItemId, o, lines);
      lpos := lpos[id := o];
      items := items + Numbered(nextItemId, lines);
      nextLpoId := id + 1;
      nextItemId := nextItemId + |lines|;
      r := Ok(id);
    }
  }

  /** Orders created one after another through the generator are numbered
      consecutively: after an order numbered LPO-n the next is LPO-(n+1),
      which no earlier generated number repeats. */
  lemma ConsecutiveLpoNumbers(lpos: map<nat, Lpo>, bound: nat, o: Lpo, n: nat)
    requires forall k :: k in lpos ==> k < bound
    requires o.lpoNumber == Identifier(LPO_PREFIX, n, 4)
    ensures NextLpoNumber(lpos[bound := o], bound + 1).Ok?
    ensures NumberPart(NextLpoNumber(lpos[bound := o], bound + 1).value) == Some(n + 1)
    ensures forall m: nat :: m <= n ==> NextLpoNumber(lpos[bound := o], bound + 1).value != Identifier(LPO_PREFIX, m, 4)
  {
    NextLpoNumberSpec(lpos, bound, o, n);
    var next := Identifier(LPO_PREFIX, n + 1, 4);
    assert NextLpoNumber(lpos[bound := o], bound + 1) == Ok(next);
    NumberPartIdentifier(LPO_PREFIX, n + 1, 4);
    forall m: nat | m <= n ensures next != Identifier(LPO_PREFIX, m, 4) {
      NumberPartIdentifier(LPO_PREFIX, m, 4);
    }
  }
}
