/** Material requisitions after they are raised: the three approval slots
    and who sees what is pending (app/api/endpoints/approvals.py), the
    procurement desk's numbering, update and dashboard
    (app/api/endpoints/procurement.py), and material receipts that record a
    delivery against a requisition (app/api/endpoints/material_receipts.py). */
module Requisitions {

  import opened Shared
  import opened Text
  import opened Listing
  import opened Numbering
  import opened Models

  // ---------------------------------------------------------------------
  // Who sees which requisitions as pending (approvals.py)

  /** Awaiting the project manager, and already approved by procurement. */
  predicate PmPending(r: Requisition)
  {
    r.pmApproval == Some(PENDING) && r.mrApproval == Some(APPROVED)
  }

  /** Awaiting the quantity surveyor, and already approved by procurement. */
  predicate QsPending(r: Requisition)
  {
    r.qsApproval == Some(PENDING) && r.mrApproval == Some(APPROVED)
  }

  /** A requisition is listed for a user who holds the role of a slot it is
      pending in. */
  predicate Visible(r: Requisition, roles: Roles)
  {
    (PROJECT_MANAGER in roles && PmPending(r)) || (QS in roles && QsPending(r))
  }

  /** An entry of the pending list: the requisition, the slot it is listed
      for ("PM" or "QS"), and whether this user can act on it now. */
  datatype PendingItem = PendingItem(id: nat, pendingFor: string, actionable: bool)

  /** The listing order, newest request date first. */
  function NewestFirst(reqs: map<nat, Requisition>): nat -> Option<int>
  {
    k => if k in reqs then Some(-reqs[k].requestDate) else None
  }

  function PmKeep(reqs: map<nat, Requisition>): nat -> bool
  {
    k => k in reqs && PmPending(reqs[k])
  }

  function QsKeep(reqs: map<nat, Requisition>, pm: seq<nat>): nat -> bool
  {
    k => k in reqs && QsPending(reqs[k]) && k !in pm
  }

  /** The project manager's queue: every requisition pending there, newest first. */
  function PmQueue(reqs: map<nat, Requisition>, bound: nat, roles: Roles): seq<nat>
  {
    if PROJECT_MANAGER in roles then SortBy(Filter(KeysBelow(reqs, bound), PmKeep(reqs)), NewestFirst(reqs))
    else []
  }

  /** The QS queue: every requisition pending there that the PM queue does
      not already hold, newest first. */
  function QsQueue(reqs: map<nat, Requisition>, bound: nat, roles: Roles): seq<nat>
  {
    if QS in roles then
      SortBy(Filter(KeysBelow(reqs, bound), QsKeep(reqs, PmQueue(reqs, bound, roles))), NewestFirst(reqs))
    else []
  }

  function PmItems(pm: seq<nat>): seq<PendingItem>
  {
    seq(|pm|, i requires 0 <= i < |pm| => PendingItem(pm[i], "PM", true))
  }

  function QsItems(reqs: map<nat, Requisition>, qs: seq<nat>): seq<PendingItem>
  {
    seq(|qs|, i requires 0 <= i < |qs| =>
          PendingItem(qs[i], "QS", qs[i] in reqs && reqs[qs[i]].pmApproval == Some(APPROVED)))
  }

  /** `get_pending_approvals`: the PM queue, each entry actionable, then the
      QS queue, each entry actionable once the project manager approved. */
  function PendingApprovals(reqs: map<nat, Requisition>, bound: nat, roles: Roles): seq<PendingItem>
  {
    PmItems(PmQueue(reqs, bound, roles)) + QsItems(reqs, QsQueue(reqs, bound, roles))
  }

  function ItemIds(items: seq<PendingItem>): seq<nat>
  {
    seq(|items|, i requires 0 <= i < |items| => items[i].id)
  }

  /** Distinct ids, each one listed at most once. */
  predicate Distinct(ids: seq<nat>)
  {
    forall i, j :: 0 <= i < j < |ids| ==> ids[i] != ids[j]
  }

  lemma SortedFilterFacts(reqs: map<nat, Requisition>, bound: nat, keep: nat -> bool)
    ensures var q := SortBy(Filter(KeysBelow(reqs, bound), keep), NewestFirst(reqs));
      (forall k :: k in q <==> k in reqs && k < bound && keep(k))
      && Distinct(q) && SortedBy(q, NewestFirst(reqs))
  {
    var f := Filter(KeysBelow(reqs, bound), keep);
    assert Distinct(f);
    SortBySortedPermutation(f, NewestFirst(reqs));
    SortByMembers(f, NewestFirst(reqs));
    SortByDistinct(f, NewestFirst(reqs));
  }

  /** The queues hold exactly the requisitions pending in their slot (the QS
      queue leaving out those already in the PM queue), each once, newest
      first. */
  lemma QueuesSpec(reqs: map<nat, Requisition>, bound: nat, roles: Roles)
    ensures var pm := PmQueue(reqs, bound, roles);
      (forall k :: k in pm <==> k in reqs && k < bound && PROJECT_MANAGER in roles && PmPending(reqs[k]))
      && Distinct(pm) && SortedBy(pm, NewestFirst(reqs))
    ensures var qs := QsQueue(reqs, bound, roles);
      (forall k :: k in qs <==> k in reqs && k < bound && QS in roles && QsPending(reqs[k])
                                && !(PROJECT_MANAGER in roles && PmPending(reqs[k])))
      && Distinct(qs) && SortedBy(qs, NewestFirst(reqs))
  {
    var pm := PmQueue(reqs, bound, roles);
    if PROJECT_MANAGER in roles {
      SortedFilterFacts(reqs, bound, PmKeep(reqs));
    }
    if QS in roles {
      SortedFilterFacts(reqs, bound, QsKeep(reqs, pm));
    }
  }

  /** How the two queues make up the list. */
  lemma PendingItemsShape(reqs: map<nat, Requisition>, pm: seq<nat>, qs: seq<nat>)
    ensures var r := PmItems(pm) + QsItems(reqs, qs);
      |r| == |pm| + |qs| && ItemIds(r) == pm + qs
      && (forall i :: 0 <= i < |pm| ==> r[i] == PendingItem(pm[i], "PM", true))
      && (forall i :: |pm| <= i < |r| ==>
            r[i] == PendingItem(qs[i - |pm|], "QS", qs[i - |pm|] in reqs && reqs[qs[i - |pm|]].pmApproval == Some(APPROVED)))
  {
  }

  /** The pending list: a requisition appears iff procurement approved it and
      it is pending in a slot whose role the user holds, and then exactly
      once; it is listed for "PM" iff the user is a project manager and the
      PM slot is pending (so one pending for both is listed as "PM"); a PM
      entry is always actionable and a QS entry iff the PM slot is
      Approved; all PM entries come before all QS entries; a user with
      neither role sees nothing. */
  lemma PendingApprovalsSpec(reqs: map<nat, Requisition>, bound: nat, roles: Roles)
    ensures var r := PendingApprovals(reqs, bound, roles);
      (forall k :: k in ItemIds(r) <==> k in reqs && k < bound && Visible(reqs[k], roles))
      && Distinct(ItemIds(r))
      && (forall i :: 0 <= i < |r| ==>
            r[i].id in reqs
            && (r[i].pendingFor == "PM" <==> PROJECT_MANAGER in roles && PmPending(reqs[r[i].id]))
            && (r[i].pendingFor == "PM" || r[i].pendingFor == "QS")
            && r[i].actionable == (r[i].pendingFor == "PM" || reqs[r[i].id].pmApproval == Some(APPROVED)))
      && (forall i, j :: 0 <= i < j < |r| && r[j].pendingFor == "PM" ==> r[i].pendingFor == "PM")
      && (PROJECT_MANAGER !in roles && QS !in roles ==> r == [])
  {
    QueuesSpec(reqs, bound, roles);
    var pm := PmQueue(reqs, bound, roles);
    var qs := QsQueue(reqs, bound, roles);
    PendingItemsShape(reqs, pm, qs);
    var r := PendingApprovals(reqs, bound, roles);
    var ids := ItemIds(r);
    forall i, j | 0 <= i < j < |ids| ensures ids[i] != ids[j] {
      if j < |pm| {
      } else if i >= |pm| {
        assert ids[i] == qs[i - |pm|] && ids[j] == qs[j - |pm|];
      } else {
        assert ids[i] in pm && ids[j] in qs;
      }
    }
    forall i | 0 <= i < |r|
      ensures r[i].id in reqs
      ensures r[i].pendingFor == "PM" <==> PROJECT_MANAGER in roles && PmPending(reqs[r[i].id])
    {
      if i < |pm| {
        assert r[i].id in pm;
      } else {
        assert r[i].id in qs;
      }
    }
  }

  // ---------------------------------------------------------------------
  // Setting an approval slot (approvals.py)

  datatype ApprovalSlot = PmSlot | QsSlot | MrSlot

  /** The request schema's `approval_type`: exactly 'pm', 'qs' or 'mr'. */
  function ParseApprovalType(s: string): (r: Option<ApprovalSlot>)
    ensures r.Some? <==> s in {"pm", "qs", "mr"}
  {
    if s == "pm" then Some(PmSlot) else if s == "qs" then Some(QsSlot) else if s == "mr" then Some(MrSlot) else None
  }

  /** The request schema's `new_status`: exactly 'Approved' or 'Rejected'. */
  predicate IsDecision(s: string)
  {
    s == APPROVED || s == REJECTED
  }

  /** The role a slot's decision needs. */
  function SlotRole(slot: ApprovalSlot): string
  {
    match slot
    case PmSlot => PROJECT_MANAGER
    case QsSlot => QS
    case MrSlot => PROCUREMENT
  }

  function WithSlot(r: Requisition, slot: ApprovalSlot, decision: string): Requisition
  {
    match slot
    case PmSlot => r.(pmApproval := Some(decision))
    case QsSlot => r.(qsApproval := Some(decision))
    case MrSlot => r.(mrApproval := Some(decision))
  }

  /** Writing a slot sets that slot and nothing else, whatever the other
      slots hold: the QS can approve before the project manager, and either
      before procurement. */
  lemma WithSlotSpec(r: Requisition, slot: ApprovalSlot, decision: string)
    ensures var w := WithSlot(r, slot, decision);
      (slot == PmSlot ==> w.pmApproval == Some(decision) && w.qsApproval == r.qsApproval && w.mrApproval == r.mrApproval)
      && (slot == QsSlot ==> w.qsApproval == Some(decision) && w.pmApproval == r.pmApproval && w.mrApproval == r.mrApproval)
      && (slot == MrSlot ==> w.mrApproval == Some(decision) && w.pmApproval == r.pmApproval && w.qsApproval == r.qsApproval)
      && w.(pmApproval := r.pmApproval, qsApproval := r.qsApproval, mrApproval := r.mrApproval) == r
  {
  }

  // ---------------------------------------------------------------------
  // MR numbers (procurement.py)

  function MrIdentifier(n: nat): string
  {
    Identifier("MR", n, 6)
  }

  /** The MR number after `lastMr`, the largest number on record: MR-000057
      when there is none (or it is empty), otherwise the number after its
      first '-' plus one, six digits wide; Internal where that number
      cannot be read. */
  function NextMrNumber(lastMr: Option<string>): Result<string>
  {
    if !Truthy(lastMr) then Ok(MrIdentifier(57))
    else NumberAfter("MR", lastMr.value, 6)
  }

  /** Numbering starts at 57 when there is no last number or it is empty,
      and follows a generated number with the next one. */
  lemma NextMrNumberCounts(n: nat)
    ensures NextMrNumber(None) == Ok(MrIdentifier(57)) && NextMrNumber(Some("")) == Ok(MrIdentifier(57))
    ensures NextMrNumber(Some(MrIdentifier(n))) == Ok(MrIdentifier(n + 1))
  {
    NumberPartIdentifier("MR", n, 6);
    assert MrIdentifier(n) != "";
  }

  /** After a non-empty last number the result is a 500 exactly when that
      number cannot be read, and otherwise reads back as one more than it. */
  lemma NextMrNumberReadsBack(s: string)
    requires s != ""
    ensures NextMrNumber(Some(s)).Err? <==> NumberPart(s).None?
    ensures NextMrNumber(Some(s)).Err? ==> NextMrNumber(Some(s)) == Err(Internal)
    ensures NextMrNumber(Some(s)).Ok? ==>
      NumberPart(NextMrNumber(Some(s)).value) == Some(NumberPart(s).value + 1)
  {
    NumberAfterReadsBack("MR", s, 6);
  }

  lemma NinesNumeral()
    ensures NatToString(999999) == "999999"
  {
    calc {
      NatToString(999999);
      NatToString(99999) + ['9'];
      NatToString(9999) + ['9'] + ['9'];
      NatToString(999) + ['9'] + ['9'] + ['9'];
      NatToString(99) + ['9'] + ['9'] + ['9'] + ['9'];
      NatToString(9) + ['9'] + ['9'] + ['9'] + ['9'] + ['9'];
    }
  }

  lemma MillionNumeral()
    ensures NatToString(1000000) == "1000000"
  {
    calc {
      NatToString(1000000);
      NatToString(100000) + ['0'];
      NatToString(10000) + ['0'] + ['0'];
      NatToString(1000) + ['0'] + ['0'] + ['0'];
      NatToString(100) + ['0'] + ['0'] + ['0'] + ['0'];
      NatToString(10) + ['0'] + ['0'] + ['0'] + ['0'] + ['0'];
      NatToString(1) + ['0'] + ['0'] + ['0'] + ['0'] + ['0'] + ['0'];
    }
  }

  lemma MrNumeralsAtTheWrap()
    ensures MrIdentifier(999999) == "MR-999999" && MrIdentifier(1000000) == "MR-1000000"
  {
    NinesNumeral();
    MillionNumeral();
    assert Zeros(0) == [];
  }

  lemma TextOrderAtTheWrap()
    ensures LexLe("MR-1000000", "MR-999999") && !LexLe("MR-999999", "MR-1000000")
  {
    LexLeCommonPrefix("MR-", "1000000", "999999");
    LexLeCommonPrefix("MR-", "999999", "1000000");
    assert "MR-1000000" == "MR-" + "1000000" && "MR-999999" == "MR-" + "999999";
  }

  /** Taking the largest number as text, MR-999999 outranks MR-1000000, so
      once both exist the generator hands out MR-1000000 again, which is
      already taken. */
  lemma MrNumberTextOrderRepeats()
    ensures var xs := [MrIdentifier(999999), MrIdentifier(1000000)];
      MaxString(xs) == Some(MrIdentifier(999999))
      && NextMrNumber(MaxString(xs)) == Ok(MrIdentifier(1000000))
      && NextMrNumber(MaxString(xs)).value in xs
  {
    var a, b := MrIdentifier(999999), MrIdentifier(1000000);
    MrNumeralsAtTheWrap();
    TextOrderAtTheWrap();
    assert !LexLe(a, b);
    var xs := [a, b];
    var m := MaxString(xs).value;
    assert a in xs;
    assert LexLe(a, m);
    assert m != b;
    assert m == a;
    NextMrNumberCounts(999999);
  }

  /** The number of an MR identifier, read back as `NumberPart` does. */
  function MrValue(s: string): Option<nat>
  {
    NumberPartNatural(s);
    match NumberPart(s)
    case None => None
    case Some(n) => Some(n as nat)
  }

  /** The values that `read` finds in `xs`, in order, skipping the items it
      cannot read. */
  function ReadValues<T>(xs: seq<T>, read: T -> Option<nat>): seq<nat>
  {
    if xs == [] then []
    else
      var rest := ReadValues(xs[1..], read);
      match read(xs[0])
      case None => rest
      case Some(n) => [n] + rest
  }

  /** Every readable item contributes its value, and every value comes
      from an item. */
  lemma {:induction false} ReadValuesMembers<T>(xs: seq<T>, read: T -> Option<nat>)
    ensures forall x :: x in xs && read(x).Some? ==> read(x).value in ReadValues(xs, read)
    ensures forall n :: n in ReadValues(xs, read) ==> exists x :: x in xs && read(x) == Some(n)
    decreases |xs|
  {
    if xs != [] {
      ReadValuesMembers(xs[1..], read);
      forall x | x in xs && read(x).Some? ensures read(x).value in ReadValues(xs, read) {
        if x != xs[0] {
          assert x in xs[1..];
        }
      }
      forall n | n in ReadValues(xs, read) ensures exists x :: x in xs && read(x) == Some(n) {
        if read(xs[0]) != Some(n) {
          assert n in ReadValues(xs[1..], read);
          var x :| x in xs[1..] && read(x) == Some(n);
          assert x in xs;
        }
      }
    }
  }

  /** The MR number the generator evidently intends: one more than the
      largest number on record taken as a number, or MR-000057 when no
      number on record can be read. */
  function NextMrNumberByValue(numbers: seq<string>): string
  {
    var values := ReadValues(numbers, MrValue);
    if values == [] then MrIdentifier(57) else MrIdentifier(MaxNat(values) + 1)
  }

  /** The intended MR number reads back as one more than a number on
      record and larger than all of them, or as 57 when none can be read;
      so it is never one already taken (after MR-999999 and MR-1000000 it
      is MR-1000001, where text order repeats MR-1000000). */
  lemma NextMrNumberByValueFresh(numbers: seq<string>)
    ensures MrValue(NextMrNumberByValue(numbers)).Some?
    ensures forall x :: x in numbers && MrValue(x).Some? ==>
      MrValue(x).value < MrValue(NextMrNumberByValue(numbers)).value
    ensures (exists x :: x in numbers && MrValue(x).Some?) ==>
      exists x :: x in numbers && MrValue(x).Some? && MrValue(NextMrNumberByValue(numbers)) == Some(MrValue(x).value + 1)
    ensures (forall x :: x in numbers ==> MrValue(x).None?) ==> NextMrNumberByValue(numbers) == MrIdentifier(57)
    ensures NextMrNumberByValue(numbers) !in numbers
  {
    ReadValuesMembers(numbers, MrValue);
    var values := ReadValues(numbers, MrValue);
    var r := NextMrNumberByValue(numbers);
    if values == [] {
      assert r == MrIdentifier(57);
      assert MrValue(r) == Some(57) by {
        NumberPartIdentifier("MR", 57, 6);
      }
    } else {
      var m := MaxNat(values);
      assert r == MrIdentifier(m + 1);
      assert MrValue(r) == Some(m + 1) by {
        NumberPartIdentifier("MR", m + 1, 6);
      }
      var w :| w in numbers && MrValue(w) == Some(m);
    }
  }

  /** The message of a failed insert whose MR number is already taken. */
  const MR_NUMBER_TAKEN := "A database error occurred. It's possible the MR Number already exists."

  // ---------------------------------------------------------------------
  // Receipt image ids (material_receipts.py)

  /** The ids named by the comma-separated pieces that are all digits, in
      order; any other piece (empty, signed, with spaces) is dropped. */
  function IdsOfPieces(pieces: seq<string>): seq<nat>
  {
    if pieces == [] then []
    else (if IsDigits(pieces[0]) then [DigitsValue(pieces[0])] else []) + IdsOfPieces(pieces[1..])
  }

  /** `[int(t) for t in image_ids.split(',') if t.isdigit()]`. */
  function ParseImageIds(s: string): seq<nat>
  {
    IdsOfPieces(Split(s, ','))
  }

  function Numerals(ids: seq<nat>): seq<string>
  {
    seq(|ids|, i requires 0 <= i < |ids| => NatToString(ids[i]))
  }

  lemma {:induction false} IdsOfNumerals(ids: seq<nat>)
    ensures IdsOfPieces(Numerals(ids)) == ids
    decreases |ids|
  {
    if ids != [] {
      assert Numerals(ids)[1..] == Numerals(ids[1..]);
      NatToStringValue(ids[0]);
      IdsOfNumerals(ids[1..]);
    }
  }

  /** Every id read comes from a piece that is a numeral. */
  lemma {:induction false} IdsOfPiecesSound(pieces: seq<string>)
    ensures forall k :: k in IdsOfPieces(pieces) ==>
      exists i :: 0 <= i < |pieces| && IsDigits(pieces[i]) && DigitsValue(pieces[i]) == k
    decreases |pieces|
  {
    if pieces != [] {
      IdsOfPiecesSound(pieces[1..]);
      forall k | k in IdsOfPieces(pieces)
        ensures exists i :: 0 <= i < |pieces| && IsDigits(pieces[i]) && DigitsValue(pieces[i]) == k
      {
        if IsDigits(pieces[0]) && k == DigitsValue(pieces[0]) {
          assert IsDigits(pieces[0]);
        } else {
          assert k in IdsOfPieces(pieces[1..]);
          var i :| 0 <= i < |pieces[1..]| && IsDigits(pieces[1..][i]) && DigitsValue(pieces[1..][i]) == k;
          assert pieces[i + 1] == pieces[1..][i];
        }
      }
    }
  }

  /** Ids written out as a comma-separated list parse back to the same ids,
      and whatever is parsed names an id written in the text. */
  lemma ParseImageIdsSpec(ids: seq<nat>, s: string)
    ensures |ids| > 0 ==> ParseImageIds(Join(Numerals(ids), ',')) == ids
    ensures forall k :: k in ParseImageIds(s) ==>
      exists t :: t in Split(s, ',') && IsDigits(t) && DigitsValue(t) == k
  {
    if |ids| > 0 {
      var ns := Numerals(ids);
      forall i | 0 <= i < |ns| ensures ',' !in ns[i] {
        assert IsDigits(ns[i]);
      }
      SplitJoin(ns, ',');
      IdsOfNumerals(ids);
    }
    IdsOfPiecesSound(Split(s, ','));
  }

  /** Statuses under which a requisition still awaits delivery. */
  predicate AwaitsDelivery(r: Requisition)
  {
    r.status == PENDING || r.status == "Partial Delivered"
  }

  /** Images whose id is listed now belong to the receipt; the rest are as they were. */
  function LinkImages(images: map<nat, ReceiptImage>, ids: seq<nat>, receiptId: nat): (r: map<nat, ReceiptImage>)
    ensures r.Keys == images.Keys
    ensures forall k :: k in images && k in ids ==> r[k] == images[k].(receiptId := Some(receiptId))
    ensures forall k :: k in images && k !in ids ==> r[k] == images[k]
  {
    map k | k in images :: if k in ids then images[k].(receiptId := Some(receiptId)) else images[k]
  }

  function StillPending(reqs: map<nat, Requisition>): nat -> bool
  {
    k => k in reqs && reqs[k].status == PENDING
  }

  function ByRequestDate(reqs: map<nat, Requisition>): nat -> Option<int>
  {
    k => if k in reqs then Some(reqs[k].requestDate) else None
  }

  /** The procurement dashboard: the requisitions with status 'Pending', by
      request date. */
  function Dashboard(reqs: map<nat, Requisition>, bound: nat): seq<nat>
  {
    SortBy(Filter(KeysBelow(reqs, bound), StillPending(reqs)), ByRequestDate(reqs))
  }

  /** The dashboard lists every Pending requisition once and nothing else,
      earliest request first. */
  lemma DashboardSpec(reqs: map<nat, Requisition>, bound: nat)
    ensures var d := Dashboard(reqs, bound);
      (forall k :: k in d <==> k in reqs && k < bound && reqs[k].status == PENDING)
      && Distinct(d)
      && (forall i, j :: 0 <= i < j < |d| ==> reqs[d[i]].requestDate <= reqs[d[j]].requestDate)
  {
    var f := Filter(KeysBelow(reqs, bound), StillPending(reqs));
    assert Distinct(f);
    SortBySortedPermutation(f, ByRequestDate(reqs));
    SortByMembers(f, ByRequestDate(reqs));
    SortByDistinct(f, ByRequestDate(reqs));
    var d := Dashboard(reqs, bound);
    forall i, j | 0 <= i < j < |d| ensures reqs[d[i]].requestDate <= reqs[d[j]].requestDate {
      assert d[i] in d && d[j] in d;
      assert KeyLe(ByRequestDate(reqs)(d[i]), ByRequestDate(reqs)(d[j]));
    }
  }

  /** `get_pending_mrs_for_project`: the project's requisitions still
      awaiting delivery. */
  function PendingForProject(reqs: map<nat, Requisition>, bound: nat, projectId: nat): (r: seq<nat>)
    ensures forall k :: k in r <==> k in reqs && k < bound && reqs[k].projectId == projectId && AwaitsDelivery(reqs[k])
    ensures Distinct(r)
  {
    Filter(KeysBelow(reqs, bound), k => k in reqs && reqs[k].projectId == projectId && AwaitsDelivery(reqs[k]))
  }

  // ---------------------------------------------------------------------
  // The store

  class RequisitionStore {
    var requisitions: map<nat, Requisition>
    var receipts: map<nat, MaterialReceipt>
    /** Uploaded receipt images (their upload is not part of this model). */
    var images: map<nat, ReceiptImage>
    var nextRequisitionId: nat
    var nextReceiptId: nat

    /** Ids lie below their counters and no two requisitions share an MR
        number (the column is unique). */
    ghost predicate Valid()
      reads this
    {
      (forall k :: k in requisitions ==> k < nextRequisitionId)
      && (forall k :: k in receipts ==> k < nextReceiptId)
      && (forall a, b :: a in requisitions && b in requisitions && requisitions[a].mrNumber == requisitions[b].mrNumber
            ==> a == b)
    }

    constructor (images0: map<nat, ReceiptImage>)
      ensures Valid()
      ensures requisitions == map[] && receipts == map[] && images == images0
    {
      requisitions, receipts, images := map[], map[], images0;
      nextRequisitionId, nextReceiptId := 0, 0;
    }

    /** The MR-number column, in id order. */
    function MrNumbers(): seq<string>
      reads this
    {
      Column(requisitions, nextRequisitionId, (r: Requisition) => r.mrNumber)
    }

    /** `update_approval_status`: the request body is checked first (422),
        then the requisition (404), then the slot's role (403); the decision
        is then written to that slot alone. */
    method UpdateApproval(reqId: nat, approvalType: string, decision: string, roles: Roles) returns (r: Result<string>)
      requires Valid()
      modifies this
      ensures Valid()
      ensures ParseApprovalType(approvalType).None? || !IsDecision(decision) ==> r == Err(Unprocessable) && unchanged(this)
      ensures ParseApprovalType(approvalType).Some? && IsDecision(decision) && reqId !in old(requisitions) ==>
        r == Err(NotFound) && unchanged(this)
      ensures ParseApprovalType(approvalType).Some? && IsDecision(decision) && reqId in old(requisitions)
              && SlotRole(ParseApprovalType(approvalType).value) !in roles ==>
        r == Err(Forbidden) && unchanged(this)
      ensures ParseApprovalType(approvalType).Some? && IsDecision(decision) && reqId in old(requisitions)
              && SlotRole(ParseApprovalType(approvalType).value) in roles ==>
        r == Ok("Requisition " + NatToString(reqId) + " has been " + Lower(decision) + ".")
        && requisitions == old(requisitions)[reqId := WithSlot(old(requisitions)[reqId], ParseApprovalType(approvalType).value, decision)]
        && receipts == old(receipts) && images == old(images)
        && nextRequisitionId == old(nextRequisitionId) && nextReceiptId == old(nextReceiptId)
    {
      var slot := ParseApprovalType(approvalType);
      if slot.None? || !IsDecision(decision) {
        return Err(Unprocessable);
      }
      if reqId !in requisitions {
        return Err(NotFound);
      }
      if SlotRole(slot.value) !in roles {
        return Err(Forbidden);
      }
      requisitions := requisitions[reqId := WithSlot(requisitions[reqId], slot.value, decision)];
      r := Ok("Requisition " + NatToString(reqId) + " has been " + Lower(decision) + ".");
    }

    /** `update_material_requisition`: with no role check, overwrites the
        supplier, LPO number, PM and QS slots, payment status, remarks and
        status of an existing requisition, an omitted field becoming empty;
        the procurement slot and the MR number are left alone. */
    method UpdateRequisition(reqId: nat, supplierId: nat, status: string, lpoNumber: Option<string>,
                             pmApproval: Option<string>, qsApproval: Option<string>,
                             paymentStatus: Option<string>, remarks: Option<string>) returns (r: Result<string>)
      requires Valid()
      modifies this
      ensures Valid()
      ensures reqId !in old(requisitions) ==> r == Err(NotFound) && unchanged(this)
      ensures reqId in old(requisitions) ==>
        var o := old(requisitions)[reqId];
        r == Ok("Requisition " + o.mrNumber + " updated successfully!")
        && requisitions == old(requisitions)[reqId := o.(supplierId := Some(supplierId), lpoNumber := lpoNumber,
                                                        pmApproval := pmApproval, qsApproval := qsApproval,
                                                        paymentStatus := paymentStatus, remarks := remarks,
                                                        status := status)]
        && requisitions[reqId].mrApproval == o.mrApproval && requisitions[reqId].mrNumber == o.mrNumber
        && receipts == old(receipts) && images == old(images)
        && nextRequisitionId == old(nextRequisitionId) && nextReceiptId == old(nextReceiptId)
    {
      if reqId !in requisitions {
        return Err(NotFound);
      }
      var o := requisitions[reqId];
      requisitions := requisitions[reqId := o.(supplierId := Some(supplierId), lpoNumber := lpoNumber,
                                               pmApproval := pmApproval, qsApproval := qsApproval,
                                               paymentStatus := paymentStatus, remarks := remarks,
                                               status := status)];
      r := Ok("Requisition " + o.mrNumber + " updated successfully!");
    }

    /** `create_material_requisition` as written: the record is built with
        a field the requisition does not have, which raises, so after the
        number is worked out every request is rolled back as a 500 and
        nothing is stored. */
    method CreateRequisitionAsWritten(requestDate: Date, projectId: nat, requestedById: UserId, materialType: string,
                                      urgency: string, requiredDeliveryDate: Date) returns (r: Result<nat>)
      ensures r == Err(Internal)
    {
      var number := NextMrNumber(MaxString(MrNumbers()));
      r := Err(Internal);
    }

    /** `create_material_requisition` without the stray field: the next MR
        number after the largest on record, a 500 when that number cannot be
        read, a 400 when it is already taken, and otherwise a new
        requisition with every slot Pending. MR numbers stay unique. */
    method CreateRequisition(requestDate: Date, projectId: nat, requestedById: UserId, materialType: string,
                             urgency: string, requiredDeliveryDate: Date) returns (r: Result<nat>)
      requires Valid()
      modifies this
      ensures Valid()
      ensures NextMrNumber(MaxString(old(MrNumbers()))).Err? ==> r == Err(Internal) && unchanged(this)
      ensures NextMrNumber(MaxString(old(MrNumbers()))).Ok? && NextMrNumber(MaxString(old(MrNumbers()))).value in old(MrNumbers()) ==>
        r == Err(BadRequest(MR_NUMBER_TAKEN)) && unchanged(this)
      ensures NextMrNumber(MaxString(old(MrNumbers()))).Ok? && NextMrNumber(MaxString(old(MrNumbers()))).value !in old(MrNumbers()) ==>
        r == Ok(old(nextRequisitionId))
        && requisitions == old(requisitions)[old(nextRequisitionId) :=
             NewRequisition(NextMrNumber(MaxString(old(MrNumbers()))).value, requestDate, projectId, requestedById,
                            materialType, urgency, requiredDeliveryDate)]
        && nextRequisitionId == old(nextRequisitionId) + 1
        && receipts == old(receipts) && images == old(images) && nextReceiptId == old(nextReceiptId)
    {
      var number := NextMrNumber(MaxString(MrNumbers()));
      if number.Err? {
        return Err(Internal);
      }
      if number.value in MrNumbers() {
        return Err(BadRequest(MR_NUMBER_TAKEN));
      }
      var id := nextRequisitionId;
      requisitions := requisitions[id := NewRequisition(number.value, requestDate, projectId, requestedById,
                                                        materialType, urgency, requiredDeliveryDate)];
      nextRequisitionId := id + 1;
      r := Ok(id);
    }

    /** `create_material_receipt`: records the receipt with the caller as
        receiver; overwrites the requisition's status with the delivery
        status verbatim when the requisition exists (the handler itself
        raises no error for a missing one; the foreign-key failure at flush
        is not modelled); when image ids are given, links the uploaded
        images they name to the receipt. */
    method CreateReceipt(requisitionId: nat, deliveryStatus: string, notes: Option<string>, imageIds: Option<string>,
                         acknowledged: bool, caller: UserId) returns (receiptId: nat)
      requires Valid()
      modifies this
      ensures Valid()
      ensures receiptId == old(nextReceiptId) && receiptId !in old(receipts)
      ensures receipts == old(receipts)[receiptId := MaterialReceipt(deliveryStatus, notes, requisitionId, caller, acknowledged)]
      ensures requisitionId in old(requisitions) ==>
        requisitions == old(requisitions)[requisitionId := old(requisitions)[requisitionId].(status := deliveryStatus)]
      ensures requisitionId !in old(requisitions) ==> requisitions == old(requisitions)
      ensures Truthy(imageIds) ==> images == LinkImages(old(images), ParseImageIds(imageIds.value), receiptId)
      ensures !Truthy(imageIds) ==> images == old(images)
      ensures nextRequisitionId == old(nextRequisitionId) && nextReceiptId == old(nextReceiptId) + 1
    {
      receiptId := nextReceiptId;
      receipts := receipts[receiptId := MaterialReceipt(deliveryStatus, notes, requisitionId, caller, acknowledged)];
      nextReceiptId := receiptId + 1;
      if requisitionId in requisitions {
        requisitions := requisitions[requisitionId := requisitions[requisitionId].(status := deliveryStatus)];
      }
      if Truthy(imageIds) {
        images := LinkImages(images, ParseImageIds(imageIds.value), receiptId);
      }
    }
  }
}
