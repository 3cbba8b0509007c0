/** Suppliers: creating one from the purchasing form, which refuses a name
    already on record in any letter case (app/api/endpoints/suppliers.py),
    and the seeding script that loads a tab-separated supplier list,
    cleaning phone numbers and e-mail addresses and skipping names already
    present (scripts/seed_suppliers.py). The list the script carries is a
    parameter here. */
module Suppliers {

  import opened Shared
  import opened Text
  import opened Listing
  import opened Models

  // ---------------------------------------------------------------------
  // Cleaning (seed_suppliers.py)

  /** `clean_phone`: None for a blank value, otherwise only its digits
      (which may leave nothing). */
  function CleanPhone(s: string): Option<string>
  {
    if Blank(s) then None else Some(KeepDigits(Strip(s)))
  }

  /** `clean_email`: None for a blank value or one without '@', otherwise
      the value stripped. */
  function CleanEmail(s: string): Option<string>
  {
    if Blank(s) || '@' !in s then None else Some(Strip(s))
  }

  /** The digits of a concatenation are the digits of each part. */
  lemma {:induction false} KeepDigitsAppend(a: string, b: string)
    ensures KeepDigits(a + b) == KeepDigits(a) + KeepDigits(b)
    decreases |a|
  {
    if a == [] {
      assert a + b == b;
    } else {
      assert (a + b)[0] == a[0] && (a + b)[1..] == a[1..] + b;
      KeepDigitsAppend(a[1..], b);
    }
  }

  /** White space holds no digits. */
  lemma {:induction false} KeepDigitsBlank(s: string)
    requires Blank(s)
    ensures KeepDigits(s) == []
    decreases |s|
  {
    if s != [] {
      SpaceNotDigit(s[0]);
      KeepDigitsBlank(s[1..]);
    }
  }

  /** Stripping loses no digit. */
  lemma KeepDigitsStrip(s: string)
    ensures KeepDigits(Strip(s)) == KeepDigits(s)
  {
    KeepDigitsStripLeft(s);
    KeepDigitsStripRight(StripLeft(s));
  }

  lemma KeepDigitsStripLeft(s: string)
    ensures KeepDigits(StripLeft(s)) == KeepDigits(s)
  {
    var l := StripLeft(s);
    var front := s[..|s| - |l|];
    assert s == front + l;
    assert Blank(front) by {
      forall i | 0 <= i < |front| ensures IsSpace(front[i]) {
        assert front[i] == s[i];
      }
    }
    KeepDigitsBlank(front);
    KeepDigitsAppend(front, l);
  }

  lemma KeepDigitsStripRight(s: string)
    ensures KeepDigits(StripRight(s)) == KeepDigits(s)
  {
    var r := StripRight(s);
    var back := s[|r|..];
    assert s == r + back;
    assert Blank(back) by {
      forall i | 0 <= i < |back| ensures IsSpace(back[i]) {
        assert back[i] == s[|r| + i];
      }
    }
    KeepDigitsBlank(back);
    KeepDigitsAppend(r, back);
  }

  /** A phone number is dropped exactly when blank; otherwise it keeps the
      digits of the whole value, in order, and nothing else; cleaning a
      cleaned number again changes nothing. */
  lemma CleanPhoneSpec(s: string)
    ensures CleanPhone(s).None? <==> Blank(s)
    ensures CleanPhone(s).Some? ==> CleanPhone(s).value == KeepDigits(s)
    ensures CleanPhone(s).Some? ==> forall i :: 0 <= i < |CleanPhone(s).value| ==> IsDigit(CleanPhone(s).value[i])
    ensures CleanPhone(s).Some? && CleanPhone(s).value != [] ==> CleanPhone(CleanPhone(s).value) == CleanPhone(s)
  {
    KeepDigitsStrip(s);
    var d := KeepDigits(s);
    if !Blank(s) && d != [] {
      DigitNotSpace(d[0]);
      DigitsStripToSelf(d);
    }
  }

  lemma AtNotSpace()
    ensures !IsSpace('@')
  {
  }

  lemma AtNotBlank(s: string)
    requires '@' in s
    ensures !Blank(s)
  {
    AtNotSpace();
    var i :| 0 <= i < |s| && s[i] == '@';
  }

  /** '@' is not white space, so stripping keeps it. */
  lemma StripKeepsAt(s: string)
    requires '@' in s
    ensures '@' in Strip(s)
  {
    AtNotSpace();
    var i :| 0 <= i < |s| && s[i] == '@';
    StripLeftKeeps(s, i);
    var l := StripLeft(s);
    var j := i - (|s| - |l|);
    StripRightKeeps(l, j);
    assert Strip(s)[j] == '@';
  }

  /** An address is dropped exactly when blank or without '@'; a kept one
      holds '@', has no white space at either end, and comes back unchanged
      when cleaned again. */
  lemma CleanEmailSpec(s: string)
    ensures CleanEmail(s).None? <==> Blank(s) || '@' !in s
    ensures CleanEmail(s).Some? ==>
      var e := CleanEmail(s).value;
      '@' in e && !IsSpace(e[0]) && !IsSpace(e[|e| - 1]) && CleanEmail(e) == CleanEmail(s)
  {
    if !Blank(s) && '@' in s {
      CleanEmailKept(s);
      StrippedEnds(s);
    }
  }

  lemma CleanEmailKept(s: string)
    requires '@' in s
    ensures '@' in Strip(s) && CleanEmail(Strip(s)) == Some(Strip(s))
  {
    StripKeepsAt(s);
    StripIdempotent(s);
    AtNotBlank(Strip(s));
  }

  lemma StrippedEnds(s: string)
    requires Strip(s) != []
    ensures !IsSpace(Strip(s)[0]) && !IsSpace(Strip(s)[|Strip(s)| - 1])
  {
    StripEnds(s);
  }

  // ---------------------------------------------------------------------
  // Seeding (seed_suppliers.py)

  /** One line of the list read as a supplier: the tab-separated name
      (stripped), phone (cleaned; None when the column is missing) and
      e-mail (cleaned; None when the column is missing). */
  function ParseLine(line: string): (s: Supplier)
  {
    var parts := Split(line, '\t');
    Supplier(Strip(parts[0]),
             if |parts| > 2 then CleanEmail(parts[2]) else None,
             if |parts| > 1 then CleanPhone(parts[1]) else None)
  }

  /** The readings of the lines that are not skipped, in order. */
  function Readings<T>(lines: seq<string>, skip: string -> bool, read: string -> T): seq<T>
  {
    if lines == [] then []
    else
      var line := lines[|lines| - 1];
      Readings(lines[..|lines| - 1], skip, read) + (if skip(line) then [] else [read(line)])
  }

  /** Every reading comes from a line that is not skipped, and every such
      line is read. */
  lemma {:induction false} ReadingsSpec<T>(lines: seq<string>, skip: string -> bool, read: string -> T)
    ensures forall c :: c in Readings(lines, skip, read) ==> exists j :: 0 <= j < |lines| && !skip(lines[j]) && read(lines[j]) == c
    ensures forall j :: 0 <= j < |lines| && !skip(lines[j]) ==> read(lines[j]) in Readings(lines, skip, read)
    decreases |lines|
  {
    if lines != [] {
      var init := lines[..|lines| - 1];
      ReadingsSpec(init, skip, read);
      forall c | c in Readings(lines, skip, read)
        ensures exists j :: 0 <= j < |lines| && !skip(lines[j]) && read(lines[j]) == c
      {
        if c in Readings(init, skip, read) {
          var j :| 0 <= j < |init| && !skip(init[j]) && read(init[j]) == c;
          assert lines[j] == init[j];
        } else {
          assert !skip(lines[|lines| - 1]) && read(lines[|lines| - 1]) == c;
        }
      }
      forall j | 0 <= j < |lines| && !skip(lines[j]) ensures read(lines[j]) in Readings(lines, skip, read) {
        if j < |init| {
          assert lines[j] == init[j];
        }
      }
    }
  }

  /** The suppliers read from the non-blank lines, in order. */
  function Candidates(lines: seq<string>): seq<Supplier>
  {
    Readings(lines, Blank, ParseLine)
  }

  /** The names of the given suppliers. */
  function NameSet(xs: seq<Supplier>): set<string>
  {
    set i | 0 <= i < |xs| :: xs[i].name
  }

  lemma NameSetSnoc(xs: seq<Supplier>, x: Supplier)
    ensures NameSet(xs + [x]) == NameSet(xs) + {x.name}
  {
    assert (xs + [x])[|xs|] == x;
    assert forall j :: 0 <= j < |xs| ==> (xs + [x])[j] == xs[j];
  }

  /** A candidate is taken when it has a name not yet seen. */
  predicate Takes(c: Supplier, seen: set<string>)
  {
    c.name != "" && c.name !in seen
  }

  /** The suppliers the script adds for the given candidates, the names in
      `existing` being already stored, in the order of the candidates. */
  function Plan(cands: seq<Supplier>, existing: set<string>): seq<Supplier>
  {
    if cands == [] then []
    else
      var prior := Plan(cands[..|cands| - 1], existing);
      var c := cands[|cands| - 1];
      if Takes(c, existing + NameSet(prior)) then prior + [c] else prior
  }

  /** The plan for all candidates extends the plan for all but the last. */
  lemma PlanStep(cands: seq<Supplier>, existing: set<string>)
    requires cands != []
    ensures var prior := Plan(cands[..|cands| - 1], existing);
      var c := cands[|cands| - 1];
      var p := Plan(cands, existing);
      (Takes(c, existing + NameSet(prior)) ==> p == prior + [c] && NameSet(p) == NameSet(prior) + {c.name})
      && (!Takes(c, existing + NameSet(prior)) ==> p == prior)
  {
    var prior := Plan(cands[..|cands| - 1], existing);
    NameSetSnoc(prior, cands[|cands| - 1]);
  }

  /** The planned suppliers have non-empty names that are new and pairwise
      different. */
  lemma {:induction false} PlanNamesNew(cands: seq<Supplier>, existing: set<string>)
    ensures var p := Plan(cands, existing);
      (forall i :: 0 <= i < |p| ==> p[i].name != "" && p[i].name !in existing)
      && (forall i, j :: 0 <= i < j < |p| ==> p[i].name != p[j].name)
    decreases |cands|
  {
    if cands != [] {
      var prior := Plan(cands[..|cands| - 1], existing);
      var c := cands[|cands| - 1];
      PlanNamesNew(cands[..|cands| - 1], existing);
      PlanStep(cands, existing);
      if Takes(c, existing + NameSet(prior)) {
        var p := Plan(cands, existing);
        forall i | 0 <= i < |prior| ensures p[i] == prior[i] && prior[i].name != c.name {
          assert prior[i].name in NameSet(prior);
        }
        assert p[|prior|] == c;
      }
    }
  }

  /** Each planned supplier is a candidate. */
  lemma {:induction false} PlanFromCandidates(cands: seq<Supplier>, existing: set<string>)
    ensures forall c :: c in Plan(cands, existing) ==> c in cands
    decreases |cands|
  {
    if cands != [] {
      PlanFromCandidates(cands[..|cands| - 1], existing);
      PlanStep(cands, existing);
      assert forall c :: c in cands[..|cands| - 1] ==> c in cands;
    }
  }

  /** Every named candidate has its name stored or planned. */
  lemma {:induction false} PlanComplete(cands: seq<Supplier>, existing: set<string>)
    ensures forall c :: c in cands && c.name != "" ==> c.name in existing + NameSet(Plan(cands, existing))
    decreases |cands|
  {
    if cands != [] {
      var init := cands[..|cands| - 1];
      var prior := Plan(init, existing);
      var c := cands[|cands| - 1];
      PlanComplete(init, existing);
      PlanStep(cands, existing);
      assert NameSet(prior) <= NameSet(Plan(cands, existing));
      assert cands == init + [c];
    }
  }

  /** What the script plans for a list: new, distinct, non-empty names,
      each read from a non-blank line, and every non-blank line's name
      stored or planned. */
  lemma SeedPlanSpec(lines: seq<string>, existing: set<string>)
    ensures var p := Plan(Candidates(lines), existing);
      (forall i :: 0 <= i < |p| ==> p[i].name != "" && p[i].name !in existing)
      && (forall i, j :: 0 <= i < j < |p| ==> p[i].name != p[j].name)
      && (forall i :: 0 <= i < |p| ==> exists j :: 0 <= j < |lines| && !Blank(lines[j]) && ParseLine(lines[j]) == p[i])
      && (forall j :: 0 <= j < |lines| && !Blank(lines[j]) && ParseLine(lines[j]).name != "" ==>
            ParseLine(lines[j]).name in existing + NameSet(p))
  {
    var cands := Candidates(lines);
    ReadingsSpec(lines, Blank, ParseLine);
    PlanNamesNew(cands, existing);
    PlanFromCandidates(cands, existing);
    PlanComplete(cands, existing);
    var p := Plan(cands, existing);
    forall i | 0 <= i < |p| ensures exists j :: 0 <= j < |lines| && !Blank(lines[j]) && ParseLine(lines[j]) == p[i] {
      assert p[i] in p;
    }
    forall j | 0 <= j < |lines| && !Blank(lines[j]) && ParseLine(lines[j]).name != ""
      ensures ParseLine(lines[j]).name in existing + NameSet(p)
    {
      assert ParseLine(lines[j]) in cands;
    }
  }

  /** One more line: the candidates grow by that line's reading unless it is
      blank. */
  lemma CandidatesSnoc(lines: seq<string>, i: nat)
    requires i < |lines|
    ensures Candidates(lines[..i + 1]) == Candidates(lines[..i]) + (if Blank(lines[i]) then [] else [ParseLine(lines[i])])
  {
    ReadingsPrefixSnoc(lines, i, Blank, ParseLine);
  }

  lemma ReadingsPrefixSnoc<T>(lines: seq<string>, i: nat, skip: string -> bool, read: string -> T)
    requires i < |lines|
    ensures Readings(lines[..i + 1], skip, read)
         == Readings(lines[..i], skip, read) + (if skip(lines[i]) then [] else [read(lines[i])])
  {
    assert lines[..i + 1][..i] == lines[..i];
  }

  /** One more candidate: the plan grows by it when it is taken. */
  lemma PlanSnoc(cands: seq<Supplier>, c: Supplier, existing: set<string>)
    ensures Plan(cands + [c], existing) ==
      var prior := Plan(cands, existing);
      if Takes(c, existing + NameSet(prior)) then prior + [c] else prior
  {
    assert (cands + [c])[..|cands|] == cands;
  }

  /** Adding suppliers with new, pairwise different names keeps names unique. */
  lemma SeedKeepsNamesUnique(suppliers: map<nat, Supplier>, next: nat, p: seq<Supplier>)
    requires forall k :: k in suppliers ==> k < next
    requires forall a, b :: a in suppliers && b in suppliers && suppliers[a].name == suppliers[b].name ==> a == b
    requires forall i :: 0 <= i < |p| ==> p[i].name !in StoredNames(suppliers)
    requires forall i, j :: 0 <= i < j < |p| ==> p[i].name != p[j].name
    ensures var m := suppliers + Numbered(next, p);
      forall a, b :: a in m && b in m && m[a].name == m[b].name ==> a == b
  {
    var added := Numbered(next, p);
    var m := suppliers + added;
    forall a, b | a in m && b in m && m[a].name == m[b].name ensures a == b {
      if a in added && b in added {
        assert added[a] == p[a - next] && added[b] == p[b - next];
        if a - next < b - next || b - next < a - next {
          assert false;
        }
      }
    }
  }

  /** Where every candidate's name is already known, nothing is planned. */
  lemma {:induction false} PlanNothingNew(cands: seq<Supplier>, known: set<string>)
    requires forall c :: c in cands && c.name != "" ==> c.name in known
    ensures Plan(cands, known) == []
    decreases |cands|
  {
    if cands != [] {
      var init := cands[..|cands| - 1];
      assert forall c :: c in init ==> c in cands;
      PlanNothingNew(init, known);
      assert NameSet([]) == {};
    }
  }

  /** Running the script a second time over the same list adds nothing. */
  lemma SeedTwiceAddsNothing(lines: seq<string>, existing: set<string>)
    ensures Plan(Candidates(lines), existing + NameSet(Plan(Candidates(lines), existing))) == []
  {
    var cands := Candidates(lines);
    PlanComplete(cands, existing);
    PlanNothingNew(cands, existing + NameSet(Plan(cands, existing)));
  }

  /** The lines of the list: the text stripped and split at newlines. */
  function DataLines(data: string): seq<string>
  {
    Split(Strip(data), '\n')
  }

  /** One more line: the plan grows by that line's supplier when the line
      is not blank and the supplier is taken. */
  lemma SeedStep(lines: seq<string>, i: nat, existing: set<string>)
    requires i < |lines|
    ensures var prior := Plan(Candidates(lines[..i]), existing);
      Plan(Candidates(lines[..i + 1]), existing) ==
        if !Blank(lines[i]) && Takes(ParseLine(lines[i]), existing + NameSet(prior)) then prior + [ParseLine(lines[i])]
        else prior
  {
    CandidatesSnoc(lines, i);
    if !Blank(lines[i]) {
      PlanSnoc(Candidates(lines[..i]), ParseLine(lines[i]), existing);
    } else {
      assert Candidates(lines[..i + 1]) == Candidates(lines[..i]);
    }
  }

  /** The loop of `seed_suppliers`: walks the lines, skipping blank ones,
      ones without a name and ones whose name is stored or met earlier, and
      collects the rest in order, adding each name to the names seen. */
  method PlanSeed(lines: seq<string>, existing0: set<string>) returns (toAdd: seq<Supplier>)
    ensures toAdd == Plan(Candidates(lines), existing0)
  {
    var existing := existing0;
    toAdd := [];
    for i := 0 to |lines|
      invariant toAdd == Plan(Candidates(lines[..i]), existing0)
      invariant existing == existing0 + NameSet(toAdd)
    {
      ghost var prior := toAdd;
      SeedStep(lines, i, existing0);
      var line := lines[i];
      ghost var taken := !Blank(line) && Takes(ParseLine(line), existing0 + NameSet(prior));
      if !Blank(line) {
        var s := ParseLine(line);
        if s.name != "" && s.name !in existing {
          NameSetSnoc(toAdd, s);
          toAdd := toAdd + [s];
          existing := existing + {s.name};
        }
      }
      assert toAdd == if taken then prior + [ParseLine(line)] else prior;
    }
    assert lines[..|lines|] == lines;
  }

  // ---------------------------------------------------------------------
  // The store

  /** The names of the stored suppliers. */
  function StoredNames(suppliers: map<nat, Supplier>): set<string>
  {
    set k | k in suppliers :: suppliers[k].name
  }

  /** The error for a name already on record, quoting it as given. */
  function DuplicateName(name: string): string
  {
    "A supplier with the name '" + name + "' already exists."
  }

  /** Storing a supplier whose name differs, ignoring case, from every
      stored one under a fresh id keeps ids below the counter and names
      unique, and keeps names unique ignoring case where they were. */
  lemma AddSupplierKeepsUnique(suppliers: map<nat, Supplier>, next: nat, s: Supplier)
    requires forall k :: k in suppliers ==> k < next
    requires forall a, b :: a in suppliers && b in suppliers && suppliers[a].name == suppliers[b].name ==> a == b
    requires forall k :: k in suppliers ==> Lower(suppliers[k].name) != Lower(s.name)
    ensures var m := suppliers[next := s];
      (forall k :: k in m ==> k < next + 1)
      && (forall a, b :: a in m && b in m && m[a].name == m[b].name ==> a == b)
      && ((forall a, b :: a in suppliers && b in suppliers && a != b ==> Lower(suppliers[a].name) != Lower(suppliers[b].name)) ==>
          forall a, b :: a in m && b in m && a != b ==> Lower(m[a].name) != Lower(m[b].name))
  {
    var m := suppliers[next := s];
    forall a, b | a in m && b in m && m[a].name == m[b].name ensures a == b {
      if a == next && b != next {
        assert false;
      } else if b == next && a != next {
        assert false;
      }
    }
  }

  class SupplierStore {
    var suppliers: map<nat, Supplier>
    var nextSupplierId: nat

    /** Ids below the counter and no two suppliers with the same name (the
        column is unique). */
    ghost predicate Valid()
      reads this
    {
      (forall k :: k in suppliers ==> k < nextSupplierId)
      && (forall a, b :: a in suppliers && b in suppliers && suppliers[a].name == suppliers[b].name ==> a == b)
    }

    constructor ()
      ensures Valid() && suppliers == map[]
    {
      suppliers, nextSupplierId := map[], 0;
    }

    /** `create_supplier`: a 400 quoting the name as given when a stored
        name equals the stripped name ignoring case; otherwise the supplier
        is stored under the stripped name with e-mail and phone as given.
        Names that differ in letter case alone stay apart. */
    method CreateSupplier(name: string, email: Option<string>, phone: Option<string>) returns (r: Result<nat>)
      requires Valid()
      modifies this
      ensures Valid()
      ensures (exists k :: k in old(suppliers) && Lower(old(suppliers)[k].name) == Lower(Strip(name))) ==>
        r == Err(BadRequest(DuplicateName(name))) && unchanged(this)
      ensures (forall k :: k in old(suppliers) ==> Lower(old(suppliers)[k].name) != Lower(Strip(name))) ==>
        r == Ok(old(nextSupplierId))
        && suppliers == old(suppliers)[old(nextSupplierId) := Supplier(Strip(name), email, phone)]
        && nextSupplierId == old(nextSupplierId) + 1
      ensures (forall a, b :: a in old(suppliers) && b in old(suppliers) && a != b ==>
                 Lower(old(suppliers)[a].name) != Lower(old(suppliers)[b].name)) ==>
        forall a, b :: a in suppliers && b in suppliers && a != b ==> Lower(suppliers[a].name) != Lower(suppliers[b].name)
    {
      r := AddStripped(Strip(name), DuplicateName(name), email, phone);
    }

    /** The body of `create_supplier` once the name is stripped: `message`
        is the 400's text for a clash. */
    method AddStripped(stripped: string, message: string, email: Option<string>, phone: Option<string>) returns (r: Result<nat>)
      requires Valid()
      modifies this
      ensures Valid()
      ensures (exists k :: k in old(suppliers) && Lower(old(suppliers)[k].name) == Lower(stripped)) ==>
        r == Err(BadRequest(message)) && unchanged(this)
      ensures (forall k :: k in old(suppliers) ==> Lower(old(suppliers)[k].name) != Lower(stripped)) ==>
        r == Ok(old(nextSupplierId))
        && suppliers == old(suppliers)[old(nextSupplierId) := Supplier(stripped, email, phone)]
        && nextSupplierId == old(nextSupplierId) + 1
      ensures (forall a, b :: a in old(suppliers) && b in old(suppliers) && a != b ==>
                 Lower(old(suppliers)[a].name) != Lower(old(suppliers)[b].name)) ==>
        forall a, b :: a in suppliers && b in suppliers && a != b ==> Lower(suppliers[a].name) != Lower(suppliers[b].name)
    {
      if exists k :: k in suppliers && Lower(suppliers[k].name) == Lower(stripped) {
        return Err(BadRequest(message));
      }
      var id := nextSupplierId;
      AddSupplierKeepsUnique(suppliers, id, Supplier(stripped, email, phone));
      suppliers := suppliers[id := Supplier(stripped, email, phone)];
      nextSupplierId := id + 1;
      r := Ok(id);
    }

    /** `seed_suppliers`: adds the suppliers planned for the lines of
        `data` with consecutive ids, committing only when there are any. */
    method SeedSuppliers(data: string)
      requires Valid()
      modifies this
      ensures Valid()
      ensures suppliers == old(suppliers) + Numbered(old(nextSupplierId), Plan(Candidates(DataLines(data)), old(StoredNames(suppliers))))
      ensures nextSupplierId == old(nextSupplierId) + |Plan(Candidates(DataLines(data)), old(StoredNames(suppliers)))|
    {
      SeedLines(DataLines(data));
    }

    /** The body of `seed_suppliers` once the text is split into lines. */
    method SeedLines(lines: seq<string>)
      requires Valid()
      modifies this
      ensures Valid()
      ensures suppliers == old(suppliers) + Numbered(old(nextSupplierId), Plan(Candidates(lines), old(StoredNames(suppliers))))
      ensures nextSupplierId == old(nextSupplierId) + |Plan(Candidates(lines), old(StoredNames(suppliers)))|
    {
      var existing := StoredNames(suppliers);
      var toAdd := PlanSeed(lines, existing);
      PlanNamesNew(Candidates(lines), existing);
      SeedKeepsNamesUnique(suppliers, nextSupplierId, toAdd);
      if toAdd != [] {
        suppliers := suppliers + Numbered(nextSupplierId, toAdd);
        nextSupplierId := nextSupplierId + |toAdd|;
      }
    }
  }
}
