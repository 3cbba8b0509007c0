/** What the document-number generators share: the string order in which
    the database compares text columns, the largest text of a column, and
    reading the number that follows the first '-' of a `PREFIX-NNNN`
    identifier (app/api/endpoints/lpo/lpo.py, app/api/endpoints/invoice/invoice.py,
    app/api/endpoints/procurement.py). */
module Numbering {

  import opened Shared
  import opened Text

  // ---------------------------------------------------------------------
  // String order

  /** Lexicographic order by character code: a prefix comes first, and
      otherwise the first differing character decides. */
  predicate LexLe(a: string, b: string)
  {
    a == [] || (b != [] && (a[0] < b[0] || (a[0] == b[0] && LexLe(a[1..], b[1..]))))
  }

  lemma LexLeTotal(a: string, b: string)
    ensures LexLe(a, b) || LexLe(b, a)
  {
    if a != [] && b != [] && a[0] == b[0] {
      LexLeTotal(a[1..], b[1..]);
    }
  }

  lemma LexLeTransitive(a: string, b: string, c: string)
    requires LexLe(a, b) && LexLe(b, c)
    ensures LexLe(a, c)
  {
    if a != [] && b != [] && c != [] && a[0] == b[0] && b[0] == c[0] {
      LexLeTransitive(a[1..], b[1..], c[1..]);
    }
  }

  lemma LexLeAntisymmetric(a: string, b: string)
    requires LexLe(a, b) && LexLe(b, a)
    ensures a == b
  {
    if a != [] && b != [] {
      LexLeAntisymmetric(a[1..], b[1..]);
      assert a == [a[0]] + a[1..] && b == [b[0]] + b[1..];
    }
  }

  /** A common prefix does not change how two texts compare. */
  lemma {:induction false} LexLeCommonPrefix(p: string, x: string, y: string)
    ensures LexLe(p + x, p + y) == LexLe(x, y)
    decreases |p|
  {
    if p == [] {
      assert p + x == x && p + y == y;
    } else {
      assert (p + x)[1..] == p[1..] + x && (p + y)[1..] == p[1..] + y;
      assert (p + x)[0] == p[0] == (p + y)[0];
      LexLeCommonPrefix(p[1..], x, y);
    }
  }

  /** `MAX(column)` over the given values: None for no rows, otherwise the
      value no other value follows. */
  function MaxString(xs: seq<string>): (r: Option<string>)
    ensures r.None? <==> xs == []
    ensures r.Some? ==> r.value in xs && forall x :: x in xs ==> LexLe(x, r.value)
  {
    if xs == [] then None
    else
      var init := xs[..|xs| - 1];
      var last := xs[|xs| - 1];
      assert xs == init + [last];
      match MaxString(init)
      case None => LexLeTotal(last, last); Some(last)
      case Some(m) =>
        if LexLe(m, last) then
          assert forall x :: x in init ==> LexLe(x, last) by {
            forall x | x in init ensures LexLe(x, last) {
              LexLeTransitive(x, m, last);
            }
          }
          LexLeTotal(last, last);
          Some(last)
        else
          LexLeTotal(m, last);
          Some(m)
  }

  /** The largest of some numbers, 0 for none. */
  function MaxNat(xs: seq<nat>): (m: nat)
    ensures forall x :: x in xs ==> x <= m
    ensures xs != [] ==> m in xs
    ensures xs == [] ==> m == 0
  {
    if xs == [] then 0
    else
      var rest := MaxNat(xs[1..]);
      assert xs == [xs[0]] + xs[1..];
      if xs[0] >= rest then xs[0] else rest
  }

  // ---------------------------------------------------------------------
  // PREFIX-NNNN identifiers

  /** `int(s.split('-')[1])`: the text between the first and the second '-'
      read as an integer; None where Python raises (no '-' at all, or a
      piece that is not a numeral). */
  function NumberPart(s: string): Option<int>
  {
    var pieces := Split(s, '-');
    if |pieces| < 2 then None else ParseInt(pieces[1])
  }

  /** The piece holds no '-', so the number read is never negative. */
  lemma NumberPartNatural(s: string)
    ensures NumberPart(s).Some? ==> NumberPart(s).value >= 0
  {
    var pieces := Split(s, '-');
    if |pieces| >= 2 {
      ParseIntNoMinus(pieces[1]);
    }
  }

  /** The identifier `prefix-NNNN`, the number zero-padded to `width`. */
  function Identifier(prefix: string, n: nat, width: nat): string
  {
    prefix + "-" + ZeroPad(n, width)
  }

  /** The number of an identifier reads back, whatever its width. */
  lemma NumberPartIdentifier(prefix: string, n: nat, width: nat)
    requires '-' !in prefix
    ensures NumberPart(Identifier(prefix, n, width)) == Some(n)
  {
    var z := ZeroPad(n, width);
    ZeroPadShape(n, width);
    var pieces := [prefix, z];
    assert Join(pieces, '-') == Identifier(prefix, n, width);
    SplitJoin(pieces, '-');
    ParseZeroPad(n, width);
  }

  /** Identifiers with different numbers differ. */
  lemma IdentifierInjective(prefix: string, m: nat, n: nat, width: nat)
    requires '-' !in prefix
    requires Identifier(prefix, m, width) == Identifier(prefix, n, width)
    ensures m == n
  {
    NumberPartIdentifier(prefix, m, width);
    NumberPartIdentifier(prefix, n, width);
  }

  /** `get_next_lpo_number` and `get_next_invoice_number`: given the number
      of the row with the highest id (None for an empty table), the first
      identifier `prefix-0001`, or the one after it, four digits wide;
      Internal where reading the number raises. */
  function NextDocNumber(prefix: string, last: Option<string>): Result<string>
  {
    match last
    case None => Ok(Identifier(prefix, 1, 4))
    case Some(s) => NumberAfter(prefix, s, 4)
  }

  /** The identifier after `s`: the number after its first '-' plus one,
      zero-padded to `width`; Internal where that number cannot be read. */
  function NumberAfter(prefix: string, s: string, width: nat): Result<string>
  {
    match NumberPart(s)
    case None => Err(Internal)
    case Some(n) => NumberPartNatural(s); Ok(Identifier(prefix, n + 1, width))
  }

  /** The identifier after `s` fails, with Internal, exactly when the number
      of `s` cannot be read, and otherwise reads back as one more than it. */
  lemma NumberAfterReadsBack(prefix: string, s: string, width: nat)
    requires '-' !in prefix
    ensures NumberAfter(prefix, s, width).Err? <==> NumberPart(s).None?
    ensures NumberAfter(prefix, s, width).Err? ==> NumberAfter(prefix, s, width) == Err(Internal)
    ensures NumberAfter(prefix, s, width).Ok? ==>
      NumberPart(NumberAfter(prefix, s, width).value) == Some(NumberPart(s).value + 1)
  {
    match NumberPart(s)
    case None =>
    case Some(m) =>
      NumberPartNatural(s);
      assert NumberAfter(prefix, s, width) == Ok(Identifier(prefix, m + 1, width));
      NumberPartIdentifier(prefix, m + 1, width);
  }

  /** Numbering starts at 0001, and a number made by this generator is
      followed by the next one. */
  lemma NextDocNumberCounts(prefix: string, n: nat)
    requires '-' !in prefix
    ensures NextDocNumber(prefix, None) == Ok(Identifier(prefix, 1, 4))
    ensures NextDocNumber(prefix, Some(Identifier(prefix, n, 4))) == Ok(Identifier(prefix, n + 1, 4))
  {
    NumberPartIdentifier(prefix, n, 4);
  }

  /** After any last number, the result fails exactly when that number
      cannot be read, and otherwise reads back as one more than it. */
  lemma NextDocNumberReadsBack(prefix: string, s: string)
    requires '-' !in prefix
    ensures NextDocNumber(prefix, Some(s)).Err? <==> NumberPart(s).None?
    ensures NextDocNumber(prefix, Some(s)).Ok? ==>
      NumberPart(NextDocNumber(prefix, Some(s)).value) == Some(NumberPart(s).value + 1)
  {
    NumberAfterReadsBack(prefix, s, 4);
  }

  /** The highest id below `bound` in `table`, if any: the row that an
      `ORDER BY id DESC` query returns first. */
  function HighestKey<T>(table: map<nat, T>, bound: nat): (r: Option<nat>)
    ensures r.Some? ==> r.value in table && r.value < bound
    ensures r.Some? ==> forall k :: k in table && k < bound ==> k <= r.value
    ensures r.None? ==> forall k :: k in table ==> k >= bound
  {
    if bound == 0 then None
    else if bound - 1 in table then Some(bound - 1)
    else HighestKey(table, bound - 1)
  }

  /** The number column of the row `ORDER BY id DESC` returns first, if any. */
  function NewestNumber<T>(table: map<nat, T>, bound: nat, number: T -> string): (r: Option<string>)
    ensures r.None? <==> forall k :: k in table ==> k >= bound
  {
    match HighestKey(table, bound)
    case None => None
    case Some(k) => Some(number(table[k]))
  }

  /** A row added above every existing one is the newest: the next number
      is generated from its number. */
  lemma NewestNumberAfterInsert<T>(table: map<nat, T>, bound: nat, number: T -> string, x: T)
    requires forall k :: k in table ==> k < bound
    ensures NewestNumber(table[bound := x], bound + 1, number) == Some(number(x))
  {
    assert HighestKey(table[bound := x], bound + 1) == Some(bound);
  }
}
