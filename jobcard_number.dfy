/** Job-card numbers (app/utils.py): `CODE-YYYYMMDD-NNN`, the site code
    being the first three characters of the site location in upper case,
    the date today's, and NNN one more than the last number issued for that
    code and day. The clock is an input. */
module JobCardNumber {

  import opened Shared
  import opened Text
  import opened Numbering

  /** A calendar date as `strftime` sees it. */
  datatype CalendarDate = CalendarDate(year: nat, month: nat, day: nat)

  /** A date the clock can report, with a four-digit year. */
  predicate ValidCalendarDate(d: CalendarDate)
  {
    1000 <= d.year <= 9999 && 1 <= d.month <= 12 && 1 <= d.day <= 31
  }

  /** `strftime("%Y%m%d")`. */
  function DateStamp(d: CalendarDate): string
  {
    ZeroPad(d.year, 4) + ZeroPad(d.month, 2) + ZeroPad(d.day, 2)
  }

  /** The stamp of a valid date is eight digits. */
  lemma DateStampShape(d: CalendarDate)
    requires ValidCalendarDate(d)
    ensures |DateStamp(d)| == 8 && IsDigits(DateStamp(d))
  {
    ZeroPadShape(d.year, 4);
    ZeroPadShape(d.month, 2);
    ZeroPadShape(d.day, 2);
    NatToStringWidth(d.year, 4);
    NatToStringWidth(d.month, 2);
    NatToStringWidth(d.day, 2);
  }

  /** A number below 10^w has at most w digits. */
  lemma {:induction false} NatToStringWidth(n: nat, w: nat)
    requires w >= 1 && n < Pow10(w)
    ensures |NatToString(n)| <= w
    decreases w
  {
    if n >= 10 {
      assert w >= 2 && n / 10 < Pow10(w - 1);
      NatToStringWidth(n / 10, w - 1);
    }
  }

  function Pow10(w: nat): nat
  {
    if w == 0 then 1 else 10 * Pow10(w - 1)
  }

  /** The site code: the first three characters of the location in upper
      case, or "XXX" for an empty location. */
  function SiteCode(location: string): string
  {
    if location == "" then "XXX" else Upper(Take(location, 3))
  }

  /** A code is three characters long unless the location is shorter, and
      is the location's opening in upper case. */
  lemma SiteCodeSpec(location: string)
    ensures location == "" ==> SiteCode(location) == "XXX"
    ensures location != "" ==> |SiteCode(location)| == (if |location| < 3 then |location| else 3)
    ensures location != "" ==> forall i :: 0 <= i < |SiteCode(location)| ==>
      SiteCode(location)[i] == UpperChar(location[i])
  {
  }

  /** The part every number issued for a code and day starts with. */
  function DayPrefix(location: string, today: CalendarDate): string
  {
    SiteCode(location) + "-" + DateStamp(today) + "-"
  }

  /** The numbers the `LIKE 'CODE-YYYYMMDD-%'` filter keeps, in their order. */
  function Matching(numbers: seq<string>, prefix: string): (r: seq<string>)
    ensures forall x :: x in r <==> x in numbers && StartsWith(x, prefix)
  {
    if numbers == [] then []
    else (if StartsWith(numbers[0], prefix) then [numbers[0]] else []) + Matching(numbers[1..], prefix)
  }

  /** `s.split("-")[-1]`: the text after the last '-', or all of `s`. */
  function LastPiece(s: string): string
  {
    var pieces := Split(s, '-');
    pieces[|pieces| - 1]
  }

  /** After a '-', the last piece is what follows it when that holds no '-'. */
  lemma LastPieceAfterDash(a: string, t: string)
    requires '-' !in t
    ensures LastPiece(a + "-" + t) == t
  {
    var pieces := Split(a, '-');
    assert forall i :: 0 <= i < |pieces + [t]| ==> '-' !in (pieces + [t])[i];
    JoinSnoc(pieces, t, '-');
    SplitJoin(pieces + [t], '-');
  }

  /** The sequence number a job-card number ends in, if it reads as one. */
  function SeqNumber(s: string): (r: Option<int>)
    ensures r.Some? ==> r.value >= 0
  {
    ParseIntNoMinus(LastPiece(s));
    ParseInt(LastPiece(s))
  }

  function Formatted(location: string, today: CalendarDate, n: nat): string
  {
    DayPrefix(location, today) + ZeroPad(n, 3)
  }

  /** `generate_job_card_number` as written: the last number is the largest
      matching one as text; its trailing number plus one, or 1 when nothing
      matches; Internal where that trailing part does not read as a number. */
  function NextJobCardNumberAsWritten(numbers: seq<string>, location: string, today: CalendarDate): Result<string>
  {
    match LastByText(numbers, location, today)
    case None => Ok(Formatted(location, today, 1))
    case Some(last) =>
      match SeqNumber(last)
      case None => Err(Internal)
      case Some(n) => Ok(Formatted(location, today, n + 1))
  }

  /** The issued number of the code and day that is largest as text. */
  function LastByText(numbers: seq<string>, location: string, today: CalendarDate): Option<string>
  {
    MaxString(Matching(numbers, DayPrefix(location, today)))
  }

  /** The readable sequence numbers of the given numbers. */
  function SeqNumbers(numbers: seq<string>): seq<nat>
  {
    if numbers == [] then []
    else
      match SeqNumber(numbers[0])
      case None => SeqNumbers(numbers[1..])
      case Some(n) => [n] + SeqNumbers(numbers[1..])
  }

  /** Every readable number is collected, and only those. */
  lemma {:induction false} SeqNumbersMembers(numbers: seq<string>)
    ensures forall x :: x in numbers && SeqNumber(x).Some? ==> SeqNumber(x).value in SeqNumbers(numbers)
    ensures forall n :: n in SeqNumbers(numbers) ==> exists x :: x in numbers && SeqNumber(x) == Some(n)
    decreases |numbers|
  {
    if numbers != [] {
      SeqNumbersMembers(numbers[1..]);
      forall x | x in numbers && SeqNumber(x).Some? ensures SeqNumber(x).value in SeqNumbers(numbers) {
        if x != numbers[0] {
          assert x in numbers[1..];
        }
      }
      forall n | n in SeqNumbers(numbers) ensures exists x :: x in numbers && SeqNumber(x) == Some(n) {
        if SeqNumber(numbers[0]) != Some(n) {
          assert n in SeqNumbers(numbers[1..]);
          var x :| x in numbers[1..] && SeqNumber(x) == Some(n);
          assert x in numbers;
        }
      }
    }
  }

  /** `generate_job_card_number` with the last number taken numerically:
      one more than the largest readable sequence number issued for the
      code and day, or 1 when there is none. */
  function NextJobCardNumber(numbers: seq<string>, location: string, today: CalendarDate): string
  {
    Formatted(location, today, MaxNat(SeqNumbers(Matching(numbers, DayPrefix(location, today)))) + 1)
  }

  /** A number formatted for the day reads back its sequence number. */
  lemma SeqNumberFormatted(location: string, today: CalendarDate, n: nat)
    ensures SeqNumber(Formatted(location, today, n)) == Some(n)
  {
    var p := SiteCode(location) + "-" + DateStamp(today);
    var z := ZeroPad(n, 3);
    ZeroPadShape(n, 3);
    assert Formatted(location, today, n) == p + "-" + z;
    LastPieceAfterDash(p, z);
    ParseZeroPad(n, 3);
  }

  /** The corrected number is never one already issued, starts with the
      code and day, and is 001 on a fresh day. */
  lemma NextJobCardNumberFresh(numbers: seq<string>, location: string, today: CalendarDate)
    ensures NextJobCardNumber(numbers, location, today) !in numbers
    ensures StartsWith(NextJobCardNumber(numbers, location, today), DayPrefix(location, today))
    ensures Matching(numbers, DayPrefix(location, today)) == [] ==>
      NextJobCardNumber(numbers, location, today) == DayPrefix(location, today) + "001"
  {
    var prefix := DayPrefix(location, today);
    var matching := Matching(numbers, prefix);
    var m := MaxNat(SeqNumbers(matching));
    var z := ZeroPad(m + 1, 3);
    var r := prefix + z;
    assert r == NextJobCardNumber(numbers, location, today);
    assert r[..|prefix|] == prefix;
    assert r !in matching by {
      SeqNumberFormatted(location, today, m + 1);
      AboveEveryIssued(matching, r, m);
    }
    if matching == [] {
      assert ZeroPad(1, 3) == "001" by {
        assert NatToString(1) == "1";
        assert Zeros(2) == "00";
      }
    }
  }

  /** A number whose sequence number lies above the largest one read is not
      among the numbers read. */
  lemma AboveEveryIssued(matching: seq<string>, r: string, m: nat)
    requires m == MaxNat(SeqNumbers(matching))
    requires SeqNumber(r) == Some(m + 1)
    ensures r !in matching
  {
    SeqNumbersMembers(matching);
    assert forall x :: x in matching && SeqNumber(x).Some? ==> SeqNumber(x).value <= m;
  }

  /** `get_new_job_card_no`: 400 without a site location, otherwise the
      next number for that location and day. */
  function GenerateJobCardNo(location: string, numbers: seq<string>, today: CalendarDate): Result<string>
  {
    if location == "" then Err(BadRequest("Site location is required."))
    else Ok(NextJobCardNumber(numbers, location, today))
  }

  /** The endpoint refuses exactly an empty location and otherwise hands
      out a number for that location and day that is not yet issued. */
  lemma GenerateJobCardNoSpec(location: string, numbers: seq<string>, today: CalendarDate)
    ensures GenerateJobCardNo(location, numbers, today).Err? <==> location == ""
    ensures GenerateJobCardNo(location, numbers, today).Ok? ==>
      GenerateJobCardNo(location, numbers, today).value !in numbers
      && StartsWith(GenerateJobCardNo(location, numbers, today).value, DayPrefix(location, today))
  {
    NextJobCardNumberFresh(numbers, location, today);
  }

  /** `get_new_job_card_no` as written: 400 without a site location,
      otherwise whatever `generate_job_card_number` as written gives. */
  function GenerateJobCardNoAsWritten(location: string, numbers: seq<string>, today: CalendarDate): Result<string>
  {
    if location == "" then Err(BadRequest("Site location is required."))
    else NextJobCardNumberAsWritten(numbers, location, today)
  }

  /** As written, the endpoint refuses exactly an empty location with a 400.
      It is a 500 exactly when the largest matching number as text ends in
      something that does not read as a number. Otherwise it proposes 001
      when nothing matches, or one more than that number's sequence number,
      under the code and day. */
  lemma GenerateJobCardNoAsWrittenSpec(location: string, numbers: seq<string>, today: CalendarDate)
    ensures GenerateJobCardNoAsWritten(location, numbers, today) == Err(BadRequest("Site location is required."))
      <==> location == ""
    ensures GenerateJobCardNoAsWritten(location, numbers, today) == Err(Internal)
      <==> (location != "" && LastByText(numbers, location, today).Some?
            && SeqNumber(LastByText(numbers, location, today).value).None?)
    ensures location != "" && LastByText(numbers, location, today).None? ==>
      GenerateJobCardNoAsWritten(location, numbers, today) == Ok(DayPrefix(location, today) + "001")
    ensures (location != "" && LastByText(numbers, location, today).Some?
             && SeqNumber(LastByText(numbers, location, today).value).Some?) ==>
      GenerateJobCardNoAsWritten(location, numbers, today)
      == Ok(Formatted(location, today, SeqNumber(LastByText(numbers, location, today).value).value + 1))
  {
    if location != "" && LastByText(numbers, location, today).None? {
      assert ZeroPad(1, 3) == "001" by {
        assert NatToString(1) == "1";
        assert Zeros(2) == "00";
      }
    }
  }

  /** The corrected number agrees with the one as written whenever the
      largest matching number as text also carries the largest sequence
      number. */
  lemma NextJobCardNumberAgrees(numbers: seq<string>, location: string, today: CalendarDate)
    requires LastByText(numbers, location, today).Some?
    requires SeqNumber(LastByText(numbers, location, today).value)
      == Some(MaxNat(SeqNumbers(Matching(numbers, DayPrefix(location, today)))))
    ensures NextJobCardNumberAsWritten(numbers, location, today) == Ok(NextJobCardNumber(numbers, location, today))
  {
    var n := SeqNumber(LastByText(numbers, location, today).value).value;
    assert NextJobCardNumber(numbers, location, today) == Formatted(location, today, n + 1);
    assert NextJobCardNumberAsWritten(numbers, location, today) == Ok(Formatted(location, today, n + 1));
  }

  /** The day prefix of the counterexample in `JobCardNumberRepeats`: site
      ABC on 1 January 2025. */
  lemma AbcDay()
    ensures DayPrefix("ABC", CalendarDate(2025, 1, 1)) == "ABC-20250101-"
  {
    assert Upper("ABC") == "ABC";
    calc {
      NatToString(2025);
      NatToString(202) + ['5'];
      NatToString(20) + ['2'] + ['5'];
      NatToString(2) + ['0'] + ['2'] + ['5'];
    }
    assert ZeroPad(2025, 4) == "2025" by {
      assert Zeros(0) == [];
    }
    assert ZeroPad(1, 2) == "01" by {
      assert NatToString(1) == "1";
      assert Zeros(1) == "0";
    }
  }

  /** Both numbers of a day match its prefix. */
  lemma ThousandMatching(a: string, b: string)
    requires a == Formatted("ABC", CalendarDate(2025, 1, 1), 999)
    requires b == Formatted("ABC", CalendarDate(2025, 1, 1), 1000)
    ensures Matching([a, b], DayPrefix("ABC", CalendarDate(2025, 1, 1))) == [a, b]
  {
    var prefix := DayPrefix("ABC", CalendarDate(2025, 1, 1));
    assert a[..|prefix|] == prefix && b[..|prefix|] == prefix;
    assert [a, b][1..] == [b] && [b][1..] == [];
    assert Matching([b], prefix) == [b];
  }

  /** Both read back their sequence numbers. */
  lemma ThousandSeqNumbers(a: string, b: string)
    requires a == Formatted("ABC", CalendarDate(2025, 1, 1), 999)
    requires b == Formatted("ABC", CalendarDate(2025, 1, 1), 1000)
    ensures SeqNumbers([a, b]) == [999, 1000]
  {
    SeqNumberFormatted("ABC", CalendarDate(2025, 1, 1), 999);
    SeqNumberFormatted("ABC", CalendarDate(2025, 1, 1), 1000);
    assert [b][1..] == [];
    assert SeqNumbers([b]) == [1000];
    assert [a, b][1..] == [b];
    assert SeqNumbers([a, b]) == [999] + SeqNumbers([b]);
  }

  /** As text, 999 is the larger. */
  lemma ThousandMax(a: string, b: string)
    requires a == Formatted("ABC", CalendarDate(2025, 1, 1), 999)
    requires b == Formatted("ABC", CalendarDate(2025, 1, 1), 1000)
    ensures MaxString([a, b]) == Some(a)
  {
    ThousandsAtTheWrap();
    TextOrderAtThousand();
    assert !LexLe(a, b);
    var xs := [a, b];
    assert xs[..|xs| - 1] == [a] && xs[|xs| - 1] == b;
    assert MaxString([a]) == Some(a) by {
      assert [a][..0] == [];
    }
  }

  /** As written, once number 1000 is issued for a day, 999 stays the
      largest as text and 1000 is issued again; the corrected rule moves on
      to 1001. */
  lemma JobCardNumberRepeats()
    ensures var numbers := ["ABC-20250101-999", "ABC-20250101-1000"];
      NextJobCardNumberAsWritten(numbers, "ABC", CalendarDate(2025, 1, 1)) == Ok("ABC-20250101-1000")
      && "ABC-20250101-1000" in numbers
      && NextJobCardNumber(numbers, "ABC", CalendarDate(2025, 1, 1)) == "ABC-20250101-1001"
      && GenerateJobCardNoAsWritten("ABC", numbers, CalendarDate(2025, 1, 1)) == Ok("ABC-20250101-1000")
  {
    var today := CalendarDate(2025, 1, 1);
    var a, b := Formatted("ABC", today, 999), Formatted("ABC", today, 1000);
    ThousandMatching(a, b);
    ThousandSeqNumbers(a, b);
    ThousandMax(a, b);
    SeqNumberFormatted("ABC", today, 999);
    assert MaxNat([999, 1000]) == 1000 by {
      assert [999, 1000][1..] == [1000];
    }
    assert NextJobCardNumberAsWritten([a, b], "ABC", today) == Ok(b);
    assert NextJobCardNumber([a, b], "ABC", today) == Formatted("ABC", today, 1001);
    ThousandsAtTheWrap();
  }

  lemma ThousandsAtTheWrap()
    ensures Formatted("ABC", CalendarDate(2025, 1, 1), 999) == "ABC-20250101-999"
    ensures Formatted("ABC", CalendarDate(2025, 1, 1), 1000) == "ABC-20250101-1000"
    ensures Formatted("ABC", CalendarDate(2025, 1, 1), 1001) == "ABC-20250101-1001"
  {
    AbcDay();
    calc {
      NatToString(999);
      NatToString(99) + ['9'];
      NatToString(9) + ['9'] + ['9'];
    }
    calc {
      NatToString(1000);
      NatToString(100) + ['0'];
      NatToString(10) + ['0'] + ['0'];
      NatToString(1) + ['0'] + ['0'] + ['0'];
    }
    calc {
      NatToString(1001);
      NatToString(100) + ['1'];
      NatToString(10) + ['0'] + ['1'];
      NatToString(1) + ['0'] + ['0'] + ['1'];
    }
    assert Zeros(0) == [];
  }

  lemma TextOrderAtThousand()
    ensures LexLe("ABC-20250101-1000", "ABC-20250101-999")
    ensures !LexLe("ABC-20250101-999", "ABC-20250101-1000")
  {
    LexLeCommonPrefix("ABC-20250101-", "1000", "999");
    LexLeCommonPrefix("ABC-20250101-", "999", "1000");
    assert "ABC-20250101-1000" == "ABC-20250101-" + "1000";
    assert "ABC-20250101-999" == "ABC-20250101-" + "999";
  }
}
