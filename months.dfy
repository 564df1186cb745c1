/**
 * `nextmonth` and `prevmonth`: stepping a "YYYY.MM" month label forwards
 * and backwards, with the year rolling over between December and January.
 * Both work on the text: characters 0-3 are read as the year and the
 * characters from index 5 on as the month.
 */
module Months {
  import opened Outcome
  import opened PyStr
  import opened PyInt

  /** The label of the month after `date`; a field that is not a numeral is a ValueError. */
  function NextMonth(date: string): Result<string> {
    if Suffix(date, 5) == "12" then
      var year :- ParseInt(Prefix(date, 4));
      Ok(IntToStr(year + 1) + ".01")
    else
      var month :- ParseInt(Suffix(date, 5));
      Ok(Prefix(date, 5) + Pad2(month + 1))
  }

  /** The label of the month before `date`. */
  function PrevMonth(date: string): Result<string> {
    if Suffix(date, 5) == "01" then
      var year :- ParseInt(Prefix(date, 4));
      Ok(IntToStr(year - 1) + ".12")
    else
      var month :- ParseInt(Suffix(date, 5));
      Ok(Prefix(date, 5) + Pad2(month - 1))
  }

  /** The label lichess's dates give for a year and a month. */
  function Label(year: int, month: int): string {
    IntToStr(year) + "." + Pad2(month)
  }

  /** Months counted from year 0: month `k` is in year `k / 12`. */
  function LabelOf(k: int): string {
    Label(k / 12, k % 12 + 1)
  }

  /** A month of the years 1000 to 9999, whose labels have a four-digit year. */
  predicate InRange(k: int) {
    12000 <= k < 120000
  }

  /** Cutting "a.b" after a four-character `a`. */
  lemma FieldsOf(a: string, b: string)
    requires |a| == 4
    ensures Prefix(a + "." + b, 4) == a
    ensures Prefix(a + "." + b, 5) == a + "."
    ensures Suffix(a + "." + b, 5) == b
  {
    var s := a + "." + b;
    assert s[..4] == a;
    assert s[..5] == a + ".";
    assert s[5..] == b;
  }

  lemma LabelFields(y: int, m: int)
    requires 1000 <= y <= 9999
    ensures Prefix(Label(y, m), 4) == IntToStr(y)
    ensures Prefix(Label(y, m), 5) == IntToStr(y) + "."
    ensures Suffix(Label(y, m), 5) == Pad2(m)
  {
    YearWidth(y);
    FieldsOf(IntToStr(y), Pad2(m));
  }

  /** Different numbers pad to different texts. */
  lemma Pad2Injective(i: int, j: int)
    requires Pad2(i) == Pad2(j)
    ensures i == j
  {
    Pad2RoundTrip(i);
    Pad2RoundTrip(j);
  }

  lemma PaddedEnds()
    ensures Pad2(1) == "01" && Pad2(12) == "12"
  {
    assert NatToStr(1) == "1";
    assert NatToStr(12) == NatToStr(1) + [DigitChar(2)];
  }

  /** A year followed by ".01" or ".12" is the label of January or December. */
  lemma EndLabels(y: int)
    ensures IntToStr(y) + ".01" == Label(y, 1)
    ensures IntToStr(y) + ".12" == Label(y, 12)
  {
    PaddedEnds();
    assert IntToStr(y) + "." + "01" == IntToStr(y) + ".01";
    assert IntToStr(y) + "." + "12" == IntToStr(y) + ".12";
  }

  /** `nextmonth` once the year and month fields of `date` are known. */
  lemma NextMonthOfFields(date: string, year: string, month: string, y: int, m: int)
    requires Prefix(date, 4) == year && Prefix(date, 5) == year + "." && Suffix(date, 5) == month
    requires ParseInt(year) == Ok(y) && ParseInt(month) == Ok(m)
    ensures NextMonth(date) == Ok(if month == "12" then IntToStr(y + 1) + ".01" else year + "." + Pad2(m + 1))
  {
  }

  /** `prevmonth` once the year and month fields of `date` are known. */
  lemma PrevMonthOfFields(date: string, year: string, month: string, y: int, m: int)
    requires Prefix(date, 4) == year && Prefix(date, 5) == year + "." && Suffix(date, 5) == month
    requires ParseInt(year) == Ok(y) && ParseInt(month) == Ok(m)
    ensures PrevMonth(date) == Ok(if month == "01" then IntToStr(y - 1) + ".12" else year + "." + Pad2(m - 1))
  {
  }

  /** The fields of a label read back as its year and month. */
  lemma LabelReads(y: int, m: int)
    requires 1000 <= y <= 9999
    ensures Prefix(Label(y, m), 4) == IntToStr(y)
    ensures Prefix(Label(y, m), 5) == IntToStr(y) + "."
    ensures Suffix(Label(y, m), 5) == Pad2(m)
    ensures ParseInt(IntToStr(y)) == Ok(y) && ParseInt(Pad2(m)) == Ok(m)
  {
    LabelFields(y, m);
    IntRoundTrip(y);
    Pad2RoundTrip(m);
  }

  /** The month field is "12" exactly for December and "01" exactly for January. */
  lemma EndMonths(m: int)
    ensures Pad2(m) == "12" <==> m == 12
    ensures Pad2(m) == "01" <==> m == 1
  {
    PaddedEnds();
    if Pad2(m) == "12" {
      Pad2Injective(m, 12);
    }
    if Pad2(m) == "01" {
      Pad2Injective(m, 1);
    }
  }

  /** What `nextmonth` needs to know about a label. */
  lemma NextLabelFacts(y: int, m: int)
    requires 1000 <= y <= 9999
    ensures Prefix(Label(y, m), 4) == IntToStr(y)
    ensures Prefix(Label(y, m), 5) == IntToStr(y) + "."
    ensures Suffix(Label(y, m), 5) == Pad2(m)
    ensures ParseInt(IntToStr(y)) == Ok(y) && ParseInt(Pad2(m)) == Ok(m)
    ensures Pad2(m) == "12" <==> m == 12
    ensures IntToStr(y + 1) + ".01" == Label(y + 1, 1)
    ensures IntToStr(y) + "." + Pad2(m + 1) == Label(y, m + 1)
  {
    LabelReads(y, m);
    EndMonths(m);
    EndLabels(y + 1);
  }

  /** What `prevmonth` needs to know about a label. */
  lemma PrevLabelFacts(y: int, m: int)
    requires 1000 <= y <= 9999
    ensures Prefix(Label(y, m), 4) == IntToStr(y)
    ensures Prefix(Label(y, m), 5) == IntToStr(y) + "."
    ensures Suffix(Label(y, m), 5) == Pad2(m)
    ensures ParseInt(IntToStr(y)) == Ok(y) && ParseInt(Pad2(m)) == Ok(m)
    ensures Pad2(m) == "01" <==> m == 1
    ensures IntToStr(y - 1) + ".12" == Label(y - 1, 12)
    ensures IntToStr(y) + "." + Pad2(m - 1) == Label(y, m - 1)
  {
    LabelReads(y, m);
    EndMonths(m);
    EndLabels(y - 1);
  }

  /** The month after December is January of the next year; otherwise the year stays and the month grows by one. */
  lemma NextMonthOfLabel(y: int, m: int)
    requires 1000 <= y <= 9999 && 1 <= m <= 12
    ensures NextMonth(Label(y, m)) == Ok(if m == 12 then Label(y + 1, 1) else Label(y, m + 1))
  {
    NextLabelFacts(y, m);
    NextMonthOfFields(Label(y, m), IntToStr(y), Pad2(m), y, m);
  }

  /** The month before January is December of the previous year; otherwise the year stays and the month drops by one. */
  lemma PrevMonthOfLabel(y: int, m: int)
    requires 1000 <= y <= 9999 && 1 <= m <= 12
    ensures PrevMonth(Label(y, m)) == Ok(if m == 1 then Label(y - 1, 12) else Label(y, m - 1))
  {
    PrevLabelFacts(y, m);
    PrevMonthOfFields(Label(y, m), IntToStr(y), Pad2(m), y, m);
  }

  /** The year and month of a month of the range. */
  lemma YearAndMonth(k: int)
    requires InRange(k)
    ensures 1000 <= k / 12 <= 9999 && 1 <= k % 12 + 1 <= 12 && k == 12 * (k / 12) + (k % 12 + 1) - 1
  {
  }

  /** Month `k` counts `y` years and `m - 1` months, and so do its neighbours. */
  lemma Counts(k: int, y: int, m: int)
    requires 1 <= m <= 12 && k == 12 * y + m - 1
    ensures k / 12 == y && k % 12 + 1 == m
    ensures (k + 1) / 12 == (if m == 12 then y + 1 else y) && (k + 1) % 12 + 1 == (if m == 12 then 1 else m + 1)
    ensures (k - 1) / 12 == (if m == 1 then y - 1 else y) && (k - 1) % 12 + 1 == (if m == 1 then 12 else m - 1)
  {
  }

  /** The labels of month `k`, the month of year `y` numbered `m`, and of the months next to it. */
  lemma LabelsAround(k: int, y: int, m: int)
    requires 1 <= m <= 12 && k == 12 * y + m - 1
    ensures LabelOf(k) == Label(y, m)
    ensures LabelOf(k + 1) == (if m == 12 then Label(y + 1, 1) else Label(y, m + 1))
    ensures LabelOf(k - 1) == (if m == 1 then Label(y - 1, 12) else Label(y, m - 1))
  {
    Counts(k, y, m);
  }

  /** `nextmonth` moves one month forward. */
  lemma NextMonthIndex(k: int)
    requires InRange(k)
    ensures NextMonth(LabelOf(k)) == Ok(LabelOf(k + 1))
  {
    YearAndMonth(k);
    NextMonthFrom(k, k / 12, k % 12 + 1);
  }

  lemma NextMonthFrom(k: int, y: int, m: int)
    requires 1000 <= y <= 9999 && 1 <= m <= 12 && k == 12 * y + m - 1
    ensures NextMonth(LabelOf(k)) == Ok(LabelOf(k + 1))
  {
    LabelsAround(k, y, m);
    NextMonthOfLabel(y, m);
    assert NextMonth(LabelOf(k)) == NextMonth(Label(y, m));
  }

  /** `prevmonth` moves one month back. */
  lemma PrevMonthIndex(k: int)
    requires InRange(k)
    ensures PrevMonth(LabelOf(k)) == Ok(LabelOf(k - 1))
  {
    YearAndMonth(k);
    PrevMonthFrom(k, k / 12, k % 12 + 1);
  }

  lemma PrevMonthFrom(k: int, y: int, m: int)
    requires 1000 <= y <= 9999 && 1 <= m <= 12 && k == 12 * y + m - 1
    ensures PrevMonth(LabelOf(k)) == Ok(LabelOf(k - 1))
  {
    LabelsAround(k, y, m);
    PrevMonthOfLabel(y, m);
    assert PrevMonth(LabelOf(k)) == PrevMonth(Label(y, m));
  }

  /** Distinct months of the range have distinct labels. */
  lemma LabelOfInjective(j: int, k: int)
    requires InRange(j) && InRange(k) && LabelOf(j) == LabelOf(k)
    ensures j == k
  {
    LabelFields(j / 12, j % 12 + 1);
    LabelFields(k / 12, k % 12 + 1);
    IntRoundTrip(j / 12);
    IntRoundTrip(k / 12);
    Pad2Injective(j % 12 + 1, k % 12 + 1);
  }

  /** Stepping forward and then back gives the label back. */
  lemma PrevOfNext(k: int)
    requires InRange(k) && InRange(k + 1)
    ensures NextMonth(LabelOf(k)).Ok?
    ensures PrevMonth(NextMonth(LabelOf(k)).value) == Ok(LabelOf(k))
  {
    NextMonthIndex(k);
    PrevMonthIndex(k + 1);
  }

  /** Stepping back and then forward gives the label back. */
  lemma NextOfPrev(k: int)
    requires InRange(k) && InRange(k - 1)
    ensures PrevMonth(LabelOf(k)).Ok?
    ensures NextMonth(PrevMonth(LabelOf(k)).value) == Ok(LabelOf(k))
  {
    PrevMonthIndex(k);
    NextMonthIndex(k - 1);
  }

  lemma LastLabel()
    ensures Label(9999, 12) == "9999.12"
  {
    assert NatToStr(9999) == NatToStr(999) + [DigitChar(9)];
    assert NatToStr(999) == NatToStr(99) + [DigitChar(9)];
    assert NatToStr(99) == NatToStr(9) + [DigitChar(9)];
    PaddedEnds();
  }

  lemma FiveDigitYear()
    ensures Label(10000, 1) == "10000.01"
  {
    EndLabels(10000);
    assert NatToStr(10000) == NatToStr(1000) + [DigitChar(0)];
    assert NatToStr(1000) == NatToStr(100) + [DigitChar(0)];
    assert NatToStr(100) == NatToStr(10) + [DigitChar(0)];
    assert NatToStr(10) == NatToStr(1) + [DigitChar(0)];
  }

  /**
   * Past year 9999 the year no longer fits in four characters: the month
   * after "9999.12" is "10000.01", whose month field reads as ".01", so
   * stepping back from it fails.
   */
  lemma PastYear9999()
    ensures NextMonth("9999.12") == Ok("10000.01")
    ensures PrevMonth("10000.01") == Err(NotAnInteger)
  {
    NextMonthOfLabel(9999, 12);
    LastLabel();
    FiveDigitYear();
    NoMonthField();
  }

  lemma NoMonthField()
    ensures PrevMonth("10000.01") == Err(NotAnInteger)
  {
    var t := "10000.01";
    assert Suffix(t, 5) == ".01";
    assert StripRight(StripLeft(".01")) == ".01";
  }
}
