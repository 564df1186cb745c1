/**
 * The per-month series the scan builds: a list of month labels `x`
 * (newest first, as lichess streams games newest first), a parallel list
 * `y` of time spent per month, and the running total `tot_time`. Times are
 * kept in whole seconds; the script's division by 3600 only changes the
 * unit in which they are shown.
 */
module Series {
  import opened Outcome
  import opened TimeUsage
  import opened Months

  /** `current_date`: no value until the first UTCDate tag has been read. */
  type Date = Option<string>

  /**
   * The variables the scan updates: `current_time_header`, `current_date`,
   * `x` (here `months`), `y` (here `secs`) and `tot_time` (here `total`).
   */
  datatype ScanState = ScanState(timeControl: Option<string>, date: Date, months: seq<Date>, secs: seq<int>, total: int)

  const Initial := ScanState(None, None, [], [], 0)

  function Sum(s: seq<int>): int {
    if s == [] then 0 else Sum(s[..|s| - 1]) + s[|s| - 1]
  }

  function Zeros(n: nat): (z: seq<int>)
    ensures |z| == n && forall i :: 0 <= i < n ==> z[i] == 0
  {
    if n == 0 then [] else Zeros(n - 1) + [0]
  }

  /** The buckets of months already left behind: all but the newest. */
  function Closed(s: seq<int>): seq<int> {
    if s == [] then [] else s[..|s| - 1]
  }

  /**
   * What the script keeps true of its series: one time per label, no
   * negative time, and a total holding no more than the buckets already
   * closed. As written, the total can fall short of them (see `Lost`).
   */
  predicate Shape(st: ScanState) {
    && |st.months| == |st.secs|
    && (forall i :: 0 <= i < |st.secs| ==> st.secs[i] >= 0)
    && 0 <= st.total <= Sum(Closed(st.secs))
  }

  /** The time of closed buckets that never reached the total. */
  function Lost(st: ScanState): int {
    Sum(Closed(st.secs)) - st.total
  }

  /** The intended invariant: the total holds exactly the closed buckets. */
  predicate Valid(st: ScanState) {
    Shape(st) && Lost(st) == 0
  }

  /** `prevmonth` on `current_date` or a label; stepping from an undefined date is a TypeError. */
  function Prev(d: Date): Result<Date> {
    match d
    case None => Err(NoDate)
    case Some(s) => var p :- PrevMonth(s); Ok(Some(p))
  }

  /** `nextmonth` on `current_date` or a label. */
  function Next(d: Date): Result<Date> {
    match d
    case None => Err(NoDate)
    case Some(s) => var n :- NextMonth(s); Ok(Some(n))
  }

  /**
   * The empty months inserted between the newest bucket `last` and an
   * older game's month `date`: the month before `last` unless that is
   * `date` itself, and then the month after `date` unless it was just
   * inserted. A longer gap keeps only these two edges.
   */
  function Fillers(last: Date, date: Date): (r: Result<seq<Date>>)
    ensures r.Ok? ==> |r.value| <= 2
    ensures r.Ok? && r.value == [] ==> Prev(last) == Ok(date)
    ensures Prev(last) == Ok(date) ==> r == Ok([])
  {
    var p :- Prev(last);
    if p == date then Ok([])
    else
      var n :- Next(date);
      if p != n then Ok([p, n]) else Ok([p])
  }

  /** The first game opens the first bucket, labelled with its date. */
  function FirstBucket(st: ScanState): (r: ScanState)
    requires Shape(st) && st.months == []
    ensures Valid(r) && r.months == [st.date] && r.secs == [0] && r.total == 0
  {
    st.(months := [st.date], secs := [0])
  }

  lemma {:induction false} SumAppend(a: seq<int>, b: seq<int>)
    ensures Sum(a + b) == Sum(a) + Sum(b)
    decreases |b|
  {
    if b != [] {
      assert (a + b)[..|a + b| - 1] == a + b[..|b| - 1];
      SumAppend(a, b[..|b| - 1]);
    } else {
      assert a + b == a;
    }
  }

  lemma {:induction false} SumZeros(n: nat)
    ensures Sum(Zeros(n)) == 0
  {
    if n > 0 {
      assert Zeros(n)[..n - 1] == Zeros(n - 1);
      SumZeros(n - 1);
    }
  }

  /**
   * The intended month change: the bucket being left joins the total, then
   * the gap fillers and the game's month are appended, each with no time
   * yet. Everything already in the series stays as it was, and no time is
   * lost on the way.
   */
  function OpenMonth(st: ScanState): (r: Result<ScanState>)
    requires Shape(st) && st.months != []
    ensures r.Ok? ==> Shape(r.value) && Lost(r.value) == Lost(st)
    ensures r.Ok? ==> var n := |st.months|;
      && n + 1 <= |r.value.months| <= n + 3
      && r.value.months[..n] == st.months && r.value.secs[..n] == st.secs
      && r.value.months[|r.value.months| - 1] == st.date
      && (forall i :: n <= i < |r.value.secs| ==> r.value.secs[i] == 0)
      && (Prev(st.months[n - 1]) == Ok(st.date) ==> |r.value.months| == n + 1)
      && r.value.total == st.total + st.secs[n - 1]
      && r.value.timeControl == st.timeControl && r.value.date == st.date
  {
    var fill :- Fillers(st.months[|st.months| - 1], st.date);
    OpenedShape(st, fill);
    Ok(Opened(st, fill))
  }

  /** `OpenMonth` once the fillers are known. */
  lemma OpenMonthWith(st: ScanState, fill: seq<Date>)
    requires Shape(st) && st.months != []
    requires Fillers(st.months[|st.months| - 1], st.date) == Ok(fill)
    ensures OpenMonth(st) == Ok(Opened(st, fill))
  {
  }

  /** The series after appending the fillers and the new month, with the left bucket added to the total. */
  function Opened(st: ScanState, fill: seq<Date>): ScanState
    requires st.secs != []
  {
    st.(months := st.months + fill + [st.date], secs := st.secs + Zeros(|fill|) + [0],
        total := st.total + st.secs[|st.secs| - 1])
  }

  lemma OpenedShape(st: ScanState, fill: seq<Date>)
    requires Shape(st) && st.months != []
    ensures var r, n := Opened(st, fill), |st.months|;
      && Shape(r) && Lost(r) == Lost(st)
      && |r.months| == n + |fill| + 1
      && r.months[..n] == st.months && r.secs[..n] == st.secs
      && r.months[|r.months| - 1] == st.date
      && (forall i :: n <= i < |r.secs| ==> r.secs[i] == 0)
  {
    OpenedSecs(st.secs, |fill|);
    OpenedMonths(st.months, fill, st.date);
  }

  /** The buckets after opening: the old ones kept, new empty ones after them, the left bucket now closed. */
  lemma OpenedSecs(secs: seq<int>, k: nat)
    requires secs != []
    requires forall i :: 0 <= i < |secs| ==> secs[i] >= 0
    ensures var r := secs + Zeros(k) + [0];
      && |r| == |secs| + k + 1 && r[..|secs|] == secs
      && (forall i :: |secs| <= i < |r| ==> r[i] == 0)
      && (forall i :: 0 <= i < |r| ==> r[i] >= 0)
      && Sum(Closed(r)) == Sum(Closed(secs)) + secs[|secs| - 1]
  {
    SumZeros(k);
    ClosedGrows(secs, Zeros(k));
    OpenedPrefix(secs, Zeros(k), 0);
  }

  lemma OpenedMonths<T>(a: seq<T>, b: seq<T>, x: T)
    ensures var r := a + b + [x];
      && |r| == |a| + |b| + 1 && r[..|a|] == a && r[|r| - 1] == x
  {
    OpenedPrefix(a, b, x);
  }

  /** Appending empty buckets and a new one closes the old newest bucket and nothing else. */
  lemma ClosedGrows(secs: seq<int>, zeros: seq<int>)
    requires secs != [] && Sum(zeros) == 0
    ensures Sum(Closed(secs + zeros + [0])) == Sum(Closed(secs)) + secs[|secs| - 1]
  {
    assert Closed(secs + zeros + [0]) == secs + zeros;
    SumAppend(secs, zeros);
    ClosedAndLast(secs);
  }

  lemma OpenedPrefix<T>(a: seq<T>, b: seq<T>, x: T)
    ensures (a + b + [x])[..|a|] == a
  {
  }

  /** The sum of a series is its closed buckets plus the newest. */
  lemma ClosedAndLast(s: seq<int>)
    requires s != []
    ensures Sum(s) == Sum(Closed(s)) + s[|s| - 1]
  {
  }

  /**
   * The month change as the script writes it (lines 106-116): the fillers
   * are appended, then the total takes in `y[-1]`, then the game's month is
   * appended. When a filler was appended, `y[-1]` is that filler's 0 and
   * the bucket being left is lost to the total.
   */
  function OpenMonthAsWritten(st: ScanState): (r: Result<ScanState>)
    requires Shape(st) && st.months != []
    ensures r.Ok? <==> OpenMonth(st).Ok?
    ensures r.Err? ==> r.error == OpenMonth(st).error
    ensures r.Ok? ==> var fixed, n := OpenMonth(st).value, |st.months|;
      && r.value == fixed.(total := if |fixed.months| == n + 1 then fixed.total else st.total)
      && Shape(r.value)
      && Lost(r.value) == Lost(st) + (if |fixed.months| == n + 1 then 0 else st.secs[n - 1])
  {
    var fill :- Fillers(st.months[|st.months| - 1], st.date);
    var y := st.secs + Zeros(|fill|);
    OpenMonthWith(st, fill);
    OpenedShape(st, fill);
    LastAfterZeros(st.secs, |fill|);
    TotalAfterFillers(st, Opened(st, fill), y[|y| - 1], |fill| == 0);
    Ok(st.(months := st.months + fill + [st.date], secs := y + [0], total := st.total + y[|y| - 1]))
  }

  /**
   * The opened series `r` with the total line 113 gives it: `x` is the left
   * bucket when no filler was appended, and otherwise 0.
   */
  lemma TotalAfterFillers(st: ScanState, r: ScanState, x: int, adjacent: bool)
    requires Shape(st) && st.secs != [] && Shape(r) && Lost(r) == Lost(st)
    requires r.total == st.total + st.secs[|st.secs| - 1]
    requires x == (if adjacent then st.secs[|st.secs| - 1] else 0)
    ensures Shape(r.(total := st.total + x))
    ensures Lost(r.(total := st.total + x)) == Lost(st) + (if adjacent then 0 else st.secs[|st.secs| - 1])
  {
    WithTotal(r, st.total + x);
  }

  /** The last bucket after appending `k` empty ones: the old last one when `k` is 0, else 0. */
  lemma LastAfterZeros(secs: seq<int>, k: nat)
    requires secs != []
    ensures var y := secs + Zeros(k); y[|y| - 1] == (if k == 0 then secs[|secs| - 1] else 0)
  {
    if k == 0 {
      assert secs + Zeros(0) == secs;
    }
  }

  /** A smaller total keeps the shape, and what it leaves out is lost. */
  lemma WithTotal(st: ScanState, t: int)
    requires Shape(st) && 0 <= t <= st.total
    ensures Shape(st.(total := t)) && Lost(st.(total := t)) == Lost(st) + st.total - t
  {
  }

  /**
   * The series without its total: the two orders of line 113 build the
   * same labels and buckets and differ only there.
   */
  predicate SameButTotal(a: ScanState, b: ScanState) {
    a.timeControl == b.timeControl && a.date == b.date && a.months == b.months && a.secs == b.secs
  }

  /** Adds the game's time to the newest bucket. */
  function Bump(st: ScanState, used: int): (r: ScanState)
    requires Shape(st) && st.secs != [] && used >= 0
    ensures Shape(r) && Lost(r) == Lost(st) && r.months == st.months && r.total == st.total
    ensures r.timeControl == st.timeControl && r.date == st.date
    ensures |r.secs| == |st.secs| && r.secs[..|st.secs| - 1] == st.secs[..|st.secs| - 1]
    ensures r.secs[|r.secs| - 1] == st.secs[|st.secs| - 1] + used
  {
    var n := |st.secs|;
    var secs := st.secs[n - 1 := st.secs[n - 1] + used];
    assert secs[..n - 1] == st.secs[..n - 1];
    st.(secs := secs)
  }

  /** `time_used` with the current time control; reading it before any TimeControl tag is a NameError. */
  function GameTime(timeControl: Option<string>, game: string): (r: Result<int>)
    ensures r.Ok? ==> r.value >= 0
    ensures timeControl == Some("-") ==> r == Ok(0)
  {
    match timeControl
    case None => Err(NoTimeControl)
    case Some(tc) => TimeUsed(tc, game)
  }

  /** Where the total takes in the bucket being left: after the fillers, as line 113 does, or before them. */
  datatype Order = AsWritten | Intended

  /**
   * The bucket a game line is charged to: the first bucket for the first
   * game, the newest bucket when the game is of its month, and otherwise a
   * freshly opened one. Only the intended order never loses time.
   */
  function Bucket(st: ScanState, order: Order): (r: Result<ScanState>)
    requires Shape(st)
    ensures r.Ok? ==> Shape(r.value) && r.value.months != [] && r.value.months[|r.value.months| - 1] == st.date
    ensures r.Ok? ==> |st.months| <= |r.value.months| && r.value.months[..|st.months|] == st.months
    ensures r.Ok? ==> r.value.timeControl == st.timeControl && r.value.date == st.date
    ensures st.months == [] || st.months[|st.months| - 1] == st.date ==> r.Ok?
  {
    if st.months == [] then Ok(FirstBucket(st))
    else if st.months[|st.months| - 1] != st.date then
      match order
      case AsWritten => OpenMonthAsWritten(st)
      case Intended => OpenMonth(st)
    else Ok(st)
  }

  /**
   * One game line: find or open its month's bucket, then add the game's
   * time to it. `used` is what `time_used` gives for the game; its failure
   * is reported only if opening the bucket succeeded, as in the script.
   */
  function Record(st: ScanState, used: Result<int>, order: Order): (r: Result<ScanState>)
    requires used.Ok? ==> used.value >= 0
    requires Shape(st)
    ensures r.Ok? ==> Shape(r.value) && r.value.months != [] && r.value.months[|r.value.months| - 1] == st.date
    ensures r.Ok? ==> |st.months| <= |r.value.months| && r.value.months[..|st.months|] == st.months
    ensures r.Ok? ==> Lost(r.value) >= Lost(st) && (order == Intended ==> Lost(r.value) == Lost(st))
    ensures r.Ok? ==> r.value.timeControl == st.timeControl && r.value.date == st.date
    ensures r.Ok? ==> used.Ok? && Sum(r.value.secs) == Sum(st.secs) + used.value
  {
    var current :- Bucket(st, order);
    BucketLost(st, order);
    BucketSum(st, order);
    var time :- used;
    BumpSum(current.secs, time);
    Ok(Bump(current, time))
  }

  /**
   * Opening a bucket never wins time back: the script's order may lose
   * the bucket being left, the intended order loses nothing.
   */
  lemma BucketLost(st: ScanState, order: Order)
    requires Shape(st)
    ensures Bucket(st, order).Ok? ==>
      Lost(Bucket(st, order).value) >= Lost(st) && (order == Intended ==> Lost(Bucket(st, order).value) == Lost(st))
  {
  }

  /** `Record` step by step: find or open the bucket, time the game, charge it. */
  lemma RecordSteps(st: ScanState, used: Result<int>, order: Order)
    requires used.Ok? ==> used.value >= 0
    requires Shape(st)
    ensures Bucket(st, order).Err? ==> Record(st, used, order) == Err(Bucket(st, order).error)
    ensures Bucket(st, order).Ok? && used.Err? ==> Record(st, used, order) == Err(used.error)
    ensures Bucket(st, order).Ok? && used.Ok? ==>
      var b := Bucket(st, order).value;
      && b.secs != []
      && Record(st, used, order) == Ok(b.(secs := b.secs[|b.secs| - 1 := b.secs[|b.secs| - 1] + used.value]))
  {
    if Bucket(st, order).Ok? && used.Ok? {
      var b := Bucket(st, order).value;
      assert Record(st, used, order) == Ok(Bump(b, used.value));
      assert Bump(b, used.value) == b.(secs := b.secs[|b.secs| - 1 := b.secs[|b.secs| - 1] + used.value]);
    }
  }

  /** The month change needs no filler: no month yet, the newest month, or the month just before it. */
  predicate NoFiller(st: ScanState) {
    || st.months == []
    || st.months[|st.months| - 1] == st.date
    || Prev(st.months[|st.months| - 1]) == Ok(st.date)
  }

  /** Finding or opening a bucket with no filler loses no time, in either order. */
  lemma BucketKeepsTime(st: ScanState, order: Order)
    requires Shape(st) && NoFiller(st)
    ensures Bucket(st, order).Ok? ==> Lost(Bucket(st, order).value) == Lost(st)
  {
    if st.months != [] && st.months[|st.months| - 1] != st.date && order == AsWritten {
      assert OpenMonth(st).Ok? ==> |OpenMonth(st).value.months| == |st.months| + 1;
    }
  }

  /** Charging a game with no filler loses no time, in either order. */
  lemma RecordKeepsTime(st: ScanState, used: Result<int>, order: Order)
    requires used.Ok? ==> used.value >= 0
    requires Shape(st) && NoFiller(st)
    ensures Record(st, used, order).Ok? ==> Lost(Record(st, used, order).value) == Lost(st)
  {
    BucketKeepsTime(st, order);
  }

  /**
   * The two orders charge a game to the same labels and buckets: they
   * succeed together, fail with the same error, and differ only in the total.
   */
  lemma RecordOrders(a: ScanState, b: ScanState, used: Result<int>)
    requires used.Ok? ==> used.value >= 0
    requires Shape(a) && Shape(b) && SameButTotal(a, b)
    ensures Record(a, used, AsWritten).Ok? <==> Record(b, used, Intended).Ok?
    ensures Record(a, used, AsWritten).Err? ==> Record(a, used, AsWritten).error == Record(b, used, Intended).error
    ensures Record(a, used, AsWritten).Ok? ==> SameButTotal(Record(a, used, AsWritten).value, Record(b, used, Intended).value)
  {
    BucketOrders(a, b);
    var ca, cb := Bucket(a, AsWritten), Bucket(b, Intended);
    if ca.Ok? && used.Ok? {
      BumpOrders(ca.value, cb.value, used.value);
    }
  }

  lemma BucketOrders(a: ScanState, b: ScanState)
    requires Shape(a) && Shape(b) && SameButTotal(a, b)
    ensures Bucket(a, AsWritten).Ok? <==> Bucket(b, Intended).Ok?
    ensures Bucket(a, AsWritten).Err? ==> Bucket(a, AsWritten).error == Bucket(b, Intended).error
    ensures Bucket(a, AsWritten).Ok? ==> SameButTotal(Bucket(a, AsWritten).value, Bucket(b, Intended).value)
  {
    if a.months != [] && a.months[|a.months| - 1] != a.date {
      OpenOrders(a, b);
    }
  }

  lemma BumpOrders(a: ScanState, b: ScanState, used: int)
    requires Shape(a) && Shape(b) && SameButTotal(a, b) && a.secs != [] && used >= 0
    ensures SameButTotal(Bump(a, used), Bump(b, used))
  {
  }

  /** The month change in the two orders, from two series that differ only in their totals. */
  lemma OpenOrders(a: ScanState, b: ScanState)
    requires Shape(a) && Shape(b) && SameButTotal(a, b) && a.months != []
    ensures OpenMonthAsWritten(a).Ok? <==> OpenMonth(b).Ok?
    ensures OpenMonthAsWritten(a).Err? ==> OpenMonthAsWritten(a).error == OpenMonth(b).error
    ensures OpenMonthAsWritten(a).Ok? ==> SameButTotal(OpenMonthAsWritten(a).value, OpenMonth(b).value)
  {
    var f := Fillers(a.months[|a.months| - 1], a.date);
    if f.Ok? {
      OpenMonthWith(a, f.value);
      OpenMonthWith(b, f.value);
    }
  }

  /**
   * Line 121: the newest bucket joins the total, which then holds every
   * bucket but those lost on the way; with no game at all, `y[-1]` is an
   * IndexError.
   */
  function Finish(st: ScanState): (r: Result<int>)
    ensures st.secs == [] <==> r == Err(EmptySeries)
    ensures r.Ok? && Shape(st) ==> r.value == Sum(st.secs) - Lost(st) && 0 <= r.value <= Sum(st.secs)
  {
    if st.secs == [] then Err(EmptySeries)
    else
      ClosedAndLast(st.secs);
      Ok(st.total + st.secs[|st.secs| - 1])
  }

  /**
   * On well-formed labels, with the game's month `j` older than the newest
   * bucket's month `k`: no filler for adjacent months, the month between
   * them for a gap of one, and otherwise only the two months at the edges
   * of the gap.
   */
  lemma FillersOfLabels(j: int, k: int)
    requires InRange(j) && InRange(k) && j < k
    ensures Fillers(Some(LabelOf(k)), Some(LabelOf(j)))
         == Ok(if j + 1 == k then [] else if j + 1 == k - 1 then [Some(LabelOf(k - 1))]
               else [Some(LabelOf(k - 1)), Some(LabelOf(j + 1))])
  {
    if j + 1 == k {
      FillersAdjacent(j, k);
    } else if j + 1 == k - 1 {
      FillersGapOne(j, k);
    } else {
      FillersWide(j, k);
    }
  }

  /** Arithmetic about two distinct month indices, kept apart from the labels. */
  lemma GapFacts(j: int, k: int)
    requires InRange(j) && InRange(k) && j < k
    ensures InRange(k - 1) && InRange(j + 1)
    ensures j + 1 == k || k - 1 != j
    ensures j + 1 == k - 1 || k - 1 != j + 1
  {
  }

  lemma FillersAdjacent(j: int, k: int)
    requires InRange(j) && InRange(k) && j + 1 == k
    ensures Fillers(Some(LabelOf(k)), Some(LabelOf(j))) == Ok([])
  {
    PrevMonthIndex(k);
    PrevOfLabel(k);
    SameIndex(k - 1, j);
  }

  lemma FillersGapOne(j: int, k: int)
    requires InRange(j) && InRange(k) && j + 1 == k - 1
    ensures Fillers(Some(LabelOf(k)), Some(LabelOf(j))) == Ok([Some(LabelOf(k - 1))])
  {
    GapFacts(j, k);
    PrevMonthIndex(k);
    PrevOfLabel(k);
    NextMonthIndex(j);
    NextOfLabel(j);
    SameIndex(j + 1, k - 1);
    LabelOfDistinct(k - 1, j);
    FillersFrom(Some(LabelOf(k)), Some(LabelOf(j)), Some(LabelOf(k - 1)), Some(LabelOf(j + 1)));
  }

  lemma FillersWide(j: int, k: int)
    requires InRange(j) && InRange(k) && j < k && j + 1 != k && j + 1 != k - 1
    ensures Fillers(Some(LabelOf(k)), Some(LabelOf(j))) == Ok([Some(LabelOf(k - 1)), Some(LabelOf(j + 1))])
  {
    WideEdges(j, k);
    PrevMonthIndex(k);
    PrevOfLabel(k);
    NextMonthIndex(j);
    NextOfLabel(j);
    FillersFrom(Some(LabelOf(k)), Some(LabelOf(j)), Some(LabelOf(k - 1)), Some(LabelOf(j + 1)));
  }

  /** Across a gap of two or more months, the month before the newer one is neither the older one nor the month after it. */
  lemma WideEdges(j: int, k: int)
    requires InRange(j) && InRange(k) && j < k && j + 1 != k && j + 1 != k - 1
    ensures Some(LabelOf(k - 1)) != Some(LabelOf(j)) && Some(LabelOf(k - 1)) != Some(LabelOf(j + 1))
  {
    GapFacts(j, k);
    LabelOfDistinct(k - 1, j);
    LabelOfDistinct(k - 1, j + 1);
  }

  lemma SameIndex(i: int, j: int)
    requires i == j
    ensures LabelOf(i) == LabelOf(j)
  {
  }

  lemma PrevOfLabel(k: int)
    requires PrevMonth(LabelOf(k)) == Ok(LabelOf(k - 1))
    ensures Prev(Some(LabelOf(k))) == Ok(Some(LabelOf(k - 1)))
  {
  }

  lemma NextOfLabel(k: int)
    requires NextMonth(LabelOf(k)) == Ok(LabelOf(k + 1))
    ensures Next(Some(LabelOf(k))) == Ok(Some(LabelOf(k + 1)))
  {
  }

  lemma LabelOfDistinct(j: int, k: int)
    requires InRange(j) && InRange(k) && j != k
    ensures Some(LabelOf(j)) != Some(LabelOf(k))
  {
    if LabelOf(j) == LabelOf(k) {
      LabelOfInjective(j, k);
    }
  }

  /** `Fillers` once both month steps are known. */
  lemma FillersFrom(last: Date, date: Date, p: Date, n: Date)
    requires Prev(last) == Ok(p) && Next(date) == Ok(n)
    ensures p == date ==> Fillers(last, date) == Ok([])
    ensures p != date && p == n ==> Fillers(last, date) == Ok([p])
    ensures p != date && p != n ==> Fillers(last, date) == Ok([p, n])
  {
  }

  /**
   * A game two months older than the only bucket: the script appends one
   * filler and then adds that filler's 0 to the total, so the bucket's `s`
   * seconds never reach it; the corrected step adds them.
   */
  lemma AsWrittenLosesMonth(k: int, s: int, tc: Option<string>)
    requires InRange(k) && InRange(k - 2) && s > 0
    ensures var st := ScanState(tc, Some(LabelOf(k - 2)), [Some(LabelOf(k))], [s], 0);
      && Valid(st)
      && OpenMonthAsWritten(st)
         == Ok(ScanState(tc, Some(LabelOf(k - 2)), [Some(LabelOf(k)), Some(LabelOf(k - 1)), Some(LabelOf(k - 2))], [s, 0, 0], 0))
      && Lost(OpenMonthAsWritten(st).value) == s
      && OpenMonth(st) == Ok(ScanState(tc, Some(LabelOf(k - 2)), [Some(LabelOf(k)), Some(LabelOf(k - 1)), Some(LabelOf(k - 2))], [s, 0, 0], s))
  {
    FillersOfLabels(k - 2, k);
    LosesWhenFilled(tc, Some(LabelOf(k)), Some(LabelOf(k - 1)), Some(LabelOf(k - 2)), s);
  }

  /** The loss for any one-filler gap. */
  lemma LosesWhenFilled(tc: Option<string>, a: Date, b: Date, c: Date, s: int)
    requires Fillers(a, c) == Ok([b]) && s > 0
    ensures var st := ScanState(tc, c, [a], [s], 0);
      && Valid(st)
      && OpenMonthAsWritten(st) == Ok(ScanState(tc, c, [a, b, c], [s, 0, 0], 0))
      && Lost(OpenMonthAsWritten(st).value) == s
      && OpenMonth(st) == Ok(ScanState(tc, c, [a, b, c], [s, 0, 0], s))
  {
    OneBucketValid(tc, a, c, s);
    FilledAsWritten(tc, a, b, c, s);
    FilledIntended(tc, a, b, c, s);
    LostAcrossGap(tc, c, [a, b, c], s);
  }

  /** One bucket and a total of 0: nothing is closed yet. */
  lemma OneBucketValid(tc: Option<string>, a: Date, c: Date, s: int)
    requires s > 0
    ensures Valid(ScanState(tc, c, [a], [s], 0))
  {
    assert Closed([s]) == [];
  }

  /** The script's step over a one-filler gap from a single bucket. */
  lemma FilledAsWritten(tc: Option<string>, a: Date, b: Date, c: Date, s: int)
    requires Fillers(a, c) == Ok([b]) && s > 0
    ensures OpenMonthAsWritten(ScanState(tc, c, [a], [s], 0)) == Ok(ScanState(tc, c, [a, b, c], [s, 0, 0], 0))
  {
    OneBucketValid(tc, a, c, s);
    AsWrittenOneFiller(ScanState(tc, c, [a], [s], 0), b);
    OneFillerState(tc, a, b, c, s);
  }

  /** The intended step over a one-filler gap from a single bucket. */
  lemma FilledIntended(tc: Option<string>, a: Date, b: Date, c: Date, s: int)
    requires Fillers(a, c) == Ok([b]) && s > 0
    ensures OpenMonth(ScanState(tc, c, [a], [s], 0)) == Ok(ScanState(tc, c, [a, b, c], [s, 0, 0], s))
  {
    OneBucketValid(tc, a, c, s);
    IntendedOneFiller(ScanState(tc, c, [a], [s], 0), b);
    OneFillerState(tc, a, b, c, s);
  }

  /** A single bucket with one filler and the game's month appended, with and without the left bucket in the total. */
  lemma OneFillerState(tc: Option<string>, a: Date, b: Date, c: Date, s: int)
    ensures var st := ScanState(tc, c, [a], [s], 0);
      && st.(months := st.months + [b, st.date], secs := st.secs + [0, 0]) == ScanState(tc, c, [a, b, c], [s, 0, 0], 0)
      && st.(months := st.months + [b, st.date], secs := st.secs + [0, 0], total := st.total + st.secs[|st.secs| - 1])
         == ScanState(tc, c, [a, b, c], [s, 0, 0], s)
  {
    assert [a] + [b, c] == [a, b, c];
    assert [s] + [0, 0] == [s, 0, 0];
  }

  /** Buckets `[s, 0, 0]` with a total of 0: the first bucket is lost. */
  lemma LostAcrossGap(tc: Option<string>, c: Date, months: seq<Date>, s: int)
    ensures Lost(ScanState(tc, c, months, [s, 0, 0], 0)) == s
  {
    SumTwo(s);
  }

  /** The script's step when exactly one filler is appended: the total does not move. */
  lemma AsWrittenOneFiller(st: ScanState, b: Date)
    requires Shape(st) && st.months != []
    requires Fillers(st.months[|st.months| - 1], st.date) == Ok([b])
    ensures OpenMonthAsWritten(st) == Ok(st.(months := st.months + [b, st.date], secs := st.secs + [0, 0]))
  {
    assert Zeros(1) == [0];
    assert st.months + [b] + [st.date] == st.months + [b, st.date];
    assert st.secs + [0] + [0] == st.secs + [0, 0];
  }

  /** The intended step when exactly one filler is appended: the left bucket joins the total. */
  lemma IntendedOneFiller(st: ScanState, b: Date)
    requires Shape(st) && st.months != []
    requires Fillers(st.months[|st.months| - 1], st.date) == Ok([b])
    ensures OpenMonth(st) == Ok(st.(months := st.months + [b, st.date], secs := st.secs + [0, 0],
                                   total := st.total + st.secs[|st.secs| - 1]))
  {
    OpenMonthWith(st, [b]);
    OpenedOne(st, b);
  }

  lemma OpenedOne(st: ScanState, b: Date)
    requires st.secs != []
    ensures Opened(st, [b]) == st.(months := st.months + [b, st.date], secs := st.secs + [0, 0],
                                   total := st.total + st.secs[|st.secs| - 1])
  {
    assert Zeros(1) == [0];
    assert st.months + [b] + [st.date] == st.months + [b, st.date];
    assert st.secs + [0] + [0] == st.secs + [0, 0];
  }

  lemma SumTwo(s: int)
    ensures Closed([s, 0, 0]) == [s, 0] && Sum([s, 0]) == s
  {
    assert [s, 0, 0][..2] == [s, 0];
    assert [s][..0] == [];
    assert Sum([s]) == s;
    assert [s, 0][..1] == [s];
  }

  /** A game in the newest bucket's month only adds its time to that bucket. */
  lemma RecordSameMonth(st: ScanState, used: int, order: Order)
    requires Shape(st) && st.months != [] && st.months[|st.months| - 1] == st.date && used >= 0
    ensures var n := |st.secs|;
      Record(st, Ok(used), order) == Ok(st.(secs := st.secs[n - 1 := st.secs[n - 1] + used]))
  {
  }

  /** The first game creates exactly one bucket, holding its time. */
  lemma RecordFirstGame(st: ScanState, used: int, order: Order)
    requires Shape(st) && st.months == [] && used >= 0
    ensures Record(st, Ok(used), order) == Ok(st.(months := [st.date], secs := [used]))
  {
    assert [0][0 := used] == [used];
  }

  /** Finding or opening a bucket adds no time: the new buckets hold 0. */
  lemma BucketSum(st: ScanState, order: Order)
    requires Shape(st)
    ensures Bucket(st, order).Ok? ==> Sum(Bucket(st, order).value.secs) == Sum(st.secs)
  {
    if st.months == [] {
      assert Sum([0]) == Sum([0][..0]) + 0;
    } else if st.months[|st.months| - 1] != st.date {
      var f := Fillers(st.months[|st.months| - 1], st.date);
      if f.Ok? {
        OpenMonthWith(st, f.value);
        SumZeros(|f.value|);
        SumAppend(st.secs, Zeros(|f.value|));
        SumAppend(st.secs + Zeros(|f.value|), [0]);
        assert Sum([0]) == Sum([0][..0]) + 0;
      }
    }
  }

  /** Adding `used` to the newest bucket adds `used` to the sum of the buckets. */
  lemma BumpSum(s: seq<int>, used: int)
    requires s != []
    ensures Sum(s[|s| - 1 := s[|s| - 1] + used]) == Sum(s) + used
  {
    var b := s[|s| - 1 := s[|s| - 1] + used];
    assert b[..|b| - 1] == s[..|s| - 1];
  }

  /**
   * Where the time of a game that opens a new month goes (line 118, after
   * lines 103-116): after the earlier months come the fillers, holding 0,
   * and then the game's month, holding the game's time.
   */
  lemma RecordCharges(st: ScanState, used: Result<int>, order: Order)
    requires used.Ok? ==> used.value >= 0
    requires Shape(st)
    ensures Record(st, used, order).Ok? && st.months != [] && st.months[|st.months| - 1] != st.date ==>
      var fill := Fillers(st.months[|st.months| - 1], st.date);
      && fill.Ok?
      && Record(st, used, order).value.months == st.months + fill.value + [st.date]
      && Record(st, used, order).value.secs == st.secs + Zeros(|fill.value|) + [used.value]
  {
    if Record(st, used, order).Ok? && st.months != [] && st.months[|st.months| - 1] != st.date {
      assert used.Ok?;
      var fill := Fillers(st.months[|st.months| - 1], st.date);
      assert fill.Ok?;
      ChargedNewMonth(st, used.value, order, fill.value);
    }
  }

  /** `RecordCharges` once the game's time and the fillers are known. */
  lemma ChargedNewMonth(st: ScanState, used: int, order: Order, fill: seq<Date>)
    requires Shape(st) && used >= 0 && st.months != [] && st.months[|st.months| - 1] != st.date
    requires Fillers(st.months[|st.months| - 1], st.date) == Ok(fill)
    ensures Record(st, Ok(used), order)
         == Ok(ScanState(st.timeControl, st.date, st.months + fill + [st.date], st.secs + Zeros(|fill|) + [used], Bucket(st, order).value.total))
  {
    OpenedBuckets(st, fill, order);
    RecordIsBump(st, used, order);
    BumpOpened(Bucket(st, order).value, st.secs + Zeros(|fill|), used);
  }

  /** Once its bucket is found or opened, a game's time is added to it. */
  lemma RecordIsBump(st: ScanState, used: int, order: Order)
    requires Shape(st) && used >= 0 && Bucket(st, order).Ok?
    ensures Record(st, Ok(used), order) == Ok(Bump(Bucket(st, order).value, used))
  {
  }

  /** Adding a game's time to a bucket just opened with 0. */
  lemma BumpOpened(b: ScanState, y: seq<int>, used: int)
    requires Shape(b) && b.secs == y + [0] && used >= 0
    ensures Bump(b, used) == b.(secs := y + [used])
  {
    ChargeLast(b.secs, y, used);
  }

  /** The series a month change opens, in either order: the fillers and the game's month, each holding 0. */
  lemma OpenedBuckets(st: ScanState, fill: seq<Date>, order: Order)
    requires Shape(st) && st.months != [] && st.months[|st.months| - 1] != st.date
    requires Fillers(st.months[|st.months| - 1], st.date) == Ok(fill)
    ensures Bucket(st, order).Ok?
    ensures Bucket(st, order).value.months == st.months + fill + [st.date]
    ensures Bucket(st, order).value.secs == st.secs + Zeros(|fill|) + [0]
  {
    OpenMonthWith(st, fill);
  }

  /** Charging `used` to a new bucket holding 0. */
  lemma ChargeLast(secs: seq<int>, y: seq<int>, used: int)
    requires secs == y + [0]
    ensures secs[|secs| - 1 := secs[|secs| - 1] + used] == y + [used]
  {
  }
}
