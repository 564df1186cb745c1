/**
 * The main loop of the script: read the PGN export line by line, remember
 * the latest TimeControl and UTCDate tags, and charge every game line's
 * time to its month's bucket. When a game opens a new month, any filler
 * months go in first, then the newest bucket at that point joins the
 * running total, then the game's month goes in; at the end the newest
 * bucket joins the total too.
 *
 * `ScanLine`, `Scan` and `TotalTime` say what the loop computes, in the
 * order the script does it (`AsWritten`) and in the order it evidently
 * intends (`Intended`); `GameScanner` holds the loop's variables and
 * updates them in place, and `TotalTimeOf` is the loop itself, proved to
 * compute the script's `TotalTime`.
 */
module Scanner {
  import opened Outcome
  import opened PyStr
  import opened PyInt
  import opened Series
  import opened MoveText

  /** A tag line: Python's `line != '' and line[0] != '['` is false. */
  predicate IsTagOrBlank(line: string) {
    line == [] || line[0] == '['
  }

  /**
   * How a game is timed from the current time control and its move text,
   * with time never negative. The script's own timer is `GameTime`; the
   * scan is stated for any timer so that its properties do not depend on
   * how a game's time is read.
   */
  type Timer = t: (Option<string>, string) -> Result<int> | forall tc, game :: t(tc, game).Ok? ==> t(tc, game).value >= 0
    witness (tc: Option<string>, game: string) => Err(NoTimeControl)

  /** The script's timer: `time_used` under the current TimeControl tag. */
  const ScriptTimer: Timer := GameTime

  /** The line `[TimeControl "v"]` of an export. */
  function TimeControlLine(v: string): string {
    "[TimeControl \"" + v + "\"]"
  }

  /** The line `[UTCDate "YYYY.MM.DD"]` of an export, split into its month and its day. */
  function DateLine(month: string, day: string): string {
    "[UTCDate \"" + month + "." + day + "\"]"
  }

  /** The current date after one line: a UTCDate tag sets it to `line[10:-5]`. */
  function DateOf(date: Date, line: string): Date {
    if Prefix(line, 8) == "[UTCDate" then Some(Slice(line, 10, -5)) else date
  }

  /** The current time control after one line: a TimeControl tag sets it to `line[14:-2]`. */
  function ControlOf(timeControl: Option<string>, line: string): Option<string> {
    if Prefix(line, 12) == "[TimeControl" then Some(Slice(line, 14, -2)) else timeControl
  }

  /** The tags of one line: a TimeControl tag sets `line[14:-2]`, a UTCDate tag sets `line[10:-5]`. */
  function Tags(st: ScanState, line: string): (r: ScanState)
    ensures r.months == st.months && r.secs == st.secs && r.total == st.total
  {
    st.(timeControl := ControlOf(st.timeControl, line), date := DateOf(st.date, line))
  }

  /**
   * One line of the export: its tags are read, and then any line that is
   * neither empty nor starts with '[' is a game, timed by `timer`. Time
   * can only be lost, and only by the script's order.
   */
  function ScanLine(st: ScanState, line: string, timer: Timer, order: Order): (r: Result<ScanState>)
    requires Shape(st)
    ensures r.Ok? ==> Shape(r.value) && Lost(r.value) >= Lost(st)
    ensures r.Ok? && order == Intended ==> Lost(r.value) == Lost(st)
    ensures r.Ok? ==> r.value.date == DateOf(st.date, line)
    ensures r.Ok? ==> r.value.timeControl == ControlOf(st.timeControl, line)
    ensures IsTagOrBlank(line) ==>
      && r.Ok?
      && r.value.months == st.months && r.value.secs == st.secs && r.value.total == st.total
    ensures !IsTagOrBlank(line) && r.Ok? ==>
      && r.value.months != [] && r.value.months[|r.value.months| - 1] == r.value.date
      && |st.months| <= |r.value.months| && r.value.months[..|st.months|] == st.months
  {
    var st := Tags(st, line);
    if IsTagOrBlank(line) then Ok(st)
    else Record(st, timer(st.timeControl, line), order)
  }

  /** The state after the given lines; the first exception stops the script. */
  function Scan(lines: seq<string>, timer: Timer, order: Order): (r: Result<ScanState>)
    ensures r.Ok? ==> Shape(r.value)
    ensures r.Ok? && order == Intended ==> Valid(r.value)
  {
    if lines == [] then Ok(Initial)
    else
      var st :- Scan(lines[..|lines| - 1], timer, order);
      ScanLine(st, lines[|lines| - 1], timer, order)
  }

  /**
   * The total the script reports, in seconds: every bucket's time except
   * what was lost when a month was opened, and all of it in the intended
   * order. An export with no game has no bucket to add and fails.
   */
  function TotalTime(lines: seq<string>, timer: Timer, order: Order): (r: Result<int>)
    ensures r.Ok? ==> Scan(lines, timer, order).Ok?
    ensures r.Ok? ==> var st := Scan(lines, timer, order).value;
      r.value == Sum(st.secs) - Lost(st) && 0 <= r.value <= Sum(st.secs)
    ensures r.Ok? && order == Intended ==> r.value == Sum(Scan(lines, timer, order).value.secs)
    ensures Scan(lines, timer, order).Ok? ==> (r.Err? <==> Scan(lines, timer, order).value.secs == [])
    ensures r.Ok? ==> Played(lines, timer).Ok? && r.value == Played(lines, timer).value - Lost(Scan(lines, timer, order).value)
    ensures r.Ok? && order == Intended ==> r == Played(lines, timer)
  {
    ScanSumsGames(lines, timer, order);
    var st :- Scan(lines, timer, order);
    Finish(st)
  }

  /** One more line is one more step. */
  lemma ScanSnoc(lines: seq<string>, line: string, timer: Timer, order: Order)
    ensures Scan(lines + [line], timer, order) == (var st :- Scan(lines, timer, order); ScanLine(st, line, timer, order))
  {
    assert (lines + [line])[..|lines|] == lines;
  }

  /** Appending a non-empty list is appending all but its last element, then that element. */
  lemma AppendLast<T>(a: seq<T>, s: seq<T>)
    requires s != []
    ensures a + s == (a + s[..|s| - 1]) + [s[|s| - 1]]
  {
    assert s == s[..|s| - 1] + [s[|s| - 1]];
  }

  lemma TakeOneMore<T>(s: seq<T>, i: int)
    requires 0 <= i < |s|
    ensures s[..i + 1] == s[..i] + [s[i]]
  {
  }

  lemma TakeDrop<T>(s: seq<T>, i: int)
    requires 0 <= i <= |s|
    ensures s[..i] + s[i..] == s
  {
  }

  lemma AppendNothing<T>(a: seq<T>)
    ensures a + [] == a
  {
  }

  lemma PrefixOfPrefix<T>(a: seq<T>, b: seq<T>, c: seq<T>)
    requires |a| <= |b| && b[..|a|] == a
    requires |b| <= |c| && c[..|b|] == b
    ensures |a| <= |c| && c[..|a|] == a
  {
    assert c[..|a|] == c[..|b|][..|a|];
  }

  /** After an exception nothing further is read: later lines change nothing. */
  lemma {:induction false} ScanErrorSticks(lines: seq<string>, more: seq<string>, timer: Timer, order: Order)
    requires Scan(lines, timer, order).Err?
    ensures Scan(lines + more, timer, order) == Scan(lines, timer, order)
    decreases |more|
  {
    if more == [] {
      AppendNothing(lines);
    } else {
      var init := more[..|more| - 1];
      ScanErrorSticks(lines, init, timer, order);
      AppendLast(lines, more);
      ScanSnoc(lines + init, more[|more| - 1], timer, order);
    }
  }

  /** Months once listed stay listed, in the same order: `x` only grows at its end. */
  lemma {:induction false} MonthsOnlyGrow(lines: seq<string>, more: seq<string>, timer: Timer, order: Order)
    requires Scan(lines + more, timer, order).Ok?
    ensures Scan(lines, timer, order).Ok?
    ensures var before, after := Scan(lines, timer, order).value.months, Scan(lines + more, timer, order).value.months;
      |before| <= |after| && after[..|before|] == before
    decreases |more|
  {
    if more == [] {
      AppendNothing(lines);
    } else {
      var init := more[..|more| - 1];
      AppendLast(lines, more);
      ScanSnoc(lines + init, more[|more| - 1], timer, order);
      MonthsOnlyGrow(lines, init, timer, order);
      var mid := Scan(lines + init, timer, order).value.months;
      PrefixOfPrefix(Scan(lines, timer, order).value.months, mid, Scan(lines + more, timer, order).value.months);
    }
  }

  /** One line read in both orders from states that differ only in their totals. */
  lemma LineOrders(a: ScanState, b: ScanState, line: string, timer: Timer)
    requires Shape(a) && Shape(b) && SameButTotal(a, b)
    ensures ScanLine(a, line, timer, AsWritten).Ok? <==> ScanLine(b, line, timer, Intended).Ok?
    ensures ScanLine(a, line, timer, AsWritten).Err? ==>
      ScanLine(a, line, timer, AsWritten).error == ScanLine(b, line, timer, Intended).error
    ensures ScanLine(a, line, timer, AsWritten).Ok? ==>
      SameButTotal(ScanLine(a, line, timer, AsWritten).value, ScanLine(b, line, timer, Intended).value)
  {
    var ta, tb := Tags(a, line), Tags(b, line);
    if !IsTagOrBlank(line) {
      RecordOrders(ta, tb, timer(ta.timeControl, line));
    }
  }

  /**
   * The script's order and the intended one read the same lines alike:
   * they fail together with the same exception, and otherwise reach the
   * same months and buckets, differing only in the running total.
   */
  lemma {:induction false} OrdersAgree(lines: seq<string>, timer: Timer)
    ensures Scan(lines, timer, AsWritten).Ok? <==> Scan(lines, timer, Intended).Ok?
    ensures Scan(lines, timer, AsWritten).Err? ==> Scan(lines, timer, AsWritten).error == Scan(lines, timer, Intended).error
    ensures Scan(lines, timer, AsWritten).Ok? ==> SameButTotal(Scan(lines, timer, AsWritten).value, Scan(lines, timer, Intended).value)
    decreases |lines|
  {
    if lines != [] {
      var init := lines[..|lines| - 1];
      OrdersAgree(init, timer);
      var a, b := Scan(init, timer, AsWritten), Scan(init, timer, Intended);
      if a.Ok? {
        LineOrders(a.value, b.value, lines[|lines| - 1], timer);
      }
    }
  }

  /**
   * The script reports a total exactly when the intended reading does,
   * and it is the intended total less the time lost, never more.
   */
  lemma TotalsAgree(lines: seq<string>, timer: Timer)
    ensures TotalTime(lines, timer, AsWritten).Ok? <==> TotalTime(lines, timer, Intended).Ok?
    ensures TotalTime(lines, timer, AsWritten).Err? ==>
      TotalTime(lines, timer, AsWritten).error == TotalTime(lines, timer, Intended).error
    ensures TotalTime(lines, timer, AsWritten).Ok? ==>
      && TotalTime(lines, timer, AsWritten).value
         == TotalTime(lines, timer, Intended).value - Lost(Scan(lines, timer, AsWritten).value)
      && TotalTime(lines, timer, AsWritten).value <= TotalTime(lines, timer, Intended).value
  {
    OrdersAgree(lines, timer);
  }

  /** The current date after the given lines: the month of the latest UTCDate tag, if any. */
  function DateAfter(lines: seq<string>): Date {
    if lines == [] then None else DateOf(DateAfter(lines[..|lines| - 1]), lines[|lines| - 1])
  }

  /** The current time control after the given lines: the value of the latest TimeControl tag, if any. */
  function ControlAfter(lines: seq<string>): Option<string> {
    if lines == [] then None else ControlOf(ControlAfter(lines[..|lines| - 1]), lines[|lines| - 1])
  }

  /** The date under which the latest game line among `lines` was read, if there is one. */
  function LastGameDate(lines: seq<string>): Option<Date> {
    if lines == [] then None
    else if IsTagOrBlank(lines[|lines| - 1]) then LastGameDate(lines[..|lines| - 1])
    else Some(DateAfter(lines))
  }

  /**
   * Reading `line` after `lines` needs no filler month: it is not a game,
   * or the first game, or a game of the latest game's month or of the
   * month just before it.
   */
  predicate NoGapAt(lines: seq<string>, line: string) {
    || IsTagOrBlank(line)
    || LastGameDate(lines).None?
    || var last, date := LastGameDate(lines).value, DateOf(DateAfter(lines), line);
       last == date || Prev(last) == Ok(date)
  }

  /** An export whose games, newest first, never skip a month. */
  predicate NoSkippedMonth(lines: seq<string>) {
    lines == [] || (NoSkippedMonth(lines[..|lines| - 1]) && NoGapAt(lines[..|lines| - 1], lines[|lines| - 1]))
  }

  /**
   * The current time control is the latest TimeControl tag's value, the
   * current date the latest UTCDate tag's month, and the newest month the
   * latest game's.
   */
  predicate FollowsTags(st: ScanState, lines: seq<string>) {
    && st.timeControl == ControlAfter(lines)
    && st.date == DateAfter(lines)
    && (st.months == [] <==> LastGameDate(lines).None?)
    && (st.months != [] ==> st.months[|st.months| - 1] == LastGameDate(lines).value)
  }

  /** The scan's current time control, current date and newest month follow the tags and the latest game line. */
  lemma {:induction false} ScanFollowsTags(lines: seq<string>, timer: Timer, order: Order)
    ensures Scan(lines, timer, order).Ok? ==> FollowsTags(Scan(lines, timer, order).value, lines)
    decreases |lines|
  {
    if lines != [] {
      var init, line := lines[..|lines| - 1], lines[|lines| - 1];
      ScanFollowsTags(init, timer, order);
      var before := Scan(init, timer, order);
      if before.Ok? {
        LineFollowsTags(before.value, lines, timer, order);
      }
    }
  }

  /** Reading the last of `lines` keeps the state following the tags. */
  lemma LineFollowsTags(st: ScanState, lines: seq<string>, timer: Timer, order: Order)
    requires lines != [] && Shape(st) && FollowsTags(st, lines[..|lines| - 1])
    ensures ScanLine(st, lines[|lines| - 1], timer, order).Ok? ==>
      FollowsTags(ScanLine(st, lines[|lines| - 1], timer, order).value, lines)
  {
  }

  /**
   * A game line is timed under the latest TimeControl tag read before it,
   * and charged to the state the lines before it left: the tags persist
   * through game lines and other tags until a tag of the same kind.
   */
  lemma GameUnderLatestControl(lines: seq<string>, timer: Timer, order: Order)
    requires lines != [] && !IsTagOrBlank(lines[|lines| - 1])
    ensures var init, line := lines[..|lines| - 1], lines[|lines| - 1];
      Scan(init, timer, order).Ok? ==>
        Scan(lines, timer, order) == Record(Scan(init, timer, order).value, timer(ControlAfter(init), line), order)
  {
    var init, line := lines[..|lines| - 1], lines[|lines| - 1];
    ScanFollowsTags(init, timer, order);
    if Scan(init, timer, order).Ok? {
      ScanLast(lines, timer, order);
      GameLine(Scan(init, timer, order).value, line, timer, order);
    }
  }

  /** The scan of non-empty lines reads the last line from the state the others left. */
  lemma ScanLast(lines: seq<string>, timer: Timer, order: Order)
    requires lines != [] && Scan(lines[..|lines| - 1], timer, order).Ok?
    ensures Scan(lines, timer, order) == ScanLine(Scan(lines[..|lines| - 1], timer, order).value, lines[|lines| - 1], timer, order)
  {
  }

  /**
   * The time of every game in the given lines, each timed under the latest
   * TimeControl tag before it; the first game whose time cannot be read
   * makes it fail.
   */
  function Played(lines: seq<string>, timer: Timer): Result<int> {
    if lines == [] then Ok(0)
    else
      var init, line := lines[..|lines| - 1], lines[|lines| - 1];
      var p :- Played(init, timer);
      if IsTagOrBlank(line) then Ok(p)
      else
        var t :- timer(ControlAfter(init), line);
        Ok(p + t)
  }

  /** The buckets hold exactly the time of the games read, whatever the order. */
  lemma {:induction false} ScanSumsGames(lines: seq<string>, timer: Timer, order: Order)
    ensures Scan(lines, timer, order).Ok? ==>
      Played(lines, timer).Ok? && Sum(Scan(lines, timer, order).value.secs) == Played(lines, timer).value
    decreases |lines|
  {
    if lines != [] {
      var init, line := lines[..|lines| - 1], lines[|lines| - 1];
      ScanSumsGames(init, timer, order);
      if Scan(init, timer, order).Ok? {
        ScanFollowsTags(init, timer, order);
        ScanLast(lines, timer, order);
        LineCharges(Scan(init, timer, order).value, line, timer, order);
      }
    }
  }

  /** One line adds to the buckets the time of its game, timed under the current control, if it is one. */
  lemma LineCharges(st: ScanState, line: string, timer: Timer, order: Order)
    requires Shape(st)
    ensures ScanLine(st, line, timer, order).Ok? ==> var r := ScanLine(st, line, timer, order).value;
      if IsTagOrBlank(line) then Sum(r.secs) == Sum(st.secs)
      else timer(st.timeControl, line).Ok? && Sum(r.secs) == Sum(st.secs) + timer(st.timeControl, line).value
  {
    if !IsTagOrBlank(line) {
      GameLine(st, line, timer, order);
    }
  }

  /** A line that needs no filler month loses no time, in the script's order too. */
  lemma LineKeepsTime(st: ScanState, line: string, timer: Timer)
    requires Shape(st)
    requires || IsTagOrBlank(line) || st.months == []
             || var last, date := st.months[|st.months| - 1], DateOf(st.date, line);
                last == date || Prev(last) == Ok(date)
    ensures ScanLine(st, line, timer, AsWritten).Ok? ==> Lost(ScanLine(st, line, timer, AsWritten).value) == Lost(st)
  {
    if !IsTagOrBlank(line) {
      var t := Tags(st, line);
      RecordKeepsTime(t, timer(t.timeControl, line), AsWritten);
    }
  }

  /**
   * With no skipped month the script loses nothing: its total holds
   * exactly the closed buckets after every line.
   */
  lemma {:induction false} NoSkippedMonthLosesNothing(lines: seq<string>, timer: Timer)
    requires NoSkippedMonth(lines)
    ensures Scan(lines, timer, AsWritten).Ok? ==> Valid(Scan(lines, timer, AsWritten).value)
    decreases |lines|
  {
    if lines != [] {
      var init := lines[..|lines| - 1];
      NoSkippedMonthLosesNothing(init, timer);
      ScanFollowsTags(init, timer, AsWritten);
      if Scan(init, timer, AsWritten).Ok? {
        LineKeepsTime(Scan(init, timer, AsWritten).value, lines[|lines| - 1], timer);
      }
    }
  }

  /**
   * On an export that never skips a month the script is right: it reports
   * the intended total, the sum of every bucket.
   */
  lemma NoSkippedMonthReportsAll(lines: seq<string>, timer: Timer)
    requires NoSkippedMonth(lines)
    ensures TotalTime(lines, timer, AsWritten) == TotalTime(lines, timer, Intended)
    ensures TotalTime(lines, timer, AsWritten).Ok? ==>
      TotalTime(lines, timer, AsWritten).value == Sum(Scan(lines, timer, AsWritten).value.secs)
  {
    NoSkippedMonthLosesNothing(lines, timer);
    TotalsAgree(lines, timer);
    var a, b := TotalTime(lines, timer, AsWritten), TotalTime(lines, timer, Intended);
    if a.Ok? {
      var st := Scan(lines, timer, AsWritten).value;
      assert Valid(st) && Lost(st) == 0;
      assert b.Ok? && a.value == b.value;
    } else {
      assert b == Err(a.error);
    }
  }

  /** Cutting a line into a known head, value and tail. */
  lemma Between(head: string, v: string, tail: string)
    requires |tail| > 0
    ensures Slice(head + v + tail, |head|, -|tail|) == v
    ensures forall k :: 0 <= k <= |head| ==> Prefix(head + v + tail, k) == head[..k]
  {
    var line := head + v + tail;
    assert line[|head|..|line| - |tail|] == v;
    forall k | 0 <= k <= |head|
      ensures Prefix(line, k) == head[..k]
    {
      assert line[..k] == head[..k];
    }
  }

  /** A TimeControl tag `[TimeControl "v"]` records `v` and nothing else. */
  lemma TimeControlTag(st: ScanState, v: string, timer: Timer, order: Order)
    requires Shape(st)
    ensures ScanLine(st, TimeControlLine(v), timer, order) == Ok(st.(timeControl := Some(v)))
  {
    var head := "[TimeControl \"";
    var line := head + v + "\"]";
    Between(head, v, "\"]");
    assert Prefix(line, 12) == head[..12] == "[TimeControl";
    assert Prefix(line, 8) == head[..8] == "[TimeCon";
  }

  /** A UTCDate tag `[UTCDate "YYYY.MM.DD"]` records the month "YYYY.MM" and nothing else. */
  lemma DateTag(st: ScanState, month: string, day: string, timer: Timer, order: Order)
    requires Shape(st) && |day| == 2
    ensures ScanLine(st, DateLine(month, day), timer, order) == Ok(st.(date := Some(month)))
  {
    var head, tail := "[UTCDate \"", "." + day + "\"]";
    var line := DateLine(month, day);
    assert line == head + month + tail;
    Between(head, month, tail);
    assert Prefix(line, 8) == head[..8] == "[UTCDate";
    assert Prefix(line, 12)[1] == 'U' != "[TimeControl"[1];
  }

  /** A game line has no tag to read: it is only charged. */
  lemma GameLine(st: ScanState, game: string, timer: Timer, order: Order)
    requires Shape(st) && !IsTagOrBlank(game)
    ensures ScanLine(st, game, timer, order) == Record(st, timer(st.timeControl, game), order)
  {
    assert Prefix(game, 12) != "[TimeControl" && Prefix(game, 8) != "[UTCDate" by {
      assert Prefix(game, 12)[0] == game[0] && Prefix(game, 8)[0] == game[0];
    }
  }

  /** The two tag lines of an export: a TimeControl tag, then a UTCDate tag. */
  lemma TagLines(v: string, month: string, day: string, timer: Timer, order: Order)
    requires |day| == 2
    ensures Scan([TimeControlLine(v), DateLine(month, day)], timer, order)
      == Ok(Initial.(timeControl := Some(v), date := Some(month)))
  {
    var tc, dt := TimeControlLine(v), DateLine(month, day);
    ScanSnoc([], tc, timer, order);
    TimeControlTag(Initial, v, timer, order);
    assert [] + [tc] == [tc];
    ScanSnoc([tc], dt, timer, order);
    DateTag(Initial.(timeControl := Some(v)), month, day, timer, order);
    assert [tc] + [dt] == [tc, dt];
  }

  /** The tag lines and a first game, which takes `used` seconds: one bucket, not yet in the total. */
  lemma OneGameScan(v: string, month: string, day: string, game: string, timer: Timer, order: Order, used: int)
    requires |day| == 2 && !IsTagOrBlank(game) && timer(Some(v), game) == Ok(used)
    ensures Scan([TimeControlLine(v), DateLine(month, day), game], timer, order)
      == Ok(ScanState(Some(v), Some(month), [Some(month)], [used], 0))
  {
    var tc, dt := TimeControlLine(v), DateLine(month, day);
    var tags := Initial.(timeControl := Some(v), date := Some(month));
    TagLines(v, month, day, timer, order);
    ScanSnoc([tc, dt], game, timer, order);
    GameLine(tags, game, timer, order);
    RecordFirstGame(tags, used, order);
    assert [tc, dt] + [game] == [tc, dt, game];
  }

  /**
   * The smallest export: a TimeControl tag, a UTCDate tag and one game.
   * The script reports that game's time, timed with the tag's control.
   */
  lemma OneGameExport(v: string, month: string, day: string, game: string, timer: Timer, order: Order)
    requires |day| == 2 && !IsTagOrBlank(game) && timer(Some(v), game).Ok?
    ensures var lines := [TimeControlLine(v), DateLine(month, day), game];
      && Scan(lines, timer, order) == Ok(ScanState(Some(v), Some(month), [Some(month)], [timer(Some(v), game).value], 0))
      && TotalTime(lines, timer, order) == Ok(timer(Some(v), game).value)
  {
    var used := timer(Some(v), game).value;
    OneGameScan(v, month, day, game, timer, order, used);
    assert Sum([used]) == used by {
      assert [used][..0] == [];
    }
  }

  /** A move-text line starts with move number 1, so the loop takes it for a game. */
  lemma {:induction false} GameIsNotATag(ms: seq<Move>, extra: Option<Ply>, result: string)
    requires |ms| >= 1 || extra.Some?
    ensures !IsTagOrBlank(Game(ms, extra, result)) && Game(ms, extra, result)[0] == '1'
  {
    if ms != [] {
      RenderStartsWithOne(ms);
    }
  }

  lemma {:induction false} RenderStartsWithOne(ms: seq<Move>)
    requires |ms| >= 1
    ensures |Render(ms)| >= 1 && Render(ms)[0] == '1'
  {
    if |ms| >= 2 {
      RenderStartsWithOne(ms[..|ms| - 1]);
    }
  }

  /**
   * The script end to end on a one-game export with an "a+b" time
   * control: the total is the time the game's clocks show was used.
   */
  lemma ScriptOneGame(start: int, increment: int, month: string, day: string,
                      ms: seq<Move>, extra: Option<Ply>, result: string, order: Order)
    requires |day| == 2 && (|ms| >= 1 || extra.Some?)
    requires PlainMoves(ms) && (extra.Some? ==> Plain(extra.value.san)) && Plain(result)
    ensures var v := IntToStr(start) + "+" + IntToStr(increment);
      TotalTime([TimeControlLine(v), DateLine(month, day), Game(ms, extra, result)], ScriptTimer, order)
      == Ok(Expected(start, increment, Plies(ms, extra)))
  {
    var v, game := IntToStr(start) + "+" + IntToStr(increment), Game(ms, extra, result);
    TimeUsedOfGame(start, increment, ms, extra, result);
    GameIsNotATag(ms, extra, result);
    assert ScriptTimer(Some(v), game) == Ok(Expected(start, increment, Plies(ms, extra)));
    OneGameExport(v, month, day, game, ScriptTimer, order);
  }

  /** The export up to a second game, one month `c` after a game of month `a` that took `s` seconds. */
  lemma TwoMonthExport(v: string, a: string, c: string, d1: string, d2: string, g1: string, g2: string,
                       timer: Timer, order: Order, s: int)
    requires |d1| == 2 && |d2| == 2 && !IsTagOrBlank(g1) && !IsTagOrBlank(g2) && timer(Some(v), g1) == Ok(s)
    ensures Scan([TimeControlLine(v), DateLine(a, d1), g1, DateLine(c, d2), g2], timer, order)
      == Record(ScanState(Some(v), Some(c), [Some(a)], [s], 0), timer(Some(v), g2), order)
  {
    var first := [TimeControlLine(v), DateLine(a, d1), g1, DateLine(c, d2)];
    SecondDate(v, a, c, d1, d2, g1, timer, order, s);
    ScanSnoc(first, g2, timer, order);
    GameLine(ScanState(Some(v), Some(c), [Some(a)], [s], 0), g2, timer, order);
    assert first + [g2] == [TimeControlLine(v), DateLine(a, d1), g1, DateLine(c, d2), g2];
  }

  /** A UTCDate tag after the first game moves the current month to `c`, with no new bucket yet. */
  lemma SecondDate(v: string, a: string, c: string, d1: string, d2: string, g1: string,
                   timer: Timer, order: Order, s: int)
    requires |d1| == 2 && |d2| == 2 && !IsTagOrBlank(g1) && timer(Some(v), g1) == Ok(s)
    ensures Scan([TimeControlLine(v), DateLine(a, d1), g1, DateLine(c, d2)], timer, order)
      == Ok(ScanState(Some(v), Some(c), [Some(a)], [s], 0))
  {
    var first := [TimeControlLine(v), DateLine(a, d1), g1];
    OneGameScan(v, a, d1, g1, timer, order, s);
    ScanSnoc(first, DateLine(c, d2), timer, order);
    DateTag(ScanState(Some(v), Some(a), [Some(a)], [s], 0), c, d2, timer, order);
    assert first + [DateLine(c, d2)] == [TimeControlLine(v), DateLine(a, d1), g1, DateLine(c, d2)];
  }

  /**
   * The script loses time across a skipped month: with games of month `a`
   * taking `s` seconds, then games of month `c` taking `t`, where one
   * filler month `b` lies between, the script reports `t` where `s + t`
   * was played.
   */
  lemma SkippedMonthLosesTime(v: string, a: string, b: string, c: string, d1: string, d2: string,
                              g1: string, g2: string, timer: Timer, s: int, t: int)
    requires |d1| == 2 && |d2| == 2 && !IsTagOrBlank(g1) && !IsTagOrBlank(g2) && a != c
    requires Fillers(Some(a), Some(c)) == Ok([Some(b)])
    requires timer(Some(v), g1) == Ok(s) && s > 0 && timer(Some(v), g2) == Ok(t)
    ensures TotalTime([TimeControlLine(v), DateLine(a, d1), g1, DateLine(c, d2), g2], timer, AsWritten) == Ok(t)
    ensures TotalTime([TimeControlLine(v), DateLine(a, d1), g1, DateLine(c, d2), g2], timer, Intended) == Ok(s + t)
  {
    ScriptDropsGap(v, a, b, c, d1, d2, g1, g2, timer, s, t);
    IntendedKeepsGap(v, a, b, c, d1, d2, g1, g2, timer, s, t);
  }

  /** The script's half of `SkippedMonthLosesTime`. */
  lemma ScriptDropsGap(v: string, a: string, b: string, c: string, d1: string, d2: string,
                       g1: string, g2: string, timer: Timer, s: int, t: int)
    requires |d1| == 2 && |d2| == 2 && !IsTagOrBlank(g1) && !IsTagOrBlank(g2) && a != c
    requires Fillers(Some(a), Some(c)) == Ok([Some(b)])
    requires timer(Some(v), g1) == Ok(s) && s > 0 && timer(Some(v), g2) == Ok(t)
    ensures TotalTime([TimeControlLine(v), DateLine(a, d1), g1, DateLine(c, d2), g2], timer, AsWritten) == Ok(t)
  {
    ExportAfterGap(v, a, b, c, d1, d2, g1, g2, timer, s, t, AsWritten);
    FinishAfterGap(Some(v), Some(c), [Some(a), Some(b), Some(c)], s, t, 0);
  }

  /** The intended half of `SkippedMonthLosesTime`. */
  lemma IntendedKeepsGap(v: string, a: string, b: string, c: string, d1: string, d2: string,
                         g1: string, g2: string, timer: Timer, s: int, t: int)
    requires |d1| == 2 && |d2| == 2 && !IsTagOrBlank(g1) && !IsTagOrBlank(g2) && a != c
    requires Fillers(Some(a), Some(c)) == Ok([Some(b)])
    requires timer(Some(v), g1) == Ok(s) && s > 0 && timer(Some(v), g2) == Ok(t)
    ensures TotalTime([TimeControlLine(v), DateLine(a, d1), g1, DateLine(c, d2), g2], timer, Intended) == Ok(s + t)
  {
    ExportAfterGap(v, a, b, c, d1, d2, g1, g2, timer, s, t, Intended);
    FinishAfterGap(Some(v), Some(c), [Some(a), Some(b), Some(c)], s, t, s);
  }

  /** The whole export of `SkippedMonthLosesTime` read, in either order. */
  lemma ExportAfterGap(v: string, a: string, b: string, c: string, d1: string, d2: string,
                       g1: string, g2: string, timer: Timer, s: int, t: int, order: Order)
    requires |d1| == 2 && |d2| == 2 && !IsTagOrBlank(g1) && !IsTagOrBlank(g2) && a != c
    requires Fillers(Some(a), Some(c)) == Ok([Some(b)])
    requires timer(Some(v), g1) == Ok(s) && s > 0 && timer(Some(v), g2) == Ok(t)
    ensures var months := [Some(a), Some(b), Some(c)];
      && (order == AsWritten ==> Scan([TimeControlLine(v), DateLine(a, d1), g1, DateLine(c, d2), g2], timer, order) == Ok(ScanState(Some(v), Some(c), months, [s, 0, t], 0)))
      && (order == Intended ==> Scan([TimeControlLine(v), DateLine(a, d1), g1, DateLine(c, d2), g2], timer, order) == Ok(ScanState(Some(v), Some(c), months, [s, 0, t], s)))
  {
    TwoMonthExport(v, a, c, d1, d2, g1, g2, timer, order, s);
    GapRecord(v, a, b, c, s, t, order);
  }

  /** The end of `SkippedMonthLosesTime`: the newest bucket, `t`, joins the total. */
  lemma FinishAfterGap(tc: Option<string>, date: Date, months: seq<Date>, s: int, t: int, total: int)
    ensures Finish(ScanState(tc, date, months, [s, 0, t], total)) == Ok(total + t)
  {
    assert [s, 0, t][2] == t;
  }

  /** The second game of `SkippedMonthLosesTime`: one filler, then the game's month is charged. */
  lemma GapRecord(v: string, a: string, b: string, c: string, s: int, t: int, order: Order)
    requires Fillers(Some(a), Some(c)) == Ok([Some(b)]) && a != c && s > 0 && t >= 0
    ensures Record(ScanState(Some(v), Some(c), [Some(a)], [s], 0), Ok(t), order)
      == Ok(ScanState(Some(v), Some(c), [Some(a), Some(b), Some(c)], [s, 0, t], if order == AsWritten then 0 else s))
  {
    var st := ScanState(Some(v), Some(c), [Some(a)], [s], 0);
    var next := ScanState(Some(v), Some(c), [Some(a), Some(b), Some(c)], [s, 0, 0], if order == AsWritten then 0 else s);
    OpenAfterGap(v, a, b, c, s, order);
    RecordOpened(st, next, t, order);
    BumpThird(next, s, 0, t);
  }

  /** Charging a game to the third of three months. */
  lemma BumpThird(st: ScanState, x: int, y: int, t: int)
    requires Shape(st) && st.secs == [x, y, 0] && t >= 0
    ensures Bump(st, t) == st.(secs := [x, y, t])
  {
    assert [x, y, 0][2 := t] == [x, y, t];
  }

  /** A game charged to a bucket already found or opened is added to that bucket's newest month. */
  lemma RecordOpened(st: ScanState, next: ScanState, t: int, order: Order)
    requires Shape(st) && t >= 0 && Bucket(st, order) == Ok(next)
    ensures Shape(next) && next.secs != [] && Record(st, Ok(t), order) == Ok(Bump(next, t))
  {
  }

  /** The second game's month opened after one filler: the script's order drops `s` from the total. */
  lemma OpenAfterGap(v: string, a: string, b: string, c: string, s: int, order: Order)
    requires Fillers(Some(a), Some(c)) == Ok([Some(b)]) && a != c && s > 0
    ensures var st := ScanState(Some(v), Some(c), [Some(a)], [s], 0);
      && Shape(st)
      && Bucket(st, order) == Ok(ScanState(Some(v), Some(c), [Some(a), Some(b), Some(c)], [s, 0, 0], if order == AsWritten then 0 else s))
  {
    LosesWhenFilled(Some(v), Some(a), Some(b), Some(c), s);
  }


  /** The variables of the loop, updated in place line by line. */
  class GameScanner {
    var timeControl: Option<string>
    var date: Date
    var months: seq<Date>
    var secs: seq<int>
    var total: int
    /** `time_used` with its time control, as the loop calls it. */
    const timer: Timer

    function State(): ScanState
      reads this
    {
      ScanState(timeControl, date, months, secs, total)
    }

    predicate Valid()
      reads this
    {
      Shape(State())
    }

    constructor(timer: Timer)
      ensures State() == Initial && this.timer == timer
    {
      this.timer := timer;
      timeControl, date, months, secs, total := None, None, [], [], 0;
    }

    /** Reads one line, as one pass of the loop does. */
    method Feed(line: string) returns (r: Result<()>)
      requires Valid()
      modifies this
      ensures r.Ok? <==> ScanLine(old(State()), line, timer, AsWritten).Ok?
      ensures r.Ok? ==> State() == ScanLine(old(State()), line, timer, AsWritten).value
      ensures r.Err? ==> r.error == ScanLine(old(State()), line, timer, AsWritten).error
    {
      ReadTags(line);
      if line != [] && line[0] != '[' {
        r := AddGame(line);
      } else {
        r := Ok(());
      }
    }

    /** A game line: its bucket is found or opened, then charged with the game's time. */
    method AddGame(game: string) returns (r: Result<()>)
      requires Valid()
      modifies this
      ensures var used := timer(old(timeControl), game);
        && (r.Ok? <==> Record(old(State()), used, AsWritten).Ok?)
        && (r.Ok? ==> State() == Record(old(State()), used, AsWritten).value)
        && (r.Err? ==> r.error == Record(old(State()), used, AsWritten).error)
    {
      ghost var start := State();
      RecordSteps(start, timer(timeControl, game), AsWritten);
      var bucket := FindBucket();
      if bucket.Err? {
        r := Err(bucket.error);
      } else {
        var used := timer(timeControl, game);
        if used.Err? {
          r := Err(used.error);
        } else {
          secs := secs[|secs| - 1 := secs[|secs| - 1] + used.value];
          r := Ok(());
        }
      }
    }

    /** Lines 100-116 of the loop: the first bucket, the newest one, or a new one. */
    method FindBucket() returns (r: Result<()>)
      requires Valid()
      modifies this
      ensures r.Ok? <==> Bucket(old(State()), AsWritten).Ok?
      ensures r.Ok? ==> State() == Bucket(old(State()), AsWritten).value
      ensures r.Err? ==> r.error == Bucket(old(State()), AsWritten).error
    {
      if |months| == 0 {
        months := months + [date];
        secs := secs + [0];
      } else if months[|months| - 1] != date {
        r := OpenBucket();
        return;
      }
      r := Ok(());
    }

    /** The two tag tests at the top of the loop. */
    method ReadTags(line: string)
      modifies this
      ensures State() == Tags(old(State()), line)
    {
      if Prefix(line, 12) == "[TimeControl" {
        timeControl := Some(Slice(line, 14, -2));
      }
      if Prefix(line, 8) == "[UTCDate" {
        date := Some(Slice(line, 10, -5));
      }
    }

    /**
     * A game of a month other than the newest bucket's: the gap fillers
     * are appended with no time, then the newest bucket at that point
     * joins the total, then the game's month is appended with no time.
     */
    method OpenBucket() returns (r: Result<()>)
      requires Valid() && months != [] && months[|months| - 1] != date
      modifies this
      ensures r.Ok? <==> OpenMonthAsWritten(old(State())).Ok?
      ensures r.Ok? ==> State() == OpenMonthAsWritten(old(State())).value
      ensures r.Err? ==> r.error == OpenMonthAsWritten(old(State())).error
    {
      var fill :- Fillers(months[|months| - 1], date);
      months := months + fill;
      secs := secs + Zeros(|fill|);
      total := total + secs[|secs| - 1];
      months := months + [date];
      secs := secs + [0];
      r := Ok(());
    }

    /** The last line of the script: the newest bucket joins the total. */
    method Close() returns (r: Result<int>)
      ensures r == Finish(State())
    {
      if secs == [] {
        return Err(EmptySeries);
      }
      r := Ok(total + secs[|secs| - 1]);
    }
  }

  /** The whole script on a list of lines: the loop, then the final total. */
  method TotalTimeOf(lines: seq<string>, timer: Timer) returns (r: Result<int>)
    ensures r == TotalTime(lines, timer, AsWritten)
  {
    var scanner := new GameScanner(timer);
    var i := 0;
    while i < |lines|
      invariant 0 <= i <= |lines|
      invariant Scan(lines[..i], timer, AsWritten) == Ok(scanner.State()) && scanner.timer == timer
    {
      ScanSnoc(lines[..i], lines[i], timer, AsWritten);
      TakeOneMore(lines, i);
      var step := scanner.Feed(lines[i]);
      if step.Err? {
        ScanErrorSticks(lines[..i + 1], lines[i + 1..], timer, AsWritten);
        TakeDrop(lines, i + 1);
        return Err(step.error);
      }
      i := i + 1;
    }
    assert lines[..i] == lines;
    r := scanner.Close();
  }
}
