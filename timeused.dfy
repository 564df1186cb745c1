/**
 * `time_used`: the seconds both players spent on one game, from the game's
 * time control ("start+increment", or "-" when untimed) and its move text
 * with `[%clk h:mm:ss]` annotations.
 */
module TimeUsage {
  import opened Outcome
  import opened PyStr
  import opened PyInt
  import opened Clock

  /** The start and increment of a time control, split at the first '+'. */
  function ParseTimeControl(tc: string): (r: Result<(int, int)>)
  {
    var plus := Find(tc, "+", 0);
    var start :- ParseInt(Prefix(tc, plus));
    var increment :- ParseInt(Suffix(tc, plus + 1));
    Ok((start, increment))
  }

  /**
   * The numbers of white and black moves: white's is the numeral before the
   * last '.'; black has moved as often unless no second `%clk` follows the
   * first one found from that '.' on.
   */
  function MoveCounts(game: string): (r: Result<(int, int)>)
    ensures r.Ok? ==> r.value.1 == r.value.0 || r.value.1 == r.value.0 - 1
  {
    var before := Prefix(game, RFind(game, "."));
    var white :- ParseInt(Suffix(before, RFind(before, " ") + 1));
    var whiteClock := Find(game, "%clk", RFind(game, "."));
    if Find(game, "%clk", whiteClock + 1) == -1 then Ok((white, white - 1))
    else Ok((white, white))
  }

  /** The text between the last "%clk" (and the space after it) and the last ']'. */
  function LastClockField(s: string): string {
    Slice(s, RFind(s, "%clk") + 5, RFind(s, "]"))
  }

  /** The text before the last "%clk", where the second-last reading is looked for. */
  function BeforeLastClock(game: string): string {
    Prefix(game, RFind(game, "%clk"))
  }

  /**
   * Both starting allotments plus one increment per move, minus the two
   * final clock readings, and never below 0. An untimed game and a game in
   * which black has not moved use no time.
   */
  function TimeUsed(tc: string, game: string): (r: Result<int>)
    ensures tc == "-" ==> r == Ok(0)
    ensures r.Ok? ==> r.value >= 0
  {
    if tc == "-" then Ok(0)
    else
      Tally(ParseTimeControl(tc), MoveCounts(game),
            ClockToSeconds(LastClockField(game)), ClockToSeconds(LastClockField(BeforeLastClock(game))))
  }

  /**
   * How `time_used` combines what it has read, in the order it reads it: a
   * failure is reported only when the source would reach it, so the clock
   * readings matter only once black has moved.
   */
  function Tally(control: Result<(int, int)>, moves: Result<(int, int)>, last: Result<int>, secondLast: Result<int>): (r: Result<int>)
    ensures r.Ok? ==> r.value >= 0
  {
    var (start, increment) :- control;
    var (white, black) :- moves;
    if black == 0 then Ok(0)
    else
      var budget := 2 * start + increment * (black + white);
      var l :- last;
      var s :- secondLast;
      var used := budget - (l + s);
      Ok(if used > 0 then used else 0)
  }

  /** A "start+increment" descriptor gives back both integers. */
  lemma TimeControlRoundTrip(start: int, increment: int)
    ensures ParseTimeControl(IntToStr(start) + "+" + IntToStr(increment)) == Ok((start, increment))
  {
    var a, b := IntToStr(start), IntToStr(increment);
    NumberLacks('+', start);
    FindSeparator(a, '+', b);
    assert a + "+" + b == a + ['+'] + b;
    IntRoundTrip(start);
    IntRoundTrip(increment);
  }

  /**
   * Without a '+', `find` gives -1 and the two slices become "all but the
   * last character" and "everything": "180" reads as start 18, increment 180.
   */
  lemma NoPlusMisreads()
    ensures ParseTimeControl("180") == Ok((18, 180))
  {
    var tc := "180";
    FindNone(tc, "+", 0);
    assert Prefix(tc, -1) == "18";
    assert Suffix(tc, 0) == tc;
    IntRoundTrip(18);
    IntRoundTrip(180);
    assert IntToStr(18) == "18" && IntToStr(180) == "180";
  }

  /**
   * After a comment on white's move, black's move is numbered `n...`; when
   * black moved last, the token before the last '.' is `n..`, which `int()`
   * rejects.
   */
  lemma ContinuationNumberRejected()
    ensures MoveCounts("1. e4 { [%clk 0:03:00] } 1... e5 { [%clk 0:03:00] } 1-0") == Err(NotAnInteger)
  {
    var game := "1. e4 { [%clk 0:03:00] } 1... e5 { [%clk 0:03:00] } 1-0";
    LastDotOfContinuation(game);
    var before := Prefix(game, 28);
    LastSpaceBeforeContinuation(game, before);
    assert ParseInt("1..") == Err(NotAnInteger);
  }

  /** The last '.' of the example is the third one of `1...`. */
  lemma LastDotOfContinuation(game: string)
    requires game == "1. e4 { [%clk 0:03:00] } 1... e5 { [%clk 0:03:00] } 1-0"
    ensures RFind(game, ".") == 28
  {
    assert game[28] == '.';
    assert game[28..29] == ".";
    assert forall j :: 29 <= j < |game| ==> game[j] != '.';
    assert '.' !in game[29..] by {
      forall j | 0 <= j < |game[29..]| ensures game[29..][j] != '.' {
        assert game[29..][j] == game[29 + j];
      }
    }
    RFindAt(game, ".", 28);
  }

  /** The text before the last '.' ends with the move number `1..`. */
  lemma LastSpaceBeforeContinuation(game: string, before: string)
    requires game == "1. e4 { [%clk 0:03:00] } 1... e5 { [%clk 0:03:00] } 1-0"
    requires before == Prefix(game, 28)
    ensures Suffix(before, RFind(before, " ") + 1) == "1.."
  {
    assert before == "1. e4 { [%clk 0:03:00] } 1..";
    assert before[24] == ' ' && before[24..25] == " ";
    assert before[25..] == "1..";
    RFindAt(before, " ", 24);
  }
}
