/**
 * The move-text layout `time_used` is written for:
 *
 *   1. e4 { [%clk 0:03:00] } e5 { [%clk 0:03:00] } 2. Nf3 { [%clk 0:02:58] } ... 1-0
 *
 * Each white move carries its move number, each move is followed by a clock
 * comment, and the result comes last. The lemmas here show what
 * `time_used` computes on such a text, independently of how it searches it.
 */
module MoveText {
  import opened Outcome
  import opened PyStr
  import opened PyInt
  import opened Clock
  import opened TimeUsage

  /** One half-move: its notation and the mover's remaining time after it. */
  datatype Ply = Ply(san: string, clock: Reading)

  /** A full move: white's ply and black's reply. */
  datatype Move = Move(white: Ply, black: Ply)

  /** Text that cannot be mistaken for a move-number period, a clock or a comment end. */
  predicate Plain(t: string) {
    '.' !in t && '%' !in t && ']' !in t
  }

  function Annotation(c: Reading): string {
    "{ [%clk " + ReadingText(c) + "] }"
  }

  /** White's ply of move `n`, with the move number in front. */
  function WhiteText(n: nat, p: Ply): string {
    NatToStr(n) + ". " + p.san + " " + Annotation(p.clock)
  }

  /** Black's ply, written without a move number. */
  function BlackText(p: Ply): string {
    p.san + " " + Annotation(p.clock)
  }

  function MoveText(n: nat, m: Move): string {
    WhiteText(n, m.white) + " " + BlackText(m.black)
  }

  /** The full moves 1, 2, ... separated by spaces. */
  function Render(ms: seq<Move>): string {
    if |ms| == 0 then ""
    else if |ms| == 1 then MoveText(1, ms[0])
    else Render(ms[..|ms| - 1]) + " " + MoveText(|ms|, ms[|ms| - 1])
  }

  /** The text in front of the next move number: empty, or the moves so far and a space. */
  function Head(ms: seq<Move>): string {
    if ms == [] then "" else Render(ms) + " "
  }

  /**
   * A whole move-text line: the full moves, possibly a last white ply that
   * black did not answer, then the result.
   */
  function Game(ms: seq<Move>, extra: Option<Ply>, result: string): string {
    match extra
    case None => Render(ms) + " " + result
    case Some(p) => Head(ms) + WhiteText(|ms| + 1, p) + " " + result
  }

  /** The plies of a game in the order they were played. */
  function Plies(ms: seq<Move>, extra: Option<Ply>): (ps: seq<Ply>)
    ensures |ps| == 2 * |ms| + (if extra.Some? then 1 else 0)
    decreases |ms|, extra.Some?
  {
    match extra
    case Some(p) => Plies(ms, None) + [p]
    case None => if ms == [] then [] else Plies(ms[..|ms| - 1], None) + [ms[|ms| - 1].white, ms[|ms| - 1].black]
  }

  /** Both allotments plus one increment per ply, minus the two final readings, and never below 0. */
  function Charged(start: int, increment: int, plies: int, last: int, secondLast: int): int {
    var used := 2 * start + increment * plies - (last + secondLast);
    if used > 0 then used else 0
  }

  /** The time a game's plies use under a clock with increment; none before black has moved. */
  function Expected(start: int, increment: int, ps: seq<Ply>): int
    requires |ps| >= 1
  {
    if |ps| == 1 then 0
    else Charged(start, increment, |ps|, Seconds(ps[|ps| - 1].clock), Seconds(ps[|ps| - 2].clock))
  }

  predicate PlainMoves(ms: seq<Move>) {
    forall i :: 0 <= i < |ms| ==> Plain(ms[i].white.san) && Plain(ms[i].black.san)
  }

  lemma ReadingIsPlain(c: Reading)
    ensures Plain(ReadingText(c)) && ' ' !in ReadingText(c)
  {
    NumberLacks('.', c.hours);
    NumberLacks('%', c.hours);
    NumberLacks(']', c.hours);
    NumberLacks(' ', c.hours);
    NumberLacks('.', c.minutes);
    NumberLacks('%', c.minutes);
    NumberLacks(']', c.minutes);
    NumberLacks(' ', c.minutes);
    NumberLacks('.', c.seconds);
    NumberLacks('%', c.seconds);
    NumberLacks(']', c.seconds);
    NumberLacks(' ', c.seconds);
  }

  lemma NumeralIsPlain(n: nat)
    ensures Plain(NatToStr(n)) && ' ' !in NatToStr(n)
  {
    NumberLacks('.', n);
    NumberLacks('%', n);
    NumberLacks(']', n);
    NumberLacks(' ', n);
  }

  // ---- The searches of `MoveCounts` on a text of the shape
  //      head num "." mid "%clk" tail

  /** The numeral before the last '.' is read as the white move count. */
  lemma WhiteCountAt(head: string, num: string, n: int, mid: string, tail: string)
    requires head == [] || head[|head| - 1] == ' '
    requires ' ' !in num && '.' !in num && ParseInt(num) == Ok(n)
    requires '.' !in mid && '.' !in tail
    ensures var g := head + num + "." + mid + "%clk" + tail;
      && RFind(g, ".") == |head| + |num|
      && var before := Prefix(g, |head| + |num|);
      ParseInt(Suffix(before, RFind(before, " ") + 1)) == Ok(n)
  {
    var g := head + num + "." + mid + "%clk" + tail;
    var k := |head| + |num|;
    assert g[k..k + 1] == ".";
    assert g[k + 1..] == mid + "%clk" + tail;
    RFindAt(g, ".", k);
    var before := Prefix(g, k);
    assert before == head + num;
    if head == [] {
      RFindNone(before, " ");
      assert Suffix(before, 0) == num;
    } else {
      assert before[|head| - 1..|head|] == " ";
      assert before[|head|..] == num;
      RFindAt(before, " ", |head| - 1);
      assert Suffix(before, |head|) == num;
    }
  }

  /** After the last '.', the first "%clk" is the one that follows `mid`. */
  lemma FirstClockAfter(x: string, mid: string, tail: string)
    requires '%' !in mid
    ensures Find(x + "." + mid + "%clk" + tail, "%clk", |x|) == |x| + 1 + |mid|
  {
    var g := x + "." + mid + "%clk" + tail;
    var k := |x| + 1 + |mid|;
    assert g[k..k + 4] == "%clk";
    assert g[|x|..k] == "." + mid;
    FindAt(g, "%clk", |x|, k);
  }

  /** No '%' after the first "%clk": the search for a second one fails. */
  lemma NoSecondClock(x: string, tail: string)
    requires '%' !in tail
    ensures Find(x + "%clk" + tail, "%clk", |x| + 1) == -1
  {
    var g := x + "%clk" + tail;
    assert g[|x| + 1..] == "clk" + tail;
    FindNone(g, "%clk", |x| + 1);
  }

  /** Another "%clk" after the first one: the search for a second one succeeds. */
  lemma SecondClock(x: string, t1: string, t2: string)
    ensures Find(x + "%clk" + (t1 + "%clk" + t2), "%clk", |x| + 1) != -1
  {
    var g := x + "%clk" + (t1 + "%clk" + t2);
    var k := |x| + 4 + |t1|;
    assert g[k..k + 4] == "%clk";
    assert OccursAt(g, "%clk", k);
  }

  /** How `MoveCounts` combines its three searches, for any text. */
  lemma CountsFrom(g: string, dot: int, white: int, clock: int)
    requires RFind(g, ".") == dot && Find(g, "%clk", dot) == clock
    requires var before := Prefix(g, dot); ParseInt(Suffix(before, RFind(before, " ") + 1)) == Ok(white)
    ensures MoveCounts(g) == Ok((white, if Find(g, "%clk", clock + 1) == -1 then white - 1 else white))
  {
  }

  /** A move number followed by a single clock comment: black has one move fewer. */
  lemma CountsOneClock(head: string, num: string, n: int, mid: string, tail: string)
    requires head == [] || head[|head| - 1] == ' '
    requires ' ' !in num && '.' !in num && ParseInt(num) == Ok(n)
    requires '.' !in mid && '%' !in mid && '.' !in tail && '%' !in tail
    ensures MoveCounts(head + num + "." + mid + "%clk" + tail) == Ok((n, n - 1))
  {
    var g := head + num + "." + mid + "%clk" + tail;
    WhiteCountAt(head, num, n, mid, tail);
    FirstClockAfter(head + num, mid, tail);
    NoSecondClock(head + num + "." + mid, tail);
    CountsFrom(g, |head| + |num|, n, |head + num + "." + mid|);
  }

  /** A move number followed by two clock comments: black has moved as often as white. */
  lemma CountsTwoClocks(head: string, num: string, n: int, mid: string, t1: string, t2: string)
    requires head == [] || head[|head| - 1] == ' '
    requires ' ' !in num && '.' !in num && ParseInt(num) == Ok(n)
    requires '.' !in mid && '%' !in mid && '.' !in t1 && '.' !in t2
    ensures MoveCounts(head + num + "." + mid + "%clk" + (t1 + "%clk" + t2)) == Ok((n, n))
  {
    var g := head + num + "." + mid + "%clk" + (t1 + "%clk" + t2);
    WhiteCountAt(head, num, n, mid, t1 + "%clk" + t2);
    FirstClockAfter(head + num, mid, t1 + "%clk" + t2);
    SecondClock(head + num + "." + mid, t1, t2);
    CountsFrom(g, |head| + |num|, n, |head + num + "." + mid|);
  }

  // ---- The slices of lines 50-52 on a text of the shape
  //      x "%clk " c "]" y "%clk " d "]" r

  /** The slice at chess_per_month.py:50 picks the text of the last clock comment; cutting at its "%clk" leaves what came before. */
  lemma LastClockAt(x: string, c: string, r: string)
    requires '%' !in c && '%' !in r && ']' !in r
    ensures var g := x + "%clk " + c + "]" + r;
      && LastClockField(g) == c
      && BeforeLastClock(g) == x
  {
    var g := x + "%clk " + c + "]" + r;
    var k := |x| + 5 + |c|;
    assert g[|x|..|x| + 4] == "%clk";
    assert g[|x| + 1..] == "clk " + c + "]" + r;
    RFindAt(g, "%clk", |x|);
    assert g[k..k + 1] == "]";
    assert g[k + 1..] == r;
    RFindAt(g, "]", k);
    assert g[|x| + 5..k] == c;
    assert g[..|x|] == x;
  }

  /** The two final clock comments are read, the last one first. */
  lemma LastTwoClocks(x: string, c: string, y: string, d: string, r: string)
    requires '%' !in c && '%' !in y && ']' !in y && '%' !in d && '%' !in r && ']' !in r
    ensures var g := (x + "%clk " + c + "]" + y) + "%clk " + d + "]" + r;
      && LastClockField(g) == d
      && LastClockField(BeforeLastClock(g)) == c
  {
    LastClockAt(x + "%clk " + c + "]" + y, d, r);
    LastClockAt(x, c, y);
  }

  // ---- The game text regrouped into the shapes above

  /** The last full move is written after the head of the ones before it. */
  lemma RenderLast(ms: seq<Move>)
    requires |ms| >= 1
    ensures Render(ms) == Head(ms[..|ms| - 1]) + MoveText(|ms|, ms[|ms| - 1])
  {
  }

  lemma HeadEndsInSpace(ms: seq<Move>)
    ensures Head(ms) == [] || Head(ms)[|Head(ms)| - 1] == ' '
  {
  }

  lemma LayoutCountsWhite(h: string, num: string, sw: string, tw: string, result: string)
    ensures h + (num + ". " + sw + " " + ("{ [%clk " + tw + "] }")) + " " + result
         == h + num + "." + (" " + sw + " { [") + "%clk" + (" " + tw + "] }" + " " + result)
  {
  }

  lemma LayoutCountsBlack(h: string, num: string, sw: string, tw: string, sb: string, tb: string, result: string)
    ensures h + (num + ". " + sw + " " + ("{ [%clk " + tw + "] }") + " " + (sb + " " + ("{ [%clk " + tb + "] }"))) + " " + result
         == h + num + "." + (" " + sw + " { [") + "%clk" + ((" " + tw + "] } " + sb + " { [") + "%clk" + (" " + tb + "] }" + " " + result))
  {
  }

  lemma LayoutClocksWhite(h: string, w: string, sb: string, tb: string, num: string, sw: string, tw: string, result: string)
    ensures (h + (w + " " + (sb + " " + ("{ [%clk " + tb + "] }"))) + " ") + (num + ". " + sw + " " + ("{ [%clk " + tw + "] }")) + " " + result
         == ((h + w + " " + sb + " { [") + "%clk " + tb + "]" + (" } " + num + ". " + sw + " { [")) + "%clk " + tw + "]" + (" }" + " " + result)
  {
  }

  lemma LayoutClocksBlack(h: string, num: string, sw: string, tw: string, sb: string, tb: string, result: string)
    ensures h + (num + ". " + sw + " " + ("{ [%clk " + tw + "] }") + " " + (sb + " " + ("{ [%clk " + tb + "] }"))) + " " + result
         == ((h + num + ". " + sw + " { [") + "%clk " + tw + "]" + (" } " + sb + " { [")) + "%clk " + tb + "]" + (" }" + " " + result)
  {
  }

  lemma NumeralReads(n: nat)
    ensures ParseInt(NatToStr(n)) == Ok(n)
  {
    IntRoundTrip(n);
  }

  // ---- What `time_used` reads from a game

  /** A game that ends on white's ply: white has moved once more than black. */
  lemma MovesEndingWhite(ms: seq<Move>, p: Ply, result: string)
    requires Plain(p.san) && Plain(result)
    ensures MoveCounts(Game(ms, Some(p), result)) == Ok((|ms| + 1, |ms|))
  {
    var n := |ms| + 1;
    var num, tw := NatToStr(n), ReadingText(p.clock);
    assert Game(ms, Some(p), result) == Head(ms) + (num + ". " + p.san + " " + ("{ [%clk " + tw + "] }")) + " " + result;
    LayoutCountsWhite(Head(ms), num, p.san, tw, result);
    HeadEndsInSpace(ms);
    NumeralIsPlain(n);
    NumeralReads(n);
    ReadingIsPlain(p.clock);
    CountsOneClock(Head(ms), num, n, " " + p.san + " { [", " " + tw + "] }" + " " + result);
  }

  /** A game that ends on black's ply: both have moved as often as there are full moves. */
  lemma MovesEndingBlack(ms: seq<Move>, result: string)
    requires |ms| >= 1 && Plain(ms[|ms| - 1].white.san) && Plain(ms[|ms| - 1].black.san) && Plain(result)
    ensures MoveCounts(Game(ms, None, result)) == Ok((|ms|, |ms|))
  {
    var n, m := |ms|, ms[|ms| - 1];
    var h := Head(ms[..n - 1]);
    var num, tw, tb := NatToStr(n), ReadingText(m.white.clock), ReadingText(m.black.clock);
    RenderLast(ms);
    assert Game(ms, None, result)
        == h + (num + ". " + m.white.san + " " + ("{ [%clk " + tw + "] }") + " " + (m.black.san + " " + ("{ [%clk " + tb + "] }"))) + " " + result;
    LayoutCountsBlack(h, num, m.white.san, tw, m.black.san, tb, result);
    HeadEndsInSpace(ms[..n - 1]);
    NumeralIsPlain(n);
    NumeralReads(n);
    ReadingIsPlain(m.white.clock);
    ReadingIsPlain(m.black.clock);
    CountsTwoClocks(h, num, n, " " + m.white.san + " { [", " " + tw + "] } " + m.black.san + " { [", " " + tb + "] }" + " " + result);
  }

  /** The final two clock readings of a text that ends on white's ply. */
  lemma ClocksAfterWhite(h: string, w: string, sb: string, tb: string, num: string, sw: string, tw: string, result: string)
    requires Plain(sb) && Plain(tb) && Plain(num) && Plain(sw) && Plain(tw) && Plain(result)
    ensures var g := (h + (w + " " + (sb + " " + ("{ [%clk " + tb + "] }"))) + " ") + (num + ". " + sw + " " + ("{ [%clk " + tw + "] }")) + " " + result;
      LastClockField(g) == tw && LastClockField(BeforeLastClock(g)) == tb
  {
    LayoutClocksWhite(h, w, sb, tb, num, sw, tw, result);
    LastTwoClocks(h + w + " " + sb + " { [", tb, " } " + num + ". " + sw + " { [", tw, " }" + " " + result);
  }

  /** The final two clock readings of a text that ends on black's ply. */
  lemma ClocksAfterBlack(h: string, num: string, sw: string, tw: string, sb: string, tb: string, result: string)
    requires Plain(sb) && Plain(tb) && Plain(num) && Plain(sw) && Plain(tw) && Plain(result)
    ensures var g := h + (num + ". " + sw + " " + ("{ [%clk " + tw + "] }") + " " + (sb + " " + ("{ [%clk " + tb + "] }"))) + " " + result;
      LastClockField(g) == tb && LastClockField(BeforeLastClock(g)) == tw
  {
    LayoutClocksBlack(h, num, sw, tw, sb, tb, result);
    LastTwoClocks(h + num + ". " + sw + " { [", tw, " } " + sb + " { [", tb, " }" + " " + result);
  }

  /** A game that ends on white's ply: the last clock is white's, the one before it black's. */
  lemma ClocksEndingWhite(ms: seq<Move>, p: Ply, result: string)
    requires |ms| >= 1 && Plain(ms[|ms| - 1].black.san) && Plain(p.san) && Plain(result)
    ensures var g := Game(ms, Some(p), result);
      && LastClockField(g) == ReadingText(p.clock)
      && LastClockField(BeforeLastClock(g)) == ReadingText(ms[|ms| - 1].black.clock)
  {
    var k, m := |ms|, ms[|ms| - 1];
    var h, w := Head(ms[..k - 1]), WhiteText(k, m.white);
    var num, tb, tw := NatToStr(k + 1), ReadingText(m.black.clock), ReadingText(p.clock);
    RenderLast(ms);
    assert Game(ms, Some(p), result)
        == (h + (w + " " + (m.black.san + " " + ("{ [%clk " + tb + "] }"))) + " ") + (num + ". " + p.san + " " + ("{ [%clk " + tw + "] }")) + " " + result;
    NumeralIsPlain(k + 1);
    ReadingIsPlain(m.black.clock);
    ReadingIsPlain(p.clock);
    ClocksAfterWhite(h, w, m.black.san, tb, num, p.san, tw, result);
  }

  /** A game that ends on black's ply: the last clock is black's, the one before it white's. */
  lemma ClocksEndingBlack(ms: seq<Move>, result: string)
    requires |ms| >= 1 && Plain(ms[|ms| - 1].white.san) && Plain(ms[|ms| - 1].black.san) && Plain(result)
    ensures var g := Game(ms, None, result);
      && LastClockField(g) == ReadingText(ms[|ms| - 1].black.clock)
      && LastClockField(BeforeLastClock(g)) == ReadingText(ms[|ms| - 1].white.clock)
  {
    var n, m := |ms|, ms[|ms| - 1];
    var h := Head(ms[..n - 1]);
    var num, tw, tb := NatToStr(n), ReadingText(m.white.clock), ReadingText(m.black.clock);
    RenderLast(ms);
    assert Game(ms, None, result)
        == h + (num + ". " + m.white.san + " " + ("{ [%clk " + tw + "] }") + " " + (m.black.san + " " + ("{ [%clk " + tb + "] }"))) + " " + result;
    NumeralIsPlain(n);
    ReadingIsPlain(m.white.clock);
    ReadingIsPlain(m.black.clock);
    ClocksAfterBlack(h, num, m.white.san, tw, m.black.san, tb, result);
  }

  /** The expected time of a game that ends on white's ply, after at least one full move. */
  lemma ExpectedEndingWhite(start: int, increment: int, ms: seq<Move>, p: Ply)
    requires |ms| >= 1
    ensures Expected(start, increment, Plies(ms, Some(p)))
         == Charged(start, increment, 2 * |ms| + 1, Seconds(p.clock), Seconds(ms[|ms| - 1].black.clock))
  {
    var ps, m := Plies(ms, Some(p)), ms[|ms| - 1];
    assert Plies(ms, None) == Plies(ms[..|ms| - 1], None) + [m.white, m.black];
    assert ps == Plies(ms[..|ms| - 1], None) + [m.white, m.black] + [p];
    assert ps[|ps| - 1] == p && ps[|ps| - 2] == m.black;
    assert Expected(start, increment, ps) == Charged(start, increment, |ps|, Seconds(p.clock), Seconds(m.black.clock));
  }

  /** The expected time of a game that ends on black's ply. */
  lemma ExpectedEndingBlack(start: int, increment: int, ms: seq<Move>)
    requires |ms| >= 1
    ensures Expected(start, increment, Plies(ms, None))
         == Charged(start, increment, 2 * |ms|, Seconds(ms[|ms| - 1].black.clock), Seconds(ms[|ms| - 1].white.clock))
  {
    var ps, m := Plies(ms, None), ms[|ms| - 1];
    assert ps == Plies(ms[..|ms| - 1], None) + [m.white, m.black];
    assert ps[|ps| - 1] == m.black && ps[|ps| - 2] == m.white;
    assert Expected(start, increment, ps) == Charged(start, increment, |ps|, Seconds(m.black.clock), Seconds(m.white.clock));
  }

  /** How `time_used` combines the pieces it reads, for any text. */
  lemma TimeUsedFrom(tc: string, g: string, start: int, increment: int, white: int, black: int, plies: int, last: int, secondLast: int)
    requires plies == black + white
    requires tc != "-" && ParseTimeControl(tc) == Ok((start, increment))
    requires MoveCounts(g) == Ok((white, black)) && black != 0
    requires ClockToSeconds(LastClockField(g)) == Ok(last)
    requires ClockToSeconds(LastClockField(BeforeLastClock(g))) == Ok(secondLast)
    ensures TimeUsed(tc, g) == Ok(Charged(start, increment, plies, last, secondLast))
  {
    TallyOfReadings(start, increment, white, black, plies, last, secondLast);
  }

  lemma TallyOfReadings(start: int, increment: int, white: int, black: int, plies: int, last: int, secondLast: int)
    requires black != 0 && plies == black + white
    ensures Tally(Ok((start, increment)), Ok((white, black)), Ok(last), Ok(secondLast))
         == Ok(Charged(start, increment, plies, last, secondLast))
  {
  }

  /** A time control written "start+increment" is read back and is not "-". */
  lemma ControlText(start: int, increment: int)
    ensures var tc := IntToStr(start) + "+" + IntToStr(increment);
      tc != "-" && ParseTimeControl(tc) == Ok((start, increment))
  {
    assert |IntToStr(start) + "+" + IntToStr(increment)| >= 3;
    TimeControlRoundTrip(start, increment);
  }

  /** A game of one ply uses no time. */
  lemma TimeUsedOnePly(start: int, increment: int, p: Ply, result: string)
    requires Plain(p.san) && Plain(result)
    ensures TimeUsed(IntToStr(start) + "+" + IntToStr(increment), Game([], Some(p), result)) == Ok(0)
  {
    ControlText(start, increment);
    MovesEndingWhite([], p, result);
  }

  /** What `time_used` reads from a game ending on white's ply, after at least one full move. */
  lemma ReadingsEndingWhite(ms: seq<Move>, p: Ply, result: string)
    requires |ms| >= 1 && Plain(ms[|ms| - 1].black.san) && Plain(p.san) && Plain(result)
    ensures var g := Game(ms, Some(p), result);
      && MoveCounts(g) == Ok((|ms| + 1, |ms|))
      && ClockToSeconds(LastClockField(g)) == Ok(Seconds(p.clock) as int)
      && ClockToSeconds(LastClockField(BeforeLastClock(g))) == Ok(Seconds(ms[|ms| - 1].black.clock) as int)
  {
    MovesEndingWhite(ms, p, result);
    ClocksEndingWhite(ms, p, result);
    ReadingRoundTrip(p.clock);
    ReadingRoundTrip(ms[|ms| - 1].black.clock);
  }

  /** What `time_used` reads from a game ending on black's ply. */
  lemma ReadingsEndingBlack(ms: seq<Move>, result: string)
    requires |ms| >= 1 && Plain(ms[|ms| - 1].white.san) && Plain(ms[|ms| - 1].black.san) && Plain(result)
    ensures var g := Game(ms, None, result);
      && MoveCounts(g) == Ok((|ms|, |ms|))
      && ClockToSeconds(LastClockField(g)) == Ok(Seconds(ms[|ms| - 1].black.clock) as int)
      && ClockToSeconds(LastClockField(BeforeLastClock(g))) == Ok(Seconds(ms[|ms| - 1].white.clock) as int)
  {
    MovesEndingBlack(ms, result);
    ClocksEndingBlack(ms, result);
    ReadingRoundTrip(ms[|ms| - 1].black.clock);
    ReadingRoundTrip(ms[|ms| - 1].white.clock);
  }

  /** A game ending on white's ply, after at least one full move. */
  lemma TimeUsedEndingWhite(start: int, increment: int, ms: seq<Move>, p: Ply, result: string)
    requires |ms| >= 1 && Plain(ms[|ms| - 1].black.san) && Plain(p.san) && Plain(result)
    ensures TimeUsed(IntToStr(start) + "+" + IntToStr(increment), Game(ms, Some(p), result))
         == Ok(Charged(start, increment, 2 * |ms| + 1, Seconds(p.clock), Seconds(ms[|ms| - 1].black.clock)))
  {
    ControlText(start, increment);
    ReadingsEndingWhite(ms, p, result);
    TimeUsedFrom(IntToStr(start) + "+" + IntToStr(increment), Game(ms, Some(p), result), start, increment,
                 |ms| + 1, |ms|, 2 * |ms| + 1, Seconds(p.clock), Seconds(ms[|ms| - 1].black.clock));
  }

  /** A game ending on black's ply. */
  lemma TimeUsedEndingBlack(start: int, increment: int, ms: seq<Move>, result: string)
    requires |ms| >= 1 && Plain(ms[|ms| - 1].white.san) && Plain(ms[|ms| - 1].black.san) && Plain(result)
    ensures TimeUsed(IntToStr(start) + "+" + IntToStr(increment), Game(ms, None, result))
         == Ok(Charged(start, increment, 2 * |ms|, Seconds(ms[|ms| - 1].black.clock), Seconds(ms[|ms| - 1].white.clock)))
  {
    ControlText(start, increment);
    ReadingsEndingBlack(ms, result);
    TimeUsedFrom(IntToStr(start) + "+" + IntToStr(increment), Game(ms, None, result), start, increment,
                 |ms|, |ms|, 2 * |ms|, Seconds(ms[|ms| - 1].black.clock), Seconds(ms[|ms| - 1].white.clock));
  }

  /**
   * On a well-formed timed game, `time_used` is both players' allotments
   * plus one increment per ply, minus the two final clock readings (0 when
   * black has not moved).
   */
  lemma TimeUsedOfGame(start: int, increment: int, ms: seq<Move>, extra: Option<Ply>, result: string)
    requires |ms| >= 1 || extra.Some?
    requires PlainMoves(ms) && (extra.Some? ==> Plain(extra.value.san)) && Plain(result)
    ensures TimeUsed(IntToStr(start) + "+" + IntToStr(increment), Game(ms, extra, result))
         == Ok(Expected(start, increment, Plies(ms, extra)))
  {
    if ms == [] {
      TimeUsedOnePly(start, increment, extra.value, result);
    } else {
      assert Plain(ms[|ms| - 1].white.san) && Plain(ms[|ms| - 1].black.san);
      if extra.Some? {
        TimeUsedEndingWhite(start, increment, ms, extra.value, result);
        ExpectedEndingWhite(start, increment, ms, extra.value);
      } else {
        TimeUsedEndingBlack(start, increment, ms, result);
        ExpectedEndingBlack(start, increment, ms);
      }
    }
  }
}
