# chess_per_month in Dafny

`chess_per_month.py` reads a lichess player's game export (PGN, one line at
a time) and reports how much time the player spent on chess, in total and
per month. This project models what the script computes and proves
properties of it:

- **clock readings** (`clockToSeconds`): `h:mm:ss` to seconds — module `Clock`;
- **time per game** (`time_used`): both players' time, from the time control
  `"start+increment"` and the last two `%clk` annotations of the move
  text — module `TimeUsage`, with module `MoveText` showing what it computes
  on a well-laid-out move text;
- **month labels** (`nextmonth`, `prevmonth`): stepping `"YYYY.MM"` — module `Months`;
- **the scan** (the `for line in r.iter_lines()` loop and the final total):
  tag lines set the current time control and date; each game line is
  charged to its month's bucket. When a game's month differs from the
  newest bucket's, the script appends up to two empty gap months, then
  adds the newest bucket *at that point* to the running total (line 113),
  then appends the game's month. When a gap month was appended, the
  bucket added is that gap month's 0, and the time of the month being
  left never reaches the total (see Findings). At the end the newest
  bucket joins the total. Module `Series` holds the state and one step,
  as functions, in the script's order (`AsWritten`) and in the evidently
  intended one (`Intended`). Module `Scanner` holds the line-level
  semantics, the class `GameScanner` (which updates the loop's variables
  in place, in the script's order) and the loop `TotalTimeOf`, proved to
  compute the script's `TotalTime`.

The Python operations the script relies on are written out with Python's
rules: slicing with negative and clamped bounds, `find`, `rfind`, `split`
(module `PyStr`), and `int()`, `str()` and `'%02d' %` (module `PyInt`).
Python exceptions (`ValueError` from `int()`, `IndexError` from `h[1]` or `h[2]` of a
clock with fewer than three fields, or from `y[-1]`, `NameError` for a time control read before any TimeControl tag,
`TypeError` when stepping the month of a game read before any UTCDate tag)
are values `Err(...)` of `Outcome.Result`; the first one ends the scan, as
it ends the script.

Times are whole seconds. The script divides each game's time by 3600 and
adds floats; here the hours are the seconds shown in another unit.

## Model

| member | source | states |
|---|---|---|
| PyStr.SliceConcat | chess_per_month.py:36-37 | `s[i:j] + s[j:k] == s[i:k]` whenever the bounds, after negative ones are counted from the end and all are clamped, are in order |
| PyStr.SliceFromEnd | chess_per_month.py:94-96 | `s[i:-k]` is the text from `i` up to `k` characters before the end, `len(s) - k - i` characters long |
| PyStr.Find | chess_per_month.py:41 | `s.find(sub, start)` is -1 or an occurrence at or after the start (counted from the end when negative), with no occurrence before it |
| PyStr.RFind | chess_per_month.py:38-39 | `s.rfind(sub)` is -1 or an occurrence with no later occurrence |
| PyStr.JoinSplit | chess_per_month.py:25 | joining the pieces of `s.split(sep)` with `sep` gives back `s` |
| PyStr.SplitField | chess_per_month.py:25 | the text before the first separator is the first field, and the rest is split on its own |
| PyInt.IntRoundTrip | chess_per_month.py:26 | `int(str(i)) == i` for every integer |
| PyInt.Pad2RoundTrip | chess_per_month.py:61 | `int('%02d' % i) == i` for every integer |
| Clock.ReadingRoundTrip | chess_per_month.py:24-26 | a reading written `h:mm:ss` converts to `3600*h + 60*m + s` |
| Clock.OneHourTwoMinutesThreeSeconds | chess_per_month.py:24-26 | `"1:02:03"` is 3723 seconds |
| Clock.TooFewFields | chess_per_month.py:25-26 | one or two fields is an IndexError, not a value |
| TimeUsage.TimeUsed | chess_per_month.py:33-53 | the untimed control `"-"` uses 0 seconds for every move text; any result is non-negative |
| TimeUsage.MoveCounts | chess_per_month.py:38-47 | black's move count is white's or one less |
| TimeUsage.Tally | chess_per_month.py:46-53 | never negative; its value, 0 before black's first move and otherwise the allotments and increments less the two last readings, is fixed by `MoveText.TimeUsedOfGame` |
| TimeUsage.TimeControlRoundTrip | chess_per_month.py:36-37 | `"start+increment"` reads back as exactly that start and increment |
| TimeUsage.NoPlusMisreads | chess_per_month.py:36-37 | a control without '+' is not rejected: `"180"` reads as start 18, increment 180 |
| TimeUsage.ContinuationNumberRejected | chess_per_month.py:38-39 | on `1. e4 {clk} 1... e5 {clk} 1-0`, where black moved last after a comment, the token before the last '.' is `1..` and `int()` raises ValueError |
| MoveText.CountsOneClock | chess_per_month.py:38-42 | with one `%clk` after the last move number `n`, white made `n` moves and black `n - 1` |
| MoveText.CountsTwoClocks | chess_per_month.py:38-44 | with two `%clk` after the last move number `n`, both made `n` moves |
| MoveText.LastTwoClocks | chess_per_month.py:50-52 | the two clock fields read are those of the last and the second-last annotation |
| MoveText.TimeUsedOnePly | chess_per_month.py:46-47 | a game in which only white has moved uses 0 seconds |
| MoveText.TimeUsedOfGame | chess_per_month.py:33-53 | on any game laid out as `n. move {clk} move {clk} ... result`, `time_used` equals the independently defined charge of its plies: both allotments plus one increment per ply minus the two final readings, at least 0, and 0 before black's first move |
| Months.NextMonthOfLabel | chess_per_month.py:56-61 | the month after December is January of the next year; otherwise the year stays and the month grows by one |
| Months.PrevMonthOfLabel | chess_per_month.py:63-67 | the month before January is December of the previous year; otherwise the month drops by one |
| Months.NextMonthIndex | chess_per_month.py:56-61 | for years 1000-9999, `nextmonth` moves exactly one month forward |
| Months.PrevMonthIndex | chess_per_month.py:63-67 | for years 1000-9999, `prevmonth` moves exactly one month back |
| Months.PrevOfNext | chess_per_month.py:56-67 | `prevmonth(nextmonth(d)) == d` for every label of years 1000-9999 except `"9999.12"`, whose next month `"10000.01"` `prevmonth` cannot read back (see `Months.PastYear9999`) |
| Months.NextOfPrev | chess_per_month.py:56-67 | `nextmonth(prevmonth(d)) == d` for every label of years 1000-9999 except `"1000.01"`, whose previous month `"999.12"` `nextmonth` misreads (its fields are fixed-width) |
| Months.LabelOfInjective | chess_per_month.py:103 | distinct months have distinct labels, so the script's label comparison is month comparison |
| Months.PastYear9999 | chess_per_month.py:56-67 | after `"9999.12"` comes `"10000.01"`, and `prevmonth` of that fails: the fields are fixed-width |
| Series.Fillers | chess_per_month.py:106-111 | at most two gap months; none exactly when the game's month is the one before the newest bucket |
| Series.FillersOfLabels | chess_per_month.py:106-111 | for labels of months `j < k`: no filler for adjacent months, the month between for a gap of one, and only the two edge months of a longer gap |
| Series.FirstBucket | chess_per_month.py:100-102 | the first game opens exactly one bucket, labelled with its date, holding 0 |
| Series.OpenMonth | chess_per_month.py:103-116 | the intended month change: the bucket being left joins the total before the fillers go in; between one and three buckets holding 0 are appended, earlier entries are unchanged, the series ends with the game's month, the adjacent month gets no filler, and no time is lost |
| Series.OpenedShape | chess_per_month.py:106-116 | appending the fillers and the new month with no time, and adding the bucket being left to the total, keeps one time per label and no negative time, keeps earlier entries and loses nothing |
| Series.OpenMonthAsWritten | chess_per_month.py:103-116 | the month change in the script's order (fillers, then `tot_time += y[-1]`, then the game's month): it fails exactly when `OpenMonth` does, with the same error, and builds the same labels and buckets; the total takes in the bucket being left only when no filler was appended, and otherwise that bucket's time is lost |
| Series.AsWrittenOneFiller | chess_per_month.py:106-113 | with exactly one filler the script's total does not move |
| Series.LosesWhenFilled | chess_per_month.py:106-113 | from one bucket holding `s > 0` seconds and any one-filler gap, the script's order appends the filler and the game's month and leaves the total at 0, losing `s`; the intended order builds the same buckets with total `s` |
| Series.AsWrittenLosesMonth | chess_per_month.py:106-113 | for real month labels: a game two months older than the only bucket, holding `s > 0` seconds, loses those seconds in the script's order; the intended order keeps them |
| Series.Bump | chess_per_month.py:118 | the game's time is added to the newest bucket and nowhere else; the current time control and date are unchanged |
| Series.GameTime | chess_per_month.py:118 | `time_used(current_time_header, current_game)`: a NameError when no TimeControl tag (line 94) was read yet; the untimed control uses 0 seconds; times are never negative |
| Series.Bucket | chess_per_month.py:100-116 | in either order, the bucket a game is charged to ends the series with the game's month and keeps earlier entries and the shape; the first game and a game of the newest month never fail |
| Series.Record | chess_per_month.py:100-118 | charging one game keeps the shape, ends the series with the game's month and keeps earlier entries and the current time control and date; it succeeds only when the game's time was read, and then adds exactly that time to the sum of the buckets; the time lost never shrinks, and stays the same in the intended order |
| Series.RecordCharges | chess_per_month.py:103-118 | a game that opens a new month leaves the earlier buckets as they were, appends the fillers `Fillers` chooses holding 0, and then the game's month holding exactly the game's time |
| Series.BucketSum | chess_per_month.py:100-116 | finding or opening a game's bucket adds no time: the new buckets hold 0 |
| Series.BucketLost | chess_per_month.py:100-116 | finding or opening a bucket never shrinks the time lost, and in the intended order loses none |
| Series.RecordOrders | chess_per_month.py:100-118 | the two orders charge a game alike: they succeed together, fail with the same error, and reach the same labels and buckets |
| Series.OpenOrders | chess_per_month.py:106-116 | the two orders of the month change succeed together, fail with the same error, and differ only in the total |
| Series.BucketKeepsTime | chess_per_month.py:100-116 | when the game's month is the newest bucket's or the one just before it (no filler), finding or opening its bucket loses no time, in the script's order too |
| Series.RecordKeepsTime | chess_per_month.py:100-118 | likewise for charging the game: with no filler, no time is lost in either order |
| Series.RecordSameMonth | chess_per_month.py:103 | a game of the newest month only increases `y[-1]` by its time |
| Series.RecordFirstGame | chess_per_month.py:100-102 | the first game creates exactly one bucket, holding its time |
| Series.Finish | chess_per_month.py:121 | an export with no game is an IndexError; otherwise the reported total, the running total plus the newest bucket, lies between 0 and the sum of every bucket |
| Scanner.Tags | chess_per_month.py:93-96 | tags change only the current time control and date |
| Scanner.ScanLine | chess_per_month.py:92-118 | one line keeps the shape, never shrinks the time lost and, in the intended order, loses none; a tag or blank line leaves `x`, `y` and the total alone; a game line ends `x` with the current date and keeps earlier entries; the current time control and date after the line are the ones its TimeControl and UTCDate tags set, and otherwise the ones before it |
| Scanner.Scan | chess_per_month.py:90-118 | after any lines the series has its shape, and in the intended order its total holds exactly the closed buckets |
| Scanner.TotalTime | chess_per_month.py:90-121 | the reported total lies between 0 and the sum of all buckets, and in the intended order it is the whole sum; it is the time of every game read (`Played`) less the time lost, and in the intended order exactly `Played`; it fails at the end exactly when no bucket was opened |
| Scanner.ScanErrorSticks | chess_per_month.py:90-121 | after an exception, later lines change nothing |
| Scanner.MonthsOnlyGrow | chess_per_month.py:100-116 | months once listed stay listed in the same order: `x` only grows at its end |
| Scanner.LineOrders | chess_per_month.py:92-118 | one line read in the two orders, from states differing only in their totals, succeeds together, fails alike and leaves states differing only in their totals |
| Scanner.OrdersAgree | chess_per_month.py:90-118 | on any lines, the script's order and the intended one fail together with the same exception, and otherwise reach the same months and buckets |
| Scanner.TotalsAgree | chess_per_month.py:90-121 | the script reports a total exactly when the intended reading does, fails with the same error, and reports the intended total less the time lost, never more |
| Scanner.ScanFollowsTags | chess_per_month.py:90-118 | after any lines, the current time control is the value of the latest TimeControl tag, the current date is the month of the latest UTCDate tag, and the newest bucket is the month under which the latest game was read (none before the first game) |
| Scanner.GameUnderLatestControl | chess_per_month.py:92-118 | a game line is timed under the latest TimeControl tag read before it, however many game lines and other tags came between, and charged to the state the earlier lines left |
| Scanner.LineCharges | chess_per_month.py:92-118 | one line adds to the buckets the time of its game, timed under the current control, and nothing for a tag or blank line |
| Scanner.ScanSumsGames | chess_per_month.py:90-118 | after any lines, in either order, the buckets sum to the time of every game read, each timed under the latest TimeControl tag before it (`Played`) |
| Scanner.LineKeepsTime | chess_per_month.py:92-118 | a line that needs no filler month (a tag, the first game, or a game of the newest month or the one before it) loses no time in the script's order |
| Scanner.NoSkippedMonthLosesNothing | chess_per_month.py:90-118 | on an export whose games never skip a month, the script's running total holds exactly the closed buckets after every line |
| Scanner.NoSkippedMonthReportsAll | chess_per_month.py:90-121 | on an export whose games never skip a month, the script's result equals the intended one, and the reported total is the sum of every bucket |
| Scanner.TimeControlTag | chess_per_month.py:93-94 | `[TimeControl "v"]` sets the current time control to `v` and nothing else |
| Scanner.DateTag | chess_per_month.py:95-96 | `[UTCDate "YYYY.MM.DD"]` sets the current date to `"YYYY.MM"` and nothing else |
| Scanner.GameLine | chess_per_month.py:97-99 | a game line is charged under the current tags |
| Scanner.TagLines | chess_per_month.py:93-96 | a TimeControl tag then a UTCDate tag set the control and the month, and nothing else |
| Scanner.OneGameScan | chess_per_month.py:97-102 | the first game after the tags opens one bucket holding its time, not yet in the total |
| Scanner.OneGameExport | chess_per_month.py:90-121 | an export of one TimeControl tag, one UTCDate tag and one game builds a single bucket holding that game's time, and reports that time, in either order |
| Scanner.ScriptOneGame | chess_per_month.py:90-121 | end to end with the script's own timer: a one-game export with control `"a+b"` reports the time the game's clocks show was used (`MoveText.Expected`) |
| Scanner.SecondDate | chess_per_month.py:95-96 | a UTCDate tag after the first game moves the current month and opens no bucket |
| Scanner.TwoMonthExport | chess_per_month.py:90-118 | a second game after a new UTCDate tag is charged to the one-bucket series the first game left |
| Scanner.SkippedMonthLosesTime | chess_per_month.py:103-121 | games of month `a` using `s > 0` seconds, then games of month `c` using `t` with one gap month between: the script reports `t`, the intended order `s + t` |
| Scanner.GameScanner.constructor | chess_per_month.py:80-87 | the loop's variables start empty: no tags, no months, total 0 |
| Scanner.GameScanner.Feed | chess_per_month.py:91-118 | one pass of the loop updates the variables in place to exactly the state `ScanLine` gives in the script's order, or fails with its error |
| Scanner.GameScanner.ReadTags | chess_per_month.py:93-96 | the two tag tests update the state as `Tags` does |
| Scanner.GameScanner.AddGame | chess_per_month.py:97-118 | a game line updates the state as `Record` does in the script's order, or fails with its error |
| Scanner.GameScanner.FindBucket | chess_per_month.py:100-116 | finding or opening the game's bucket in place gives the state `Bucket` gives in the script's order |
| Scanner.GameScanner.OpenBucket | chess_per_month.py:103-116 | a month change in place, in the script's order (fillers, then `tot_time += y[-1]`, then the game's month), gives the state `OpenMonthAsWritten` gives, or its error |
| Scanner.GameScanner.Close | chess_per_month.py:121 | the final total is what `Finish` gives |
| Scanner.TotalTimeOf | chess_per_month.py:90-121 | the loop over all lines, then the final total, computes `TotalTime` in the script's order, exceptions included |

## Left out

- Command-line arguments, usage message and `exit()` (lines 7-18): process plumbing.
- The HTTP requests for the game count and the game export (lines 70, 77, 90) and the UTF-8 decoding (line 91): the input is a given sequence of already decoded lines.
- The `tqdm` progress bar (lines 71, 119) and the prints (lines 12, 58, 122): output only.
- The date conversion and all plotting (lines 125 on): rendering through a foreign library.
- Floating-point hours (line 118): times are exact whole seconds; the division by 3600 only changes the unit shown.
- `int()` accepts, besides ASCII, Unicode whitespace and digits and underscores between digits; the model accepts ASCII whitespace, an optional sign and ASCII digits only, which is everything lichess writes.
- A time control without '+' is accepted and mis-read (`TimeUsage.NoPlusMisreads`); the model follows the code, which does not reject it.
- MoveText.TimeUsedOfGame: covers move texts laid out as `n. move {clk} move {clk} ... result` with no `...` continuation numbers and moves free of '.', '%' and ']'; `TimeUsage.TimeUsed` itself is defined on every text. On the `n... move` layout that follows a comment after white's move, the script reads `int("n..")` at line 39 whenever black moved last, and `TimeUsage.MoveCounts` gives the same ValueError (`NotAnInteger`, shown by `TimeUsage.ContinuationNumberRejected`).
- Series.Fillers: at most two filler months are inserted whatever the gap; this is the script's own behaviour, modelled as written, not a limit of the model.
- The state after an exception is not specified beyond the error: the script stops there, and `Scanner.ScanErrorSticks` shows later lines are not read.
- The scan is stated for any timer that never returns a negative time; the script's timer is `Scanner.ScriptTimer`, which is `Series.GameTime`, i.e. `time_used` under the current TimeControl tag, and `Scanner.ScriptOneGame` runs the scan with it.
- The class `Scanner.GameScanner` and the loop `Scanner.TotalTimeOf` follow the script's order only; the intended order exists as functions (`Series.OpenMonth`, the `Intended` order of `Scanner.Scan`) against which the script is compared.
- Scanner.GameScanner.OpenBucket: appends all fillers at once, computed by `Series.Fillers`, rather than one `append` call at a time.
- `current_game` (lines 82, 99) is only an alias of the line and is not kept as a variable.

## Findings

| source | as written | input that shows it | evidently intended | confidence | as-written member | corrected member |
|---|---|---|---|---|---|---|
| chess_per_month.py:113 | `tot_time += y[-1]` runs after the gap fillers were appended, so when a filler was appended it adds that filler's 0 and the time of the month being left never reaches the total | control `180+0`; a UTCDate tag of `2020.03` and a game using `s > 0` seconds; then a UTCDate tag of `2020.01` and a game using `t` seconds: one filler `2020.02` is appended and the script reports `t` | add the bucket being left to the total before appending the fillers, so the reported total is the sum of all buckets, `s + t` here | not executed | Series.OpenMonthAsWritten (shown by Scanner.SkippedMonthLosesTime and Series.AsWrittenLosesMonth; Scanner.NoSkippedMonthReportsAll shows the script is right when no month is skipped) | Series.OpenMonth (the `Intended` order; Scanner.TotalsAgree relates the two totals) |
