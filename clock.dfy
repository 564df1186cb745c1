/**
 * `clockToSeconds`: the remaining time of a `%clk h:mm:ss` annotation,
 * in seconds.
 */
module Clock {
  import opened Outcome
  import opened PyStr
  import opened PyInt

  /**
   * Splits on ':' and reads the first three fields as hours, minutes and
   * seconds, left to right as Python evaluates them; fields after the third
   * are ignored.
   */
  function ClockToSeconds(clock: string): Result<int> {
    var h := Split(clock, ':');
    var hours :- ParseInt(h[0]);
    if |h| < 2 then Err(MissingField)
    else
      var minutes :- ParseInt(h[1]);
      if |h| < 3 then Err(MissingField)
      else
        var seconds :- ParseInt(h[2]);
        Ok(3600 * hours + 60 * minutes + seconds)
  }

  /** A remaining-time reading as the annotation shows it. */
  datatype Reading = Reading(hours: nat, minutes: nat, seconds: nat)

  /** The text lichess writes for a reading: hours unpadded, minutes and seconds two digits. */
  function ReadingText(c: Reading): string {
    IntToStr(c.hours) + ":" + Pad2(c.minutes) + ":" + Pad2(c.seconds)
  }

  function Seconds(c: Reading): nat {
    3600 * c.hours + 60 * c.minutes + c.seconds
  }

  /** Three colon-free fields joined by ':' split back into those fields. */
  lemma SplitThree(a: string, b: string, d: string)
    requires ':' !in a && ':' !in b && ':' !in d
    ensures Split(a + ":" + b + ":" + d, ':') == [a, b, d]
  {
    assert a + ":" + b + ":" + d == a + [':'] + (b + [':'] + d);
    SplitField(a, ':', b + [':'] + d);
    SplitField(b, ':', d);
    SplitWhole(d, ':');
  }

  /** A clock text whose three fields read as `h`, `m` and `s` is `3600*h + 60*m + s` seconds. */
  lemma FieldsToSeconds(clock: string, a: string, b: string, d: string, h: int, m: int, s: int)
    requires Split(clock, ':') == [a, b, d]
    requires ParseInt(a) == Ok(h) && ParseInt(b) == Ok(m) && ParseInt(d) == Ok(s)
    ensures ClockToSeconds(clock) == Ok(3600 * h + 60 * m + s)
  {
  }

  /** Three colon-free fields that read as `h`, `m` and `s`, joined by ':', are `3600*h + 60*m + s` seconds. */
  lemma JoinedFieldsToSeconds(a: string, b: string, d: string, h: int, m: int, s: int)
    requires ':' !in a && ':' !in b && ':' !in d
    requires ParseInt(a) == Ok(h) && ParseInt(b) == Ok(m) && ParseInt(d) == Ok(s)
    ensures ClockToSeconds(a + ":" + b + ":" + d) == Ok(3600 * h + 60 * m + s)
  {
    SplitThree(a, b, d);
    FieldsToSeconds(a + ":" + b + ":" + d, a, b, d, h, m, s);
  }

  /** The three fields of a reading's text hold no ':' and read back as its numbers. */
  lemma ReadingFields(c: Reading)
    ensures ':' !in IntToStr(c.hours) && ParseInt(IntToStr(c.hours)) == Ok(c.hours as int)
    ensures ':' !in Pad2(c.minutes) && ParseInt(Pad2(c.minutes)) == Ok(c.minutes as int)
    ensures ':' !in Pad2(c.seconds) && ParseInt(Pad2(c.seconds)) == Ok(c.seconds as int)
  {
    NumberLacks(':', c.hours);
    NumberLacks(':', c.minutes);
    NumberLacks(':', c.seconds);
    IntRoundTrip(c.hours);
    Pad2RoundTrip(c.minutes);
    Pad2RoundTrip(c.seconds);
  }

  /** Reading back the text of a reading gives `3600*h + 60*m + s` seconds. */
  lemma ReadingRoundTrip(c: Reading)
    ensures ClockToSeconds(ReadingText(c)) == Ok(Seconds(c))
  {
    ReadingFields(c);
    JoinedFieldsToSeconds(IntToStr(c.hours), Pad2(c.minutes), Pad2(c.seconds), c.hours, c.minutes, c.seconds);
  }

  /** "1:02:03" is 3723 seconds. */
  lemma OneHourTwoMinutesThreeSeconds()
    ensures ClockToSeconds("1:02:03") == Ok(3723)
  {
    ReadingRoundTrip(Reading(1, 2, 3));
    assert ReadingText(Reading(1, 2, 3)) == "1:02:03";
  }

  /** Fewer than three colon-separated fields is an IndexError. */
  lemma TooFewFields(a: string, b: string)
    requires ':' !in a && ':' !in b
    requires ParseInt(a).Ok? && ParseInt(b).Ok?
    ensures ClockToSeconds(a) == Err(MissingField)
    ensures ClockToSeconds(a + ":" + b) == Err(MissingField)
  {
    SplitWhole(a, ':');
    SplitField(a, ':', b);
    SplitWhole(b, ':');
  }
}
