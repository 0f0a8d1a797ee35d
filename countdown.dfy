/** The countdown text the fetcher shows ("{h}h {m}m" or "{m}m"), the
    minute count the urgency check reads back out of it, and the urgency
    levels. */
module Countdown {
  import opened Wrappers
  import Text

  /** The countdown for `h` hours and `m` minutes. */
  function CountdownText(h: nat, m: nat): (c: string)
    ensures c != "" && Text.EndsWith(c, "m")
  {
    if h > 0 then Text.NatToString(h) + "h " + Text.NatToString(m) + "m"
    else Text.NatToString(m) + "m"
  }

  /** The countdown for a span of `secs` seconds: whole hours, then the
      whole minutes left over. */
  function CountdownFor(secs: nat): string {
    CountdownText(secs / 3600, secs % 3600 / 60)
  }

  /** The fields the urgency check reads a countdown's minutes from: the
      text with every 'h' and 'm' dropped, split on white space. */
  function Fields(c: string): seq<string> {
    Text.Words(Text.Delete(Text.Delete(c, 'h'), 'm'))
  }

  /** The minutes of one field (minutes) or of two (hours and minutes);
      None where Python raises (no field, or a field that is not an integer). */
  function FieldMinutes(parts: seq<string>): Option<int> {
    if |parts| > 1 then
      match (Text.ParseInt(parts[0]), Text.ParseInt(parts[1]))
      case (Some(h), Some(m)) => Some(h * 60 + m)
      case _ => None
    else if |parts| == 1 then Text.ParseInt(parts[0])
    else None
  }

  /** The minute count the urgency check computes from a countdown. */
  function TotalMinutes(c: string): Option<int> {
    FieldMinutes(Fields(c))
  }

  /** The urgency of a number of minutes. */
  function Level(minutes: int): (u: string)
    ensures u == "critical" <==> minutes <= 5
    ensures u == "urgent" <==> 5 < minutes <= 15
    ensures u == "safe" <==> 15 < minutes
  {
    if minutes <= 5 then "critical" else if minutes <= 15 then "urgent" else "safe"
  }

  /** `countdown_urgency`: "safe" with no countdown, otherwise the level of
      the minutes read back; None where reading them raises. */
  function UrgencyOf(c: string): (u: Option<string>)
    ensures c == "" ==> u == Some("safe")
    ensures c != "" ==> (u.Some? <==> TotalMinutes(c).Some?)
  {
    if c == "" then Some("safe")
    else match TotalMinutes(c)
      case None => None
      case Some(t) => Some(Level(t))
  }

  lemma DigitsHaveNoLetters(s: string)
    requires Text.AllDigits(s)
    ensures 'h' !in s && 'm' !in s && Text.NoSpace(s)
  {
  }

  lemma DeleteLeading(c: char, b: string)
    requires c !in b
    ensures Text.Delete([c] + b, c) == b
  {
    Text.DeleteAbsent(b, c);
    var s := [c] + b;
    assert s[0] == c;
    assert s[1..] == b;
  }

  /** Deleting the one occurrence of a character. */
  lemma DeleteSingle(a: string, c: char, b: string)
    requires c !in a && c !in b
    ensures Text.Delete(a + [c] + b, c) == a + b
  {
    var tail := [c] + b;
    assert a + [c] + b == a + tail;
    Text.DeleteAbsent(a, c);
    DeleteLeading(c, b);
    Text.DeleteAppend(a, tail, c);
  }

  lemma DeleteLettersOfMinutes(ms: string)
    requires Text.AllDigits(ms)
    ensures Text.Delete(Text.Delete(ms + "m", 'h'), 'm') == ms
  {
    DigitsHaveNoLetters(ms);
    assert 'h' !in ms + "m";
    Text.DeleteAbsent(ms + "m", 'h');
    DeleteSingle(ms, 'm', "");
    assert ms + ['m'] + "" == ms + "m";
    assert ms + "" == ms;
  }

  lemma DeleteLettersOfHours(hs: string, ms: string)
    requires Text.AllDigits(hs) && Text.AllDigits(ms)
    ensures Text.Delete(Text.Delete(hs + "h " + ms + "m", 'h'), 'm') == hs + " " + ms
  {
    DigitsHaveNoLetters(hs);
    DigitsHaveNoLetters(ms);
    var tail := " " + ms + "m";
    assert 'h' !in tail;
    DeleteSingle(hs, 'h', tail);
    assert hs + ['h'] + tail == hs + "h " + ms + "m";
    var once := hs + " " + ms;
    assert 'm' !in once;
    DeleteSingle(once, 'm', "");
    assert once + ['m'] + "" == hs + tail;
    assert once + "" == once;
  }

  /** Reading the minutes back out of a countdown gives 60·h + m. */
  lemma TotalMinutesOfCountdown(h: nat, m: nat)
    ensures TotalMinutes(CountdownText(h, m)) == Some(60 * h + m)
  {
    var hs := Text.NatToString(h);
    var ms := Text.NatToString(m);
    Text.ParseIntOfIntToString(m);
    if h > 0 {
      Text.ParseIntOfIntToString(h);
      WordsOfHours(hs, ms);
      TwoFields(hs, ms, h, m);
    } else {
      WordsOfMinutes(ms);
    }
  }

  /** The format: an hours field, then a minutes field, exactly when there
      are whole hours; otherwise the minutes field alone. */
  lemma CountdownShowsHours(h: nat, m: nat)
    ensures 'h' in CountdownText(h, m) <==> h > 0
    ensures Fields(CountdownText(h, m))
         == if h > 0 then [Text.NatToString(h), Text.NatToString(m)] else [Text.NatToString(m)]
  {
    var hs := Text.NatToString(h);
    var ms := Text.NatToString(m);
    DigitsHaveNoLetters(hs);
    DigitsHaveNoLetters(ms);
    if h > 0 {
      assert CountdownText(h, m)[|hs|] == 'h';
      WordsOfHours(hs, ms);
    } else {
      assert CountdownText(h, m) == ms + "m";
      WordsOfMinutes(ms);
    }
  }

  lemma TwoFields(hs: string, ms: string, h: int, m: int)
    requires Text.ParseInt(hs) == Some(h) && Text.ParseInt(ms) == Some(m)
    ensures FieldMinutes([hs, ms]) == Some(60 * h + m)
  {
  }

  lemma WordsOfMinutes(ms: string)
    requires Text.AllDigits(ms) && ms != []
    ensures Fields(ms + "m") == [ms]
  {
    DigitsHaveNoLetters(ms);
    DeleteLettersOfMinutes(ms);
    Text.WordsOfOne(ms);
  }

  lemma WordsOfHours(hs: string, ms: string)
    requires Text.AllDigits(hs) && hs != [] && Text.AllDigits(ms) && ms != []
    ensures Fields(hs + "h " + ms + "m") == [hs, ms]
  {
    DigitsHaveNoLetters(hs);
    DigitsHaveNoLetters(ms);
    DeleteLettersOfHours(hs, ms);
    Text.WordsOfTwo(hs, ms);
  }

  /** The minutes read back out of the countdown for a span are its whole minutes. */
  lemma TotalMinutesOfSpan(secs: nat)
    ensures TotalMinutes(CountdownFor(secs)) == Some(secs / 60)
  {
    TotalMinutesOfCountdown(secs / 3600, secs % 3600 / 60);
    var q := secs / 3600;
    var r := secs % 3600;
    assert secs == 3600 * q + r;
    assert secs / 60 == 60 * q + r / 60 by {
      assert secs == 60 * (60 * q + r / 60) + r % 60;
    }
  }

  /** The urgency of a formatted countdown is the level of its total minutes. */
  lemma UrgencyOfCountdown(h: nat, m: nat)
    ensures UrgencyOf(CountdownText(h, m)) == Some(Level(60 * h + m))
  {
    TotalMinutesOfCountdown(h, m);
  }
}
