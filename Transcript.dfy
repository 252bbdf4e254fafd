/**
 * The transcript side of the chat box: the `HH:MM:SS` timestamp that
 * `datetime.now().strftime("%H:%M:%S")` yields, the line
 * `"[" + timestamp + "] " + name + ": " + text`, and the `{user, message}`
 * record appended to the transcript. Each formatter has a parser beside it,
 * and the two are proved to be inverse to each other.
 */
module Transcript {
  import opened Wrappers

  /** The wall-clock reading the timestamp is taken from (the date part is never shown). */
  datatype TimeOfDay = TimeOfDay(hour: nat, minute: nat, second: nat)

  /** A reading `datetime.now()` can produce. */
  type Time = t: TimeOfDay | t.hour < 24 && t.minute < 60 && t.second < 60
    witness TimeOfDay(0, 0, 0)

  /** Width of an `HH:MM:SS` timestamp. */
  const TimestampWidth := 8

  function DigitChar(d: nat): (c: char)
    requires d < 10
    ensures '0' <= c <= '9'
  {
    ('0' as int + d) as char
  }

  function DigitValue(c: char): Option<nat> {
    if '0' <= c <= '9' then Some(c as int - '0' as int) else None
  }

  /** A number below 100 written with two digits, zero-padded as by `%H`, `%M` and `%S`. */
  function TwoDigits(n: nat): (r: string)
    requires n < 100
    ensures |r| == 2 && ParseTwoDigits(r) == Some(n)
  {
    [DigitChar(n / 10), DigitChar(n % 10)]
  }

  function ParseTwoDigits(s: string): Option<nat> {
    if |s| != 2 then None
    else match (DigitValue(s[0]), DigitValue(s[1]))
      case (Some(hi), Some(lo)) => Some(10 * hi + lo)
      case _ => None
  }

  /** Two-digit parsing accepts only what two-digit formatting produces. */
  lemma TwoDigitsCanonical(s: string, n: nat)
    requires ParseTwoDigits(s) == Some(n)
    ensures n < 100 && TwoDigits(n) == s
  {
    var hi, lo := DigitValue(s[0]).value, DigitValue(s[1]).value;
    assert n == 10 * hi + lo;
    assert n / 10 == hi && n % 10 == lo;
  }

  /** `strftime("%H:%M:%S")`. */
  function FormatTimestamp(t: Time): (r: string)
    ensures |r| == TimestampWidth && r[2] == ':' && r[5] == ':'
  {
    TwoDigits(t.hour) + ":" + TwoDigits(t.minute) + ":" + TwoDigits(t.second)
  }

  /** Reads an `HH:MM:SS` timestamp back; `None` for anything else. */
  function ParseTimestamp(s: string): Option<Time> {
    if |s| != TimestampWidth || s[2] != ':' || s[5] != ':' then None
    else match (ParseTwoDigits(s[0..2]), ParseTwoDigits(s[3..5]), ParseTwoDigits(s[6..8]))
      case (Some(h), Some(m), Some(sec)) =>
        if h < 24 && m < 60 && sec < 60 then Some(TimeOfDay(h, m, sec)) else None
      case _ => None
  }

  /** Every timestamp reads back as the time it was formatted from. */
  lemma TimestampRoundTrip(t: Time)
    ensures ParseTimestamp(FormatTimestamp(t)) == Some(t)
  {
    var r := FormatTimestamp(t);
    assert r[0..2] == TwoDigits(t.hour);
    assert r[3..5] == TwoDigits(t.minute);
    assert r[6..8] == TwoDigits(t.second);
  }

  /** Every string that parses as a timestamp is the formatting of the time it parses to. */
  lemma TimestampCanonical(s: string, t: Time)
    requires ParseTimestamp(s) == Some(t)
    ensures FormatTimestamp(t) == s
  {
    TwoDigitsCanonical(s[0..2], t.hour);
    TwoDigitsCanonical(s[3..5], t.minute);
    TwoDigitsCanonical(s[6..8], t.second);
    assert s == s[0..2] + ":" + s[3..5] + ":" + s[6..8];
  }

  /** Number of characters a transcript line adds around the name and the text. */
  const Decoration := TimestampWidth + 5

  /**
   * `_format_message_for_transcript`: `"[HH:MM:SS] name: text"`. The line
   * starts with `[`, holds the timestamp, then the name at a fixed offset,
   * and ends with the text.
   */
  function FormatMessage(t: Time, playerName: string, text: string): (line: string)
    ensures |line| == Decoration + |playerName| + |text|
    ensures line[0] == '['
    ensures line[1..TimestampWidth + 1] == FormatTimestamp(t)
    ensures line[TimestampWidth + 3..TimestampWidth + 3 + |playerName|] == playerName
    ensures line[Decoration + |playerName|..] == text
  {
    "[" + FormatTimestamp(t) + "] " + playerName + ": " + text
  }

  /**
   * Splits a transcript line written for `playerName` back into its time and text;
   * `None` when the line does not have that shape.
   */
  function ParseTranscriptLine(line: string, playerName: string): Option<(Time, string)> {
    var n := |playerName|;
    if |line| < Decoration + n then None
    else if line[0] != '[' || line[TimestampWidth + 1..TimestampWidth + 3] != "] "
         || line[TimestampWidth + 3..TimestampWidth + 3 + n] != playerName
         || line[TimestampWidth + 3 + n..Decoration + n] != ": " then None
    else match ParseTimestamp(line[1..TimestampWidth + 1])
      case Some(t) => Some((t, line[Decoration + n..]))
      case None => None
  }

  /** A formatted line gives back exactly the time and the text it was made from. */
  lemma TranscriptLineRoundTrip(t: Time, playerName: string, text: string)
    ensures ParseTranscriptLine(FormatMessage(t, playerName, text), playerName) == Some((t, text))
  {
    var line := FormatMessage(t, playerName, text);
    TimestampRoundTrip(t);
    assert line[TimestampWidth + 1..TimestampWidth + 3] == "] ";
    assert line[TimestampWidth + 3 + |playerName|..Decoration + |playerName|] == ": ";
  }

  /** Every line that parses is the formatting of what it parses to. */
  lemma TranscriptLineCanonical(line: string, playerName: string, t: Time, text: string)
    requires ParseTranscriptLine(line, playerName) == Some((t, text))
    ensures FormatMessage(t, playerName, text) == line
  {
    var n := |playerName|;
    TimestampCanonical(line[1..TimestampWidth + 1], t);
    assert line == [line[0]] + line[1..TimestampWidth + 1] + line[TimestampWidth + 1..TimestampWidth + 3]
      + line[TimestampWidth + 3..TimestampWidth + 3 + n] + line[TimestampWidth + 3 + n..Decoration + n]
      + line[Decoration + n..];
  }

  /** For one player, equal lines come only from equal times and equal texts. */
  lemma FormatMessageInjective(t1: Time, t2: Time, playerName: string, text1: string, text2: string)
    requires FormatMessage(t1, playerName, text1) == FormatMessage(t2, playerName, text2)
    ensures t1 == t2 && text1 == text2
  {
    TranscriptLineRoundTrip(t1, playerName, text1);
    TranscriptLineRoundTrip(t2, playerName, text2);
  }

  /** One element of `player_chat`: the dictionary `{"user": ..., "message": ...}`. */
  datatype Entry = Entry(user: string, message: string)

  /** The record `_add_message` appends: it is attributed to the local player. */
  function NewEntry(t: Time, playerName: string, text: string): (e: Entry)
    ensures e.user == playerName
  {
    Entry(playerName, FormatMessage(t, playerName, text))
  }

  /** The message of an appended record reads back as the time and the text that were sent. */
  lemma NewEntryReadsBack(t: Time, playerName: string, text: string)
    ensures ParseTranscriptLine(NewEntry(t, playerName, text).message, playerName) == Some((t, text))
  {
    TranscriptLineRoundTrip(t, playerName, text);
  }
}
