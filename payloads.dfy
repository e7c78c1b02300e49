/**
 * The two ASCII payloads the connection manager writes: the phone's time as
 * `HH:mm:ss`, and the servo signal `"1"` / `"0"` for the commands `"on"` /
 * `"off"`.
 */
module Payloads {
  import opened Wrappers

  // ---------------------------------------------------------------------------
  // Time of day, `HH:mm:ss`

  /** A wall-clock reading as `SimpleDateFormat` sees it: 24-hour clock, no leap second. */
  datatype Clock = Clock(hour: nat, minute: nat, second: nat)

  predicate IsClock(c: Clock) {
    c.hour < 24 && c.minute < 60 && c.second < 60
  }

  predicate IsDigit(c: char) {
    '0' <= c <= '9'
  }

  function DigitChar(d: nat): (c: char)
    requires d < 10
    ensures IsDigit(c)
  {
    ('0' as int + d) as char
  }

  function DigitValue(c: char): (d: nat)
    requires IsDigit(c)
    ensures d < 10
  {
    c as int - '0' as int
  }

  /** A two-digit field, zero-padded as the patterns `HH`, `mm` and `ss` print it. */
  function TwoDigits(n: nat): (s: string)
    requires n < 100
    ensures |s| == 2 && IsDigit(s[0]) && IsDigit(s[1])
  {
    [DigitChar(n / 10), DigitChar(n % 10)]
  }

  /**
   * The text `writeCurrentTime` stores in the phone-time characteristic: it
   * has the `HH:mm:ss` shape and reads back as the time it was printed from.
   */
  function TimeText(c: Clock): (t: string)
    requires IsClock(c)
    ensures IsTimeShape(t)
    ensures ParseTime(t) == Some(c)
  {
    TwoDigits(c.hour) + ":" + TwoDigits(c.minute) + ":" + TwoDigits(c.second)
  }

  /** The `HH:mm:ss` shape: eight characters, colons at 2 and 5, digits elsewhere. */
  predicate IsTimeShape(t: string) {
    && |t| == 8
    && t[2] == ':' && t[5] == ':'
    && IsDigit(t[0]) && IsDigit(t[1]) && IsDigit(t[3]) && IsDigit(t[4]) && IsDigit(t[6]) && IsDigit(t[7])
  }

  /** Reads an `HH:mm:ss` text back; `None` for any text that is not one `TimeText` prints. */
  function ParseTime(t: string): (r: Option<Clock>)
    ensures r.Some? ==> IsClock(r.value)
  {
    if !IsTimeShape(t) then None
    else
      var c := Clock(DigitValue(t[0]) * 10 + DigitValue(t[1]),
                     DigitValue(t[3]) * 10 + DigitValue(t[4]),
                     DigitValue(t[6]) * 10 + DigitValue(t[7]));
      if IsClock(c) then Some(c) else None
  }

  /** Every text that reads as a time is the one printed for that time. */
  lemma ParseTimeRoundTrip(t: string)
    requires ParseTime(t).Some?
    ensures TimeText(ParseTime(t).value) == t
  {
    var c := ParseTime(t).value;
    var p := TimeText(c);
    assert |p| == 8;
    forall i | 0 <= i < 8 ensures p[i] == t[i] {
    }
  }

  /** Distinct times of day produce distinct payloads. */
  lemma TimeTextInjective(a: Clock, b: Clock)
    requires IsClock(a) && IsClock(b)
    requires TimeText(a) == TimeText(b)
    ensures a == b
  {
  }

  // ---------------------------------------------------------------------------
  // Servo command

  /**
   * The payload `sendServoCommand` writes for a command; `None` means it
   * writes nothing. Exactly `"on"` and `"off"` produce a write; the payload is
   * the single character `'1'` or `'0'`, and `ServoCommandOf` maps it back to
   * the command.
   */
  function ServoPayload(command: string): (r: Option<string>)
    ensures r.Some? <==> command == "on" || command == "off"
    ensures r.Some? ==> r.value in {"0", "1"} && ServoCommandOf(r.value) == Some(command)
  {
    if command == "on" then Some("1")
    else if command == "off" then Some("0")
    else None
  }

  /** The inverse of `ServoPayload`: the command a payload was written for. */
  function ServoCommandOf(payload: string): Option<string> {
    if payload == "1" then Some("on")
    else if payload == "0" then Some("off")
    else None
  }

  /** Every servo payload is produced by exactly one command. */
  lemma ServoCommandRoundTrip(payload: string)
    requires ServoCommandOf(payload).Some?
    ensures ServoPayload(ServoCommandOf(payload).value) == Some(payload)
  {
  }
}
