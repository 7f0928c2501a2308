/**
 * Wall-clock readings and the two strftime shapes the task writes:
 * '%Y-%m-%d %H:%M:%S' at the head of every log line and
 * '%Y%m%d_%H%M%S_%f' in the name of every log file.
 */
module Timestamps {
  import opened Decimal

  datatype Timestamp = Timestamp(
    year: nat, month: nat, day: nat,
    hour: nat, minute: nat, second: nat, microsecond: nat)
  {
    /** A reading `datetime.now()` can return (years from 1000 on, where %Y is four digits). */
    predicate Valid() {
      1000 <= year <= 9999 && 1 <= month <= 12 && 1 <= day <= 31 &&
      hour < 24 && minute < 60 && second < 60 && microsecond < 1000000
    }
  }

  type ValidTimestamp = t: Timestamp | t.Valid() witness Timestamp(2000, 1, 1, 0, 0, 0, 0)

  lemma FieldWidths()
    ensures Pow10(2) == 100 && Pow10(4) == 10000 && Pow10(6) == 1000000
  {
    assert Pow10(2) == 100;
    assert Pow10(4) == 100 * Pow10(2);
    assert Pow10(6) == 100 * Pow10(4);
  }

  /** '%Y-%m-%d %H:%M:%S': nineteen characters, no microseconds. */
  function LineStamp(t: ValidTimestamp): (s: string)
    ensures |s| == 19
  {
    FieldWidths();
    Padded(t.year, 4) + "-" + Padded(t.month, 2) + "-" + Padded(t.day, 2) + " " +
    Padded(t.hour, 2) + ":" + Padded(t.minute, 2) + ":" + Padded(t.second, 2)
  }

  /** '%Y%m%d_%H%M%S_%f': twenty-two characters, microseconds included. */
  function FileStamp(t: ValidTimestamp): (s: string)
    ensures |s| == 22
  {
    FieldWidths();
    Padded(t.year, 4) + Padded(t.month, 2) + Padded(t.day, 2) + "_" +
    Padded(t.hour, 2) + Padded(t.minute, 2) + Padded(t.second, 2) + "_" +
    Padded(t.microsecond, 6)
  }

  /** Reads the fields of a line stamp back; the microseconds are not in it. */
  function ParseLineStamp(s: string): Timestamp
    requires |s| == 19
  {
    Timestamp(ValueOrZero(s[0..4]), ValueOrZero(s[5..7]), ValueOrZero(s[8..10]),
              ValueOrZero(s[11..13]), ValueOrZero(s[14..16]), ValueOrZero(s[17..19]), 0)
  }

  /** Reads the fields of a file stamp back. */
  function ParseFileStamp(s: string): Timestamp
    requires |s| == 22
  {
    Timestamp(ValueOrZero(s[0..4]), ValueOrZero(s[4..6]), ValueOrZero(s[6..8]),
              ValueOrZero(s[9..11]), ValueOrZero(s[11..13]), ValueOrZero(s[13..15]),
              ValueOrZero(s[16..22]))
  }

  lemma LineStampRoundTrip(t: ValidTimestamp)
    ensures ParseLineStamp(LineStamp(t)) == t.(microsecond := 0)
  {
    FieldWidths();
    var s := LineStamp(t);
    assert s[0..4] == Padded(t.year, 4);
    assert s[5..7] == Padded(t.month, 2);
    assert s[8..10] == Padded(t.day, 2);
    assert s[11..13] == Padded(t.hour, 2);
    assert s[14..16] == Padded(t.minute, 2);
    assert s[17..19] == Padded(t.second, 2);
    PaddedRoundTrip(t.year, 4);
    PaddedRoundTrip(t.month, 2);
    PaddedRoundTrip(t.day, 2);
    PaddedRoundTrip(t.hour, 2);
    PaddedRoundTrip(t.minute, 2);
    PaddedRoundTrip(t.second, 2);
  }

  lemma FileStampRoundTrip(t: ValidTimestamp)
    ensures ParseFileStamp(FileStamp(t)) == t
  {
    FieldWidths();
    var s := FileStamp(t);
    assert s[0..4] == Padded(t.year, 4);
    assert s[4..6] == Padded(t.month, 2);
    assert s[6..8] == Padded(t.day, 2);
    assert s[9..11] == Padded(t.hour, 2);
    assert s[11..13] == Padded(t.minute, 2);
    assert s[13..15] == Padded(t.second, 2);
    assert s[16..22] == Padded(t.microsecond, 6);
    PaddedRoundTrip(t.year, 4);
    PaddedRoundTrip(t.month, 2);
    PaddedRoundTrip(t.day, 2);
    PaddedRoundTrip(t.hour, 2);
    PaddedRoundTrip(t.minute, 2);
    PaddedRoundTrip(t.second, 2);
    PaddedRoundTrip(t.microsecond, 6);
  }

  /** Two readings that differ, even by a microsecond, give different file stamps. */
  lemma FileStampInjective(t1: ValidTimestamp, t2: ValidTimestamp)
    requires FileStamp(t1) == FileStamp(t2)
    ensures t1 == t2
  {
    FileStampRoundTrip(t1);
    FileStampRoundTrip(t2);
  }
}
