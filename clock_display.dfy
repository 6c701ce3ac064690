/** Reading a clock display back: the independent definition against which
    both screens' formatters are proved to be faithful. */
module ClockDisplay {
  import opened JsText

  /** `s` cut at its first ':' into what comes before and what comes after,
      or `None` when it has no ':'. */
  function SplitAtColon(s: string): Option<(string, string)>
  {
    if s == [] then None
    else if s[0] == ':' then Some(([], s[1..]))
    else
      match SplitAtColon(s[1..])
      case None => None
      case Some((before, after)) => Some(([s[0]] + before, after))
  }

  /** A display: a minutes field and a seconds field around a ':'. */
  function Join(minutesField: string, secondsField: string): (r: string)
    ensures |r| == |minutesField| + 1 + |secondsField| && r[|minutesField|] == ':'
    ensures r[..|minutesField|] == minutesField && r[|minutesField| + 1..] == secondsField
    ensures minutesField != [] ==> r[0] == minutesField[0]
  {
    minutesField + ":" + secondsField
  }

  /** With a two-character seconds field, the minutes field is everything
      before the last three characters and the seconds field the last two. */
  lemma FieldsOfDisplay(r: string, minutesField: string, secondsField: string)
    requires r == Join(minutesField, secondsField) && |secondsField| == 2
    ensures r[..|r| - 3] == minutesField && r[|r| - 2..] == secondsField
  {
  }

  /** A display split at its first ':' whose two sides are read with
      `parseInt(_, 10)` as minutes and seconds, in seconds; `None` when there
      is no ':' or either side is NaN. */
  function ReadClock(s: string): Option<int>
  {
    match SplitAtColon(s)
    case None => None
    case Some((minutesField, secondsField)) =>
      var minutes := ParseInt(minutesField, true);
      var seconds := ParseInt(secondsField, true);
      if minutes.Some? && seconds.Some? then Some(minutes.value * 60 + seconds.value) else None
  }

  /** The first ':' after a run of digits is the one that ends it. */
  lemma {:induction false} SplitAfterDigits(m: string, rest: string)
    requires AllDigits(m, 10)
    ensures SplitAtColon(m + ":" + rest) == Some((m, rest))
  {
    var s := m + ":" + rest;
    if m == [] {
      assert s[1..] == rest;
    } else {
      assert IsDigit(m[0], 10);
      assert s[1..] == m[1..] + ":" + rest;
      SplitAfterDigits(m[1..], rest);
      assert [m[0]] + m[1..] == m;
    }
  }

  /** A display made of a run of digits, a ':' and a second field reads back
      as the two fields' numbers of minutes and seconds, in seconds. */
  lemma ReadClockOfFields(r: string, m: string, sec: string, minutes: int, seconds: int, total: int)
    requires r == Join(m, sec) && AllDigits(m, 10)
    requires ParseInt(m, true) == Some(minutes) && ParseInt(sec, true) == Some(seconds)
    requires minutes * 60 + seconds == total
    ensures ReadClock(r) == Some(total)
  {
    SplitAfterDigits(m, sec);
    ReadClockOfSplit(r, m, sec, minutes, seconds);
  }

  lemma ReadClockOfSplit(s: string, m: string, sec: string, minutes: int, seconds: int)
    requires SplitAtColon(s) == Some((m, sec))
    requires ParseInt(m, true) == Some(minutes)
    requires ParseInt(sec, true) == Some(seconds)
    ensures ReadClock(s) == Some(minutes * 60 + seconds)
  {
  }
}
