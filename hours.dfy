/** `getDateWithHours(date, hours)`: advances a `Date` in place by the hour
    offset written in `hours` and returns the same object. Time is counted in
    minutes; local-time and daylight-saving effects are not modelled. */
module Hours {
  import opened JsString

  /** The text `~~` reads as hours: everything before the first 'h' (nothing
      when there is no 'h', since `substring(0, -1)` is empty). */
  function HourText(hours: string): string
  {
    Substring(hours, 0, IndexOf(hours, 'h'))
  }

  /** The text `~~` reads as minutes: `substring(h)` keeps the 'h' itself,
      and is the whole string when there is no 'h'. */
  function MinuteText(hours: string): string
  {
    Substring(hours, IndexOf(hours, 'h'), |hours|)
  }

  /** The number of minutes `getDateWithHours` adds for `hours`. */
  function OffsetMinutes(hours: string): (m: nat)
    ensures 'h' in hours ==> m % 60 == 0
  {
    60 * ToInteger(HourText(hours)) + ToInteger(MinuteText(hours))
  }

  /** The time, in minutes, of `getDateWithHours` applied to a date at time `t`. */
  function DateWithHours(t: int, hours: string): (r: int)
    ensures r >= t
  {
    t + OffsetMinutes(hours)
  }

  /** What the offset is, read from the string: when there is an 'h', sixty
      times the value of the digits before the first 'h' and nothing for the
      minutes (the minute text starts with 'h' and converts to 0); when there
      is none, the value of the whole string, read as minutes. */
  lemma OffsetMinutesCases(hours: string)
    ensures 'h' in hours ==>
      var k := IndexOf(hours, 'h');
      && hours[k] == 'h' && 'h' !in hours[..k]
      && OffsetMinutes(hours) == 60 * ToInteger(hours[..k])
    ensures 'h' !in hours ==> OffsetMinutes(hours) == ToInteger(hours)
  {
    if 'h' in hours {
      var k := IndexOf(hours, 'h');
      assert MinuteText(hours) == hours[k..];
      assert MinuteText(hours)[0] == 'h';
    }
  }

  /** For every string made of the decimal digits of `hh`, an 'h' and any
      text at all, the offset is `hh` hours: what follows the 'h' is
      dropped, so "<H>h<M>" never adds its minutes. */
  lemma {:induction false} OffsetDropsMinutes(hh: nat, rest: string)
    ensures OffsetMinutes(Digits(hh) + "h" + rest) == 60 * hh
  {
    var d := Digits(hh);
    var s := d + "h" + rest;
    assert 'h' !in d by {
      forall i | 0 <= i < |d| ensures d[i] != 'h' { assert IsDigit(d[i]); }
    }
    assert s[|d|] == 'h';
    assert s[..|d|] == d;
    assert IndexOf(s, 'h') == |d|;
    OffsetMinutesCases(s);
    ToIntegerDigits(hh);
  }

  /** Offsets the model computes, next to the value the "HHhMM" reading would
      give: "1h45" adds one hour, not one hour and 45 minutes. */
  lemma OffsetExamples()
    ensures OffsetMinutes("1h45") == 60
    ensures OffsetMinutes("0h00") == 0
    ensures OffsetMinutes("45") == 45
  {
    assert Digits(1) == "1" && Digits(0) == "0" && Digits(45) == "45";
    OffsetDropsMinutes(1, "45");
    assert Digits(1) + "h" + "45" == "1h45";
    OffsetDropsMinutes(0, "00");
    assert Digits(0) + "h" + "00" == "0h00";
    OffsetMinutesCases("45");
    ToIntegerDigits(45);
  }

  /** 23:30 on day `day` advanced by "1h45" is 00:30 on the next day: the hour
      rolls over midnight, and the 45 minutes are not added. */
  lemma RollsOverMidnight(day: int)
    ensures DateWithHours(day * 1440 + 23 * 60 + 30, "1h45") == (day + 1) * 1440 + 30
  {
    OffsetExamples();
  }

  /** A JavaScript `Date`, reduced to its time in minutes since the epoch. */
  class Date {
    var time: int

    constructor (time: int)
      ensures this.time == time
    {
      this.time := time;
    }

    /** `getHours()`: the hour of the day, 0 to 23. */
    function Hours(): (h: int)
      reads this
      ensures 0 <= h < 24
      ensures time - 60 * h - Minutes() == 1440 * (time / 1440)
    {
      (time / 60) % 24
    }

    /** `getMinutes()`: the minute of the hour, 0 to 59. */
    function Minutes(): (m: int)
      reads this
      ensures 0 <= m < 60
      ensures (time - m) % 60 == 0
    {
      time % 60
    }

    /** `setHours(h)`: sets the hour of the day to `h`; an `h` outside 0..23
        rolls over into the following or preceding days. */
    method SetHours(h: int)
      modifies this
      ensures time == old(time) + 60 * (h - old(Hours()))
      ensures 0 <= h < 24 ==> Hours() == h && Minutes() == old(Minutes()) && time / 1440 == old(time) / 1440
    {
      time := time + 60 * (h - Hours());
    }

    /** `setMinutes(m)`: sets the minute of the hour to `m`, rolling over into
        the hours when `m` lies outside 0..59. */
    method SetMinutes(m: int)
      modifies this
      ensures time == old(time) + (m - old(Minutes()))
      ensures 0 <= m < 60 ==> Minutes() == m && time / 60 == old(time) / 60
    {
      time := time + (m - Minutes());
    }
  }

  /** `getDateWithHours(date, hours)`: moves `date` forward by the hours of
      `hours`, then by its minutes, and returns the same object. */
  method GetDateWithHours(date: Date, hours: string) returns (r: Date)
    modifies date
    ensures r == date
    ensures date.time == DateWithHours(old(date.time), hours)
  {
    var h := IndexOf(hours, 'h');
    date.SetHours(date.Hours() + ToInteger(Substring(hours, 0, h)));
    date.SetMinutes(date.Minutes() + ToInteger(Substring(hours, h, |hours|)));
    r := date;
  }

  /** The `{ from, to }` of one parent-session entry: `getDateWithHours` is
      applied to `fromDate` with the start string and to `toDate` with the end
      string, where each date is what one call of `parse(date)` returned.
      Distinct objects each move by their own offset; when both calls return
      the same object, that object moves by both offsets and `from` and `to`
      are the same date. */
  method SessionTimes(fromDate: Date, toDate: Date, start: string, end: string) returns (from: Date, to: Date)
    modifies fromDate, toDate
    ensures from == fromDate && to == toDate
    ensures fromDate != toDate ==>
      && fromDate.time == DateWithHours(old(fromDate.time), start)
      && toDate.time == DateWithHours(old(toDate.time), end)
    ensures fromDate == toDate ==>
      fromDate.time == old(fromDate.time) + OffsetMinutes(start) + OffsetMinutes(end)
  {
    from := GetDateWithHours(fromDate, start);
    to := GetDateWithHours(toDate, end);
  }
}
