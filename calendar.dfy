/** The work-day calendar transform of apollo.py: raw per-day records of the
    HR service's scheduling endpoint become entries
    {date, work_on_time, work_off_time, is_work_day, memo}, keyed by date. */
module Calendar {
  import opened Common

  /** UTC offset of the GMT+8 zone every shift time is converted to, in seconds. */
  const GMT8_OFFSET: int := 8 * 3600

  /** Memo of a work day without a calendar event ("work day"). */
  const WORK_DAY_MEMO: string := "工作日"
  /** Memo of a non-work day without a calendar event ("day off"). */
  const DAY_OFF_MEMO: string := "休假日"

  /** An ISO-8601 timestamp already parsed: the wall-clock time it spells,
      in seconds since 1970-01-01T00:00 of its own zone, and its UTC offset. */
  datatype Stamp = Stamp(wall: int, offset: int)

  /** A `WorkOnTime`/`WorkOffTime` field as it arrives: a falsy value (null or
      the empty string), a string that parses as ISO-8601, or a non-empty
      string that does not. */
  datatype RawTime = Absent | Iso(stamp: Stamp) | Malformed(text: NonEmptyString)

  /** A string Python counts as truthy. */
  type NonEmptyString = s: string | |s| != 0 witness "?"

  /** One raw day of the calendar payload: its `Date` string, the shift
      schedule's two times, and the `EventMemo` of its `CalendarEvent` when
      that event is truthy. */
  datatype RawDay = RawDay(date: string, workOn: RawTime, workOff: RawTime, event: Option<string>)

  /** A normalised calendar entry; shift times are naive GMT+8 local seconds. */
  datatype Entry = Entry(date: string, workOn: Option<int>, workOff: Option<int>, isWorkDay: bool, memo: string)

  /** Errors the transform raises: `fromisoformat` rejecting a string, and the
      lookup of a date the month has no entry for. */
  datatype CalendarError = InvalidIsoFormat(text: string) | NoEntryForDate(date: string)

  /** The instant a stamp denotes, in seconds since the UTC epoch. */
  function UtcSeconds(s: Stamp): int
  {
    s.wall - s.offset
  }

  /** `astimezone(GMT+8).replace(tzinfo=None)`: the GMT+8 wall-clock time of
      the stamp's instant, with the offset dropped. */
  function ToLocal(s: Stamp): (t: int)
    ensures t - GMT8_OFFSET == UtcSeconds(s)
  {
    s.wall - s.offset + GMT8_OFFSET
  }

  /** Two stamps get the same local time exactly when they denote the same
      instant, whatever offsets they were written with. */
  lemma ToLocalIdentifiesInstants(a: Stamp, b: Stamp)
    ensures ToLocal(a) == ToLocal(b) <==> UtcSeconds(a) == UtcSeconds(b)
  {
  }

  /** A stamp written at +08:00 keeps its wall-clock time. */
  lemma ToLocalKeepsGmt8Wall(s: Stamp)
    requires s.offset == GMT8_OFFSET
    ensures ToLocal(s) == s.wall
  {
  }

  /** `s.split("T")[0]`: the part of `s` before its first 'T', all of `s`
      when it has none. */
  function DatePart(s: string): (r: string)
    ensures r <= s
    ensures 'T' !in r
    ensures |r| < |s| ==> s[|r|] == 'T'
  {
    if |s| == 0 || s[0] == 'T' then "" else [s[0]] + DatePart(s[1..])
  }

  /** The three properties of `DatePart` pin the result down: any prefix of
      `s` free of 'T' and followed by 'T' or the end of `s` is `DatePart(s)`. */
  lemma DatePartUnique(s: string, p: string)
    requires p <= s && 'T' !in p
    requires |p| < |s| ==> s[|p|] == 'T'
    ensures p == DatePart(s)
  {
  }

  /** One shift-time field: falsy gives `None`, a parsed stamp its GMT+8 local
      time, and an unparsable string the `ValueError` of `fromisoformat`. */
  function NormaliseTime(f: RawTime): (r: Result<Option<int>, CalendarError>)
    ensures f.Absent? ==> r == Success(None)
    ensures f.Iso? ==> r == Success(Some(ToLocal(f.stamp)))
    ensures f.Malformed? ==> r == Failure(InvalidIsoFormat(f.text))
  {
    match f
    case Absent => Success(None)
    case Iso(s) => Success(Some(ToLocal(s)))
    case Malformed(text) => Failure(InvalidIsoFormat(text))
  }

  /** The memo rule: the event's memo whenever there is an event, otherwise the
      work-day or day-off label. */
  function MemoFor(event: Option<string>, isWorkDay: bool): (m: string)
    ensures event.Some? ==> m == event.value
    ensures event.None? ==> m == WORK_DAY_MEMO || m == DAY_OFF_MEMO
    ensures event.None? ==> (m == WORK_DAY_MEMO <==> isWorkDay)
  {
    match event
    case Some(m) => m
    case None => if isWorkDay then WORK_DAY_MEMO else DAY_OFF_MEMO
  }

  /** The loop body of `get_workday_calendars`: one raw day becomes one entry.
      `WorkOnTime` is converted before `WorkOffTime`, so its error wins. */
  function NormaliseDay(c: RawDay): (r: Result<Entry, CalendarError>)
    ensures r.Success? <==> !c.workOn.Malformed? && !c.workOff.Malformed?
    ensures c.workOn.Malformed? ==> r == Failure(InvalidIsoFormat(c.workOn.text))
    ensures !c.workOn.Malformed? && c.workOff.Malformed? ==> r == Failure(InvalidIsoFormat(c.workOff.text))
    ensures r.Success? ==> r.value.date == DatePart(c.date)
    ensures r.Success? ==> (r.value.workOn.None? <==> c.workOn.Absent?) && (r.value.workOff.None? <==> c.workOff.Absent?)
    ensures r.Success? && c.workOn.Iso? ==> r.value.workOn == Some(ToLocal(c.workOn.stamp))
    ensures r.Success? && c.workOff.Iso? ==> r.value.workOff == Some(ToLocal(c.workOff.stamp))
    ensures r.Success? ==> (r.value.isWorkDay <==> c.workOn.Iso? && c.workOff.Iso?)
    ensures r.Success? && c.event.Some? ==> r.value.memo == c.event.value
    ensures r.Success? && c.event.None? && r.value.isWorkDay ==> r.value.memo == WORK_DAY_MEMO
    ensures r.Success? && c.event.None? && !r.value.isWorkDay ==> r.value.memo == DAY_OFF_MEMO
  {
    match NormaliseTime(c.workOn)
    case Failure(e) => Failure(e)
    case Success(on) =>
      match NormaliseTime(c.workOff)
      case Failure(e) => Failure(e)
      case Success(off) =>
        var isWorkDay := on.Some? && off.Some?;
        Success(Entry(DatePart(c.date), on, off, isWorkDay, MemoFor(c.event, isWorkDay)))
  }

  /** The result of `get_workday_calendars` over the days in order: each entry
      is stored under its date, a later day overwriting an earlier one with
      the same date, and the first malformed time aborts the whole transform. */
  function CalendarMap(days: seq<RawDay>): Result<map<string, Entry>, CalendarError>
  {
    if |days| == 0 then Success(map[])
    else
      match CalendarMap(days[..|days| - 1])
      case Failure(e) => Failure(e)
      case Success(m) =>
        match NormaliseDay(days[|days| - 1])
        case Failure(e) => Failure(e)
        case Success(cal) => Success(m[cal.date := cal])
  }

  /** Once a prefix of the days fails, the whole transform fails with the same error. */
  lemma {:induction false} CalendarMapFailurePersists(days: seq<RawDay>, i: nat)
    requires i <= |days|
    requires CalendarMap(days[..i]).Failure?
    ensures CalendarMap(days) == CalendarMap(days[..i])
    decreases |days| - i
  {
    if i < |days| {
      assert days[..i + 1][..i] == days[..i];
      CalendarMapFailurePersists(days, i + 1);
    } else {
      assert days[..i] == days;
    }
  }

  /** The transform succeeds exactly when every day normalises. */
  lemma {:induction false} CalendarMapSucceedsIff(days: seq<RawDay>)
    ensures CalendarMap(days).Success? <==> forall i :: 0 <= i < |days| ==> NormaliseDay(days[i]).Success?
  {
    if |days| != 0 {
      var init := days[..|days| - 1];
      CalendarMapSucceedsIff(init);
      assert forall i :: 0 <= i < |init| ==> init[i] == days[i];
    }
  }

  /** On success the keys are exactly the dates of the raw days. */
  lemma {:induction false} CalendarMapKeys(days: seq<RawDay>, k: string)
    requires CalendarMap(days).Success?
    ensures k in CalendarMap(days).value <==> exists i :: 0 <= i < |days| && DatePart(days[i].date) == k
  {
    if |days| != 0 {
      var init := days[..|days| - 1];
      CalendarMapKeys(init, k);
      if k in CalendarMap(init).value {
        var i :| 0 <= i < |init| && DatePart(init[i].date) == k;
        assert days[i] == init[i];
      }
      if i :| 0 <= i < |days| - 1 && DatePart(days[i].date) == k {
        assert init[i] == days[i];
      }
    }
  }

  /** On success every entry sits under its own date and is the normalised
      form of the LAST raw day with that date. */
  lemma {:induction false} CalendarMapLastWins(days: seq<RawDay>, i: nat)
    requires CalendarMap(days).Success?
    requires i < |days|
    requires forall j :: i < j < |days| ==> DatePart(days[j].date) != DatePart(days[i].date)
    ensures NormaliseDay(days[i]).Success?
    ensures DatePart(days[i].date) in CalendarMap(days).value
    ensures CalendarMap(days).value[DatePart(days[i].date)] == NormaliseDay(days[i]).value
  {
    CalendarMapSucceedsIff(days);
    var init := days[..|days| - 1];
    if i < |days| - 1 {
      assert forall j :: 0 <= j < |init| ==> init[j] == days[j];
      CalendarMapLastWins(init, i);
    }
  }

  /** On success every entry is stored under the date it carries, and is a
      work day exactly when both of its shift times are present. */
  lemma {:induction false} CalendarMapEntriesWellFormed(days: seq<RawDay>)
    requires CalendarMap(days).Success?
    ensures forall k :: k in CalendarMap(days).value ==> CalendarMap(days).value[k].date == k
    ensures forall k :: k in CalendarMap(days).value ==>
      (CalendarMap(days).value[k].isWorkDay <==> CalendarMap(days).value[k].workOn.Some? && CalendarMap(days).value[k].workOff.Some?)
  {
    if |days| != 0 {
      CalendarMapEntriesWellFormed(days[..|days| - 1]);
    }
  }

  /** `get_workday_calendars`: builds `result_map` day by day. */
  method GetWorkdayCalendars(days: seq<RawDay>) returns (r: Result<map<string, Entry>, CalendarError>)
    ensures r == CalendarMap(days)
  {
    var resultMap: map<string, Entry> := map[];
    var i := 0;
    while i < |days|
      invariant 0 <= i <= |days|
      invariant CalendarMap(days[..i]) == Success(resultMap)
    {
      assert days[..i + 1][..i] == days[..i];
      var cal := NormaliseDay(days[i]);
      if cal.Failure? {
        CalendarMapFailurePersists(days, i + 1);
        return Failure(cal.error);
      }
      resultMap := resultMap[cal.value.date := cal.value];
      i := i + 1;
    }
    assert days[..i] == days;
    return Success(resultMap);
  }

  /** The entry `get_today_worday_calendar` returns for the date key `today`. */
  function TodayEntry(days: seq<RawDay>, today: string): Result<Entry, CalendarError>
  {
    match CalendarMap(days)
    case Failure(e) => Failure(e)
    case Success(m) => if today in m then Success(m[today]) else Failure(NoEntryForDate(today))
  }

  /** `get_today_worday_calendar`: the entry for today's date key, or the
      `KeyError` of a month without one. */
  method GetTodayWorkdayCalendar(days: seq<RawDay>, today: string) returns (r: Result<Entry, CalendarError>)
    ensures r == TodayEntry(days, today)
    ensures r.Success? ==> r.value.date == today
    ensures r.Success? <==> CalendarMap(days).Success? && exists i :: 0 <= i < |days| && DatePart(days[i].date) == today
  {
    var m := GetWorkdayCalendars(days);
    if m.Failure? {
      return Failure(m.error);
    }
    CalendarMapKeys(days, today);
    CalendarMapEntriesWellFormed(days);
    if today !in m.value {
      return Failure(NoEntryForDate(today));
    }
    r := Success(m.value[today]);
  }

  /** The work-day scenario: a shift from 09:00 to 18:00 at +08:00 and no
      event gives a work day with the work-day memo and the same wall times. */
  lemma WorkDayExample(midnight: int)
    ensures NormaliseDay(RawDay("2024-03-01T00:00:00",
                                Iso(Stamp(midnight + 9 * 3600, GMT8_OFFSET)),
                                Iso(Stamp(midnight + 18 * 3600, GMT8_OFFSET)),
                                None))
         == Success(Entry("2024-03-01", Some(midnight + 9 * 3600), Some(midnight + 18 * 3600), true, WORK_DAY_MEMO))
  {
    DatePartUnique("2024-03-01T00:00:00", "2024-03-01");
  }

  /** The holiday scenario: no shift times and an event memo gives a non-work
      day carrying the event's memo. */
  lemma HolidayExample()
    ensures NormaliseDay(RawDay("2024-01-01T00:00:00", Absent, Absent, Some("National Holiday")))
         == Success(Entry("2024-01-01", None, None, false, "National Holiday"))
  {
    DatePartUnique("2024-01-01T00:00:00", "2024-01-01");
  }
}
