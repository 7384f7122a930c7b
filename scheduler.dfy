/** The scheduling decisions of apollo.py: the jittered punch targets, the
    poll-until-passed wait, the work-day gate and the daily wake time, and one
    iteration of the `auto_punch` loop built from them. Times are naive GMT+8
    local seconds, and so are the clock readings and the day `today` names:
    the model takes the host's local zone to be GMT+8. Clock readings, random
    draws and replies are inputs. */
module Scheduler {
  import opened Common
  import opened Calendar
  import opened Agent

  const SECONDS_PER_DAY: int := 86400
  const SECONDS_PER_HOUR: int := 3600
  /** Hour from which today's window counts as passed (08:00). */
  const CUTOFF_HOUR: int := 8
  /** Hour of the daily wake-up (07:00). */
  const WAKE_HOUR: int := 7

  /** The login data `ApolloAgent` is built from. */
  datatype Credentials = Credentials(username: string, password: string, company: string)

  /** How far the punch sequence got before the clock readings ran out: still
      waiting for the in-target, punched in and waiting for the out-target, or
      both punches done. `inAt`/`outAt` are the readings that ended each wait. */
  datatype PunchRun =
    | AwaitingIn(inTarget: int, outTarget: int)
    | AwaitingOut(inTarget: int, outTarget: int, inAt: int)
    | Completed(inTarget: int, outTarget: int, inAt: int, outAt: int)

  /** The exceptions that end a day: a failed login, a failed calendar lookup,
      `randint(0, jitter)` with a negative bound, arithmetic on a missing shift
      time, and a punch refused by the agent. */
  datatype DayError =
    | LoginFailed(agentError: AgentError)
    | CalendarFailed(calendarError: CalendarError)
    | EmptyJitterRange
    | MissingShiftTime
    | PunchRefused(punchError: AgentError)

  /** How one day ended: still asleep before 07:00, a non-work day skipped, or
      the punch sequence run (as far as the readings go). */
  datatype DayOutcome = NotYetAwake | SkippedNonWorkDay(entry: Entry) | Ran(run: PunchRun)

  /** The draws of `randint(0, jitter)`: both lie in [0, jitter] when that range is non-empty. */
  predicate ValidDraws(jitter: int, r: int, s: int)
  {
    jitter >= 0 ==> 0 <= r <= jitter && 0 <= s <= jitter
  }

  /** `in_dt - r` and `out_dt + s`. `randint` runs before each subtraction or
      addition, so a negative bound is reported before a missing time. */
  function PunchTargets(inDt: Option<int>, outDt: Option<int>, jitter: int, r: int, s: int): (t: Result<(int, int), DayError>)
    requires ValidDraws(jitter, r, s)
    ensures jitter < 0 ==> t == Failure(EmptyJitterRange)
    ensures jitter >= 0 ==> (t.Success? <==> inDt.Some? && outDt.Some?)
    ensures jitter >= 0 && t.Failure? ==> t.error == MissingShiftTime
    ensures t.Success? ==> inDt.value - jitter <= t.value.0 <= inDt.value
    ensures t.Success? ==> outDt.value <= t.value.1 <= outDt.value + jitter
  {
    if jitter < 0 then Failure(EmptyJitterRange)
    else if inDt.None? || outDt.None? then Failure(MissingShiftTime)
    else Success((inDt.value - r, outDt.value + s))
  }

  /** Every pair of targets in the two jitter windows comes from some draws:
      the windows are exactly [in - jitter, in] and [out, out + jitter]. */
  lemma PunchTargetsCoverWindows(inDt: int, outDt: int, jitter: int, inT: int, outT: int)
    requires inDt - jitter <= inT <= inDt && outDt <= outT <= outDt + jitter
    ensures exists r, s :: ValidDraws(jitter, r, s) && PunchTargets(Some(inDt), Some(outDt), jitter, r, s) == Success((inT, outT))
  {
    assert ValidDraws(jitter, inDt - inT, outT - outDt);
    assert PunchTargets(Some(inDt), Some(outDt), jitter, inDt - inT, outT - outDt) == Success((inT, outT));
  }

  /** The reading at which `_wait_for_datetime_passed` returns: the first one
      at or after the target, or `None` while every reading is still before it.
      The index is also the number of sleeps taken. */
  function FirstPassed(clock: seq<int>, target: int): (k: Option<nat>)
    ensures k.Some? ==> k.value < |clock| && clock[k.value] >= target
    ensures k.Some? ==> forall j :: 0 <= j < k.value ==> clock[j] < target
    ensures k.None? ==> forall j :: 0 <= j < |clock| ==> clock[j] < target
  {
    if |clock| == 0 then None
    else if clock[0] >= target then Some(0)
    else match FirstPassed(clock[1..], target)
      case None => None
      case Some(k) => Some(k + 1)
  }

  /** `_wait_for_datetime_passed`: read the clock, stop at the first reading
      at or after the target, sleep otherwise. No sleep happens when the target
      has already passed at the first reading. */
  method WaitForDatetimePassed(target: int, clock: seq<int>) returns (k: Option<nat>)
    ensures k == FirstPassed(clock, target)
    ensures |clock| != 0 && clock[0] >= target ==> k == Some(0)
    ensures k.Some? ==> k.value < |clock| && clock[k.value] >= target
  {
    var i := 0;
    while i < |clock|
      invariant 0 <= i <= |clock|
      invariant forall j :: 0 <= j < i ==> clock[j] < target
    {
      if clock[i] >= target {
        return Some(i);
      }
      i := i + 1;
    }
    return None;
  }

  /** The local day a time falls on, counted from the epoch. */
  function DayOf(t: int): int
  {
    t / SECONDS_PER_DAY
  }

  /** `now.hour` of a local time. */
  function HourOf(t: int): (h: int)
    ensures 0 <= h < 24
    ensures h * SECONDS_PER_HOUR <= t % SECONDS_PER_DAY < (h + 1) * SECONDS_PER_HOUR
  {
    (t % SECONDS_PER_DAY) / SECONDS_PER_HOUR
  }

  /** The wake-up target of one `auto_punch` iteration: 07:00 of today, or of
      tomorrow once the hour is 8 or later. */
  function WakeTarget(now: int): (w: int)
    ensures w % SECONDS_PER_DAY == WAKE_HOUR * SECONDS_PER_HOUR
  {
    var day := if HourOf(now) >= CUTOFF_HOUR then DayOf(now) + 1 else DayOf(now);
    day * SECONDS_PER_DAY + WAKE_HOUR * SECONDS_PER_HOUR
  }

  /** The wake target falls on today when the hour is before 8 and on the
      next day otherwise. */
  lemma WakeTargetDay(now: int)
    ensures HourOf(now) >= CUTOFF_HOUR ==> DayOf(WakeTarget(now)) == DayOf(now) + 1
    ensures HourOf(now) < CUTOFF_HOUR ==> DayOf(WakeTarget(now)) == DayOf(now)
  {
    var w := WakeTarget(now);
    var day := if HourOf(now) >= CUTOFF_HOUR then DayOf(now) + 1 else DayOf(now);
    assert w == day * SECONDS_PER_DAY + 25200;
    assert w / SECONDS_PER_DAY == day;
    assert w % SECONDS_PER_DAY == 25200;
  }

  /** What the wait then does: from 08:00 on and before 07:00 the target lies
      ahead (less than a day away); between 07:00 and 08:00 it has already
      passed, so the day's check runs at once. */
  lemma WakeTargetFromNow(now: int)
    ensures HourOf(now) >= CUTOFF_HOUR ==> now < WakeTarget(now) < now + SECONDS_PER_DAY
    ensures HourOf(now) < WAKE_HOUR ==> now < WakeTarget(now) <= now + WAKE_HOUR * SECONDS_PER_HOUR
    ensures HourOf(now) == WAKE_HOUR ==> WakeTarget(now) <= now < WakeTarget(now) + SECONDS_PER_HOUR
  {
  }

  /** The state the punch sequence of `_do_auto_punch_loop` reaches, given the
      draws, the readings of its two waits and whether the agent holds
      authorisation data. */
  function PlannedRun(inDt: Option<int>, outDt: Option<int>, jitter: int, r: int, s: int,
                      inClock: seq<int>, outClock: seq<int>, authorised: bool): Result<PunchRun, DayError>
    requires ValidDraws(jitter, r, s)
  {
    match PunchTargets(inDt, outDt, jitter, r, s)
    case Failure(e) => Failure(e)
    case Success((inT, outT)) =>
      match FirstPassed(inClock, inT)
      case None => Success(AwaitingIn(inT, outT))
      case Some(i) =>
        if !authorised then Failure(PunchRefused(NoAuthData))
        else
          match FirstPassed(outClock, outT)
          case None => Success(AwaitingOut(inT, outT, inClock[i]))
          case Some(o) => Success(Completed(inT, outT, inClock[i], outClock[o]))
  }

  /** The punches a run has sent: clock-in once its wait ended, clock-out
      once its own wait ended; neither override. */
  function PunchRequests(run: Result<PunchRun, DayError>): seq<Request>
  {
    match run
    case Success(AwaitingOut(_, _, _)) => [PunchCard(CLOCK_IN, false)]
    case Success(Completed(_, _, _, _)) => [PunchCard(CLOCK_IN, false), PunchCard(CLOCK_OUT, false)]
    case _ => []
  }

  /** Each punch is sent at the first reading at or after its own target, the
      clock-in strictly before the clock-out, and the clock-out only after a
      clock-in. */
  lemma PlannedRunPunchesAfterTargets(inDt: Option<int>, outDt: Option<int>, jitter: int, r: int, s: int,
                                      inClock: seq<int>, outClock: seq<int>, authorised: bool)
    requires ValidDraws(jitter, r, s)
    ensures var run := PlannedRun(inDt, outDt, jitter, r, s, inClock, outClock, authorised);
      && (run.Success? && !run.value.AwaitingIn? ==>
            exists i :: 0 <= i < |inClock| && inClock[i] == run.value.inAt && run.value.inAt >= run.value.inTarget
              && forall j :: 0 <= j < i ==> inClock[j] < run.value.inTarget)
      && (run.Success? && run.value.Completed? ==>
            exists o :: 0 <= o < |outClock| && outClock[o] == run.value.outAt && run.value.outAt >= run.value.outTarget
              && forall j :: 0 <= j < o ==> outClock[j] < run.value.outTarget)
      && (PunchCard(CLOCK_OUT, false) in PunchRequests(run) ==> PunchRequests(run) == [PunchCard(CLOCK_IN, false), PunchCard(CLOCK_OUT, false)])
  {
  }

  /** The targets of a run are the jittered shift times: the in-target no
      later than the shift start and the out-target no earlier than its end,
      neither moved by more than the jitter. */
  lemma PlannedRunTargetsInWindows(inDt: int, outDt: int, jitter: int, r: int, s: int,
                                   inClock: seq<int>, outClock: seq<int>, authorised: bool)
    requires ValidDraws(jitter, r, s)
    requires jitter >= 0
    ensures var run := PlannedRun(Some(inDt), Some(outDt), jitter, r, s, inClock, outClock, authorised);
      && (authorised ==> run.Success?)
      && (run.Success? ==> inDt - jitter <= run.value.inTarget <= inDt && outDt <= run.value.outTarget <= outDt + jitter)
  {
  }

  /** `_do_auto_punch_loop`: compute both targets, wait for the in-target and
      punch in, wait for the out-target and punch out. */
  method DoAutoPunchLoop(agent: ApolloAgent, inDt: Option<int>, outDt: Option<int>, jitter: int, r: int, s: int,
                         inClock: seq<int>, outClock: seq<int>, inReply: Reply, outReply: Reply)
    returns (run: Result<PunchRun, DayError>)
    requires ValidDraws(jitter, r, s)
    modifies agent`sent
    ensures run == PlannedRun(inDt, outDt, jitter, r, s, inClock, outClock, agent.HasAuthData())
    ensures agent.sent == old(agent.sent) + PunchRequests(run)
  {
    var targets := PunchTargets(inDt, outDt, jitter, r, s);
    if targets.Failure? {
      return Failure(targets.error);
    }
    var (inT, outT) := targets.value;
    var i := WaitForDatetimePassed(inT, inClock);
    if i.None? {
      return Success(AwaitingIn(inT, outT));
    }
    var punchedIn := agent.PunchIn(false, inReply);
    if punchedIn.Failure? {
      return Failure(PunchRefused(punchedIn.error));
    }
    var o := WaitForDatetimePassed(outT, outClock);
    if o.None? {
      return Success(AwaitingOut(inT, outT, inClock[i.value]));
    }
    var _ := agent.PunchOut(false, outReply);
    run := Success(Completed(inT, outT, inClock[i.value], outClock[o.value]));
  }

  /** The outcome of `check_is_workay_and_auto_punch`, with the requests its
      freshly built agent sends. */
  function PlannedDay(creds: Credentials, jitter: int, force: bool, login: LoginReplies,
                      days: seq<RawDay>, today: string, r: int, s: int,
                      inClock: seq<int>, outClock: seq<int>): (Result<DayOutcome, DayError>, seq<Request>)
    requires ValidDraws(jitter, r, s)
  {
    var loginRequests := LoginRequests(creds.company, creds.username, creds.password, login);
    match TicketCode(Some(login.auth))
    case Failure(e) => (Failure(LoginFailed(e)), loginRequests)
    case Success(_) =>
      match TodayEntry(days, today)
      case Failure(e) => (Failure(CalendarFailed(e)), loginRequests)
      case Success(cal) =>
        if !cal.isWorkDay && !force then (Success(SkippedNonWorkDay(cal)), loginRequests)
        else
          var run := PlannedRun(cal.workOn, cal.workOff, jitter, r, s, inClock, outClock, true);
          var outcome := match run case Success(p) => Success(Ran(p)) case Failure(e) => Failure(e);
          (outcome, loginRequests + PunchRequests(run))
  }

  /** `check_is_workay_and_auto_punch`: log a fresh agent in, look up today's
      entry, and on a work day (or when forced) run the punch sequence. */
  method CheckIsWorkdayAndAutoPunch(creds: Credentials, jitter: int, force: bool, login: LoginReplies,
                                    days: seq<RawDay>, today: string, r: int, s: int,
                                    inClock: seq<int>, outClock: seq<int>, inReply: Reply, outReply: Reply)
    returns (outcome: Result<DayOutcome, DayError>, sent: seq<Request>)
    requires ValidDraws(jitter, r, s)
    ensures (outcome, sent) == PlannedDay(creds, jitter, force, login, days, today, r, s, inClock, outClock)
  {
    var agent := new ApolloAgent(creds.username, creds.password, creds.company);
    var loggedIn := agent.Login(login);
    assert agent.sent == LoginRequests(creds.company, creds.username, creds.password, login);
    if loggedIn.Fail? {
      return Failure(LoginFailed(loggedIn.error)), agent.sent;
    }
    var cal := GetTodayWorkdayCalendar(days, today);
    if cal.Failure? {
      return Failure(CalendarFailed(cal.error)), agent.sent;
    }
    if !cal.value.isWorkDay && !force {
      return Success(SkippedNonWorkDay(cal.value)), agent.sent;
    }
    var run := DoAutoPunchLoop(agent, cal.value.workOn, cal.value.workOff, jitter, r, s,
                               inClock, outClock, inReply, outReply);
    outcome := match run case Success(p) => Success(Ran(p)) case Failure(e) => Failure(e);
    sent := agent.sent;
  }

  /** One iteration of `auto_punch`: compute the wake target from the reading
      `now` taken at the top of the loop, wait for it over the readings
      `wakeClock`, then check the day with `force` set to the
      negation of `auto_work_day_check`. */
  method AutoPunchDay(now: int, wakeClock: seq<int>, autoWorkDayCheck: bool, creds: Credentials, jitter: int,
                      login: LoginReplies, days: seq<RawDay>, today: string, r: int, s: int,
                      inClock: seq<int>, outClock: seq<int>, inReply: Reply, outReply: Reply)
    returns (outcome: Result<DayOutcome, DayError>, sent: seq<Request>)
    requires ValidDraws(jitter, r, s)
    ensures FirstPassed(wakeClock, WakeTarget(now)).None? ==> outcome == Success(NotYetAwake) && sent == []
    ensures FirstPassed(wakeClock, WakeTarget(now)).Some? ==>
      (outcome, sent) == PlannedDay(creds, jitter, !autoWorkDayCheck, login, days, today, r, s, inClock, outClock)
  {
    var woke := WaitForDatetimePassed(WakeTarget(now), wakeClock);
    if woke.None? {
      return Success(NotYetAwake), [];
    }
    outcome, sent := CheckIsWorkdayAndAutoPunch(creds, jitter, !autoWorkDayCheck, login, days, today, r, s,
                                                inClock, outClock, inReply, outReply);
  }

  /** Every day's requests begin with the login handshake of its fresh agent. */
  lemma PlannedDayStartsWithLogin(creds: Credentials, jitter: int, force: bool, login: LoginReplies,
                                  days: seq<RawDay>, today: string, r: int, s: int,
                                  inClock: seq<int>, outClock: seq<int>)
    requires ValidDraws(jitter, r, s)
    ensures var loginRequests := LoginRequests(creds.company, creds.username, creds.password, login);
      var sent := PlannedDay(creds, jitter, force, login, days, today, r, s, inClock, outClock).1;
      |loginRequests| <= |sent| && sent[..|loginRequests|] == loginRequests
  {
  }

  /** The gate: on a non-work day without `force` the day is skipped and no
      punch is sent. */
  lemma NonWorkDayWithoutForceNeverPunches(creds: Credentials, jitter: int, login: LoginReplies,
                                           days: seq<RawDay>, today: string, r: int, s: int,
                                           inClock: seq<int>, outClock: seq<int>)
    requires ValidDraws(jitter, r, s)
    requires TodayEntry(days, today).Success? && !TodayEntry(days, today).value.isWorkDay
    ensures var (outcome, sent) := PlannedDay(creds, jitter, false, login, days, today, r, s, inClock, outClock);
      && (outcome.Success? ==> outcome.value == SkippedNonWorkDay(TodayEntry(days, today).value))
      && forall q :: q in sent ==> !q.PunchCard?
  {
  }

  /** With `force` the gate lets a non-work day through, but such a day lacks
      a shift time, so the target arithmetic fails before any punch is sent. */
  lemma ForcedNonWorkDayFailsBeforePunching(creds: Credentials, jitter: int, login: LoginReplies,
                                            days: seq<RawDay>, today: string, r: int, s: int,
                                            inClock: seq<int>, outClock: seq<int>)
    requires ValidDraws(jitter, r, s)
    requires "code" in login.auth
    requires TodayEntry(days, today).Success? && !TodayEntry(days, today).value.isWorkDay
    ensures var (outcome, sent) := PlannedDay(creds, jitter, true, login, days, today, r, s, inClock, outClock);
      && outcome == Failure(if jitter < 0 then EmptyJitterRange else MissingShiftTime)
      && forall q :: q in sent ==> !q.PunchCard?
  {
    CalendarMapEntriesWellFormed(days);
    LoginRequestsOrder(creds.company, creds.username, creds.password, login);
  }

  /** On a work day after a successful login the punches are never refused:
      the sequence runs as far as the readings go, clock-in then clock-out,
      with targets inside the jitter windows around the shift times. */
  lemma WorkDayPunchesInThenOut(creds: Credentials, jitter: int, force: bool, login: LoginReplies,
                                days: seq<RawDay>, today: string, r: int, s: int,
                                inClock: seq<int>, outClock: seq<int>)
    requires ValidDraws(jitter, r, s) && jitter >= 0
    requires "code" in login.auth
    requires TodayEntry(days, today).Success? && TodayEntry(days, today).value.isWorkDay
    ensures var cal := TodayEntry(days, today).value;
      var (outcome, sent) := PlannedDay(creds, jitter, force, login, days, today, r, s, inClock, outClock);
      && outcome.Success? && outcome.value.Ran?
      && cal.workOn.value - jitter <= outcome.value.run.inTarget <= cal.workOn.value
      && cal.workOff.value <= outcome.value.run.outTarget <= cal.workOff.value + jitter
      && sent == LoginRequests(creds.company, creds.username, creds.password, login)
                 + PunchRequests(Success(outcome.value.run))
  {
    CalendarMapEntriesWellFormed(days);
    var cal := TodayEntry(days, today).value;
    PlannedRunTargetsInWindows(cal.workOn.value, cal.workOff.value, jitter, r, s, inClock, outClock, true);
  }
}
