# apollo-hr-agent in Dafny

A model of the core of apollo-hr-agent, a small client for the Apollo HR portal. It logs
in and submits attendance punches (clock-in and clock-out) on a schedule. The model has
three parts.

- **Calendar** (`calendar.dfy`) is the calendar transform of `apollo.py`. Each raw day of the
  scheduling payload becomes an entry `{date, work_on_time, work_off_time, is_work_day, memo}`.
  The entries are stored in a map keyed by date, and today's entry is looked up in it.
  Timestamps are already-parsed ISO instants (`Stamp`: wall-clock seconds plus a UTC offset).
  The GMT+8 conversion is integer arithmetic. A naive local time is a count of seconds.
- **Agent** (`agent.dfy`) is the `ApolloAgent` class of `agent.py`. Its fields `authD` and
  `ticketD` start as `None`. The login steps set them. `check_ticket` and `punch` are guarded on
  a truthy `auth_d`. HTTP replies are inputs. The field `sent` records every request the agent
  would send, in order.
- **Scheduler** (`scheduler.dfy`) holds the scheduling decisions of `apollo.py`:
  - the jittered punch targets;
  - the poll-until-passed wait, over a sequence of clock readings;
  - the work-day/force gate;
  - the daily wake time, and one iteration of the `auto_punch` loop.

  The random draws, the clock readings, today's date key and the replies are all parameters.
  The readings and the date key are taken in GMT+8, the zone of the shift times (see "## Left out").

`common.dfy` holds the `Option`/`Result`/`Outcome` wrappers that stand for `None` and raised
exceptions.

What the proofs establish:
- Entries are keyed by their own date, and a later raw day with the same date wins.
- A day is a work day exactly when both shift times are present.
- Targets stay inside the jitter windows, and every point of a window can be reached.
- Each wait ends at the first reading at or after its target, with no sleep if the target
  has already passed.
- The clock-in is sent before the clock-out, and each one only after its own target.
- A non-work day without `force` sends no punch.
- The login sends its requests in a fixed order.
- `punch` sends nothing without authorisation data.

The model also shows a consequence of the code as written. With `force` set, a non-work day
passes the gate. But such a day always lacks a shift time, so the target arithmetic on the
missing shift time (apollo.py:73-74) raises before any punch is sent. `ForcedNonWorkDayFailsBeforePunching`
proves this. The code does not show what a forced punch on such a day was meant to use, so the
model keeps that behaviour.

## Where the code decides

Behaviours one might expect but the code does not have:
- The skip-to-tomorrow cutoff is hour ≥ 8, and it ignores `force`.
- The wake time is 07:00, not 06:59.
- The wait sleeps a fixed interval. There is no adaptive table.
- The automatic clock-out is sent with `override` false.
- A login page without the anti-forgery token raises nothing: the form carries `None`.
- `login` does not fail on a reply without a code until `check_ticket` looks the code up.

## Model

| member | source | states |
|---|---|---|
| `Calendar.ToLocal` | apollo.py:144-146 | the naive GMT+8 time is the stamp's UTC instant shifted by +8 h |
| `Calendar.ToLocalIdentifiesInstants` | apollo.py:144-152 | two stamps convert to the same local time iff they denote the same instant |
| `Calendar.ToLocalKeepsGmt8Wall` | apollo.py:144-146 | a stamp already at +08:00 keeps its wall time |
| `Calendar.DatePart` | apollo.py:143 | the date is the prefix of `Date` before the first `T` (all of it without a `T`) |
| `Calendar.DatePartUnique` | apollo.py:143 | any `T`-free prefix followed by `T` or the end is that date part |
| `Calendar.NormaliseTime` | apollo.py:144-153 | a falsy time gives `None`, a parsed stamp `Some` of its GMT+8 local time, an unparsable string the parse error carrying that string |
| `Calendar.MemoFor` | apollo.py:157-161 | with an event the memo is the event's memo; without one it is one of the two labels, the work-day label exactly on a work day |
| `Calendar.NormaliseDay` | apollo.py:142-161 | date = date part; each time absent iff its raw field is falsy; work day iff both present; memo = event memo whenever there is an event, else the work-day / day-off label; `WorkOnTime`'s error first |
| `Calendar.CalendarMapFailurePersists` | apollo.py:141-154 | a parse error in any day aborts the whole transform with that error |
| `Calendar.CalendarMapSucceedsIff` | apollo.py:141-166 | the transform succeeds iff every day normalises |
| `Calendar.CalendarMapKeys` | apollo.py:164 | the map's keys are exactly the date parts of the raw days |
| `Calendar.CalendarMapLastWins` | apollo.py:164 | the entry under a date is the normalised form of the last raw day with that date |
| `Calendar.CalendarMapEntriesWellFormed` | apollo.py:156-164 | every entry is stored under its own date and is a work day iff both times are present |
| `Calendar.GetWorkdayCalendars` | apollo.py:137-166 | the loop that builds `result_map` computes the specified map, or the first error |
| `Calendar.GetTodayWorkdayCalendar` | apollo.py:169-171 | today's entry carries today's date; the lookup succeeds iff the transform succeeds and some raw day has that date |
| `Calendar.WorkDayExample` | apollo.py:142-161 | a 09:00–18:00 +08:00 shift without an event is a work day with the work-day memo |
| `Calendar.HolidayExample` | apollo.py:142-161 | a day without shift times whose event memo is "National Holiday" is a non-work day with that memo |
| `Agent.TokenFormFor` | agent.py:33-44 | `userName` is `company-username`, `employeeNo` the username, `companyCode` the company, with the fixed grant type, locale and redirect |
| `Agent.UserNameSplits` | agent.py:43 | the user name splits back into company, `-` and username |
| `Agent.TicketCode` | agent.py:52-55 | a falsy `auth_d` is refused, a missing `code` is a key error, otherwise its `code` is used |
| `Agent.LoginRequestsOrder` | agent.py:24-27 | login sends the page and token form first, then the ticket check with the code and the authorisation, and no punch |
| `Agent.ApolloAgent.constructor` | agent.py:9-14 | a fresh agent has `auth_d` and `ticket_d` empty and has sent nothing |
| `Agent.ApolloAgent.GetAuthToken` | agent.py:29-49 | two requests (page, form) are sent and the reply is kept in `auth_d` whatever it holds |
| `Agent.ApolloAgent.CheckTicket` | agent.py:51-60 | without a truthy `auth_d` or a `code` it fails and nothing changes; otherwise it sends the check with that code and stores the reply in `ticket_d` |
| `Agent.ApolloAgent.GetAuthorized` | agent.py:70-74 | one authorisation request is sent |
| `Agent.ApolloAgent.Login` | agent.py:24-27 | token, then ticket check, then authorisation, stopping at the first error; succeeds iff the reply has a code |
| `Agent.ApolloAgent.Punch` | agent.py:76-99 | without authorisation data it fails and sends nothing; otherwise it sends exactly the given type and override |
| `Agent.ApolloAgent.PunchIn` | agent.py:101-102 | a punch of type 1 with the override passed through |
| `Agent.ApolloAgent.PunchOut` | agent.py:104-105 | a punch of type 2 with the override passed through |
| `Agent.PunchBeforeAndAfterLogin` | agent.py:84-85 | a fresh agent's punch is refused; after a login with a code, the clock-in follows the four handshake requests |
| `Scheduler.PunchTargets` | apollo.py:73-74 | in-target in [in − jitter, in], out-target in [out, out + jitter]; a negative jitter or a missing time is an error |
| `Scheduler.PunchTargetsCoverWindows` | apollo.py:73-74 | every pair of targets in those windows comes from some draws |
| `Scheduler.FirstPassed` | apollo.py:20-26 | the wait ends at the first reading at or after the target, and not while all readings are before it |
| `Scheduler.WaitForDatetimePassed` | apollo.py:20-26 | the polling loop returns exactly that first reading, at once when the target has already passed |
| `Scheduler.HourOf` | apollo.py:113 | `now.hour`: the hour in 0..23 whose hour-long span of the day holds the time |
| `Scheduler.WakeTarget` | apollo.py:111-118 | the wake time is 07:00 sharp of some day |
| `Scheduler.WakeTargetDay` | apollo.py:111-119 | the wake time falls on today when the hour is before 8, on tomorrow otherwise |
| `Scheduler.WakeTargetFromNow` | apollo.py:111-119 | from 08:00 and before 07:00 the wake time lies ahead; between 07:00 and 08:00 it has passed |
| `Scheduler.PlannedRunPunchesAfterTargets` | apollo.py:81-87 | each punch is sent at the first reading at or after its target; a clock-out only after the clock-in |
| `Scheduler.PlannedRunTargetsInWindows` | apollo.py:73-74 | with both shift times, authorised, the run's targets lie in the jitter windows |
| `Scheduler.DoAutoPunchLoop` | apollo.py:68-87 | the agent sends the planned punches: clock-in after its wait, then clock-out after its wait |
| `Scheduler.CheckIsWorkdayAndAutoPunch` | apollo.py:90-102 | a fresh agent logs in, today's entry is looked up, and the gate decides whether the punch sequence runs |
| `Scheduler.AutoPunchDay` | apollo.py:110-120 | one loop iteration waits for the wake time, then checks the day with `force` = not `auto_work_day_check` |
| `Scheduler.PlannedDayStartsWithLogin` | apollo.py:91 | every day's requests begin with the login handshake of a fresh agent |
| `Scheduler.NonWorkDayWithoutForceNeverPunches` | apollo.py:95-98 | on a non-work day without force the day is skipped and no punch is sent |
| `Scheduler.ForcedNonWorkDayFailsBeforePunching` | apollo.py:95-102 | with force, a non-work day fails at the target arithmetic and no punch is sent |
| `Scheduler.WorkDayPunchesInThenOut` | apollo.py:95-102 | on a work day after login the run is never refused, its targets lie in the jitter windows, and the punches are clock-in then clock-out |

## Left out

- HTTP traffic, the `requests` session, its cookies and headers are network I/O. Each reply is an input.
- The endpoints `get_employee_role` and `get_sys_date` are left out: they are diagnostics over the network.
- The calendar fetch: `apollo.py:138` calls `agent.get_employee_calendar()`, but `ApolloAgent` in agent.py defines no such method. As written, that call raises `AttributeError` right after login, so `check_is_workay_and_auto_punch` always fails there and no automatic punch is ever sent. The model assumes a fetch that returns the payload: the raw days are an input to the transform, and no calendar request is recorded.
- Scraping the token out of HTML is a foreign library call. The scraped token is an input, `None` when the page has no such field.
- JSON decoding is a foreign library call. A reply is a flat JSON object (`map<string, string>`).
- A reply that is not a JSON object is left out for the same reason.
- ISO-8601 parsing and the `datetime` time-zone machinery are library code. A time field is falsy, an already-parsed stamp with its offset, or an unparsable string.
- A naive ISO string without an offset is left out. `astimezone` would read it in the host's zone, which is outside the model.
- A null `ShiftSchedule` is left out. In the source, `None["WorkOnTime"]` raises `TypeError`.
- A truthy `CalendarEvent` without `EventMemo` is left out. In the source it raises `KeyError`.
- A truthy `CalendarEvent` whose `EventMemo` is `null` is left out. In the source the memo becomes `None` (apollo.py:158), which a memo `string` cannot hold.
- The host's time zone is taken to be GMT+8. `datetime.now()` (apollo.py:21, apollo.py:111) and today's key (`strftime` at apollo.py:171) use the host's local time, while shift times are converted to GMT+8 and made naive (apollo.py:144-146). The model reads `now`, every clock reading and `today` on the GMT+8 scale. On a host in another zone the source compares readings in that zone with GMT+8 targets. On a UTC host, for example, a 09:00 (GMT+8) clock-in target passes at 09:00 UTC, which is 17:00 in GMT+8, so the punch is sent 8 h late. The 08:00 cutoff, the 07:00 wake time and the date key shift the same way.
- The real clock, `sleep` and `randint` are external. Clock readings and draws are parameters. Each wait gets its own finite sequence of readings, and running out of readings means "still waiting".
- Fractional seconds are left out. `fromisoformat` accepts them, but a `Stamp` holds whole seconds, so shift times and targets are whole seconds.
- Readings are whole seconds too. Given whole-second targets, this is exact for `now >= target`.
- `WaitForDatetimePassed`: does not model the length of each sleep (a fixed argument in the source). The index it returns is the number of sleeps.
- `AutoPunchDay`: today's date key (`strftime("%Y-%m-%d")` of the clock) is an input and is not derived from the readings.
- The readings of the different waits are not tied together as one monotonic clock.
- The outer `while True` of `auto_punch` never terminates. One iteration is modelled.
- An exception ends that loop, and the model returns it as a `DayError`.
- The module globals `agent` and `auth_d` are threaded as values. `prepare_login_agent` becomes the fresh agent that `CheckIsWorkdayAndAutoPunch` builds and logs in.
- The Typer CLI (`init`, `punch-in`, `punch-out`, `test`, the `--config` callback) is left out: it is I/O.
- Reading and writing the config file, `print_json`, the prints and `dump_cookie_keys` are left out: they are I/O.
