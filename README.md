# DailyDiction: streak tracking and the daily reminder run, in Dafny

DailyDiction shows a word of the day in the browser and emails a daily reminder to a list of
subscribers. This project models the two pieces of its logic that keep state:

- **The streak tracker** (`DailyDiction/DailyDiction.js`, module `Streak`). Each page load
  reads three local-storage keys: the last day seen, the streak and the word history.
  On the first load of a day it rewrites them. The streak grows by one after a visit
  on the previous day and goes back to 1 otherwise. Today's word goes to the front of the
  history, which keeps at most five words. A second load on the same day changes nothing.
  `ProgressStore` is a class over the stored keys and `Visit` is the page load. The value
  function `AfterVisit` specifies `Visit`, and `AfterSessions` gives the state after
  a series of page loads.
- **The daily reminder run** (`DailyDiction/word-api/sendDailyEmails.js`, module
  `DailyEmails`). The run checks the mail configuration and then loads the subscriber
  file. The load never fails: a missing or corrupt file gives the empty list. The run
  sends one reminder per subscriber, in list order, pausing after each one. A failed
  reminder is recorded as a failure and the run goes on. At the end it counts successes
  and failures and lists the failed addresses. `SendDailyEmails` is the loop;
  `Dispatch` is the value function it is proved equal to.

Modelling choices:

- A calendar date is an integer day number, and the day before `d` is `d - 1`. The page
  takes today's date in UTC (`toISOString`, `DailyDiction.js` line 10). `getYesterday`
  is not defined in `DailyDiction.js` and is not part of this model; it is taken to be
  that predecessor. The model assumes another script on the page defines it. Without
  one, line 15 throws a `ReferenceError` on every first visit of a day. The script then
  stops before the writes at lines 22-24 and before the handlers at lines 29-71 are
  registered.
- The word pushed onto the history is a parameter of each page load. The page itself
  always pushes its hard-coded `todayWord` (`DailyDiction.js` lines 8 and 24), not the
  word it fetches and displays (line 62). Every history lemma holds for that constant
  in particular, where the history fills with copies of the one word.
- The stored keys are optional values. An absent streak reads as 1 and an absent history
  as the empty list (`Restore`, and the constructor `ProgressStore.Open`).
- The mail transport is a parameter. `configValid` is the result of the transport's
  configuration check. `send(i, email)` is the outcome of call number `i` (counting from
  0) to `email`. Because the call number is part of the input, a duplicate address can
  get a different outcome each time it appears.
- The subscriber file is `Option<seq<Email>>`, where `None` means missing, unreadable or
  not parseable.
- The one-second wait after each reminder is counted in `pauses`. The code waits after
  every reminder, the last one included, so a run over `n` subscribers pauses `n` times.
  The comment at `sendDailyEmails.js` line 149 speaks of a delay "between" emails, which
  would be `n - 1`; the model follows the code.
- The run's result is logged, not returned. `RunResult` stands for what the log reports:
  the status, the notifier calls made, the result list, the two counts and the failed
  addresses. Its `pauses` field counts the waits at `sendDailyEmails.js` line 150, which
  the log does not report.

## Model

| member | source | states |
|---|---|---|
| `Streak.ProgressStore.Open` | DailyDiction/DailyDiction.js:4-11 | the store's state is the stored keys; a missing streak is 1 and a missing history is empty |
| `Streak.ProgressStore.Visit` | DailyDiction/DailyDiction.js:13-27 | the new stored state is `AfterVisit` of the old one; the returned value is the stored streak, which the page displays |
| `Streak.NothingStoredDefaults` | DailyDiction/DailyDiction.js:4-5 | with nothing stored the state is no last day, streak 1, empty history, which is wellformed |
| `Streak.StoredKeysKept` | DailyDiction/DailyDiction.js:4-5 | a stored streak and history are used as they are, without defaults |
| `Streak.SameDayRevisitChangesNothing` | DailyDiction/DailyDiction.js:13 | when the last day seen is today, the last day, streak and history all stay the same |
| `Streak.VisitIdempotent` | DailyDiction/DailyDiction.js:13-25 | two loads on the same day, whatever their words, leave the state of one load |
| `Streak.NextDayExtendsStreak` | DailyDiction/DailyDiction.js:15-16 | a first visit the day after the last one gives the old streak plus one |
| `Streak.OtherDaysResetStreak` | DailyDiction/DailyDiction.js:18-21 | with no last day, a gap of two or more days, or a last day in the future, the streak becomes exactly 1 |
| `Streak.VisitRecordsToday` | DailyDiction/DailyDiction.js:22-23 | after any load the stored last day is today; on a first visit the stored streak is the new streak |
| `Streak.VisitPushesWord` | DailyDiction/DailyDiction.js:24 | on a first visit the history starts with today's word, its tail is the first `min(4, n)` old entries, and its length is `min(5, n + 1)` |
| `Streak.StreakStaysPositive` | DailyDiction/DailyDiction.js:5-21 | a streak of at least 1 is still at least 1 after any load |
| `Streak.VisitKeepsWellformed` | DailyDiction/DailyDiction.js:13-25 | a load keeps the streak at least 1 and the history at most 5 words long |
| `Streak.SessionsKeepWellformed` | DailyDiction/DailyDiction.js:13-25 | any series of loads keeps the state wellformed |
| `Streak.SessionsRecordLastDay` | DailyDiction/DailyDiction.js:22 | after a non-empty series of loads the stored last day is the day of the last load |
| `Streak.ConsecutiveDaysStreak` | DailyDiction/DailyDiction.js:13-23 | loads on `k` consecutive days, the first on a new day, give the old streak plus `k` when the first is the day after the last one seen, and `k` otherwise |
| `Streak.HistoryKeepsNewest` | DailyDiction/DailyDiction.js:24 | after loads each on a new day, the history is the newest words first, then the old history, cut to five |
| `Streak.LastFiveWords` | DailyDiction/DailyDiction.js:24 | after five or more loads each on a new day, the history is exactly the last five words, newest first, so the oldest are evicted first |
| `DailyEmails.SubscriberStore.constructor` | DailyDiction/word-api/sendDailyEmails.js:39 | the store holds the given file content |
| `DailyEmails.SubscriberStore.Load` | DailyDiction/word-api/sendDailyEmails.js:41-56 | returns the stored list, or the empty list when the file is missing or corrupt; it has no error case |
| `DailyEmails.SubscriberStore.Save` | DailyDiction/word-api/sendDailyEmails.js:58-65 | the file afterwards holds exactly the saved list |
| `DailyEmails.SaveThenLoadStore` | DailyDiction/word-api/sendDailyEmails.js:41-65 | saving a list into the store and then loading gives back exactly that list, and the file holds it |
| `DailyEmails.MissingFileLoadsEmpty` | DailyDiction/word-api/sendDailyEmails.js:48-55 | a missing or corrupt file loads as the empty list |
| `DailyEmails.SaveThenLoad` | DailyDiction/word-api/sendDailyEmails.js:41-60 | loading after saving a list gives back that list |
| `DailyEmails.SendDailyEmails` | DailyDiction/word-api/sendDailyEmails.js:122-166 | the run's report equals `Dispatch` of the configuration check, the loaded list and the notifier |
| `DailyEmails.ConfigFailureSendsNothing` | DailyDiction/word-api/sendDailyEmails.js:129-133 | a failed configuration check ends the run before loading, with no notifier call and no pause |
| `DailyEmails.EmptyListSendsNothing` | DailyDiction/word-api/sendDailyEmails.js:137-140 | an empty subscriber list ends the run with no notifier call |
| `DailyEmails.OneAttemptPerSubscriber` | DailyDiction/word-api/sendDailyEmails.js:144-151 | with a valid configuration and a non-empty list: one call per list entry, duplicates included, in list order; entry `i` records subscriber `i` and the outcome of call `i`; one pause per call |
| `DailyEmails.FailuresDoNotAbort` | DailyDiction/word-api/sendDailyEmails.js:111-118 | which subscribers are tried, and in what order, does not depend on any outcome, so a failure never stops later sends |
| `DailyEmails.OutcomesPartition` | DailyDiction/word-api/sendDailyEmails.js:153-154 | the success count and the failure count add up to the length of the result list |
| `DailyEmails.WithOutcomeMembers` | DailyDiction/word-api/sendDailyEmails.js:153-154 | the filter keeps an entry exactly when it is in the list and has the requested outcome |
| `DailyEmails.RunCountsPartition` | DailyDiction/word-api/sendDailyEmails.js:144-154 | in every run, successes plus failures equal the number of results, which equals the number of notifier calls |
| `DailyEmails.FailedEmailsInOrder` | DailyDiction/word-api/sendDailyEmails.js:160-164 | the failed-address list is the subsequence of subscribers whose reminder failed, in list order, and it is non-empty exactly when the failure count is positive, for every list |
| `DailyEmails.FailedEmailsExactly` | DailyDiction/word-api/sendDailyEmails.js:160-164 | an address is reported as failed exactly when the configuration passed and some position holding it had a failed call |
| `DailyEmails.SecondOfThreeFails` | DailyDiction/word-api/sendDailyEmails.js:144-164 | three subscribers with only the second failing: three calls, three pauses, two successes, one failure, and the failed list is the second address |

## Left out

- The page's DOM updates, `alert`, the subscribe form and the word-of-the-day `fetch` (`DailyDiction.js` lines 1-2, 6, 27-71): user interface and network I/O. Only the displayed streak is kept, as `Visit`'s result.
- `Date`, `toISOString` and `getYesterday`: dates are day numbers. Time zones are a platform concern.
- Unparseable stored values. A corrupt history breaks `JSON.parse`, and a non-numeric streak becomes `NaN` through `parseInt`. The model's stored keys are always well-typed.
- Number precision: the streak is an unbounded integer. JavaScript numbers lose precision above 2^53, which no real streak reaches.
- The mail transport: creating it, `transporter.verify`, `sendMail` and the HTML message (`sendDailyEmails.js` lines 16-35, 68-109). They are foreign library calls. Only their boolean outcomes are kept, as `configValid` and `send`.
- The credential check, `process.exit`, `dotenv` and the `require.main` entry point (`sendDailyEmails.js` lines 1-13, 168-181): process plumbing.
- Real file reads and writes and JSON parsing. The model treats a file whose JSON is not a list of strings as corrupt, but the source does not fail soft there. It returns any parsed value except `null` unchanged (`sendDailyEmails.js` lines 45-47; `null` becomes `[]` through the error caught at line 46). A number, boolean or object makes the loop at line 145 throw, so the run fails and the process exits with status 1 (lines 175-178). A JSON string is sent to one character at a time, and a list with non-string entries gets one call per entry.
- DailyEmails.SubscriberStore.Save: a write failure is caught and logged by the source and is not modelled. `Save` always succeeds, and crash safety of the write is not modelled either.
- Console logging: the run's summary lines are represented by the fields of `RunResult`.
- The wall-clock length of the one-second pause: only the number of pauses is counted.
- Asynchrony: each `await` is modelled as a call that completes in order. The run is sequential.
- `DailyDiction/word-api/index.js` (the daily cron schedule and server start) is not part of this model. It is scheduler plumbing around one library call.
- Email validation and duplicate rejection at subscription time: neither is in the modelled code.
