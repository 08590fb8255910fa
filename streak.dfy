/**
 * The streak and word-history update that the DailyDiction page runs once per
 * page load against the browser's local storage (DailyDiction/DailyDiction.js).
 *
 * A calendar date is a day number; the day before `d` is `d - 1`.
 */
module Streak {
  import opened Wrappers

  type Day = int

  /** Most words the history ever holds after an update: today's plus four earlier ones. */
  const MaxHistory: nat := 5

  /** The day before `d`. */
  function Yesterday(d: Day): (y: Day) { d - 1 }

  /** At most the first `n` elements of `s` (JavaScript's `s.slice(0, n)`). */
  function Take(s: seq<string>, n: nat): (r: seq<string>)
    ensures |r| == if |s| < n then |s| else n
    ensures r == s[..|r|]
  {
    if |s| < n then s else s[..n]
  }

  /** The persisted progress: the last day seen, the streak and the word history, newest first. */
  datatype Progress = Progress(lastSeen: Option<Day>, streak: int, history: seq<string>)

  /** One page load: the day it happens and the word pushed onto the history (the page's fixed `todayWord`). */
  datatype Session = Session(day: Day, word: string)

  /** The state the page works with, read from the stored keys, each of which may be absent. */
  function Restore(storedLastSeen: Option<Day>, storedStreak: Option<int>, storedHistory: Option<seq<string>>): (p: Progress) {
    Progress(storedLastSeen, storedStreak.GetOr(1), storedHistory.GetOr([]))
  }

  /** A page load on `today` rewrites the stored progress only if `today` is not the last day seen. */
  predicate IsNewDay(lastSeen: Option<Day>, today: Day) {
    lastSeen != Some(today)
  }

  /** The streak after a first visit on `today`: one more than before after yesterday, else 1. */
  function NextStreak(lastSeen: Option<Day>, today: Day, prior: int): (streak: int) {
    if lastSeen == Some(Yesterday(today)) then prior + 1 else 1
  }

  /** Today's word in front of at most four earlier entries. */
  function NextHistory(word: string, history: seq<string>): (h: seq<string>) {
    [word] + Take(history, MaxHistory - 1)
  }

  /** The stored progress after a page load on `today` pushing `word`. */
  function AfterVisit(p: Progress, today: Day, word: string): (q: Progress) {
    if IsNewDay(p.lastSeen, today) then
      Progress(Some(today), NextStreak(p.lastSeen, today, p.streak), NextHistory(word, p.history))
    else
      p
  }

  /** The stored progress after a series of page loads, oldest first. */
  function AfterSessions(p: Progress, sessions: seq<Session>): (q: Progress)
    decreases |sessions|
  {
    if sessions == [] then p
    else AfterSessions(AfterVisit(p, sessions[0].day, sessions[0].word), sessions[1..])
  }

  /** The words of `sessions`, newest first. */
  function Newest(sessions: seq<Session>): (words: seq<string>)
    ensures |words| == |sessions|
    decreases |sessions|
  {
    if sessions == [] then [] else Newest(sessions[1..]) + [sessions[0].word]
  }

  /** A positive streak and a history of at most five words. */
  predicate Wellformed(p: Progress) {
    p.streak >= 1 && |p.history| <= MaxHistory
  }

  /** Every session falls on a different day from the one before it (the first from `lastSeen`). */
  predicate EachOnNewDay(lastSeen: Option<Day>, sessions: seq<Session>) {
    (|sessions| > 0 ==> IsNewDay(lastSeen, sessions[0].day)) &&
    forall i :: 0 < i < |sessions| ==> sessions[i - 1].day != sessions[i].day
  }

  /** Every session falls on the day after the one before it. */
  predicate Consecutive(sessions: seq<Session>) {
    forall i :: 0 < i < |sessions| ==> sessions[i].day == sessions[i - 1].day + 1
  }

  /** The local storage keys `lastSeen`, `streak` and `wordHistory`, with their defaults applied. */
  class ProgressStore {
    var lastSeen: Option<Day>
    var streak: int
    var history: seq<string>

    function State(): (p: Progress)
      reads this
    {
      Progress(lastSeen, streak, history)
    }

    /** Reads the stored keys; an absent streak reads as 1 and an absent history as empty. */
    constructor Open(storedLastSeen: Option<Day>, storedStreak: Option<int>, storedHistory: Option<seq<string>>)
      ensures State() == Restore(storedLastSeen, storedStreak, storedHistory)
    {
      lastSeen := storedLastSeen;
      streak := storedStreak.GetOr(1);
      history := storedHistory.GetOr([]);
    }

    /** A page load on `today` pushing `word`; returns the streak the page displays. */
    method Visit(today: Day, word: string) returns (shown: int)
      modifies this
      ensures State() == AfterVisit(old(State()), today, word)
      ensures shown == streak
    {
      if lastSeen != Some(today) {
        if lastSeen == Some(Yesterday(today)) {
          streak := streak + 1;
        } else {
          streak := 1;
        }
        lastSeen := Some(today);
        history := [word] + Take(history, 4);
      }
      shown := streak;
    }
  }

  /** With nothing stored, the streak starts at 1 and the history is empty. */
  lemma NothingStoredDefaults()
    ensures Restore(None, None, None) == Progress(None, 1, [])
    ensures Wellformed(Restore(None, None, None))
  {
  }

  /** Stored keys are taken as they are. */
  lemma StoredKeysKept(lastSeen: Option<Day>, streak: int, history: seq<string>)
    ensures Restore(lastSeen, Some(streak), Some(history)) == Progress(lastSeen, streak, history)
  {
  }

  /** A second page load on the same day changes nothing. */
  lemma SameDayRevisitChangesNothing(p: Progress, today: Day, word: string)
    requires p.lastSeen == Some(today)
    ensures AfterVisit(p, today, word) == p
  {
  }

  /** Loading the page twice on one day is the same as loading it once. */
  lemma VisitIdempotent(p: Progress, today: Day, first: string, second: string)
    ensures AfterVisit(AfterVisit(p, today, first), today, second) == AfterVisit(p, today, first)
  {
  }

  /** A first visit the day after the last one extends the streak by one. */
  lemma NextDayExtendsStreak(p: Progress, today: Day, word: string)
    requires p.lastSeen == Some(Yesterday(today))
    ensures AfterVisit(p, today, word).streak == p.streak + 1
  {
  }

  /** No last day, a gap of two or more days, or a last day in the future resets the streak to 1. */
  lemma OtherDaysResetStreak(p: Progress, today: Day, word: string)
    requires p.lastSeen.None? || p.lastSeen.value < today - 1 || p.lastSeen.value > today
    ensures AfterVisit(p, today, word).streak == 1
  {
  }

  /** After any page load the stored last day is today; after a first visit the streak is the new one. */
  lemma VisitRecordsToday(p: Progress, today: Day, word: string)
    ensures AfterVisit(p, today, word).lastSeen == Some(today)
    ensures IsNewDay(p.lastSeen, today) ==>
      AfterVisit(p, today, word).streak == NextStreak(p.lastSeen, today, p.streak)
  {
  }

  /** A first visit puts today's word in front of the first (up to) four old entries. */
  lemma VisitPushesWord(p: Progress, today: Day, word: string)
    requires IsNewDay(p.lastSeen, today)
    ensures var h := AfterVisit(p, today, word).history;
      && h[0] == word
      && h[1..] == p.history[..if |p.history| < 4 then |p.history| else 4]
      && |h| == (if |p.history| < 4 then |p.history| + 1 else MaxHistory)
      && |h| <= MaxHistory
  {
  }

  /** A streak of at least 1 stays at least 1. */
  lemma StreakStaysPositive(p: Progress, today: Day, word: string)
    requires p.streak >= 1
    ensures AfterVisit(p, today, word).streak >= 1
  {
  }

  /** A single page load keeps the progress wellformed. */
  lemma VisitKeepsWellformed(p: Progress, today: Day, word: string)
    requires Wellformed(p)
    ensures Wellformed(AfterVisit(p, today, word))
  {
  }

  /** Any series of page loads keeps the progress wellformed. */
  lemma {:induction false} SessionsKeepWellformed(p: Progress, sessions: seq<Session>)
    requires Wellformed(p)
    ensures Wellformed(AfterSessions(p, sessions))
    decreases |sessions|
  {
    if sessions != [] {
      VisitKeepsWellformed(p, sessions[0].day, sessions[0].word);
      SessionsKeepWellformed(AfterVisit(p, sessions[0].day, sessions[0].word), sessions[1..]);
    }
  }

  /** After a non-empty series of page loads the stored last day is the day of the last one. */
  lemma {:induction false} SessionsRecordLastDay(p: Progress, sessions: seq<Session>)
    requires sessions != []
    ensures AfterSessions(p, sessions).lastSeen == Some(sessions[|sessions| - 1].day)
    decreases |sessions|
  {
    var q := AfterVisit(p, sessions[0].day, sessions[0].word);
    if |sessions| == 1 {
      assert AfterSessions(q, sessions[1..]) == q;
    } else {
      SessionsRecordLastDay(q, sessions[1..]);
    }
  }

  /**
   * Visits on consecutive days: the streak grows by one per day, counted from the stored
   * streak when the first visit is the day after the last one seen, and from zero otherwise.
   */
  lemma {:induction false} ConsecutiveDaysStreak(p: Progress, sessions: seq<Session>)
    requires sessions != []
    requires Consecutive(sessions)
    requires IsNewDay(p.lastSeen, sessions[0].day)
    ensures AfterSessions(p, sessions).streak ==
      (if p.lastSeen == Some(Yesterday(sessions[0].day)) then p.streak else 0) + |sessions|
    decreases |sessions|
  {
    var q := AfterVisit(p, sessions[0].day, sessions[0].word);
    if |sessions| == 1 {
      assert AfterSessions(q, sessions[1..]) == q;
    } else {
      var rest := sessions[1..];
      assert rest[0].day == sessions[0].day + 1;
      assert Consecutive(rest) by {
        forall i | 0 < i < |rest| ensures rest[i].day == rest[i - 1].day + 1 {
          assert rest[i] == sessions[i + 1] && rest[i - 1] == sessions[i];
        }
      }
      ConsecutiveDaysStreak(q, rest);
    }
  }

  /** Taking `n` after appending only the first `k` of `h` is the same as taking `n` of the whole. */
  lemma TakeAppendTake(x: seq<string>, h: seq<string>, k: nat, n: nat)
    requires |x| + k >= n
    ensures Take(x + Take(h, k), n) == Take(x + h, n)
  {
    var l, r := Take(x + Take(h, k), n), Take(x + h, n);
    assert |l| == |r|;
    forall i | 0 <= i < |l| ensures l[i] == r[i] {
      if i >= |x| {
        assert l[i] == Take(h, k)[i - |x|];
      }
    }
  }

  /**
   * Queue discipline of the history: after one or more page loads each on a new day, the history
   * holds the newest words first, followed by the old history, cut to five entries.
   */
  lemma {:induction false} HistoryKeepsNewest(p: Progress, sessions: seq<Session>)
    requires sessions != []
    requires EachOnNewDay(p.lastSeen, sessions)
    ensures AfterSessions(p, sessions).history == Take(Newest(sessions) + p.history, MaxHistory)
    decreases |sessions|
  {
    var w := sessions[0].word;
    var q := AfterVisit(p, sessions[0].day, w);
    var rest := sessions[1..];
    TakeAppendTake([w], p.history, MaxHistory - 1, MaxHistory);
    if |sessions| == 1 {
      assert AfterSessions(q, rest) == q;
      assert Newest(sessions) == [w];
    } else {
      assert EachOnNewDay(q.lastSeen, rest) by {
        forall i | 0 < i < |rest| ensures rest[i - 1].day != rest[i].day {
          assert rest[i] == sessions[i + 1] && rest[i - 1] == sessions[i];
        }
        assert sessions[0].day != sessions[1].day;
      }
      HistoryKeepsNewest(q, rest);
      TakeAppendTake(Newest(rest) + [w], p.history, MaxHistory - 1, MaxHistory);
      assert Newest(rest) + [w] + p.history == Newest(sessions) + p.history;
    }
  }

  /** After five or more page loads each on a new day, the history is exactly the last five words. */
  lemma LastFiveWords(p: Progress, sessions: seq<Session>)
    requires |sessions| >= MaxHistory
    requires EachOnNewDay(p.lastSeen, sessions)
    ensures AfterSessions(p, sessions).history == Newest(sessions)[..MaxHistory]
  {
    HistoryKeepsNewest(p, sessions);
    assert (Newest(sessions) + p.history)[..MaxHistory] == Newest(sessions)[..MaxHistory];
  }
}
