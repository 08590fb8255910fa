/**
 * The daily reminder run of the DailyDiction mail service
 * (DailyDiction/word-api/sendDailyEmails.js): check the mail configuration, load the
 * subscriber list from its file, send one reminder per subscriber in order, and summarise.
 *
 * The mail transport is an oracle: whether its configuration check passes is a boolean, and
 * whether the reminder of call number `i` to `email` is sent is `send(i, email)`.
 */
module DailyEmails {
  import opened Wrappers

  type Email = string

  /** Outcome of the reminder for call number `i` (from 0) of a run to `email`. */
  type Notifier = (nat, Email) -> bool

  /** One entry of the run's result list: a subscriber and whether the reminder went out. */
  datatype SendResult = SendResult(email: Email, success: bool)

  /** How a run ended: configuration rejected, nobody to send to, or every subscriber tried. */
  datatype Status = ConfigInvalid | NoSubscribers | Completed

  /**
   * What a run reports: the notifier calls made, the result list and the summary. `pauses`
   * counts the waits between sends, which the log does not report.
   */
  datatype RunResult = RunResult(
    status: Status,
    attempted: nat,
    results: seq<SendResult>,
    successful: nat,
    failed: nat,
    failedEmails: seq<Email>,
    pauses: nat)

  /** The subscriber file; `None` when it is missing or cannot be read or parsed. */
  class SubscriberStore {
    var file: Option<seq<Email>>

    constructor (file: Option<seq<Email>>)
      ensures this.file == file
    {
      this.file := file;
    }

    /** The stored list, or the empty list when there is no usable file; never fails. */
    method Load() returns (subscribers: seq<Email>)
      ensures file.Some? ==> subscribers == file.value
      ensures file.None? ==> subscribers == []
    {
      if file.Some? {
        subscribers := file.value;
      } else {
        subscribers := [];
      }
    }

    /** Overwrites the whole file with `subscribers`. */
    method Save(subscribers: seq<Email>)
      modifies this
      ensures file == Some(subscribers)
    {
      file := Some(subscribers);
    }
  }

  /** What loading the file yields. */
  function Loaded(file: Option<seq<Email>>): (subscribers: seq<Email>) {
    file.GetOr([])
  }

  /** The entries of `results` whose outcome is `success`, in order (`results.filter`). */
  function WithOutcome(results: seq<SendResult>, success: bool): (kept: seq<SendResult>)
    decreases |results|
  {
    if results == [] then []
    else (if results[0].success == success then [results[0]] else []) + WithOutcome(results[1..], success)
  }

  /** The emails of `results`, in order. */
  function Emails(results: seq<SendResult>): (emails: seq<Email>)
    ensures |emails| == |results|
    ensures forall i :: 0 <= i < |results| ==> emails[i] == results[i].email
    decreases |results|
  {
    if results == [] then [] else [results[0].email] + Emails(results[1..])
  }

  /** One notifier call per subscriber, in list order, the i-th being call number i. */
  function Attempts(subscribers: seq<Email>, send: Notifier): (results: seq<SendResult>) {
    seq(|subscribers|, i requires 0 <= i < |subscribers| => SendResult(subscribers[i], send(i, subscribers[i])))
  }

  /** A run that made no notifier call. */
  function Stopped(status: Status): (run: RunResult) {
    RunResult(status, 0, [], 0, 0, [], 0)
  }

  /** The report of a run over `subscribers`, given the configuration check and the notifier. */
  function Dispatch(configValid: bool, subscribers: seq<Email>, send: Notifier): (run: RunResult) {
    if !configValid then Stopped(ConfigInvalid)
    else if |subscribers| == 0 then Stopped(NoSubscribers)
    else
      var results := Attempts(subscribers, send);
      RunResult(Completed, |subscribers|, results,
        |WithOutcome(results, true)|, |WithOutcome(results, false)|,
        Emails(WithOutcome(results, false)), |subscribers|)
  }

  /**
   * The subscribers of positions `from` onwards whose reminder failed, in list order: the
   * reference definition of the failed-email list.
   */
  function FailedFrom(subscribers: seq<Email>, send: Notifier, from: nat): (failed: seq<Email>)
    decreases |subscribers| - from
  {
    if from >= |subscribers| then []
    else
      (if send(from, subscribers[from]) then [] else [subscribers[from]])
      + FailedFrom(subscribers, send, from + 1)
  }

  /**
   * The run: configuration check, then the subscriber list, then one reminder per
   * subscriber with a pause after each, then the summary.
   */
  method SendDailyEmails(configValid: bool, store: SubscriberStore, send: Notifier) returns (run: RunResult)
    ensures run == Dispatch(configValid, Loaded(store.file), send)
  {
    if !configValid {
      return Stopped(ConfigInvalid);
    }
    var subscribers := store.Load();
    if |subscribers| == 0 {
      return Stopped(NoSubscribers);
    }
    var results: seq<SendResult> := [];
    var attempted: nat := 0;
    var pauses: nat := 0;
    for i := 0 to |subscribers|
      invariant attempted == i && pauses == i
      invariant |results| == i
      invariant forall k :: 0 <= k < i ==> results[k] == SendResult(subscribers[k], send(k, subscribers[k]))
    {
      var email := subscribers[i];
      var success := send(attempted, email);
      attempted := attempted + 1;
      results := results + [SendResult(email, success)];
      pauses := pauses + 1;
    }
    assert results == Attempts(subscribers, send);
    var successful := |WithOutcome(results, true)|;
    var failed := |WithOutcome(results, false)|;
    var failedEmails := Emails(WithOutcome(results, false));
    run := RunResult(Completed, attempted, results, successful, failed, failedEmails, pauses);
  }

  /** Saving a list into the store and loading it again gives back that list. */
  method SaveThenLoadStore(store: SubscriberStore, subscribers: seq<Email>) returns (loaded: seq<Email>)
    modifies store
    ensures store.file == Some(subscribers)
    ensures loaded == subscribers
  {
    store.Save(subscribers);
    loaded := store.Load();
  }

  /** A missing or corrupt file loads as the empty list: the value-level form of `Load`'s ensures. */
  lemma MissingFileLoadsEmpty()
    ensures Loaded(None) == []
  {
  }

  /** Loading what `Save` writes gives the saved list: the value-level form of `SaveThenLoadStore`. */
  lemma SaveThenLoad(subscribers: seq<Email>)
    ensures Loaded(Some(subscribers)) == subscribers
  {
  }

  /** A rejected configuration ends the run with no notifier call and no pause. */
  lemma ConfigFailureSendsNothing(subscribers: seq<Email>, send: Notifier)
    ensures var r := Dispatch(false, subscribers, send);
      r.status == ConfigInvalid && r.attempted == 0 && r.results == [] && r.pauses == 0
  {
  }

  /** An empty list ends the run with no notifier call. */
  lemma EmptyListSendsNothing(send: Notifier)
    ensures var r := Dispatch(true, [], send);
      r.status == NoSubscribers && r.attempted == 0 && r.results == [] && r.pauses == 0
  {
  }

  /**
   * With a valid configuration and a non-empty list, the run makes exactly one call per list
   * entry (duplicates included), in list order, and records its outcome, with a pause after each.
   */
  lemma OneAttemptPerSubscriber(subscribers: seq<Email>, send: Notifier)
    requires subscribers != []
    ensures var r := Dispatch(true, subscribers, send);
      && r.status == Completed
      && r.attempted == |r.results| == |subscribers| == r.pauses
      && (forall i :: 0 <= i < |subscribers| ==>
            r.results[i].email == subscribers[i] && r.results[i].success == send(i, subscribers[i]))
  {
  }

  /** A failed reminder does not stop the run: who is tried does not depend on any outcome. */
  lemma FailuresDoNotAbort(configValid: bool, subscribers: seq<Email>, send: Notifier, other: Notifier)
    ensures Emails(Dispatch(configValid, subscribers, send).results)
         == Emails(Dispatch(configValid, subscribers, other).results)
         == (if configValid then subscribers else [])
  {
    var a, b := Dispatch(configValid, subscribers, send), Dispatch(configValid, subscribers, other);
    assert Emails(a.results) == (if configValid then subscribers else []);
    assert Emails(b.results) == (if configValid then subscribers else []);
  }

  /** Every entry is counted once, as a success or as a failure. */
  lemma {:induction false} OutcomesPartition(results: seq<SendResult>)
    ensures |WithOutcome(results, true)| + |WithOutcome(results, false)| == |results|
    decreases |results|
  {
    if results != [] {
      OutcomesPartition(results[1..]);
    }
  }

  /** The entries kept by the filter are exactly those with the given outcome. */
  lemma {:induction false} WithOutcomeMembers(results: seq<SendResult>, success: bool, r: SendResult)
    ensures r in WithOutcome(results, success) <==> r in results && r.success == success
    decreases |results|
  {
    if results != [] {
      WithOutcomeMembers(results[1..], success, r);
      assert results == [results[0]] + results[1..];
    }
  }

  /** The run's counts partition its result list, which has one entry per notifier call. */
  lemma RunCountsPartition(configValid: bool, subscribers: seq<Email>, send: Notifier)
    ensures var r := Dispatch(configValid, subscribers, send);
      r.successful + r.failed == |r.results| == r.attempted
  {
    OutcomesPartition(Dispatch(configValid, subscribers, send).results);
  }

  lemma {:induction false} FailedSuffix(subscribers: seq<Email>, send: Notifier, from: nat)
    requires from <= |subscribers|
    ensures Emails(WithOutcome(Attempts(subscribers, send)[from..], false)) == FailedFrom(subscribers, send, from)
    decreases |subscribers| - from
  {
    var all := Attempts(subscribers, send);
    if from < |subscribers| {
      FailedSuffix(subscribers, send, from + 1);
      assert all[from..][1..] == all[from + 1..];
      var head := if all[from].success then [] else [all[from]];
      assert WithOutcome(all[from..], false) == head + WithOutcome(all[from + 1..], false);
      EmailsAppend(head, WithOutcome(all[from + 1..], false));
    }
  }

  lemma EmailsAppend(a: seq<SendResult>, b: seq<SendResult>)
    ensures Emails(a + b) == Emails(a) + Emails(b)
  {
    assert |Emails(a + b)| == |Emails(a) + Emails(b)|;
    forall i | 0 <= i < |a + b| ensures Emails(a + b)[i] == (Emails(a) + Emails(b))[i] {
    }
  }

  /**
   * The failed-email list is the subsequence of the subscriber list whose reminder failed, in
   * list order; it is non-empty exactly when the failure count is positive.
   */
  lemma FailedEmailsInOrder(subscribers: seq<Email>, send: Notifier)
    ensures var r := Dispatch(true, subscribers, send);
      r.failedEmails == FailedFrom(subscribers, send, 0)
      && (r.failedEmails != [] <==> r.failed > 0)
  {
    if subscribers != [] {
      FailedSuffix(subscribers, send, 0);
      assert Attempts(subscribers, send)[0..] == Attempts(subscribers, send);
    }
  }

  /** An email is in `FailedFrom(.., from)` iff some position from `from` on holds it and failed. */
  lemma {:induction false} FailedFromMembers(subscribers: seq<Email>, send: Notifier, from: nat, e: Email)
    ensures e in FailedFrom(subscribers, send, from) <==>
      exists i :: from <= i < |subscribers| && subscribers[i] == e && !send(i, subscribers[i])
    decreases |subscribers| - from
  {
    if from < |subscribers| {
      FailedFromMembers(subscribers, send, from + 1, e);
    }
  }

  /** An email is reported as failed iff it sits at some position of the list whose call failed. */
  lemma FailedEmailsExactly(configValid: bool, subscribers: seq<Email>, send: Notifier, e: Email)
    ensures e in Dispatch(configValid, subscribers, send).failedEmails <==>
      configValid && exists i :: 0 <= i < |subscribers| && subscribers[i] == e && !send(i, subscribers[i])
  {
    FailedFromMembers(subscribers, send, 0, e);
    if configValid {
      FailedEmailsInOrder(subscribers, send);
    }
  }

  /** Three subscribers, the second reminder failing: three tries, two successes, one failure. */
  lemma SecondOfThreeFails(a: Email, b: Email, c: Email, send: Notifier)
    requires send(0, a) && !send(1, b) && send(2, c)
    ensures var r := Dispatch(true, [a, b, c], send);
      && r.status == Completed && r.attempted == 3 && r.pauses == 3
      && r.successful == 2 && r.failed == 1 && r.failedEmails == [b]
  {
    var rs := Attempts([a, b, c], send);
    var ra, rb, rc := SendResult(a, true), SendResult(b, false), SendResult(c, true);
    assert rs == [ra, rb, rc];
    assert rs[1..] == [rb, rc] && rs[1..][1..] == [rc] && rs[1..][1..][1..] == [];
    assert [rc][1..] == [] && [rb, rc][1..] == [rc];
    assert WithOutcome([], true) == [] && WithOutcome([], false) == [];
    assert WithOutcome([rc], true) == [rc] && WithOutcome([rc], false) == [];
    assert WithOutcome([rb, rc], true) == [rc] && WithOutcome([rb, rc], false) == [rb];
    assert WithOutcome(rs, true) == [ra, rc] && WithOutcome(rs, false) == [rb];
  }
}
