/**
 * The bounded poll loop shared by the connection attempts of `WiFiClass`
 * (src/WiFi.cpp): after a successful initiation request the controller
 * repeatedly fires the scenario's callback, waits, polls the co-processor and
 * decrements a `uint8_t` attempt counter, until the answer leaves the
 * scenario's "still pending" set or the counter reaches zero.
 */
module Connection {
  import opened Types
  import opened Trace

  /** Which loop condition applies: station join, access point start, or network scan. */
  datatype Mode = Station | AccessPoint | Scanning

  /** The answers for which the do-while loop of `mode` polls again. */
  predicate Pending(mode: Mode, answer: uint8)
  {
    match mode
    case Station => answer == WL_IDLE_STATUS || answer == WL_NO_SSID_AVAIL || answer == WL_SCAN_COMPLETED
    case AccessPoint => answer == WL_IDLE_STATUS || answer == WL_SCAN_COMPLETED
    case Scanning => answer == 0
  }

  /**
   * The co-processor as seen by one attempt: the driver's reply to the
   * initiation request, and the answers its successive polls return.
   */
  datatype Driver = Driver(reply: int8, answers: seq<uint8>)

  /** The value an operation returns together with what it did to the outside world. */
  datatype Report<T> = Report(result: T, trace: seq<Event>)

  /**
   * The most polls one attempt can make when the `uint8_t` counter starts at
   * `retryCount`: the number of `--attempts > 0` tests it takes to bring the
   * counter back to zero, so a count of 0 wraps and allows 256 polls.
   */
  function AttemptBudget(retryCount: uint8): (b: nat)
    ensures 1 <= b <= 0x100
    ensures b % 0x100 == retryCount as int
  {
    if retryCount == 0 then 0x100 else retryCount as int
  }

  /**
   * The number of polls the loop makes on `answers` within `budget`: every
   * poll but the last was pending, and the last one either settled or used
   * up the budget.
   */
  function PollsMade(mode: Mode, answers: seq<uint8>, budget: nat): (k: nat)
    requires 1 <= budget <= |answers|
    ensures 1 <= k <= budget
    ensures forall j :: 0 <= j < k - 1 ==> Pending(mode, answers[j])
    ensures k < budget ==> !Pending(mode, answers[k - 1])
    decreases budget
  {
    if budget == 1 || !Pending(mode, answers[0]) then 1
    else 1 + PollsMade(mode, answers[1..], budget - 1)
  }

  /** The conditions of `PollsMade` determine the number of polls uniquely. */
  lemma PollsMadeIsFirstSettled(mode: Mode, answers: seq<uint8>, budget: nat, k: nat)
    requires 1 <= budget <= |answers|
    requires 1 <= k <= budget
    requires forall j :: 0 <= j < k - 1 ==> Pending(mode, answers[j])
    requires k < budget ==> !Pending(mode, answers[k - 1])
    ensures PollsMade(mode, answers, budget) == k
  {
  }

  /** The passes over the first `n + 1` answers are those over the first `n`, and one more. */
  lemma RoundsExtend(cb: Callback, ms: uint32, answers: seq<uint8>, n: nat)
    requires n < |answers|
    ensures Rounds(cb, ms, answers[..n + 1]) == Rounds(cb, ms, answers[..n]) + Round(cb, ms, answers[n])
  {
    assert answers[..n + 1][..n] == answers[..n];
  }

  /**
   * The do-while loop: fire `cb` if it is set, wait `ms`, poll, and go round
   * again while the answer is pending and the decremented counter is not zero.
   */
  method PollUntilSettled(mode: Mode, cb: Callback, ms: uint32, retryCount: uint8, answers: seq<uint8>)
    returns (last: uint8, trace: seq<Event>)
    requires AttemptBudget(retryCount) <= |answers|
    ensures var k := PollsMade(mode, answers, AttemptBudget(retryCount));
      last == answers[k - 1] && trace == Rounds(cb, ms, answers[..k])
  {
    ghost var budget := AttemptBudget(retryCount);
    var attempts := retryCount;
    var polled := 0;
    last := WL_IDLE_STATUS;
    trace := [];
    var again := true;
    while again
      invariant 0 <= polled <= budget
      invariant trace == Rounds(cb, ms, answers[..polled])
      invariant polled == 0 ==> again && attempts == retryCount
      invariant again && 0 < polled ==> attempts as int == budget - polled
      invariant again ==> polled < budget && forall j :: 0 <= j < polled ==> Pending(mode, answers[j])
      invariant !again ==> 0 < polled && last == answers[polled - 1] && polled == PollsMade(mode, answers, budget)
      decreases budget - polled
    {
      ghost var before := trace;
      if cb.Fn? {
        trace := trace + [Notify(cb.id)];
      }
      trace := trace + [Delay(ms)];
      last := answers[polled];
      trace := trace + [Poll(last)];
      assert trace == before + Round(cb, ms, last);
      RoundsExtend(cb, ms, answers, polled);
      polled := polled + 1;
      if Pending(mode, last) {
        attempts := Decrement(attempts);
        again := attempts > 0;
      } else {
        again := false;
      }
      if !again {
        PollsMadeIsFirstSettled(mode, answers, budget, polled);
      }
    }
  }

  /**
   * One connection attempt: send `command`; if the driver rejects it, return
   * `failCode` at once, otherwise run the poll loop and return its last answer.
   */
  function Attempt(mode: Mode, command: Command, failCode: uint8, cb: Callback, ms: uint32,
                   retryCount: uint8, driver: Driver): Report<uint8>
    requires AttemptBudget(retryCount) <= |driver.answers|
  {
    if driver.reply == WL_FAILURE then Report(failCode, [Issue(command)])
    else
      var k := PollsMade(mode, driver.answers, AttemptBudget(retryCount));
      Report(driver.answers[k - 1], [Issue(command)] + Rounds(cb, ms, driver.answers[..k]))
  }

  /** The initiation request followed by the poll loop, as each connection operation runs it. */
  method RunAttempt(mode: Mode, command: Command, failCode: uint8, cb: Callback, ms: uint32,
                    retryCount: uint8, driver: Driver)
    returns (status: uint8, trace: seq<Event>)
    requires AttemptBudget(retryCount) <= |driver.answers|
    ensures Report(status, trace) == Attempt(mode, command, failCode, cb, ms, retryCount, driver)
  {
    status := WL_IDLE_STATUS;
    trace := [Issue(command)];
    if driver.reply != WL_FAILURE {
      var rounds;
      status, rounds := PollUntilSettled(mode, cb, ms, retryCount, driver.answers);
      trace := trace + rounds;
    } else {
      status := failCode;
    }
  }

  /**
   * A network scan: request it; if the driver rejects the request return
   * `WL_FAILURE`, otherwise poll the result count while it is zero and return
   * the last count, converted to the `int8_t` return type.
   */
  function Scan(cb: Callback, retryCount: uint8, driver: Driver): Report<int8>
    requires AttemptBudget(retryCount) <= |driver.answers|
  {
    if driver.reply == WL_FAILURE then Report(WL_FAILURE, [Issue(StartScan)])
    else
      var k := PollsMade(Scanning, driver.answers, AttemptBudget(retryCount));
      Report(AsInt8(driver.answers[k - 1]), [Issue(StartScan)] + Rounds(cb, SCAN_DELAY_MS, driver.answers[..k]))
  }

  /** Appending the rounds of the loop after the initiation request. */
  lemma ObserveAfterIssue(command: Command, rounds: seq<Event>)
    ensures Polled([Issue(command)] + rounds) == Polled(rounds)
    ensures Notifications([Issue(command)] + rounds) == Notifications(rounds)
    ensures Silenced([Issue(command)] + rounds) == [Issue(command)] + Silenced(rounds)
  {
    var issue := [Issue(command)];
    assert issue[1..] == [];
    PolledAppend(issue, rounds);
    NotificationsAppend(issue, rounds);
    SilencedAppend(issue, rounds);
  }

  // ---------------------------------------------------------------------------
  // Properties of one connection attempt

  /** A rejected initiation request returns the failure code without polling or notifying. */
  lemma RejectedInitiationShortCircuits(mode: Mode, command: Command, failCode: uint8, cb: Callback,
                                        ms: uint32, retryCount: uint8, driver: Driver)
    requires AttemptBudget(retryCount) <= |driver.answers|
    requires driver.reply == WL_FAILURE
    ensures var r := Attempt(mode, command, failCode, cb, ms, retryCount, driver);
      r.result == failCode && r.trace[0] == Issue(command) &&
      Polled(r.trace) == [] && Notifications(r.trace) == []
  {
    ObserveAfterIssue(command, []);
  }

  /**
   * An accepted initiation request is followed by at least one and at most
   * budget polls, which read the driver's answers in order; the result is the
   * last answer, every earlier answer was pending, and when the budget was
   * not used up the result is not pending.
   */
  lemma {:induction false} AcceptedInitiationPollsWithinBudget(mode: Mode, command: Command, failCode: uint8,
                                                               cb: Callback, ms: uint32, retryCount: uint8,
                                                               driver: Driver)
    requires AttemptBudget(retryCount) <= |driver.answers|
    requires driver.reply != WL_FAILURE
    ensures var r := Attempt(mode, command, failCode, cb, ms, retryCount, driver);
      var p := Polled(r.trace);
      r.trace[0] == Issue(command) &&
      1 <= |p| <= AttemptBudget(retryCount) &&
      (retryCount != 0 ==> |p| <= retryCount as int) &&
      p == driver.answers[..|p|] &&
      r.result == p[|p| - 1] &&
      (forall j :: 0 <= j < |p| - 1 ==> Pending(mode, p[j])) &&
      (|p| < AttemptBudget(retryCount) ==> !Pending(mode, r.result))
  {
    var k := PollsMade(mode, driver.answers, AttemptBudget(retryCount));
    PolledRounds(cb, ms, driver.answers[..k]);
    ObserveAfterIssue(command, Rounds(cb, ms, driver.answers[..k]));
  }

  /** The first answer outside the pending set ends the attempt and is its result. */
  lemma SettledAnswerEndsAttempt(mode: Mode, command: Command, failCode: uint8, cb: Callback,
                                 ms: uint32, retryCount: uint8, driver: Driver, i: nat)
    requires AttemptBudget(retryCount) <= |driver.answers|
    requires driver.reply != WL_FAILURE
    requires i < AttemptBudget(retryCount)
    requires forall j :: 0 <= j < i ==> Pending(mode, driver.answers[j])
    requires !Pending(mode, driver.answers[i])
    ensures var r := Attempt(mode, command, failCode, cb, ms, retryCount, driver);
      r.result == driver.answers[i] && |Polled(r.trace)| == i + 1
  {
    PollsMadeIsFirstSettled(mode, driver.answers, AttemptBudget(retryCount), i + 1);
    AcceptedInitiationPollsWithinBudget(mode, command, failCode, cb, ms, retryCount, driver);
  }

  /**
   * When every answer within the budget is pending, the attempt polls the
   * whole budget and returns the last pending answer as it is.
   */
  lemma ExhaustedAttemptReturnsPendingStatus(mode: Mode, command: Command, failCode: uint8, cb: Callback,
                                             ms: uint32, retryCount: uint8, driver: Driver)
    requires AttemptBudget(retryCount) <= |driver.answers|
    requires driver.reply != WL_FAILURE
    requires forall j :: 0 <= j < AttemptBudget(retryCount) ==> Pending(mode, driver.answers[j])
    ensures var r := Attempt(mode, command, failCode, cb, ms, retryCount, driver);
      |Polled(r.trace)| == AttemptBudget(retryCount) &&
      r.result == driver.answers[AttemptBudget(retryCount) - 1] && Pending(mode, r.result)
  {
    var b := AttemptBudget(retryCount);
    PollsMadeIsFirstSettled(mode, driver.answers, b, b);
    AcceptedInitiationPollsWithinBudget(mode, command, failCode, cb, ms, retryCount, driver);
  }

  /** A retry count of 0 wraps the `uint8_t` counter: a pending driver is polled 256 times. */
  lemma ZeroRetryCountWrapsTo256Polls(mode: Mode, command: Command, failCode: uint8, cb: Callback,
                                      ms: uint32, driver: Driver)
    requires 0x100 <= |driver.answers|
    requires driver.reply != WL_FAILURE
    requires forall j :: 0 <= j < 0x100 ==> Pending(mode, driver.answers[j])
    ensures |Polled(Attempt(mode, command, failCode, cb, ms, 0, driver).trace)| == 0x100
  {
    ExhaustedAttemptReturnsPendingStatus(mode, command, failCode, cb, ms, 0, driver);
  }

  /**
   * In every pass the callback in the scenario's slot fires exactly once,
   * after the initiation request and before that pass's delay and poll; the
   * attempt ends with a poll, so nothing fires after the last one.
   */
  lemma {:induction false} CallbackFiresOncePerPoll(mode: Mode, command: Command, failCode: uint8, cb: Callback,
                                                    ms: uint32, retryCount: uint8, driver: Driver)
    requires AttemptBudget(retryCount) <= |driver.answers|
    ensures var r := Attempt(mode, command, failCode, cb, ms, retryCount, driver);
      NotifiedBeforeEachPoll(cb, ms, r.trace) &&
      (cb.Fn? ==> Notifications(r.trace) == seq(|Polled(r.trace)|, _ => cb.id)) &&
      (cb.Null? ==> Notifications(r.trace) == []) &&
      (driver.reply != WL_FAILURE ==> r.trace[|r.trace| - 1].Poll?)
  {
    var r := Attempt(mode, command, failCode, cb, ms, retryCount, driver);
    if driver.reply == WL_FAILURE {
      ObserveAfterIssue(command, []);
      assert r.trace == [Issue(command)];
    } else {
      var k := PollsMade(mode, driver.answers, AttemptBudget(retryCount));
      var answers := driver.answers[..k];
      var rounds := Rounds(cb, ms, answers);
      assert r.trace == [Issue(command)] + rounds;
      ObserveAfterIssue(command, rounds);
      PolledRounds(cb, ms, answers);
      NotificationsRounds(cb, ms, answers);
      RoundsNotifyBeforePoll(cb, ms, answers);
      forall j | 0 <= j < |r.trace| && r.trace[j].Poll?
        ensures RoundLength(cb) - 1 <= j && r.trace[j - 1] == Delay(ms) && (cb.Fn? ==> r.trace[j - 2] == Notify(cb.id))
      {
        assert rounds[j - 1].Poll?;
      }
    }
  }

  /**
   * A null callback slot changes neither the result nor the polls: the trace
   * is the one a set slot gives, with the invocations removed.
   */
  lemma NullCallbackOnlyDropsNotifications(mode: Mode, command: Command, failCode: uint8, id: nat,
                                           ms: uint32, retryCount: uint8, driver: Driver)
    requires AttemptBudget(retryCount) <= |driver.answers|
    ensures var withCallback := Attempt(mode, command, failCode, Fn(id), ms, retryCount, driver);
      Attempt(mode, command, failCode, Null, ms, retryCount, driver)
        == Report(withCallback.result, Silenced(withCallback.trace))
  {
    if driver.reply == WL_FAILURE {
      ObserveAfterIssue(command, []);
    } else {
      var k := PollsMade(mode, driver.answers, AttemptBudget(retryCount));
      ObserveAfterIssue(command, Rounds(Fn(id), ms, driver.answers[..k]));
      SilencedRounds(id, ms, driver.answers[..k]);
    }
  }

  /**
   * `WL_NO_SSID_AVAIL` is pending for a station join but terminal for an
   * access point start: an AP attempt that first reads it stops after one poll,
   * while a station join with a budget above one polls again.
   */
  lemma AccessPointStopsOnNoSsid(command: Command, failCode: uint8, cb: Callback, ms: uint32,
                                 retryCount: uint8, driver: Driver)
    requires AttemptBudget(retryCount) <= |driver.answers|
    requires driver.reply != WL_FAILURE
    requires driver.answers[0] == WL_NO_SSID_AVAIL
    ensures var ap := Attempt(AccessPoint, command, failCode, cb, ms, retryCount, driver);
      ap.result == WL_NO_SSID_AVAIL && |Polled(ap.trace)| == 1
    ensures retryCount != 1 ==> |Polled(Attempt(Station, command, failCode, cb, ms, retryCount, driver).trace)| >= 2
  {
    SettledAnswerEndsAttempt(AccessPoint, command, failCode, cb, ms, retryCount, driver, 0);
    AcceptedInitiationPollsWithinBudget(Station, command, failCode, cb, ms, retryCount, driver);
  }

  // ---------------------------------------------------------------------------
  // Properties of a network scan

  /** A rejected scan request returns `WL_FAILURE` without polling. */
  lemma RejectedScanReturnsFailure(cb: Callback, retryCount: uint8, driver: Driver)
    requires AttemptBudget(retryCount) <= |driver.answers|
    requires driver.reply == WL_FAILURE
    ensures var r := Scan(cb, retryCount, driver);
      r.result == WL_FAILURE && Polled(r.trace) == [] && Notifications(r.trace) == []
  {
    ObserveAfterIssue(StartScan, []);
  }

  /**
   * An accepted scan polls the result count while it is zero, within the
   * same budget, and returns the last count; a zero result means every count
   * within the budget was zero; a count below 128 is returned unchanged.
   */
  lemma {:induction false} ScanReturnsLastCount(cb: Callback, retryCount: uint8, driver: Driver)
    requires AttemptBudget(retryCount) <= |driver.answers|
    requires driver.reply != WL_FAILURE
    ensures var r := Scan(cb, retryCount, driver);
      var p := Polled(r.trace);
      1 <= |p| <= AttemptBudget(retryCount) &&
      p == driver.answers[..|p|] &&
      r.result == AsInt8(p[|p| - 1]) &&
      (p[|p| - 1] < 0x80 ==> r.result as int == p[|p| - 1] as int) &&
      (forall j :: 0 <= j < |p| - 1 ==> p[j] == 0) &&
      (r.result == 0 ==> |p| == AttemptBudget(retryCount))
  {
    var k := PollsMade(Scanning, driver.answers, AttemptBudget(retryCount));
    PolledRounds(cb, SCAN_DELAY_MS, driver.answers[..k]);
    ObserveAfterIssue(StartScan, Rounds(cb, SCAN_DELAY_MS, driver.answers[..k]));
  }

  /** With its callback slot empty a scan invokes no callback. */
  lemma EmptyScanSlotNeverNotifies(retryCount: uint8, driver: Driver)
    requires AttemptBudget(retryCount) <= |driver.answers|
    ensures Notifications(Scan(Null, retryCount, driver).trace) == []
  {
    if driver.reply == WL_FAILURE {
      ObserveAfterIssue(StartScan, []);
    } else {
      var k := PollsMade(Scanning, driver.answers, AttemptBudget(retryCount));
      ObserveAfterIssue(StartScan, Rounds(Null, SCAN_DELAY_MS, driver.answers[..k]));
      NotificationsRounds(Null, SCAN_DELAY_MS, driver.answers[..k]);
    }
  }
}
