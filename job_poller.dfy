/** The job status poller of cmd/submit.go (waitUntilJobFinish): it polls the
    batch service for a job's status, tolerating a bounded run of consecutive
    fetch failures and a bounded number of completed poll cycles.

    The service is an oracle `responses`: `responses(n)` is what the n-th
    status fetch of this poll (counting from 0) returns. */
module JobPoller {
  import opened Wrappers
  import opened BatchClient

  /** The package defaults of the two budgets (cmd/submit.go:151-154). */
  const DefaultMaxFailCount: int := 5
  const DefaultMaxCheckCount: int := 60

  /** The channel a transition notice is printed in. */
  datatype NoticeLevel = Green | Red

  /** One printed line "JobID: .. change status from -> to". */
  datatype Notice = Notice(from: JobStatus, to: JobStatus, level: NoticeLevel)

  /** How a poll ends: success, the job failed remotely, or one of the two budgets ran out. */
  datatype Outcome =
    | JobSucceeded
    | RemoteFailed
    | FetchBudgetExhausted(last: JobStatus)
    | PollBudgetExhausted(last: JobStatus)

  predicate IsTerminal(s: JobStatus)
  {
    s == Succeeded || s == Failed
  }

  /** The switch at cmd/submit.go:170-180: the channel of a notice about a
      change to `to`. It has no case for SUBMITTED, so a change back to
      SUBMITTED prints nothing. */
  function NoticeLevelOf(to: JobStatus): (level: Option<NoticeLevel>)
    ensures level == Some(Red) <==> to == Failed
    ensures level == None <==> to == Submitted
  {
    match to
    case Pending | Runnable | Starting | Running => Some(Green)
    case Succeeded => Some(Green)
    case Failed => Some(Red)
    case Submitted => None
  }

  /** The notices one fetched status produces: none if it equals the recorded one. */
  function TransitionNotices(recorded: JobStatus, current: JobStatus): (notices: seq<Notice>)
    ensures |notices| <= 1
    ensures |notices| == 1 <==> current != recorded && current != Submitted
    ensures |notices| == 1 ==> notices[0].from == recorded && notices[0].to == current
    ensures |notices| == 1 ==> (notices[0].level == Red <==> current == Failed)
  {
    if current == recorded then []
    else
      match NoticeLevelOf(current)
      case None => []
      case Some(level) => [Notice(recorded, current, level)]
  }

  /** The loop's variables: the recorded status and the two counters. */
  datatype PollState = PollState(status: JobStatus, failCount: int, remaining: int)

  /** The state before the first fetch (cmd/submit.go:157-159). */
  function InitialState(maxFailCount: int, maxCheckCount: int): (st: PollState)
    ensures st.status == Submitted
    ensures st.failCount == maxFailCount && st.remaining == maxCheckCount
  {
    PollState(Submitted, maxFailCount, maxCheckCount)
  }

  /** A whole poll from some state on: how it ended, the notices it printed,
      the number of fetches it made and the state it left. */
  datatype Run = Run(outcome: Outcome, notices: seq<Notice>, calls: nat, final: PollState)

  /** The poll loop of cmd/submit.go:160-197 from state `st`, with fetch number
      `k` next. A failed fetch spends the failure budget only; a non-terminal
      status spends one poll cycle and refills the failure budget. */
  function Poll(maxFailCount: int, st: PollState, responses: nat -> Fetched, k: nat): (r: Run)
    decreases st.remaining, st.failCount
  {
    if st.remaining <= 0 then Run(PollBudgetExhausted(st.status), [], 0, st)
    else
      match responses(k)
      case FetchFailed =>
        var next := st.(failCount := st.failCount - 1);
        if next.failCount < 1 then Run(FetchBudgetExhausted(st.status), [], 1, next)
        else
          var r := Poll(maxFailCount, next, responses, k + 1);
          r.(calls := r.calls + 1)
      case Got(current) =>
        var notices := TransitionNotices(st.status, current);
        var recorded := st.(status := current);
        if recorded.status == Succeeded then Run(JobSucceeded, notices, 1, recorded)
        else if recorded.status == Failed then Run(RemoteFailed, notices, 1, recorded)
        else
          var r := Poll(maxFailCount, recorded.(failCount := maxFailCount, remaining := st.remaining - 1), responses, k + 1);
          r.(notices := notices + r.notices, calls := r.calls + 1)
  }

  /** waitUntilJobFinish (cmd/submit.go:156-198), with the budgets it reads
      from the package variables passed in. Returns the outcome, the notices
      printed and the number of status fetches made. */
  method WaitUntilJobFinish(maxFailCount: int, maxCheckCount: int, responses: nat -> Fetched)
    returns (outcome: Outcome, notices: seq<Notice>, calls: nat)
    ensures var r := Poll(maxFailCount, InitialState(maxFailCount, maxCheckCount), responses, 0);
      outcome == r.outcome && notices == r.notices && calls == r.calls
  {
    ghost var whole := Poll(maxFailCount, InitialState(maxFailCount, maxCheckCount), responses, 0);
    var status := Submitted;
    var failCount := maxFailCount;
    var remainingCheckCount := maxCheckCount;
    notices := [];
    calls := 0;
    while remainingCheckCount > 0
      invariant var rest := Poll(maxFailCount, PollState(status, failCount, remainingCheckCount), responses, calls);
        && whole.outcome == rest.outcome
        && whole.notices == notices + rest.notices
        && whole.calls == calls + rest.calls
      decreases remainingCheckCount, failCount
    {
      ghost var rest := Poll(maxFailCount, PollState(status, failCount, remainingCheckCount), responses, calls);
      var fetched := responses(calls);
      calls := calls + 1;
      if fetched.FetchFailed? {
        failCount := failCount - 1;
        if failCount < 1 {
          assert rest.outcome == FetchBudgetExhausted(status) && rest.notices == [] && rest.calls == 1;
          outcome := FetchBudgetExhausted(status);
          return;
        }
        assert rest == Poll(maxFailCount, PollState(status, failCount, remainingCheckCount), responses, calls).(calls := rest.calls);
        continue;
      }
      var current := fetched.status;
      ghost var printed := TransitionNotices(status, current);
      if current != status {
        var level := NoticeLevelOf(current);
        if level.Some? {
          notices := notices + [Notice(status, current, level.value)];
        }
        status := current;
      }
      assert whole.notices == notices + rest.notices[|printed|..];
      if status == Succeeded {
        assert rest.outcome == JobSucceeded && rest.notices == printed && rest.calls == 1;
        outcome := JobSucceeded;
        return;
      }
      if status == Failed {
        assert rest.outcome == RemoteFailed && rest.notices == printed && rest.calls == 1;
        outcome := RemoteFailed;
        return;
      }
      failCount := maxFailCount;
      remainingCheckCount := remainingCheckCount - 1;
      ghost var after := Poll(maxFailCount, PollState(status, failCount, remainingCheckCount), responses, calls);
      assert rest.outcome == after.outcome && rest.notices == printed + after.notices && rest.calls == after.calls + 1;
    }
    // The loop only ends with remainingCheckCount < 1, so the source's
    // trailing `return nil` is never reached.
    outcome := PollBudgetExhausted(status);
  }

  // ---------------------------------------------------------------------------
  // Properties of the poll
  // ---------------------------------------------------------------------------

  /** Fetch number i returned SUCCEEDED or FAILED. */
  ghost predicate TerminalAt(responses: nat -> Fetched, i: nat)
  {
    responses(i).Got? && IsTerminal(responses(i).status)
  }

  /** Fetch number i failed. */
  ghost predicate FailedAt(responses: nat -> Fetched, i: nat)
  {
    responses(i) == FetchFailed
  }

  /** Every fetch numbered lo .. hi-1 failed. */
  ghost predicate FailedBetween(responses: nat -> Fetched, lo: nat, hi: int)
  {
    forall i: nat :: lo <= i < hi ==> FailedAt(responses, i)
  }

  /** Success comes only from a fetched SUCCEEDED, and remote failure only from
      a fetched FAILED, each on the cycle that fetched it: the poll stops at
      the first terminal status, whatever budgets remain. */
  lemma {:induction false} TerminalOutcomes(maxFailCount: int, st: PollState, responses: nat -> Fetched, k: nat)
    ensures var r := Poll(maxFailCount, st, responses, k);
      r.outcome == JobSucceeded <==> r.calls > 0 && responses(k + r.calls - 1) == Got(Succeeded)
    ensures var r := Poll(maxFailCount, st, responses, k);
      r.outcome == RemoteFailed <==> r.calls > 0 && responses(k + r.calls - 1) == Got(Failed)
    ensures var r := Poll(maxFailCount, st, responses, k);
      forall i: nat :: k <= i < k + r.calls - 1 ==> !TerminalAt(responses, i)
    decreases st.remaining, st.failCount
  {
    if st.remaining > 0 {
      match responses(k)
      case FetchFailed =>
        var next := st.(failCount := st.failCount - 1);
        if next.failCount >= 1 {
          TerminalOutcomes(maxFailCount, next, responses, k + 1);
        }
      case Got(current) =>
        if !IsTerminal(current) {
          var next := st.(status := current, failCount := maxFailCount, remaining := st.remaining - 1);
          TerminalOutcomes(maxFailCount, next, responses, k + 1);
        }
    }
  }

  /** The number of consecutive failed fetches that ends a poll when the
      failure budget starts at `failCount`: the budget is spent when it drops
      below 1, and a budget below 1 is spent by the first failure. */
  function Tolerance(failCount: int): (n: nat)
    ensures n >= 1 && (failCount >= 1 ==> n == failCount)
  {
    if failCount >= 1 then failCount else 1
  }

  /** The fetch budget is exhausted only by failures IN A ROW: either every
      fetch of the run failed and there were exactly as many as the budget
      left at its start, or the last Tolerance(maxFailCount) fetches all
      failed. A successful fetch in between refills the budget. */
  lemma {:induction false} FetchBudgetNeedsConsecutiveFailures(maxFailCount: int, st: PollState, responses: nat -> Fetched, k: nat)
    ensures var r := Poll(maxFailCount, st, responses, k);
      r.outcome.FetchBudgetExhausted? ==>
        || (FailedBetween(responses, k, k + r.calls) && r.calls == Tolerance(st.failCount))
        || (r.calls >= Tolerance(maxFailCount) && FailedBetween(responses, k + r.calls - Tolerance(maxFailCount), k + r.calls))
    decreases st.remaining, st.failCount
  {
    if st.remaining > 0 {
      match responses(k)
      case FetchFailed =>
        var next := st.(failCount := st.failCount - 1);
        if next.failCount >= 1 {
          FetchBudgetNeedsConsecutiveFailures(maxFailCount, next, responses, k + 1);
        }
      case Got(current) =>
        if !IsTerminal(current) {
          var next := st.(status := current, failCount := maxFailCount, remaining := st.remaining - 1);
          FetchBudgetNeedsConsecutiveFailures(maxFailCount, next, responses, k + 1);
        }
    }
  }

  /** From the initial state both cases agree: the poll gives up on fetching
      only after Tolerance(maxFailCount) failed fetches in a row. */
  lemma FetchBudgetExhaustedAfterFailuresInARow(maxFailCount: int, maxCheckCount: int, responses: nat -> Fetched)
    ensures var r := Poll(maxFailCount, InitialState(maxFailCount, maxCheckCount), responses, 0);
      r.outcome.FetchBudgetExhausted? ==>
        r.calls >= Tolerance(maxFailCount) && FailedBetween(responses, r.calls - Tolerance(maxFailCount), r.calls)
  {
    FetchBudgetNeedsConsecutiveFailures(maxFailCount, InitialState(maxFailCount, maxCheckCount), responses, 0);
  }

  /** Conversely, failed fetches in a row as many as the failure budget left
      end the poll: it gives up on the last of them, reports the recorded
      status, prints nothing and spends no poll cycle. */
  lemma {:induction false} FailuresInARowExhaustFetchBudget(maxFailCount: int, st: PollState, responses: nat -> Fetched, k: nat)
    requires st.remaining > 0 && st.failCount >= 1
    requires FailedBetween(responses, k, k + st.failCount)
    ensures Poll(maxFailCount, st, responses, k) == Run(FetchBudgetExhausted(st.status), [], st.failCount, st.(failCount := 0))
    decreases st.failCount
  {
    assert FailedAt(responses, k);
    if st.failCount >= 2 {
      FailuresInARowExhaustFetchBudget(maxFailCount, st.(failCount := st.failCount - 1), responses, k + 1);
    }
  }

  /** From the initial state with positive budgets: `maxFailCount` failed
      fetches at the start give up on fetching after exactly that many. */
  lemma InitialFailuresExhaustFetchBudget(maxFailCount: int, maxCheckCount: int, responses: nat -> Fetched)
    requires maxFailCount >= 1 && maxCheckCount >= 1
    requires FailedBetween(responses, 0, maxFailCount)
    ensures Poll(maxFailCount, InitialState(maxFailCount, maxCheckCount), responses, 0)
      == Run(FetchBudgetExhausted(Submitted), [], maxFailCount, PollState(Submitted, 0, maxCheckCount))
  {
    FailuresInARowExhaustFetchBudget(maxFailCount, InitialState(maxFailCount, maxCheckCount), responses, 0);
  }

  /** The number of fetches among k .. k+n-1 that returned a non-terminal status. */
  function CompletedCycles(responses: nat -> Fetched, k: nat, n: nat): nat
    decreases n
  {
    if n == 0 then 0
    else (if responses(k).Got? && !IsTerminal(responses(k).status) then 1 else 0) + CompletedCycles(responses, k + 1, n - 1)
  }

  /** The last status fetched among k .. k+n-1, or `recorded` when none was. */
  function LastObserved(responses: nat -> Fetched, k: nat, n: nat, recorded: JobStatus): JobStatus
    decreases n
  {
    if n == 0 then recorded
    else LastObserved(responses, k + 1, n - 1, if responses(k).Got? then responses(k).status else recorded)
  }

  /** What the counters and the recorded status are after a run: the poll
      budget drops by exactly the number of fetched non-terminal statuses
      (failed fetches never spend it), the recorded status is the last one
      fetched, and a poll that runs out of either budget reports it. */
  lemma {:induction false} PollAccounting(maxFailCount: int, st: PollState, responses: nat -> Fetched, k: nat)
    ensures var r := Poll(maxFailCount, st, responses, k);
      r.final.remaining == st.remaining - CompletedCycles(responses, k, r.calls)
    ensures var r := Poll(maxFailCount, st, responses, k);
      r.final.status == LastObserved(responses, k, r.calls, st.status)
    ensures var r := Poll(maxFailCount, st, responses, k);
      r.outcome.PollBudgetExhausted? ==>
        r.final.remaining == (if st.remaining < 0 then st.remaining else 0) && r.outcome.last == r.final.status
    ensures var r := Poll(maxFailCount, st, responses, k);
      r.outcome.FetchBudgetExhausted? ==> r.outcome.last == r.final.status
    decreases st.remaining, st.failCount
  {
    if st.remaining > 0 {
      match responses(k)
      case FetchFailed =>
        var next := st.(failCount := st.failCount - 1);
        if next.failCount >= 1 {
          PollAccounting(maxFailCount, next, responses, k + 1);
        }
      case Got(current) =>
        if !IsTerminal(current) {
          var next := st.(status := current, failCount := maxFailCount, remaining := st.remaining - 1);
          PollAccounting(maxFailCount, next, responses, k + 1);
        }
    }
  }

  /** Every printed notice reports a real change of status to a status other
      than SUBMITTED, in red exactly when the job failed; and no fetch prints
      more than one notice. */
  lemma {:induction false} NoticesAreTransitions(maxFailCount: int, st: PollState, responses: nat -> Fetched, k: nat)
    ensures var r := Poll(maxFailCount, st, responses, k);
      |r.notices| <= r.calls
    ensures var r := Poll(maxFailCount, st, responses, k);
      forall i :: 0 <= i < |r.notices| ==>
        && r.notices[i].from != r.notices[i].to
        && r.notices[i].to != Submitted
        && (r.notices[i].level == Red <==> r.notices[i].to == Failed)
    decreases st.remaining, st.failCount
  {
    if st.remaining > 0 {
      match responses(k)
      case FetchFailed =>
        var next := st.(failCount := st.failCount - 1);
        if next.failCount >= 1 {
          NoticesAreTransitions(maxFailCount, next, responses, k + 1);
        }
      case Got(current) =>
        if !IsTerminal(current) {
          var next := st.(status := current, failCount := maxFailCount, remaining := st.remaining - 1);
          NoticesAreTransitions(maxFailCount, next, responses, k + 1);
          var rest := Poll(maxFailCount, next, responses, k + 1);
          var here := TransitionNotices(st.status, current);
          forall i | 0 <= i < |here + rest.notices|
            ensures (here + rest.notices)[i].from != (here + rest.notices)[i].to
          {
            if i >= |here| { assert (here + rest.notices)[i] == rest.notices[i - |here|]; }
          }
        }
    }
  }

  // ---------------------------------------------------------------------------
  // Worked scenarios
  // ---------------------------------------------------------------------------

  /** One cycle that fetched a non-terminal status, unfolded. */
  lemma PollAfterStatus(maxFailCount: int, st: PollState, responses: nat -> Fetched, k: nat, current: JobStatus)
    requires st.remaining > 0 && responses(k) == Got(current) && !IsTerminal(current)
    ensures var rest := Poll(maxFailCount, PollState(current, maxFailCount, st.remaining - 1), responses, k + 1);
      Poll(maxFailCount, st, responses, k)
        == rest.(notices := TransitionNotices(st.status, current) + rest.notices, calls := rest.calls + 1)
  {
  }

  /** One cycle whose fetch failed without exhausting the failure budget, unfolded. */
  lemma PollAfterFailure(maxFailCount: int, st: PollState, responses: nat -> Fetched, k: nat)
    requires st.remaining > 0 && responses(k) == FetchFailed && st.failCount >= 2
    ensures var rest := Poll(maxFailCount, st.(failCount := st.failCount - 1), responses, k + 1);
      Poll(maxFailCount, st, responses, k) == rest.(calls := rest.calls + 1)
  {
  }

  /** The last three fetches of the scenario below: RUNNING, RUNNING, SUCCEEDED. */
  lemma RunningUntilSucceeded(f: nat -> Fetched)
    requires f(2) == Got(Running) && f(3) == Got(Running) && f(4) == Got(Succeeded)
    ensures Poll(5, PollState(Pending, 5, 58), f, 2)
      == Run(JobSucceeded, [Notice(Pending, Running, Green), Notice(Running, Succeeded, Green)], 3, PollState(Succeeded, 5, 56))
  {
    var r4 := Poll(5, PollState(Running, 5, 56), f, 4);
    assert r4 == Run(JobSucceeded, [Notice(Running, Succeeded, Green)], 1, PollState(Succeeded, 5, 56));
    PollAfterStatus(5, PollState(Running, 5, 57), f, 3, Running);
    PollAfterStatus(5, PollState(Pending, 5, 58), f, 2, Running);
  }

  /** A job whose fetches return SUBMITTED, PENDING, RUNNING, RUNNING,
      SUCCEEDED, polled with the default budgets, succeeds after five fetches
      and four completed cycles, printing the three changes. */
  lemma SucceedsAfterFourCycles(f: nat -> Fetched)
    requires f(0) == Got(Submitted) && f(1) == Got(Pending) && f(2) == Got(Running)
    requires f(3) == Got(Running) && f(4) == Got(Succeeded)
    ensures Poll(DefaultMaxFailCount, InitialState(DefaultMaxFailCount, DefaultMaxCheckCount), f, 0)
      == Run(JobSucceeded,
             [Notice(Submitted, Pending, Green), Notice(Pending, Running, Green), Notice(Running, Succeeded, Green)],
             5, PollState(Succeeded, DefaultMaxFailCount, DefaultMaxCheckCount - 4))
  {
    RunningUntilSucceeded(f);
    PollAfterStatus(5, PollState(Submitted, 5, 59), f, 1, Pending);
    PollAfterStatus(5, PollState(Submitted, 5, 60), f, 0, Submitted);
  }

  /** Five failed fetches in a row with the default failure budget exhaust it
      without spending any poll cycle. */
  lemma FiveFailuresExhaustFetchBudget(f: nat -> Fetched)
    requires f(0) == f(1) == f(2) == f(3) == f(4) == FetchFailed
    ensures Poll(DefaultMaxFailCount, InitialState(DefaultMaxFailCount, DefaultMaxCheckCount), f, 0)
      == Run(FetchBudgetExhausted(Submitted), [], 5, PollState(Submitted, 0, DefaultMaxCheckCount))
  {
    assert Poll(5, PollState(Submitted, 1, 60), f, 4) == Run(FetchBudgetExhausted(Submitted), [], 1, PollState(Submitted, 0, 60));
    PollAfterFailure(5, PollState(Submitted, 2, 60), f, 3);
    PollAfterFailure(5, PollState(Submitted, 3, 60), f, 2);
    PollAfterFailure(5, PollState(Submitted, 4, 60), f, 1);
    PollAfterFailure(5, PollState(Submitted, 5, 60), f, 0);
  }

  /** The five failures after the successful fetch of the scenario below. */
  lemma FiveFailuresAfterRunning(f: nat -> Fetched)
    requires f(3) == f(4) == f(5) == f(6) == f(7) == FetchFailed
    ensures Poll(5, PollState(Running, 5, 59), f, 3) == Run(FetchBudgetExhausted(Running), [], 5, PollState(Running, 0, 59))
  {
    assert Poll(5, PollState(Running, 1, 59), f, 7) == Run(FetchBudgetExhausted(Running), [], 1, PollState(Running, 0, 59));
    PollAfterFailure(5, PollState(Running, 2, 59), f, 6);
    PollAfterFailure(5, PollState(Running, 3, 59), f, 5);
    PollAfterFailure(5, PollState(Running, 4, 59), f, 4);
    PollAfterFailure(5, PollState(Running, 5, 59), f, 3);
  }

  /** Failed, failed, RUNNING, then five failures: the successful fetch refills
      the failure budget, so it is exhausted only at the fifth failure after
      it, on the eighth fetch, and not at the fourth failure overall. */
  lemma SuccessfulFetchRefillsFailureBudget(f: nat -> Fetched)
    requires f(0) == f(1) == FetchFailed && f(2) == Got(Running)
    requires f(3) == f(4) == f(5) == f(6) == f(7) == FetchFailed
    ensures Poll(DefaultMaxFailCount, InitialState(DefaultMaxFailCount, DefaultMaxCheckCount), f, 0)
      == Run(FetchBudgetExhausted(Running), [Notice(Submitted, Running, Green)], 8, PollState(Running, 0, DefaultMaxCheckCount - 1))
  {
    FiveFailuresAfterRunning(f);
    PollAfterStatus(5, PollState(Submitted, 3, 60), f, 2, Running);
    PollAfterFailure(5, PollState(Submitted, 4, 60), f, 1);
    PollAfterFailure(5, PollState(Submitted, 5, 60), f, 0);
  }
}
