# ippatsu `submit`: a Dafny model

ippatsu is a command-line tool for AWS Batch. Its `submit` command works in five steps:

- It validates the job name, queue and job-definition reference.
- It lets `--maxfail` and `--maxcheck` override the poll budgets.
- It always previews the job definition and the queue.
- On a real run, it then submits the job.
- It then polls the job's status until the job succeeds or fails, or until one of two budgets runs out:
  - a budget of failed status fetches in a row;
  - a budget of poll cycles.

This project models that command and the batch-service client behind it.

The project has four modules:

- `Wrappers`: `Option` and `Result`.
- `BatchClient` (svc/batch_client.go):
  - splits a `name:revision` reference on `:`;
  - picks the last definition whose decimal revision equals the suffix;
  - groups active definitions by name;
  - copies queue records;
  - reads the first queue detail and the first job's status.
  - Each AWS call is replaced by its reply (`Reply<T>`), given as an input.
- `JobPoller` (cmd/submit.go, `waitUntilJobFinish`):
  - the specification function `Poll`, defined over the sequence of fetch results `responses: nat -> Fetched`;
  - the imperative loop `WaitUntilJobFinish`, proved equal to `Poll`;
  - lemmas on `Poll`: terminal outcomes, consecutive failures, budget accounting and printed notices;
  - worked scenarios.
- `SubmitCommand` (cmd/submit.go, `Action`/`newSubmit`/`dryPrint`/`execute`):
  - The package variables `maxFailCount` and `maxCheckCount` are the class `Budgets`. Its `ApplyFlags` updates them in place.
  - The batch service is the value `Service`, which holds the reply to every call.
  - The command returns the trace of the remote calls it makes. This lets the model state three things:
    - validation happens before any call;
    - a dry run or a failed preview never submits;
    - a real run submits exactly once, after the preview.

## Model

| member | source | states |
|---|---|---|
| BatchClient.SplitJoin | svc/batch_client.go:36 | Joining the parts of `strings.Split` with the separator gives back the input. |
| BatchClient.SplitCount | svc/batch_client.go:36 | Splitting gives one more part than the separator occurs, and no part contains the separator. |
| BatchClient.ParseDefinitionName | svc/batch_client.go:36-39 | A reference is accepted exactly when it contains exactly one `:`. The parts are the text before and after that `:`, and neither contains `:`. |
| BatchClient.DigitsShape | svc/batch_client.go:52 | Base-10 rendering is non-empty and all digits, with a leading `0` only for zero. |
| BatchClient.DigitsRoundTrip | svc/batch_client.go:52 | Reading back the digits of a natural number gives that number. |
| BatchClient.DigitsInjective | svc/batch_client.go:52 | Different natural numbers have different base-10 digits. |
| BatchClient.FormatIntInjective | svc/batch_client.go:52 | `FormatInt` is injective, so at most one revision number can match a given suffix. |
| BatchClient.LeadingZeroNeverRendered | svc/batch_client.go:52 | No revision renders as a multi-character string that starts with `0`. |
| BatchClient.LeadingZeroNeverMatches | svc/batch_client.go:50-55 | A suffix such as `04` never matches any record. |
| BatchClient.LastMatch | svc/batch_client.go:50-55 | The index returned is a matching record, and no later record matches; -1 means no record matches. |
| BatchClient.ScanRevisions | svc/batch_client.go:50-55 | The overwriting loop keeps exactly the record at `LastMatch`, and keeps nothing exactly when no record matches. |
| BatchClient.LookupCases | svc/batch_client.go:35-57 | The error cases and when each happens: an invalid name exactly when the split does not give two parts; not found exactly when the reply lists nothing; a service failure exactly when the call fails; no definition and no error exactly when records exist but none matches. Otherwise the result is the last matching record. |
| BatchClient.DescribeJobDefinition | svc/batch_client.go:35-57 | The loop keeps the last matching record. The method asks the service about the name part only, and asks nothing for a malformed reference. Its result is `Lookup`, whose cases `LookupCases` states. |
| BatchClient.ListActiveJobDefinitions | svc/batch_client.go:16-33 | On failure, an empty map and the error. On success, the keys are exactly the names in the reply, and each name maps to its revisions in reply order. |
| BatchClient.NameOrder | svc/batch_client.go:25-31 | The distinct names of the reply: no repeats, and the same names as the map's keys. |
| BatchClient.EveryRecordCountedOnce | svc/batch_client.go:25-31 | Adding up the revision lists over all names gives the number of records, so the grouping loses or duplicates nothing. |
| BatchClient.ListJobQueues | svc/batch_client.go:101-118 | On success, one queue per record, in order, with name, priority, state and status copied. On failure, no queues and the error. |
| BatchClient.DescribeJobQueue | svc/batch_client.go:59-74 | Success exactly when the call answers with at least one queue, and the value is the first. An empty answer is "not found". |
| BatchClient.DescribeJobStatusAsWritten | svc/batch_client.go:76-88 | The status read as written: it indexes out of range exactly when the reply lists no job, and reads the first job's status exactly when the reply lists at least one. |
| BatchClient.EmptyJobListPanics | svc/batch_client.go:86 | An answered call with an empty job list reaches the out-of-range index. |
| BatchClient.DescribeJobStatus | svc/batch_client.go:76-88 | Corrected: the status of the first job, and a fetch failure when the call fails or lists no job. |
| BatchClient.DescribeJobStatusAgrees | svc/batch_client.go:76-88 | Wherever the code as written does not panic, the corrected read agrees with it. |
| JobPoller.NoticeLevelOf | cmd/submit.go:170-180 | A change to FAILED prints red. Changes to PENDING, RUNNABLE, STARTING, RUNNING and SUCCEEDED print green. A change to SUBMITTED prints nothing, because the switch has no case for it. |
| JobPoller.TransitionNotices | cmd/submit.go:169-182 | A fetch prints at most one notice. It prints one exactly when the status changed to something other than SUBMITTED. The notice shows the old and new status, and it is red exactly when the new status is FAILED. |
| JobPoller.InitialState | cmd/submit.go:157-159 | The poll starts from SUBMITTED, with the full failure budget and the full poll budget. |
| JobPoller.WaitUntilJobFinish | cmd/submit.go:156-198 | The loop returns the outcome, the printed notices and the number of fetches of the specification function `Poll`, run from the initial state. |
| JobPoller.TerminalOutcomes | cmd/submit.go:183-189 | Success happens exactly when the last fetch returned SUCCEEDED. Remote failure happens exactly when the last fetch returned FAILED. No earlier fetch returned a terminal status. |
| JobPoller.FetchBudgetNeedsConsecutiveFailures | cmd/submit.go:161-167 | The failure budget runs out only after failed fetches in a row. Either every fetch failed, as many as the budget at the start, or the last `maxFailCount` fetches all failed. |
| JobPoller.FetchBudgetExhaustedAfterFailuresInARow | cmd/submit.go:161-167 | From the initial state, giving up on fetching means the last `maxFailCount` fetches (at least one) all failed. |
| JobPoller.FailuresInARowExhaustFetchBudget | cmd/submit.go:161-167 | Conversely, as many failed fetches in a row as the failure budget left end the poll on the last of them. The poll reports the recorded status, prints nothing and spends no poll cycle. |
| JobPoller.InitialFailuresExhaustFetchBudget | cmd/submit.go:156-167 | With positive budgets, `maxFailCount` failed fetches at the start give up after exactly that many fetches, with the status still SUBMITTED and every poll cycle left. |
| JobPoller.PollAccounting | cmd/submit.go:160-197 | Four things: the poll budget drops by exactly the number of non-terminal statuses fetched, so failures never spend it; the recorded status is the last one fetched; running out of poll cycles leaves zero cycles, or the starting count unchanged when that was negative (a negative `--maxcheck` is stored as given); each budget error reports the last recorded status. |
| JobPoller.NoticesAreTransitions | cmd/submit.go:169-182 | There are no more notices than fetches. Every notice is a real change to a status other than SUBMITTED, and red exactly for FAILED. |
| JobPoller.RunningUntilSucceeded | cmd/submit.go:169-186 | From PENDING, fetching RUNNING, RUNNING, SUCCEEDED prints two green changes and succeeds after three fetches. |
| JobPoller.SucceedsAfterFourCycles | cmd/submit.go:156-198 | With the default budgets, fetching SUBMITTED, PENDING, RUNNING, RUNNING, SUCCEEDED prints three green changes and succeeds on the fifth fetch, with 56 cycles left. |
| JobPoller.FiveFailuresExhaustFetchBudget | cmd/submit.go:161-166 | With the default budgets, five failed fetches end the poll with the status still SUBMITTED and all 60 cycles left. |
| JobPoller.FiveFailuresAfterRunning | cmd/submit.go:161-166 | After RUNNING has been recorded, five failed fetches end the poll, reporting RUNNING. |
| JobPoller.SuccessfulFetchRefillsFailureBudget | cmd/submit.go:161-191 | The sequence is failed, failed, RUNNING, then five failures. The poll ends on the eighth fetch, not the fourth failure, because the successful fetch refilled the budget. |
| SubmitCommand.NewSubmit | cmd/submit.go:90-115 | Succeeds exactly when name, queue and jobdef are non-empty and the session was created, and returns those three values. The checks run in that order: name, then queue, then jobdef. A failed session is reported with its own reason. |
| SubmitCommand.OverrideBudget | cmd/submit.go:59-64 | A flag of 0 keeps the current budget. Any other flag replaces it. A non-zero budget never becomes zero. |
| SubmitCommand.OverrideIdempotent | cmd/submit.go:59-64 | Applying the same flag twice gives the same budget as applying it once. |
| SubmitCommand.Budgets.constructor | cmd/submit.go:151-154 | The defaults are a failure budget of 5 and a poll budget of 60. |
| SubmitCommand.Budgets.ApplyFlags | cmd/submit.go:59-64 | Each budget becomes `OverrideBudget` of its old value and its flag. |
| SubmitCommand.PreviewAsWritten | cmd/submit.go:130-145 | dryPrint as written dereferences nil exactly when the definition lookup returns no definition and no error. |
| SubmitCommand.ParsesGlued | svc/batch_client.go:36-39 | A colon-free name and revision glued with `:` parse back into exactly that name and revision. |
| SubmitCommand.ParsesEtl4 | svc/batch_client.go:36-39 | `etl:4` splits into definition `etl` and revision `4`. |
| SubmitCommand.RevisionFourUnmatched | svc/batch_client.go:47-56 | Looking up any reference that parses as `etl` revision `4`, when the only record is revision 3, returns no definition and no error. |
| SubmitCommand.UnmatchedRevisionReachesNilDereference | cmd/submit.go:132-137 | For `etl:4` with only revision 3 on record, dryPrint as written reaches the nil dereference, where the corrected preview reports RevisionNotFound. |
| SubmitCommand.Preview | cmd/submit.go:130-145 | Corrected: the preview passes exactly when a definition was found and the queue lookup succeeded. "Revision not found" is reported exactly when the lookup returns no definition and no error. A failed definition lookup stops it with that lookup's own error, and a failed queue lookup with the queue lookup's own error. |
| SubmitCommand.PreviewAgreesWhereNoNilDereference | cmd/submit.go:130-145 | Wherever dryPrint as written does not crash, the corrected preview returns the same error or success. |
| SubmitCommand.PreviewCalls | cmd/submit.go:130-145 | The preview makes at most two calls, and neither is a submission or a status fetch. |
| SubmitCommand.DryPrint | cmd/submit.go:130-145 | Returns the corrected preview's verdict and exactly the calls it makes: the definition lookup, then the queue lookup only if a definition was found. |
| SubmitCommand.PollError | cmd/submit.go:164-196 | The command reports no error exactly when the poll ends in success. Otherwise the error carries the poll's outcome, so giving up on fetching, a failed job and running out of poll cycles stay distinct. |
| SubmitCommand.Execute | cmd/submit.go:121-128 | The first call is always the submission. If it fails, the method returns that error with no further call. Otherwise it makes exactly one status fetch per poll step, for the job id returned, and reports the poll's outcome. Its whole trace is given in both cases. |
| SubmitCommand.ExecuteAfter | cmd/submit.go:73-76 | After the earlier calls come the submission and, if it was accepted, one status fetch per poll step. The error is the submission's own or the poll's. The result always contains a submission. |
| SubmitCommand.PreviewThenSubmit | cmd/submit.go:65-77 | The preview always runs first, and a preview error stops with that error and only the preview's calls. A dry run succeeds with only the preview's calls. Otherwise the trace is the preview calls, then the submission, then the status fetches. A submission happens exactly when the preview passes and it is not a dry run. |
| SubmitCommand.SubmitsOnceAfterPreview | cmd/submit.go:65-77 | In a real run's trace the submission is the only one and comes right after the preview calls; every later call is a status fetch for the submitted job. |
| SubmitCommand.Action | cmd/submit.go:48-79 | Covers each path and what it leaves changed. An invalid request fails with no call and the budgets unchanged. Otherwise the budgets are overridden and the preview runs first. A preview error stops the command. A dry run returns success after the preview. A real run's trace is exactly the preview calls, then the submission, then (if it was accepted) one status fetch per poll step; it reports the submit or poll result. A submission happens exactly when setup and preview succeed and it is not a dry run. |

## Left out

- Sessions, regions and `util.ConfigAWS` are not modelled. A failed session is the `sessionError` input of `NewSubmit`. `ConfigAWS` (cmd/submit.go:52) only configures the AWS SDK.
- The AWS SDK calls are not modelled. Each call is replaced by its reply (`Reply`, `SubmitReply`, `Service`), given as an input.
- `SubmitJobWithParams` is not modelled. The reply to the submission is the `Service.submitJob` input.
- The 10-second sleep between poll cycles is not modelled; time is not modelled.
- Message texts and terminal colours are not modelled. Notices keep only the old status, the new status and green or red. The final success and failure lines are represented by the outcome.
- The `String()` methods are not modelled; they only format text.
- cmd/list.go and main.go are not part of this model.
- The flag declarations are not modelled. The `Flags` datatype holds the values the command reads.
- `int64` revisions are unbounded integers; revision numbers never come near 2^63.
- JobPoller.WaitUntilJobFinish: does not model the 64-bit wrap-around of `failCount--` (cmd/submit.go:163). Budgets are unbounded integers. With `--maxfail=-9223372036854775808` the Go decrement wraps to the largest `int`, so the code practically never gives up on fetching. The model gives up at the first failed fetch instead.
- Budgets: negative flag values are accepted, as in the code. The poll runs no cycle when the poll budget is not positive, and gives up at the first failed fetch when the failure budget is below 1 (`Tolerance`).
- JobPoller.NoticeLevelOf: a change to SUBMITTED prints nothing, because the code's switch has no case for it. One might expect every change of status to be reported; the model follows the code.
- JobPoller.WaitUntilJobFinish: the trailing `return nil` (cmd/submit.go:197) is unreachable, because the loop only exits once the poll budget is below 1. The model has no path for it.
- SubmitCommand.Action: it uses the corrected `Preview`, so an unmatched revision stops the command instead of crashing. The as-written crash is `PreviewAsWritten`.
- SubmitCommand.Execute: it uses the corrected `DescribeJobStatus`, so an empty job list counts as a failed fetch instead of a panic.

## Findings

| source | as written | input that shows it | evidently intended | confidence | as-written member | corrected member |
|---|---|---|---|---|---|---|
| cmd/submit.go:132-137 with svc/batch_client.go:50-56 | When no revision matches, `DescribeJobDefinition` returns a nil definition and a nil error. dryPrint then calls `String()` on the nil definition. | `--jobdef etl:4` when the service lists only revision 3 of `etl` | Report that the revision was not found and stop | not executed | SubmitCommand.PreviewAsWritten (shown by SubmitCommand.UnmatchedRevisionReachesNilDereference) | SubmitCommand.Preview |
| svc/batch_client.go:86 | `result.Jobs[0]` is read without checking the length. | DescribeJobs answers with an empty job list, for example for an unknown or expired job id | Treat it as a failed fetch, which the poll's failure budget absorbs | not executed | BatchClient.DescribeJobStatusAsWritten (shown by BatchClient.EmptyJobListPanics) | BatchClient.DescribeJobStatus |
