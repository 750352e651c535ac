/** The `submit` command of cmd/submit.go: argument validation, the budget
    flags, the always-on preview and, unless it is a dry run, submission
    followed by the status poll. The batch service is a `Service` value that
    gives the reply to every call; the calls the command makes are returned
    as a trace so that what happens before which call can be stated. */
module SubmitCommand {
  import opened Wrappers
  import opened BatchClient
  import opened JobPoller

  /** The flags of `submit` (cmd/submit.go:20-46) as the command sees them. */
  datatype Flags = Flags(name: string, queue: string, jobdef: string, maxcheck: int, maxfail: int, dryRun: bool)

  /** A validated request: the `submit` record of cmd/submit.go:83-88 without its client. */
  datatype Submission = Submission(jobName: string, queue: string, jobDef: string)

  datatype SetupError = NameRequired | QueueRequired | JobDefRequired | SessionFailed(reason: string)

  /** newSubmit (cmd/submit.go:90-115). `sessionError` is what creating the
      client session returned: None when it succeeded. */
  function NewSubmit(flags: Flags, sessionError: Option<string>): (r: Result<Submission, SetupError>)
    ensures r.Success? <==> flags.name != "" && flags.queue != "" && flags.jobdef != "" && sessionError.None?
    ensures r.Success? ==> r.value == Submission(flags.name, flags.queue, flags.jobdef)
    ensures flags.name == "" ==> r == Failure(NameRequired)
    ensures flags.name != "" && flags.queue == "" ==> r == Failure(QueueRequired)
    ensures flags.name != "" && flags.queue != "" && flags.jobdef == "" ==> r == Failure(JobDefRequired)
    ensures flags.name != "" && flags.queue != "" && flags.jobdef != "" && sessionError.Some? ==>
      r == Failure(SessionFailed(sessionError.value))
  {
    if flags.name == "" then Failure(NameRequired)
    else if flags.queue == "" then Failure(QueueRequired)
    else if flags.jobdef == "" then Failure(JobDefRequired)
    else if sessionError.Some? then Failure(SessionFailed(sessionError.value))
    else Success(Submission(flags.name, flags.queue, flags.jobdef))
  }

  /** The budget a flag leaves in place: a flag of 0 keeps the current value,
      any other flag replaces it. */
  function OverrideBudget(current: int, flag: int): (r: int)
    ensures r == current || r == flag
    ensures flag == 0 ==> r == current
    ensures flag != 0 ==> r == flag
    ensures current != 0 ==> r != 0
  {
    if flag != 0 then flag else current
  }

  lemma OverrideIdempotent(current: int, flag: int)
    ensures OverrideBudget(OverrideBudget(current, flag), flag) == OverrideBudget(current, flag)
  {
  }

  /** The package variables maxFailCount and maxCheckCount (cmd/submit.go:151-154). */
  class Budgets {
    var maxFailCount: int
    var maxCheckCount: int

    constructor ()
      ensures maxFailCount == DefaultMaxFailCount && maxCheckCount == DefaultMaxCheckCount
    {
      maxFailCount := DefaultMaxFailCount;
      maxCheckCount := DefaultMaxCheckCount;
    }

    /** cmd/submit.go:59-64: a non-zero flag overwrites the budget. */
    method ApplyFlags(maxfail: int, maxcheck: int)
      modifies this
      ensures maxFailCount == OverrideBudget(old(maxFailCount), maxfail)
      ensures maxCheckCount == OverrideBudget(old(maxCheckCount), maxcheck)
    {
      if maxfail != 0 {
        maxFailCount := maxfail;
      }
      if maxcheck != 0 {
        maxCheckCount := maxcheck;
      }
    }
  }

  datatype SubmitReply = JobSubmitted(jobId: string, jobName: string) | SubmitFailed(reason: string)

  /** The batch service as the replies it gives: to a job-definition lookup by
      name, to a queue lookup, to a submission, and to the n-th status fetch. */
  datatype Service = Service(
    jobDefinitions: string -> Reply<JobDefinition>,
    jobQueues: string -> Reply<JobQueueDetail>,
    submitJob: (string, string, string) -> SubmitReply,
    jobs: nat -> Reply<JobDetail>)

  /** A call the command makes to the service. */
  datatype RemoteCall =
    | DescribeJobDefinitions(name: string)
    | DescribeJobQueues(queue: string)
    | SubmitJob(jobName: string, jobDef: string, queue: string)
    | DescribeJobs(jobId: string)

  /** The name the definition lookup asks about; a malformed reference asks
      nothing, and its reply is then never consulted. */
  function QueryName(ref: string): string
  {
    match ParseDefinitionName(ref)
    case Some(parsed) => parsed.name
    case None => ref
  }

  function DefinitionOf(sm: Submission, svc: Service): Result<Option<JobDefinition>, DescribeError>
  {
    Lookup(sm.jobDef, svc.jobDefinitions(QueryName(sm.jobDef)))
  }

  datatype PreviewError = DefinitionError(error: DescribeError) | RevisionNotFound | QueueError(queueError: QueueError)

  /** What dryPrint does as written (cmd/submit.go:130-145): when no revision
      matches, DescribeJobDefinition returns no definition and no error, and
      dryPrint then renders the missing definition, a nil dereference. */
  datatype PreviewResult = Previewed | PreviewFailed(error: PreviewError) | NilDereference

  function PreviewAsWritten(sm: Submission, svc: Service): (r: PreviewResult)
    ensures r == NilDereference <==> DefinitionOf(sm, svc) == Success(None)
  {
    match DefinitionOf(sm, svc)
    case Failure(e) => PreviewFailed(DefinitionError(e))
    case Success(None) => NilDereference
    case Success(Some(_)) =>
      match DescribeJobQueue(svc.jobQueues(sm.queue))
      case Failure(e) => PreviewFailed(QueueError(e))
      case Success(_) => Previewed
  }

  /** "etl:4" names revision 4 of definition "etl". */
  lemma ParsesEtl4()
    ensures ParseDefinitionName("etl:4") == Some(DefinitionRef("etl", "4"))
  {
    assert "etl:4" == "etl" + ":" + "4";
    ParsesGlued("etl", "4");
  }

  /** Gluing a colon-free name and revision with a colon gives a reference
      that parses back into them. */
  lemma ParsesGlued(name: string, revision: string)
    requires ':' !in name && ':' !in revision
    ensures ParseDefinitionName(name + ":" + revision) == Some(DefinitionRef(name, revision))
  {
    var ref := name + ":" + revision;
    assert multiset(ref) == multiset(name) + multiset{':'} + multiset(revision);
    assert multiset(name)[':'] == 0 && multiset(revision)[':'] == 0;
    var parsed := ParseDefinitionName(ref);
    ColonSplitUnique(parsed.value.name, parsed.value.revision, name, revision);
  }

  /** A reference "etl:4" to a definition whose only revision is 3 reaches
      the nil dereference, where the corrected preview reports it. */
  lemma UnmatchedRevisionReachesNilDereference(svc: Service)
    requires svc.jobDefinitions("etl") == Answered([JobDefinition("etl", 3, "arn:etl:3")])
    ensures PreviewAsWritten(Submission("nightly-etl", "batch-default", "etl:4"), svc) == NilDereference
    ensures Preview(Submission("nightly-etl", "batch-default", "etl:4"), svc) == Some(RevisionNotFound)
  {
    assert DefinitionOf(Submission("nightly-etl", "batch-default", "etl:4"), svc) == Success(None) by {
      ParsesEtl4();
      assert QueryName("etl:4") == "etl";
      RevisionFourUnmatched("etl:4");
    }
  }

  /** Looking up revision 4 of "etl" when only revision 3 exists finds no definition and no error. */
  lemma RevisionFourUnmatched(ref: string)
    requires ParseDefinitionName(ref) == Some(DefinitionRef("etl", "4"))
    ensures Lookup(ref, Answered([JobDefinition("etl", 3, "arn:etl:3")])) == Success(None)
  {
    assert FormatInt(3) == "3";
    assert LastMatch([JobDefinition("etl", 3, "arn:etl:3")], "4") == -1;
  }

  /** A string glued from two colon-free halves by one colon has only that split. */
  lemma ColonSplitUnique(a: string, b: string, c: string, d: string)
    requires ':' !in a && ':' !in c && a + ":" + b == c + ":" + d
    ensures a == c && b == d
  {
    if |a| < |c| {
      ColonInside(a, b, c, d);
      assert false;
    } else if |a| > |c| {
      ColonInside(c, d, a, b);
      assert false;
    } else {
      assert a == (a + ":" + b)[..|a|] == (c + ":" + d)[..|c|] == c;
      assert b == (a + ":" + b)[|a| + 1..] == (c + ":" + d)[|c| + 1..] == d;
    }
  }

  lemma ColonInside(a: string, b: string, c: string, d: string)
    requires a + ":" + b == c + ":" + d && |a| < |c|
    ensures c[|a|] == ':'
  {
    assert (a + ":" + b)[|a|] == ':';
    assert (c + ":" + d)[|a|] == c[|a|];
  }

  /** dryPrint with the missing check added: no matching revision is an error
      that stops the command, like a definition that is not found. */
  function Preview(sm: Submission, svc: Service): (err: Option<PreviewError>)
    ensures err.None? <==>
      DefinitionOf(sm, svc).Success? && DefinitionOf(sm, svc).value.Some? && DescribeJobQueue(svc.jobQueues(sm.queue)).Success?
    ensures err == Some(RevisionNotFound) <==> DefinitionOf(sm, svc) == Success(None)
    ensures DefinitionOf(sm, svc).Failure? ==> err == Some(DefinitionError(DefinitionOf(sm, svc).error))
    ensures DefinitionOf(sm, svc).Success? && DefinitionOf(sm, svc).value.Some? && DescribeJobQueue(svc.jobQueues(sm.queue)).Failure? ==>
      err == Some(QueueError(DescribeJobQueue(svc.jobQueues(sm.queue)).error))
  {
    match DefinitionOf(sm, svc)
    case Failure(e) => Some(DefinitionError(e))
    case Success(None) => Some(RevisionNotFound)
    case Success(Some(_)) =>
      match DescribeJobQueue(svc.jobQueues(sm.queue))
      case Failure(e) => Some(QueueError(e))
      case Success(_) => None
  }

  /** Wherever dryPrint as written does not dereference nil, the corrected preview agrees with it. */
  lemma PreviewAgreesWhereNoNilDereference(sm: Submission, svc: Service)
    requires PreviewAsWritten(sm, svc) != NilDereference
    ensures Preview(sm, svc) == (match PreviewAsWritten(sm, svc)
                                 case PreviewFailed(e) => Some(e)
                                 case _ => None)
  {
  }

  /** The calls the preview makes: the definition lookup unless the reference
      is malformed, then the queue lookup if a definition was found. */
  function PreviewCalls(sm: Submission, svc: Service): (calls: seq<RemoteCall>)
    ensures |calls| <= 2
    ensures forall i :: 0 <= i < |calls| ==> !calls[i].SubmitJob? && !calls[i].DescribeJobs?
  {
    match ParseDefinitionName(sm.jobDef)
    case None => []
    case Some(parsed) =>
      [DescribeJobDefinitions(parsed.name)]
      + (if DefinitionOf(sm, svc).Success? && DefinitionOf(sm, svc).value.Some? then [DescribeJobQueues(sm.queue)] else [])
  }

  /** dryPrint (cmd/submit.go:130-145), corrected as described at Preview. */
  method DryPrint(sm: Submission, svc: Service) returns (err: Option<PreviewError>, trace: seq<RemoteCall>)
    ensures err == Preview(sm, svc)
    ensures trace == PreviewCalls(sm, svc)
  {
    var query, jobdef := DescribeJobDefinition(sm.jobDef, svc.jobDefinitions(QueryName(sm.jobDef)));
    trace := if query.Some? then [DescribeJobDefinitions(query.value)] else [];
    if jobdef.Failure? {
      return Some(DefinitionError(jobdef.error)), trace;
    }
    if jobdef.value.None? {
      return Some(RevisionNotFound), trace;
    }
    var jobque := DescribeJobQueue(svc.jobQueues(sm.queue));
    trace := trace + [DescribeJobQueues(sm.queue)];
    if jobque.Failure? {
      return Some(QueueError(jobque.error)), trace;
    }
    err := None;
  }

  /** The status fetches of the poll: the n-th reads the n-th DescribeJobs reply. */
  function StatusFetches(svc: Service): nat -> Fetched
  {
    (n: nat) => DescribeJobStatus(svc.jobs(n))
  }

  function Repeat(call: RemoteCall, n: nat): (calls: seq<RemoteCall>)
    ensures |calls| == n && forall i :: 0 <= i < n ==> calls[i] == call
  {
    if n == 0 then [] else Repeat(call, n - 1) + [call]
  }

  datatype ActionError =
    | Setup(setupError: SetupError)
    | PreviewStopped(previewError: PreviewError)
    | SubmitError(reason: string)
    | Watch(outcome: Outcome)

  /** The error the command reports for a finished poll: none only on success. */
  function PollError(outcome: Outcome): (err: Option<ActionError>)
    ensures err.None? <==> outcome == JobSucceeded
    ensures outcome != JobSucceeded ==> err == Some(Watch(outcome))
  {
    if outcome == JobSucceeded then None else Some(Watch(outcome))
  }

  /** execute (cmd/submit.go:121-128): submit, then poll with the current budgets. */
  method Execute(budgets: Budgets, sm: Submission, svc: Service) returns (err: Option<ActionError>, trace: seq<RemoteCall>)
    ensures |trace| >= 1 && trace[0] == SubmitJob(sm.jobName, sm.jobDef, sm.queue)
    ensures svc.submitJob(sm.jobName, sm.jobDef, sm.queue).SubmitFailed? ==>
      err == Some(SubmitError(svc.submitJob(sm.jobName, sm.jobDef, sm.queue).reason)) && trace == [SubmitJob(sm.jobName, sm.jobDef, sm.queue)]
    ensures svc.submitJob(sm.jobName, sm.jobDef, sm.queue).JobSubmitted? ==>
      var r := Poll(budgets.maxFailCount, InitialState(budgets.maxFailCount, budgets.maxCheckCount), StatusFetches(svc), 0);
      && err == PollError(r.outcome)
      && trace == [SubmitJob(sm.jobName, sm.jobDef, sm.queue)]
                  + Repeat(DescribeJobs(svc.submitJob(sm.jobName, sm.jobDef, sm.queue).jobId), r.calls)
  {
    var jb := svc.submitJob(sm.jobName, sm.jobDef, sm.queue);
    trace := [SubmitJob(sm.jobName, sm.jobDef, sm.queue)];
    if jb.SubmitFailed? {
      return Some(SubmitError(jb.reason)), trace;
    }
    var outcome, notices, calls := WaitUntilJobFinish(budgets.maxFailCount, budgets.maxCheckCount, StatusFetches(svc));
    trace := trace + Repeat(DescribeJobs(jb.jobId), calls);
    err := PollError(outcome);
  }

  /** A call sequence that contains a submission. */
  predicate Submits(trace: seq<RemoteCall>)
  {
    exists i :: 0 <= i < |trace| && trace[i].SubmitJob?
  }

  /** In the trace of a real run, the submission is the only one and comes
      right after the preview; every later call is a status fetch for the
      submitted job. */
  lemma SubmitsOnceAfterPreview(sm: Submission, svc: Service, extra: seq<RemoteCall>, jobId: string, n: nat)
    requires extra == [] || extra == Repeat(DescribeJobs(jobId), n)
    ensures var trace := PreviewCalls(sm, svc) + [SubmitJob(sm.jobName, sm.jobDef, sm.queue)] + extra;
      forall i :: 0 <= i < |trace| ==>
        (trace[i].SubmitJob? <==> i == |PreviewCalls(sm, svc)|)
        && (i > |PreviewCalls(sm, svc)| ==> trace[i] == DescribeJobs(jobId))
  {
    var p := PreviewCalls(sm, svc);
    var trace := p + [SubmitJob(sm.jobName, sm.jobDef, sm.queue)] + extra;
    forall i | 0 <= i < |trace|
      ensures (trace[i].SubmitJob? <==> i == |p|) && (i > |p| ==> trace[i] == DescribeJobs(jobId))
    {
      if i < |p| {
        assert trace[i] == p[i];
      } else if i > |p| {
        assert trace[i] == extra[i - |p| - 1];
      }
    }
  }

  /** The dry-run branch of the action (cmd/submit.go:65-77): always preview;
      stop on a preview error; otherwise, unless it is a dry run, submit and
      poll with the current budgets. */
  method PreviewThenSubmit(budgets: Budgets, sm: Submission, dryRun: bool, svc: Service)
    returns (err: Option<ActionError>, trace: seq<RemoteCall>)
    ensures PreviewCalls(sm, svc) <= trace
    ensures Preview(sm, svc).Some? ==>
      err == Some(PreviewStopped(Preview(sm, svc).value)) && trace == PreviewCalls(sm, svc)
    ensures Preview(sm, svc).None? && dryRun ==> err == None && trace == PreviewCalls(sm, svc)
    ensures Preview(sm, svc).None? && !dryRun ==>
      var jb := svc.submitJob(sm.jobName, sm.jobDef, sm.queue);
      var r := Poll(budgets.maxFailCount, InitialState(budgets.maxFailCount, budgets.maxCheckCount), StatusFetches(svc), 0);
      && trace == PreviewCalls(sm, svc) + [SubmitJob(sm.jobName, sm.jobDef, sm.queue)]
                  + (if jb.JobSubmitted? then Repeat(DescribeJobs(jb.jobId), r.calls) else [])
      && (jb.SubmitFailed? ==> err == Some(SubmitError(jb.reason)))
      && (jb.JobSubmitted? ==> err == PollError(r.outcome))
    ensures Submits(trace) <==> Preview(sm, svc).None? && !dryRun
  {
    var previewErr;
    previewErr, trace := DryPrint(sm, svc);
    assert !Submits(trace);
    if previewErr.Some? {
      return Some(PreviewStopped(previewErr.value)), trace;
    }
    if dryRun {
      return None, trace;
    }
    err, trace := ExecuteAfter(budgets, sm, svc, trace);
  }

  /** The calls `earlier`, then those of execute (cmd/submit.go:73-76). */
  method ExecuteAfter(budgets: Budgets, sm: Submission, svc: Service, earlier: seq<RemoteCall>)
    returns (err: Option<ActionError>, trace: seq<RemoteCall>)
    ensures var jb := svc.submitJob(sm.jobName, sm.jobDef, sm.queue);
      var r := Poll(budgets.maxFailCount, InitialState(budgets.maxFailCount, budgets.maxCheckCount), StatusFetches(svc), 0);
      && trace == earlier + [SubmitJob(sm.jobName, sm.jobDef, sm.queue)]
                  + (if jb.JobSubmitted? then Repeat(DescribeJobs(jb.jobId), r.calls) else [])
      && (jb.SubmitFailed? ==> err == Some(SubmitError(jb.reason)))
      && (jb.JobSubmitted? ==> err == PollError(r.outcome))
    ensures earlier <= trace && Submits(trace)
  {
    var executed;
    err, executed := Execute(budgets, sm, svc);
    ghost var jb := svc.submitJob(sm.jobName, sm.jobDef, sm.queue);
    ghost var r := Poll(budgets.maxFailCount, InitialState(budgets.maxFailCount, budgets.maxCheckCount), StatusFetches(svc), 0);
    assert executed == [SubmitJob(sm.jobName, sm.jobDef, sm.queue)]
                       + (if jb.JobSubmitted? then Repeat(DescribeJobs(jb.jobId), r.calls) else []);
    trace := earlier + executed;
    assert trace[|earlier|] == executed[0];
  }

  /** The action of `submit` (cmd/submit.go:48-79), after the client
      configuration: validate, apply the budget flags, preview, and submit
      and poll unless it is a dry run. */
  method Action(budgets: Budgets, flags: Flags, sessionError: Option<string>, svc: Service)
    returns (err: Option<ActionError>, trace: seq<RemoteCall>)
    modifies budgets
    ensures NewSubmit(flags, sessionError).Failure? ==>
      && err == Some(Setup(NewSubmit(flags, sessionError).error))
      && trace == []
      && unchanged(budgets)
    ensures NewSubmit(flags, sessionError).Success? ==>
      && budgets.maxFailCount == OverrideBudget(old(budgets.maxFailCount), flags.maxfail)
      && budgets.maxCheckCount == OverrideBudget(old(budgets.maxCheckCount), flags.maxcheck)
      && PreviewCalls(NewSubmit(flags, sessionError).value, svc) <= trace
    ensures NewSubmit(flags, sessionError).Success? && Preview(NewSubmit(flags, sessionError).value, svc).Some? ==>
      && err == Some(PreviewStopped(Preview(NewSubmit(flags, sessionError).value, svc).value))
      && trace == PreviewCalls(NewSubmit(flags, sessionError).value, svc)
    ensures NewSubmit(flags, sessionError).Success? && Preview(NewSubmit(flags, sessionError).value, svc).None? && flags.dryRun ==>
      err == None && trace == PreviewCalls(NewSubmit(flags, sessionError).value, svc)
    ensures NewSubmit(flags, sessionError).Success? && Preview(NewSubmit(flags, sessionError).value, svc).None? && !flags.dryRun ==>
      var sm := NewSubmit(flags, sessionError).value;
      var jb := svc.submitJob(sm.jobName, sm.jobDef, sm.queue);
      var r := Poll(budgets.maxFailCount, InitialState(budgets.maxFailCount, budgets.maxCheckCount), StatusFetches(svc), 0);
      && trace == PreviewCalls(sm, svc) + [SubmitJob(sm.jobName, sm.jobDef, sm.queue)]
                  + (if jb.JobSubmitted? then Repeat(DescribeJobs(jb.jobId), r.calls) else [])
      && (jb.SubmitFailed? ==> err == Some(SubmitError(jb.reason)))
      && (jb.JobSubmitted? ==> err == PollError(r.outcome))
    ensures Submits(trace) <==>
      NewSubmit(flags, sessionError).Success? && Preview(NewSubmit(flags, sessionError).value, svc).None? && !flags.dryRun
  {
    var setup := NewSubmit(flags, sessionError);
    if setup.Failure? {
      return Some(Setup(setup.error)), [];
    }
    var sm := setup.value;
    budgets.ApplyFlags(flags.maxfail, flags.maxcheck);
    err, trace := PreviewThenSubmit(budgets, sm, flags.dryRun, svc);
  }
}
