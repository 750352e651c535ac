/** The batch-service client of svc/batch_client.go: post-processing of the
    responses the remote batch service sends back. Every remote call is
    replaced by its reply, which the caller passes in as a `Reply`. */
module BatchClient {
  import opened Wrappers

  /** The seven lifecycle states the batch service reports for a job. */
  datatype JobStatus = Submitted | Pending | Runnable | Starting | Running | Succeeded | Failed

  /** One revision of a job definition, as DescribeJobDefinitions lists it. */
  datatype JobDefinition = JobDefinition(jobDefinitionName: string, revision: int, jobDefinitionArn: string)

  /** A job queue as DescribeJobQueues describes it. */
  datatype JobQueueDetail = JobQueueDetail(jobQueueName: string, priority: int, state: string, status: string)

  /** The client's own summary of a job queue. */
  datatype JobQueue = JobQueue(name: string, priority: int, state: string, status: string)

  /** A job as DescribeJobs describes it. */
  datatype JobDetail = JobDetail(jobId: string, status: JobStatus)

  /** The reply of one remote call: the records of the response, or the error the call returned. */
  datatype Reply<T> = Answered(records: seq<T>) | CallFailed(reason: string)

  // ---------------------------------------------------------------------------
  // Splitting a definition reference "name:revision"
  // ---------------------------------------------------------------------------

  /** Go's strings.Split with a one-character separator: the pieces between
      separators, so there is always one more piece than separators. */
  function Split(s: string, sep: char): (parts: seq<string>)
    ensures |parts| >= 1
  {
    if s == [] then [""]
    else
      var rest := Split(s[1..], sep);
      if s[0] == sep then [""] + rest else [[s[0]] + rest[0]] + rest[1..]
  }

  /** Glues pieces back together with the separator between them; the inverse of Split. */
  function Join(parts: seq<string>, sep: char): string
  {
    if |parts| == 0 then ""
    else if |parts| == 1 then parts[0]
    else parts[0] + [sep] + Join(parts[1..], sep)
  }

  lemma {:induction false} SplitJoin(s: string, sep: char)
    ensures Join(Split(s, sep), sep) == s
  {
    if s != [] {
      var rest := Split(s[1..], sep);
      SplitJoin(s[1..], sep);
      if s[0] == sep {
        assert Split(s, sep) == [""] + rest;
        assert ([""] + rest)[1..] == rest;
      } else if |rest| == 1 {
        assert Split(s, sep) == [[s[0]] + rest[0]];
      } else {
        var parts := Split(s, sep);
        assert parts == [[s[0]] + rest[0]] + rest[1..];
        assert parts[1..] == rest[1..];
        assert Join(rest, sep) == rest[0] + [sep] + Join(rest[1..], sep);
      }
    }
  }

  lemma {:induction false} SplitCount(s: string, sep: char)
    ensures |Split(s, sep)| == multiset(s)[sep] + 1
    ensures forall i :: 0 <= i < |Split(s, sep)| ==> sep !in Split(s, sep)[i]
  {
    if s != [] {
      SplitCount(s[1..], sep);
      assert s == [s[0]] + s[1..];
      assert multiset(s) == multiset{s[0]} + multiset(s[1..]);
      var rest := Split(s[1..], sep);
      var parts := Split(s, sep);
      if s[0] == sep {
        assert parts == [""] + rest;
        forall i | 0 <= i < |parts| ensures sep !in parts[i] {
          if i > 0 { assert parts[i] == rest[i - 1]; }
        }
      } else {
        assert parts == [[s[0]] + rest[0]] + rest[1..];
        forall i | 0 <= i < |parts| ensures sep !in parts[i] {
          if i > 0 { assert parts[i] == rest[i]; }
          else { assert sep !in rest[0]; }
        }
      }
    }
  }

  /** The two halves of a definition reference "name:revision". */
  datatype DefinitionRef = DefinitionRef(name: string, revision: string)

  /** The check at svc/batch_client.go:36-39: a reference is accepted exactly
      when it holds one colon, and then it is the name and revision glued by it. */
  function ParseDefinitionName(ref: string): (r: Option<DefinitionRef>)
    ensures r.Some? <==> multiset(ref)[':'] == 1
    ensures r.Some? ==> ref == r.value.name + ":" + r.value.revision
    ensures r.Some? ==> ':' !in r.value.name && ':' !in r.value.revision
  {
    var parts := Split(ref, ':');
    SplitCount(ref, ':');
    SplitJoin(ref, ':');
    if |parts| != 2 then None
    else
      assert Join(parts, ':') == parts[0] + ":" + Join(parts[1..], ':');
      assert parts[1..] == [parts[1]];
      Some(DefinitionRef(parts[0], parts[1]))
  }

  // ---------------------------------------------------------------------------
  // Decimal rendering of a revision (strconv.FormatInt(n, 10))
  // ---------------------------------------------------------------------------

  predicate IsDigit(c: char) { '0' <= c <= '9' }

  function DigitChar(d: nat): (c: char)
    requires d < 10
    ensures IsDigit(c)
  {
    ('0' as int + d) as char
  }

  /** The decimal digits of n, most significant first, without leading zeros. */
  function Digits(n: nat): string
  {
    if n < 10 then [DigitChar(n)] else Digits(n / 10) + [DigitChar(n % 10)]
  }

  /** The rendering is non-empty and all digits, and starts with '0' only for zero. */
  lemma {:induction false} DigitsShape(n: nat)
    ensures |Digits(n)| >= 1
    ensures forall i :: 0 <= i < |Digits(n)| ==> IsDigit(Digits(n)[i])
    ensures Digits(n)[0] == '0' <==> n == 0
  {
    if n >= 10 {
      DigitsShape(n / 10);
      var s := Digits(n);
      assert s == Digits(n / 10) + [DigitChar(n % 10)];
      forall i | 0 <= i < |s| ensures IsDigit(s[i]) {
        if i < |s| - 1 { assert s[i] == Digits(n / 10)[i]; }
      }
    }
  }

  /** strconv.FormatInt(n, 10): a minus sign for negative n, then the digits. */
  function FormatInt(n: int): string
  {
    if n < 0 then "-" + Digits(-n) else Digits(n)
  }

  /** The value of a string of decimal digits. */
  function DigitsValue(s: string): nat
    requires forall i :: 0 <= i < |s| ==> IsDigit(s[i])
  {
    if s == [] then 0
    else
      var d := s[|s| - 1];
      assert IsDigit(d);
      DigitsValue(s[..|s| - 1]) * 10 + (d as int - '0' as int)
  }

  lemma {:induction false} DigitsRoundTrip(n: nat)
    ensures forall i :: 0 <= i < |Digits(n)| ==> IsDigit(Digits(n)[i])
    ensures DigitsValue(Digits(n)) == n
  {
    DigitsShape(n);
    if n >= 10 {
      DigitsRoundTrip(n / 10);
      var s := Digits(n);
      assert s[..|s| - 1] == Digits(n / 10);
    }
  }

  /** Distinct natural numbers have distinct digits. */
  lemma DigitsInjective(m: nat, n: nat)
    requires Digits(m) == Digits(n)
    ensures m == n
  {
    DigitsRoundTrip(m);
    DigitsRoundTrip(n);
  }

  /** Distinct revisions render differently, so matching by rendering picks
      only revisions equal to the one meant. */
  lemma FormatIntInjective(a: int, b: int)
    ensures FormatInt(a) == FormatInt(b) ==> a == b
  {
    if FormatInt(a) == FormatInt(b) {
      if a < 0 && b < 0 {
        assert Digits(-a) == FormatInt(a)[1..] == FormatInt(b)[1..] == Digits(-b);
        DigitsInjective(-a, -b);
      } else if a >= 0 && b >= 0 {
        DigitsInjective(a, b);
      } else if a < 0 {
        assert FormatInt(a)[0] == '-';
        DigitsShape(b);
      } else {
        assert FormatInt(b)[0] == '-';
        DigitsShape(a);
      }
    }
  }

  /** A revision suffix with a leading zero, like "03", is never the
      rendering of any revision. */
  lemma LeadingZeroNeverRendered(n: int, rev: string)
    requires |rev| >= 2 && rev[0] == '0'
    ensures FormatInt(n) != rev
  {
    if n < 0 { DigitsShape(-n); } else { DigitsShape(n); }
  }

  // ---------------------------------------------------------------------------
  // DescribeJobDefinition
  // ---------------------------------------------------------------------------

  predicate RevisionMatches(d: JobDefinition, rev: string)
  {
    FormatInt(d.revision) == rev
  }

  /** The index of the last record whose revision renders as `rev`, or -1 when none does. */
  function LastMatch(records: seq<JobDefinition>, rev: string): (k: int)
    ensures -1 <= k < |records|
    ensures k >= 0 ==> RevisionMatches(records[k], rev)
    ensures forall j :: k < j < |records| ==> !RevisionMatches(records[j], rev)
  {
    if records == [] then -1
    else if RevisionMatches(records[|records| - 1], rev) then |records| - 1
    else
      var k := LastMatch(records[..|records| - 1], rev);
      assert forall j :: k < j < |records| - 1 ==> records[j] == records[..|records| - 1][j];
      k
  }

  /** One more record: it is the last match if it matches, otherwise the last match is unchanged. */
  lemma LastMatchSnoc(records: seq<JobDefinition>, v: JobDefinition, rev: string)
    ensures LastMatch(records + [v], rev) == if RevisionMatches(v, rev) then |records| else LastMatch(records, rev)
  {
    assert (records + [v])[..|records|] == records;
  }

  lemma LeadingZeroNeverMatches(records: seq<JobDefinition>, rev: string)
    requires |rev| >= 2 && rev[0] == '0'
    ensures LastMatch(records, rev) == -1
  {
    var k := LastMatch(records, rev);
    if k >= 0 {
      LeadingZeroNeverRendered(records[k].revision, rev);
    }
  }

  datatype DescribeError = InvalidName | NotFound | DescribeFailed(reason: string)

  /** What DescribeJobDefinition returns for reference `ref` when the service
      answers the lookup of the reference's name with `reply`. */
  function Lookup(ref: string, reply: Reply<JobDefinition>): Result<Option<JobDefinition>, DescribeError>
  {
    match ParseDefinitionName(ref)
    case None => Failure(InvalidName)
    case Some(parsed) =>
      match reply
      case CallFailed(reason) => Failure(DescribeFailed(reason))
      case Answered(records) =>
        if |records| < 1 then Failure(NotFound)
        else
          var k := LastMatch(records, parsed.revision);
          if k < 0 then Success(None) else Success(Some(records[k]))
  }

  /** The outcomes of a definition lookup: a malformed reference, an empty
      reply, a failed call, no matching revision (no definition and no error),
      or the LAST record whose revision renders as the reference's suffix. */
  lemma LookupCases(ref: string, reply: Reply<JobDefinition>)
    ensures Lookup(ref, reply) == Failure(InvalidName) <==> ParseDefinitionName(ref).None?
    ensures Lookup(ref, reply) == Failure(NotFound) <==> ParseDefinitionName(ref).Some? && reply == Answered([])
    ensures Lookup(ref, reply).Failure? && Lookup(ref, reply).error.DescribeFailed? <==>
      ParseDefinitionName(ref).Some? && reply.CallFailed?
    ensures Lookup(ref, reply) == Success(None) <==>
      && ParseDefinitionName(ref).Some? && reply.Answered? && reply.records != []
      && forall j :: 0 <= j < |reply.records| ==> !RevisionMatches(reply.records[j], ParseDefinitionName(ref).value.revision)
    ensures Lookup(ref, reply).Success? && Lookup(ref, reply).value.Some? ==>
      exists k :: 0 <= k < |reply.records| && reply.records[k] == Lookup(ref, reply).value.value
        && RevisionMatches(reply.records[k], ParseDefinitionName(ref).value.revision)
        && forall j :: k < j < |reply.records| ==> !RevisionMatches(reply.records[j], ParseDefinitionName(ref).value.revision)
  {
  }

  /** DescribeJobDefinition (svc/batch_client.go:35-57). `query` is the name the
      method asks the service about, None when it asks nothing. */
  method DescribeJobDefinition(ref: string, reply: Reply<JobDefinition>)
    returns (query: Option<string>, result: Result<Option<JobDefinition>, DescribeError>)
    ensures query == (if ParseDefinitionName(ref).Some? then Some(ParseDefinitionName(ref).value.name) else None)
    ensures result == Lookup(ref, reply)
  {
    var parsed := ParseDefinitionName(ref);
    if parsed.None? {
      return None, Failure(InvalidName);
    }
    query := Some(parsed.value.name);
    if reply.CallFailed? {
      return query, Failure(DescribeFailed(reply.reason));
    }
    var records := reply.records;
    if |records| < 1 {
      return query, Failure(NotFound);
    }
    var jobDef := ScanRevisions(records, parsed.value.revision);
    result := Success(jobDef);
  }

  /** The loop of svc/batch_client.go:50-55: every record whose revision
      renders as `rev` overwrites the one kept, so the last match is kept. */
  method ScanRevisions(records: seq<JobDefinition>, rev: string) returns (jobDef: Option<JobDefinition>)
    ensures jobDef.None? <==> LastMatch(records, rev) < 0
    ensures jobDef.Some? ==> jobDef.value == records[LastMatch(records, rev)]
  {
    jobDef := None;
    var i := 0;
    while i < |records|
      invariant 0 <= i <= |records|
      invariant jobDef.None? <==> LastMatch(records[..i], rev) < 0
      invariant jobDef.Some? ==> jobDef.value == records[LastMatch(records[..i], rev)]
    {
      assert records[..i + 1] == records[..i] + [records[i]];
      LastMatchSnoc(records[..i], records[i], rev);
      if FormatInt(records[i].revision) == rev {
        jobDef := Some(records[i]);
      }
      i := i + 1;
    }
    assert records[..i] == records;
  }

  // ---------------------------------------------------------------------------
  // ListActiveJobDefinitions
  // ---------------------------------------------------------------------------

  /** The set of definition names appearing in the records. */
  function NamesOf(records: seq<JobDefinition>): set<string>
  {
    set j | 0 <= j < |records| :: records[j].jobDefinitionName
  }

  /** The revisions of the records called `name`, in response order. */
  function RevisionsNamed(records: seq<JobDefinition>, name: string): seq<int>
  {
    if records == [] then []
    else
      var last := records[|records| - 1];
      RevisionsNamed(records[..|records| - 1], name) + (if last.jobDefinitionName == name then [last.revision] else [])
  }

  /** ListActiveJobDefinitions (svc/batch_client.go:16-33): each name maps to
      its revisions in response order; on a failed call the map is empty. */
  method ListActiveJobDefinitions(reply: Reply<JobDefinition>) returns (defs: map<string, seq<int>>, err: Option<string>)
    ensures reply.CallFailed? ==> defs == map[] && err == Some(reply.reason)
    ensures reply.Answered? ==> err == None && defs.Keys == NamesOf(reply.records)
    ensures reply.Answered? ==> forall n :: n in defs ==> defs[n] == RevisionsNamed(reply.records, n)
  {
    defs := map[];
    if reply.CallFailed? {
      return defs, Some(reply.reason);
    }
    var records := reply.records;
    var i := 0;
    while i < |records|
      invariant 0 <= i <= |records|
      invariant defs.Keys == NamesOf(records[..i])
      invariant forall n :: n in defs ==> defs[n] == RevisionsNamed(records[..i], n)
    {
      var v := records[i];
      assert records[..i + 1] == records[..i] + [v];
      GroupStep(defs, records[..i], v);
      if v.jobDefinitionName in defs {
        defs := defs[v.jobDefinitionName := defs[v.jobDefinitionName] + [v.revision]];
      } else {
        defs := defs[v.jobDefinitionName := [v.revision]];
      }
      i := i + 1;
    }
    assert records[..i] == records;
    err := None;
  }

  /** One iteration of the grouping loop keeps its two invariants. */
  lemma GroupStep(defs: map<string, seq<int>>, prefix: seq<JobDefinition>, v: JobDefinition)
    requires defs.Keys == NamesOf(prefix)
    requires forall n :: n in defs ==> defs[n] == RevisionsNamed(prefix, n)
    ensures var next := if v.jobDefinitionName in defs
                        then defs[v.jobDefinitionName := defs[v.jobDefinitionName] + [v.revision]]
                        else defs[v.jobDefinitionName := [v.revision]];
      && next.Keys == NamesOf(prefix + [v])
      && forall n :: n in next ==> next[n] == RevisionsNamed(prefix + [v], n)
  {
    NamesOfSnoc(prefix, v);
    RevisionsNamedSnoc(prefix, v);
    NameAbsentNoRevisions(prefix, v.jobDefinitionName);
  }

  lemma NamesOfSnoc(records: seq<JobDefinition>, v: JobDefinition)
    ensures NamesOf(records + [v]) == NamesOf(records) + {v.jobDefinitionName}
  {
    var both := records + [v];
    forall n | n in NamesOf(both) ensures n in NamesOf(records) + {v.jobDefinitionName} {
      var j :| 0 <= j < |both| && both[j].jobDefinitionName == n;
      if j < |records| { assert records[j] == both[j]; }
    }
    forall n | n in NamesOf(records) ensures n in NamesOf(both) {
      var j :| 0 <= j < |records| && records[j].jobDefinitionName == n;
      assert both[j] == records[j];
    }
    assert both[|records|] == v;
  }

  lemma RevisionsNamedSnoc(records: seq<JobDefinition>, v: JobDefinition)
    ensures forall n ::
      RevisionsNamed(records + [v], n) == RevisionsNamed(records, n) + (if v.jobDefinitionName == n then [v.revision] else [])
  {
    assert (records + [v])[..|records|] == records;
  }

  lemma {:induction false} NameAbsentNoRevisions(records: seq<JobDefinition>, name: string)
    ensures name !in NamesOf(records) ==> RevisionsNamed(records, name) == []
  {
    if records != [] && name !in NamesOf(records) {
      var init := records[..|records| - 1];
      assert NamesOf(init) <= NamesOf(records) by {
        forall n | n in NamesOf(init) ensures n in NamesOf(records) {
          var j :| 0 <= j < |init| && init[j].jobDefinitionName == n;
          assert records[j] == init[j];
        }
      }
      NameAbsentNoRevisions(init, name);
      assert records[|records| - 1].jobDefinitionName in NamesOf(records);
    }
  }

  /** The distinct definition names, in order of first appearance. */
  function NameOrder(records: seq<JobDefinition>): (names: seq<string>)
    ensures forall i, j :: 0 <= i < j < |names| ==> names[i] != names[j]
    ensures forall n :: n in names <==> n in NamesOf(records)
  {
    if records == [] then []
    else
      var init := records[..|records| - 1];
      var v := records[|records| - 1];
      assert records == init + [v];
      NamesOfSnoc(init, v);
      var names := NameOrder(init);
      if v.jobDefinitionName in names then names else names + [v.jobDefinitionName]
  }

  /** The total number of revisions listed under the given names. */
  function TotalRevisions(records: seq<JobDefinition>, names: seq<string>): nat
  {
    if names == [] then 0
    else TotalRevisions(records, names[..|names| - 1]) + |RevisionsNamed(records, names[|names| - 1])|
  }

  /** Appending a record adds one revision under each occurrence of its name. */
  lemma {:induction false} TotalRevisionsSnoc(records: seq<JobDefinition>, v: JobDefinition, names: seq<string>)
    ensures TotalRevisions(records + [v], names) == TotalRevisions(records, names) + multiset(names)[v.jobDefinitionName]
  {
    if names != [] {
      var init := names[..|names| - 1];
      TotalRevisionsSnoc(records, v, init);
      RevisionsNamedSnoc(records, v);
      assert names == init + [names[|names| - 1]];
      assert multiset(names) == multiset(init) + multiset{names[|names| - 1]};
    }
  }

  lemma {:induction false} TotalRevisionsAbsent(records: seq<JobDefinition>, names: seq<string>, n: string)
    requires RevisionsNamed(records, n) == []
    ensures TotalRevisions(records, names + [n]) == TotalRevisions(records, names)
  {
    assert (names + [n])[..|names|] == names;
  }

  lemma DistinctOccursOnce(names: seq<string>, n: string)
    requires forall i, j :: 0 <= i < j < |names| ==> names[i] != names[j]
    ensures multiset(names)[n] == if n in names then 1 else 0
  {
    if names != [] {
      var init := names[..|names| - 1];
      DistinctOccursOnce(init, n);
      assert names == init + [names[|names| - 1]];
      assert multiset(names) == multiset(init) + multiset{names[|names| - 1]};
      if names[|names| - 1] == n {
        assert n !in init;
      }
    }
  }

  /** Every record of the response contributes exactly one revision to the
      grouping: the revisions listed under the distinct names number as many
      as the records. */
  lemma {:induction false} EveryRecordCountedOnce(records: seq<JobDefinition>)
    ensures TotalRevisions(records, NameOrder(records)) == |records|
  {
    if records != [] {
      var init := records[..|records| - 1];
      var v := records[|records| - 1];
      assert records == init + [v];
      EveryRecordCountedOnce(init);
      var names := NameOrder(init);
      TotalRevisionsSnoc(init, v, names);
      DistinctOccursOnce(names, v.jobDefinitionName);
      if v.jobDefinitionName !in names {
        NameAbsentNoRevisions(init, v.jobDefinitionName);
        RevisionsNamedSnoc(init, v);
        TotalRevisionsSnoc(init, v, names + [v.jobDefinitionName]);
        assert multiset(names + [v.jobDefinitionName]) == multiset(names) + multiset{v.jobDefinitionName};
        TotalRevisionsAbsent(init, names, v.jobDefinitionName);
      }
    }
  }

  // ---------------------------------------------------------------------------
  // Job queues and job status
  // ---------------------------------------------------------------------------

  /** ListJobQueues (svc/batch_client.go:101-118): one summary per record, in
      order, with the fields copied unchanged; on a failed call, no queues. */
  method ListJobQueues(reply: Reply<JobQueueDetail>) returns (queues: seq<JobQueue>, err: Option<string>)
    ensures reply.CallFailed? ==> queues == [] && err == Some(reply.reason)
    ensures reply.Answered? ==> err == None && |queues| == |reply.records|
    ensures reply.Answered? ==> forall i :: 0 <= i < |queues| ==>
      && queues[i].name == reply.records[i].jobQueueName
      && queues[i].priority == reply.records[i].priority
      && queues[i].state == reply.records[i].state
      && queues[i].status == reply.records[i].status
  {
    queues := [];
    if reply.CallFailed? {
      return queues, Some(reply.reason);
    }
    var i := 0;
    while i < |reply.records|
      invariant 0 <= i <= |reply.records|
      invariant |queues| == i
      invariant forall j :: 0 <= j < i ==>
        queues[j] == JobQueue(reply.records[j].jobQueueName, reply.records[j].priority, reply.records[j].state, reply.records[j].status)
    {
      var v := reply.records[i];
      queues := queues + [JobQueue(v.jobQueueName, v.priority, v.state, v.status)];
      i := i + 1;
    }
    err := None;
  }

  datatype QueueError = QueueNotFound | QueueCallFailed(reason: string)

  /** DescribeJobQueue (svc/batch_client.go:59-74): the first record of the reply. */
  function DescribeJobQueue(reply: Reply<JobQueueDetail>): (r: Result<JobQueueDetail, QueueError>)
    ensures r.Success? <==> reply.Answered? && |reply.records| > 0
    ensures r.Success? ==> r.value == reply.records[0]
    ensures r == Failure(QueueNotFound) <==> reply == Answered([])
  {
    match reply
    case CallFailed(reason) => Failure(QueueCallFailed(reason))
    case Answered(records) => if |records| == 0 then Failure(QueueNotFound) else Success(records[0])
  }

  /** What reading a job's status can give, as svc/batch_client.go:76-88 is written. */
  datatype StatusRead = Read(status: JobStatus) | ReadFailed | IndexOutOfRange

  /** DescribeJobStatus as written: `result.Jobs[0]` is taken without checking
      that the list is non-empty, which Go turns into a run-time panic. */
  function DescribeJobStatusAsWritten(reply: Reply<JobDetail>): (r: StatusRead)
    ensures r == IndexOutOfRange <==> reply == Answered([])
    ensures r.Read? <==> reply.Answered? && |reply.records| > 0
    ensures r.Read? ==> r.status == reply.records[0].status
  {
    match reply
    case CallFailed(_) => ReadFailed
    case Answered(jobs) => if |jobs| == 0 then IndexOutOfRange else Read(jobs[0].status)
  }

  lemma EmptyJobListPanics()
    ensures DescribeJobStatusAsWritten(Answered([])) == IndexOutOfRange
  {
  }

  /** The result of one status fetch, as the poller sees it. */
  datatype Fetched = Got(status: JobStatus) | FetchFailed

  /** DescribeJobStatus with the missing emptiness check added: an empty job
      list is a failed fetch, like any other error of the call. */
  function DescribeJobStatus(reply: Reply<JobDetail>): (r: Fetched)
    ensures r.Got? <==> reply.Answered? && |reply.records| > 0
    ensures r.Got? ==> r.status == reply.records[0].status
  {
    match reply
    case CallFailed(_) => FetchFailed
    case Answered(jobs) => if |jobs| == 0 then FetchFailed else Got(jobs[0].status)
  }

  /** Wherever the code as written does not panic, the corrected reading agrees with it. */
  lemma DescribeJobStatusAgrees(reply: Reply<JobDetail>)
    requires DescribeJobStatusAsWritten(reply) != IndexOutOfRange
    ensures DescribeJobStatus(reply) == (match DescribeJobStatusAsWritten(reply)
                                        case Read(s) => Got(s)
                                        case _ => FetchFailed)
  {
  }
}
