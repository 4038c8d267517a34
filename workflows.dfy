/** The Temporal workflow that processes a submitted video
    (backend/temporal_workflows/workflows.py): the video is set to
    PROCESSING, the ingest, transcription and analysis activities run in
    turn, five content activities fan out, and the video and its job are
    set to COMPLETED; any exception ends in best-effort FAILED updates.

    Activities are oracles: the result of each attempt is given, and the
    workflow sees what Temporal's retry policy makes of the attempts.  The
    `update_video_status` activity (backend/temporal_workflows/activities.py)
    catches its own errors and returns False, so its write is issued and
    its outcome ignored. */
module Workflows {
  import opened Wrappers
  import opened Models
  import opened Db

  // ---------------------------------------------------------------------
  // Retry policies

  /** A Temporal retry policy; intervals are in seconds.  Temporal reads a
      `maximumAttempts` of 0 as "no limit"; here 0 stands for a single
      attempt, and only the policies below, with 5 and 3, are used. */
  datatype RetryPolicy = RetryPolicy(initialInterval: nat, backoff: nat, maximumInterval: nat,
                                     maximumAttempts: nat, nonRetryable: seq<string>)

  /** The policy of the activities that call external services. */
  const ApiRetry: RetryPolicy := RetryPolicy(1, 2, 300, 5, ["ValueError", "TypeError"])

  /** The policy of the activities that only write to the database. */
  const DbRetry: RetryPolicy := RetryPolicy(1, 2, 30, 3, [])

  /** One attempt of an activity: its result or the exception it raised. */
  datatype Attempt<T> = Returned(value: T) | Raised(errorType: string, message: string)

  /** Whether the policy tries again after this attempt. */
  predicate Retries<T>(p: RetryPolicy, a: Attempt<T>, k: nat) {
    a.Raised? && a.errorType !in p.nonRetryable && k + 1 < p.maximumAttempts
  }

  /** Attempts `k`, `k + 1`, ... of an activity: the outcome the workflow
      sees and the number of attempts made in all. */
  function RetryFrom<T>(p: RetryPolicy, attempt: nat -> Attempt<T>, k: nat): (Attempt<T>, nat)
    decreases p.maximumAttempts - k
  {
    if Retries(p, attempt(k), k) then RetryFrom(p, attempt, k + 1) else (attempt(k), k + 1)
  }

  function Retry<T>(p: RetryPolicy, attempt: nat -> Attempt<T>): (Attempt<T>, nat) {
    RetryFrom(p, attempt, 0)
  }

  /** From attempt `k` on, the outcome is the last attempt made, every
      attempt before it raised a retryable error, and no more attempts are
      made than the policy allows (at least one is always made). */
  lemma {:induction false} RetryFromSpec<T>(p: RetryPolicy, attempt: nat -> Attempt<T>, k: nat)
    ensures var (a, n) := RetryFrom(p, attempt, k);
      && k < n && (n <= p.maximumAttempts || n == k + 1)
      && a == attempt(n - 1) && !Retries(p, a, n - 1)
      && forall j :: k <= j < n - 1 ==> Retries(p, attempt(j), j)
    decreases p.maximumAttempts - k
  {
    if Retries(p, attempt(k), k) {
      RetryFromSpec(p, attempt, k + 1);
    }
  }

  /** The outcome under a policy is the last attempt made; at least one and
      at most the allowed number of attempts are made; every earlier attempt
      raised a retryable error; and a retryable error is final only at the
      last allowed attempt. */
  lemma RetrySpec<T>(p: RetryPolicy, attempt: nat -> Attempt<T>)
    ensures var (a, n) := Retry(p, attempt);
      && 1 <= n && (p.maximumAttempts >= 1 ==> n <= p.maximumAttempts)
      && a == attempt(n - 1)
      && (forall j :: 0 <= j < n - 1 ==> attempt(j).Raised? && attempt(j).errorType !in p.nonRetryable)
      && (a.Raised? && a.errorType !in p.nonRetryable ==> n == p.maximumAttempts || (p.maximumAttempts == 0 && n == 1))
  {
    RetryFromSpec(p, attempt, 0);
  }

  /** External calls get at most 5 attempts and a ValueError or TypeError is
      never retried; database activities get at most 3 attempts. */
  lemma PolicyLimits<T>(attempt: nat -> Attempt<T>)
    ensures Retry(ApiRetry, attempt).1 <= 5 && Retry(DbRetry, attempt).1 <= 3
    ensures attempt(0).Raised? && attempt(0).errorType in {"ValueError", "TypeError"} ==>
      Retry(ApiRetry, attempt) == (attempt(0), 1)
  {
    RetrySpec(ApiRetry, attempt);
    RetrySpec(DbRetry, attempt);
  }

  function Power(b: nat, k: nat): nat {
    if k == 0 then 1 else b * Power(b, k - 1)
  }

  /** The wait before retry `k + 1`: the initial interval grown by the
      backoff coefficient, capped at the maximum interval. */
  function Delay(p: RetryPolicy, k: nat): nat {
    var d := p.initialInterval * Power(p.backoff, k);
    if d < p.maximumInterval then d else p.maximumInterval
  }

  lemma {:induction false} PowerGrows(b: nat, k: nat)
    requires b >= 1
    ensures 1 <= Power(b, k) <= Power(b, k + 1)
  {
    if k > 0 {
      PowerGrows(b, k - 1);
    }
  }

  /** Both policies wait 1 s, then twice as long each time, never longer than
      their cap (5 minutes, 30 seconds) and never shorter than before. */
  lemma DelaysGrowToCap(k: nat)
    ensures Delay(ApiRetry, 0) == 1 && Delay(DbRetry, 0) == 1
    ensures 1 <= Delay(ApiRetry, k) <= Delay(ApiRetry, k + 1) <= 300
    ensures 1 <= Delay(DbRetry, k) <= Delay(DbRetry, k + 1) <= 30
  {
    PowerGrows(2, k);
  }

  // ---------------------------------------------------------------------
  // Fan-out

  /** The asset types the workflow fans out to, in order. */
  const FanOutTypes: seq<string> := ["BLOG_POST", "TWITTER_THREAD", "LINKEDIN_POST", "NEWSLETTER", "VIDEO_HIGHLIGHTS"]

  /** The attempts of every activity of one run.  `ingest` returns the
      title in `ingest_video`'s dictionary, if any; the others' results are
      not used by the workflow.  `generate` is the content activity for an
      asset type.  `caught(name, errorType, message)` is the text of the
      exception `workflow.execute_activity` raises when the activity `name`
      finally fails with that error: Temporal wraps the activity's own
      exception in an ActivityError, and the run reports that error's text,
      not the activity's message. */
  datatype Activities = Activities(
    ingest: nat -> Attempt<Option<string>>,
    transcribe: nat -> Attempt<()>,
    analyze: nat -> Attempt<()>,
    generate: (string, nat) -> Attempt<()>,
    caught: (string, string, string) -> string)

  /** The outcome of the content activity for the `i`-th type. */
  function FanOutResult(acts: Activities, i: nat): Attempt<()>
    requires i < |FanOutTypes|
  {
    Retry(ApiRetry, (k: nat) => acts.generate(FanOutTypes[i], k)).0
  }

  /** What `asyncio.gather(..., return_exceptions=True)` gives: the outcome
      of each content activity, in the order their tasks were built. */
  function FanOutResults(acts: Activities): (r: seq<Attempt<()>>)
    ensures |r| == |FanOutTypes| && forall i :: 0 <= i < |r| ==> r[i] == FanOutResult(acts, i)
  {
    seq(|FanOutTypes|, (i: nat) requires i < |FanOutTypes| => FanOutResult(acts, i))
  }

  /** The loop that builds `content_tasks`, one per asset type. */
  method StartFanOut(acts: Activities) returns (results: seq<Attempt<()>>)
    ensures results == FanOutResults(acts)
  {
    results := [];
    for i := 0 to |FanOutTypes|
      invariant results == FanOutResults(acts)[..i]
    {
      results := results + [Retry(ApiRetry, (k: nat) => acts.generate(FanOutTypes[i], k)).0];
    }
  }

  /** The types among the first `n` whose outcome is an exception, in order. */
  function FailedAmong(results: seq<Attempt<()>>, n: nat): seq<string>
    requires n <= |results| <= |FanOutTypes|
  {
    if n == 0 then []
    else FailedAmong(results, n - 1) + (if results[n - 1].Raised? then [FanOutTypes[n - 1]] else [])
  }

  /** How many of the first `n` outcomes are results. */
  function ReturnedAmong(results: seq<Attempt<()>>, n: nat): nat
    requires n <= |results|
  {
    if n == 0 then 0 else ReturnedAmong(results, n - 1) + (if results[n - 1].Returned? then 1 else 0)
  }

  /** Every outcome is counted once, as generated or as failed; a type is
      listed as failed exactly when its outcome is an exception. */
  lemma {:induction false} FanOutAccounting(results: seq<Attempt<()>>, n: nat)
    requires n <= |results| <= |FanOutTypes|
    ensures ReturnedAmong(results, n) + |FailedAmong(results, n)| == n
    ensures forall i :: 0 <= i < n ==> (FanOutTypes[i] in FailedAmong(results, n) <==> results[i].Raised?)
  {
    if n > 0 {
      FanOutAccounting(results, n - 1);
      forall i | 0 <= i < n
        ensures FanOutTypes[i] in FailedAmong(results, n) <==> results[i].Raised?
      {
        if i < n - 1 {
          DistinctTypes(i, n - 1);
        } else if FanOutTypes[i] in FailedAmong(results, n - 1) {
          FailedAmongBefore(results, n - 1, FanOutTypes[i]);
        }
      }
    }
  }

  /** The five type names are distinct. */
  lemma DistinctTypes(i: nat, j: nat)
    requires i < j < |FanOutTypes|
    ensures FanOutTypes[i] != FanOutTypes[j]
  {
  }

  /** The failed list of a prefix only names types of that prefix. */
  lemma {:induction false} FailedAmongBefore(results: seq<Attempt<()>>, n: nat, name: string)
    requires n <= |results| <= |FanOutTypes|
    requires name in FailedAmong(results, n)
    ensures exists i :: 0 <= i < n && FanOutTypes[i] == name && results[i].Raised?
  {
    if n > 0 && name !in FailedAmong(results, n - 1) {
      assert FanOutTypes[n - 1] == name && results[n - 1].Raised?;
    } else if n > 0 {
      FailedAmongBefore(results, n - 1, name);
    }
  }

  /** The loop that collects `failed_assets`. */
  method CollectFailures(results: seq<Attempt<()>>) returns (failed: seq<string>)
    requires |results| == |FanOutTypes|
    ensures failed == FailedAmong(results, |results|)
  {
    failed := [];
    for i := 0 to |results|
      invariant failed == FailedAmong(results, i)
    {
      if results[i].Raised? {
        failed := failed + [FanOutTypes[i]];
      }
    }
  }

  // ---------------------------------------------------------------------
  // The run

  /** The dictionary the workflow returns. */
  datatype RunResult =
    | RunCompleted(videoId: string, jobId: string, generatedAssets: nat, failedAssets: seq<string>, title: string)
    | RunFailed(videoId: string, jobId: string, error: string)

  /** The failure path: the video is set to FAILED (the activity swallows its
      own error), then the job; an error of the job update is swallowed. */
  function FailPath(t: Tables, faulty: set<Write>, videoId: string, jobId: string): Tables {
    Apply(Apply(t, faulty, SetVideoStatusOp(videoId, Failed)), faulty, SetJobStatusOp(jobId, JobFailed))
  }

  /** The tables after a run and what it returns. */
  function WorkflowRun(t: Tables, faulty: set<Write>, videoId: string, jobId: string, acts: Activities): (Tables, RunResult)
  {
    var t1 := Apply(t, faulty, SetVideoStatusOp(videoId, Processing));
    var ingest := Retry(ApiRetry, acts.ingest).0;
    var transcribe := Retry(ApiRetry, acts.transcribe).0;
    var analyze := Retry(ApiRetry, acts.analyze).0;
    if ingest.Raised? then (FailPath(t1, faulty, videoId, jobId), RunFailed(videoId, jobId, acts.caught("ingest_video", ingest.errorType, ingest.message)))
    else if transcribe.Raised? then (FailPath(t1, faulty, videoId, jobId), RunFailed(videoId, jobId, acts.caught("transcribe_audio", transcribe.errorType, transcribe.message)))
    else if analyze.Raised? then (FailPath(t1, faulty, videoId, jobId), RunFailed(videoId, jobId, acts.caught("analyze_transcript", analyze.errorType, analyze.message)))
    else
      var results := FanOutResults(acts);
      var t2 := Apply(t1, faulty, SetVideoStatusOp(videoId, Completed));
      var jobOp := SetJobStatusOp(jobId, JobCompleted);
      if !Succeeds(t2, faulty, jobOp) then (FailPath(t2, faulty, videoId, jobId), RunFailed(videoId, jobId, WriteError))
      else (Effect(t2, jobOp), RunCompleted(videoId, jobId, ReturnedAmong(results, |results|),
                                            FailedAmong(results, |results|), ingest.value.GetOr("Unknown")))
  }

  /** The `update_video_status` activity. */
  method UpdateVideoStatus(db: Store, videoId: string, s: VideoStatus)
    modifies db
    ensures db.t == Apply(old(db.t), db.faulty, SetVideoStatusOp(videoId, s))
  {
    var _ := db.Run(SetVideoStatusOp(videoId, s));
  }

  /** The failure path, as a method. */
  method MarkFailed(db: Store, videoId: string, jobId: string)
    modifies db
    ensures db.t == FailPath(old(db.t), db.faulty, videoId, jobId)
  {
    UpdateVideoStatus(db, videoId, Failed);
    var _ := db.Run(SetJobStatusOp(jobId, JobFailed));
  }

  /** `ProcessVideoWorkflow.run`. */
  method Run(db: Store, videoId: string, jobId: string, acts: Activities) returns (result: RunResult)
    modifies db
    ensures (db.t, result) == WorkflowRun(old(db.t), db.faulty, videoId, jobId, acts)
  {
    UpdateVideoStatus(db, videoId, Processing);
    var ingest := Retry(ApiRetry, acts.ingest).0;
    if ingest.Raised? {
      MarkFailed(db, videoId, jobId);
      return RunFailed(videoId, jobId, acts.caught("ingest_video", ingest.errorType, ingest.message));
    }
    var transcribe := Retry(ApiRetry, acts.transcribe).0;
    if transcribe.Raised? {
      MarkFailed(db, videoId, jobId);
      return RunFailed(videoId, jobId, acts.caught("transcribe_audio", transcribe.errorType, transcribe.message));
    }
    var analyze := Retry(ApiRetry, acts.analyze).0;
    if analyze.Raised? {
      MarkFailed(db, videoId, jobId);
      return RunFailed(videoId, jobId, acts.caught("analyze_transcript", analyze.errorType, analyze.message));
    }
    var results := StartFanOut(acts);
    var failed := CollectFailures(results);
    UpdateVideoStatus(db, videoId, Completed);
    var ok := db.Run(SetJobStatusOp(jobId, JobCompleted));
    if !ok {
      MarkFailed(db, videoId, jobId);
      return RunFailed(videoId, jobId, WriteError);
    }
    result := RunCompleted(videoId, jobId, ReturnedAmong(results, |results|), failed, ingest.value.GetOr("Unknown"));
  }

  /** The upstream activities all returned. */
  predicate UpstreamReturned(acts: Activities) {
    Retry(ApiRetry, acts.ingest).0.Returned? && Retry(ApiRetry, acts.transcribe).0.Returned?
    && Retry(ApiRetry, acts.analyze).0.Returned?
  }

  /** When every write goes through and the upstream activities return, the
      run completes the video and the job whatever the content activities
      do, and its counts cover the five types: generated plus failed is 5,
      and a type is listed as failed exactly when its activity raised. */
  lemma CompletesDespiteFanOutFailures(t: Tables, videoId: string, jobId: string, acts: Activities)
    requires videoId in t.videos && JobIdUsed(t.jobs, jobId) && UpstreamReturned(acts)
    ensures var (t1, r) := WorkflowRun(t, {}, videoId, jobId, acts);
      && r.RunCompleted? && r.videoId == videoId && r.jobId == jobId
      && r.generatedAssets + |r.failedAssets| == 5
      && (forall i :: 0 <= i < 5 ==> (FanOutTypes[i] in r.failedAssets <==> FanOutResult(acts, i).Raised?))
      && t1 == t.(videos := t.videos[videoId := t.videos[videoId].(status := Completed)],
                  jobs := WithJobStatus(t.jobs, jobId, JobCompleted))
  {
    var results := FanOutResults(acts);
    FanOutAccounting(results, |results|);
  }

  /** The failure path sets the video and the job to FAILED when both
      updates can be made, and changes nothing else. */
  lemma FailPathSpec(t: Tables, faulty: set<Write>, videoId: string, jobId: string)
    requires videoId in t.videos && JobIdUsed(t.jobs, jobId)
    requires SetVideoStatusW(videoId, Failed) !in faulty && SetJobStatusW(jobId, JobFailed) !in faulty
    ensures FailPath(t, faulty, videoId, jobId) ==
      t.(videos := t.videos[videoId := t.videos[videoId].(status := Failed)], jobs := WithJobStatus(t.jobs, jobId, JobFailed))
  {
  }

  /** A status write keeps the video rows' keys and the jobs. */
  lemma StatusWriteKeeps(t: Tables, faulty: set<Write>, videoId: string, s: VideoStatus)
    ensures var t1 := Apply(t, faulty, SetVideoStatusOp(videoId, s));
      t1.videos.Keys == t.videos.Keys && t1.jobs == t.jobs && t1.transcripts == t.transcripts && t1.assets == t.assets
  {
  }

  /** A run that returns "failed" leaves the video FAILED and the job FAILED
      whenever those updates can be made, and a completed run leaves the
      job COMPLETED and the video too unless its update raised; the
      workflow's own writes touch no transcript or asset (the activities
      that store them are oracles here, and their writes are not modelled). */
  lemma RunOutcomeMatchesStore(t: Tables, faulty: set<Write>, videoId: string, jobId: string, acts: Activities)
    requires videoId in t.videos && JobIdUsed(t.jobs, jobId)
    requires SetVideoStatusW(videoId, Failed) !in faulty && SetJobStatusW(jobId, JobFailed) !in faulty
    ensures var (t1, r) := WorkflowRun(t, faulty, videoId, jobId, acts);
      && t1.transcripts == t.transcripts && t1.assets == t.assets && t1.videos.Keys == t.videos.Keys
      && (r.RunFailed? ==> t1.videos[videoId].status == Failed && t1.jobs == WithJobStatus(t.jobs, jobId, JobFailed))
      && (r.RunCompleted? ==> t1.jobs == WithJobStatus(t.jobs, jobId, JobCompleted))
      && (r.RunCompleted? && SetVideoStatusW(videoId, Completed) !in faulty ==> t1.videos[videoId].status == Completed)
  {
    var t1 := Apply(t, faulty, SetVideoStatusOp(videoId, Processing));
    StatusWriteKeeps(t, faulty, videoId, Processing);
    if !UpstreamReturned(acts) {
      FailPathSpec(t1, faulty, videoId, jobId);
    } else {
      var t2 := Apply(t1, faulty, SetVideoStatusOp(videoId, Completed));
      StatusWriteKeeps(t1, faulty, videoId, Completed);
      if !Succeeds(t2, faulty, SetJobStatusOp(jobId, JobCompleted)) {
        FailPathSpec(t2, faulty, videoId, jobId);
      }
    }
  }

  /** A raised upstream activity fails the run whatever the content
      activities do; the error reported is the text of the exception caught
      for the first upstream activity that failed. */
  lemma UpstreamFailureStops(t: Tables, faulty: set<Write>, videoId: string, jobId: string, acts: Activities, gen: (string, nat) -> Attempt<()>)
    requires !UpstreamReturned(acts)
    ensures var r := WorkflowRun(t, faulty, videoId, jobId, acts).1;
      && r.RunFailed?
      && r.error == (var i := Retry(ApiRetry, acts.ingest).0;
                     var tr := Retry(ApiRetry, acts.transcribe).0;
                     var an := Retry(ApiRetry, acts.analyze).0;
                     if i.Raised? then acts.caught("ingest_video", i.errorType, i.message)
                     else if tr.Raised? then acts.caught("transcribe_audio", tr.errorType, tr.message)
                     else acts.caught("analyze_transcript", an.errorType, an.message))
    ensures WorkflowRun(t, faulty, videoId, jobId, acts) == WorkflowRun(t, faulty, videoId, jobId, acts.(generate := gen))
  {
  }

  /** A job update that raises after the video was set to COMPLETED sends
      the run to the failure path, which sets the video back to FAILED. */
  lemma LateJobFailureUndoesCompletion(t: Tables, videoId: string, jobId: string, acts: Activities)
    requires videoId in t.videos && JobIdUsed(t.jobs, jobId) && UpstreamReturned(acts)
    ensures var (t1, r) := WorkflowRun(t, {SetJobStatusW(jobId, JobCompleted)}, videoId, jobId, acts);
      && r == RunFailed(videoId, jobId, WriteError)
      && videoId in t1.videos && t1.videos[videoId].status == Failed
      && t1.jobs == WithJobStatus(t.jobs, jobId, JobFailed)
  {
  }
}
