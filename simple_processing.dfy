/** Processing without Temporal (backend/app/routes/simple_processing.py):
    `process_video_complete` takes a video from PROCESSING through captions
    (or, without captions, download and AssemblyAI transcription) and
    content generation to COMPLETED, and `process_pending_videos` queues
    that run for every PENDING video that has a job. */
module SimpleProcessing {
  import opened Wrappers
  import opened Strs
  import opened Models
  import opened Db
  import opened VideoProcessor

  /** A caption paragraph as stored. */
  function SegmentJson(s: CaptionSegment): Json {
    JObj([("text", JStr(s.text)), ("start", JNum(s.start)), ("duration", JNum(s.duration))])
  }

  /** The transcript document stored on the caption path: the text, the
      paragraphs, no summary and no chapters. */
  function CaptionTranscript(c: CaptionResult): (d: Json)
    ensures d.JObj? && Get(d.fields, "text") == Some(JStr(c.text))
  {
    JObj([("text", JStr(c.text)),
          ("segments", JArr(seq(|c.segments|, (i: nat) requires i < |c.segments| => SegmentJson(c.segments[i])))),
          ("summary", JNull), ("chapters", JArr([]))])
  }

  /** The failure path: the video is set to FAILED and, only if that
      succeeds, the job too; an error in either is swallowed. */
  function FailBoth(t: Tables, faulty: set<Write>, videoId: string, jobId: string): Tables {
    var videoOp := SetVideoStatusOp(videoId, Failed);
    if Succeeds(t, faulty, videoOp) then Apply(Effect(t, videoOp), faulty, SetJobStatusOp(jobId, JobFailed)) else t
  }

  method MarkBothFailed(db: Store, videoId: string, jobId: string)
    modifies db
    ensures db.t == FailBoth(old(db.t), db.faulty, videoId, jobId)
  {
    var ok := db.Run(SetVideoStatusOp(videoId, Failed));
    if ok {
      ok := db.Run(SetJobStatusOp(jobId, JobFailed));
    }
  }

  /** The tables after the content step and the two COMPLETED updates.  The
      content step's `False` is ignored. */
  function FinishState(t: Tables, faulty: set<Write>, videoId: string, jobId: string,
                       gemini: GeminiService, text: string, title: string): Tables
  {
    var n := CreatedCount(faulty, jobId, 0);
    var t1 := t.(assets := t.assets + GeneratedAssets(gemini, text, title, jobId)[..n]);
    var videoOp := SetVideoStatusOp(videoId, Completed);
    if !Succeeds(t1, faulty, videoOp) then FailBoth(t1, faulty, videoId, jobId)
    else
      var t2 := Effect(t1, videoOp);
      var jobOp := SetJobStatusOp(jobId, JobCompleted);
      if !Succeeds(t2, faulty, jobOp) then FailBoth(t2, faulty, videoId, jobId)
      else Effect(t2, jobOp)
  }

  /** The caption path after PROCESSING: title, caption transcript, content. */
  function CaptionState(t: Tables, faulty: set<Write>, videoId: string, jobId: string,
                        c: CaptionResult, gemini: GeminiService): Tables
  {
    var titleOp := SetVideoTitleOp(videoId, c.title);
    if !Succeeds(t, faulty, titleOp) then FailBoth(t, faulty, videoId, jobId)
    else
      var t1 := Effect(t, titleOp);
      var transcriptOp := CreateTranscriptOp(jobId, Dumped(CaptionTranscript(c)));
      if !Succeeds(t1, faulty, transcriptOp) then FailBoth(t1, faulty, videoId, jobId)
      else FinishState(Effect(t1, transcriptOp), faulty, videoId, jobId, gemini, c.text, c.title)
  }

  /** The fallback after PROCESSING: the downloaded audio's title, then the
      transcription. */
  function AudioState(t: Tables, faulty: set<Write>, videoId: string, jobId: string,
                      audio: Result<AudioInfo>, sdk: SdkTranscript, gemini: GeminiService): Tables
  {
    match audio
    case Err(_) => FailBoth(t, faulty, videoId, jobId)
    case Ok(a) =>
      var titleOp := SetVideoTitleOp(videoId, a.title);
      if !Succeeds(t, faulty, titleOp) then FailBoth(t, faulty, videoId, jobId)
      else TranscribedState(Effect(t, titleOp), faulty, videoId, jobId, a, sdk, gemini)
  }

  /** The AssemblyAI transcript is stored (and the audio file removed), then
      the content step. */
  function TranscribedState(t: Tables, faulty: set<Write>, videoId: string, jobId: string,
                            a: AudioInfo, sdk: SdkTranscript, gemini: GeminiService): Tables
  {
    match sdk
    case SdkError(_) => FailBoth(t, faulty, videoId, jobId)
    case SdkCompleted(text, summary, chapters) =>
      var transcriptOp := CreateTranscriptOp(jobId, Native(TranscriptDoc(text, summary, chapters)));
      if !Succeeds(t, faulty, transcriptOp) then FailBoth(t, faulty, videoId, jobId)
      else
        var t1 := Effect(t, transcriptOp).(files := t.files - {a.audioPath});
        FinishState(t1, faulty, videoId, jobId, gemini, text, a.title)
  }

  /** The tables after `process_video_complete`, given the caption fetch, the
      download's result and the AssemblyAI transcript. */
  function CompleteState(t: Tables, faulty: set<Write>, videoId: string, jobId: string,
                         fetched: Option<CaptionResult>, audio: Result<AudioInfo>, sdk: SdkTranscript,
                         gemini: GeminiService): Tables
  {
    var processing := SetVideoStatusOp(videoId, Processing);
    if !Succeeds(t, faulty, processing) then FailBoth(t, faulty, videoId, jobId)
    else if fetched.Some? then CaptionState(Effect(t, processing), faulty, videoId, jobId, fetched.value, gemini)
    else AudioState(Effect(t, processing), faulty, videoId, jobId, audio, sdk, gemini)
  }

  /** The content step and the COMPLETED updates. */
  method Finish(db: Store, videoId: string, jobId: string, gemini: GeminiService, text: string, title: string)
    modifies db
    ensures db.t == FinishState(old(db.t), db.faulty, videoId, jobId, gemini, text, title)
  {
    var _ := GenerateContentAssets(db, gemini, text, title, jobId);
    var ok := db.Run(SetVideoStatusOp(videoId, Completed));
    if !ok {
      MarkBothFailed(db, videoId, jobId);
      return;
    }
    ok := db.Run(SetJobStatusOp(jobId, JobCompleted));
    if !ok {
      MarkBothFailed(db, videoId, jobId);
    }
  }

  method CaptionPath(db: Store, videoId: string, jobId: string, c: CaptionResult, gemini: GeminiService)
    modifies db
    ensures db.t == CaptionState(old(db.t), db.faulty, videoId, jobId, c, gemini)
  {
    var ok := db.Run(SetVideoTitleOp(videoId, c.title));
    if !ok {
      MarkBothFailed(db, videoId, jobId);
      return;
    }
    ok := db.Run(CreateTranscriptOp(jobId, Dumped(CaptionTranscript(c))));
    if !ok {
      MarkBothFailed(db, videoId, jobId);
      return;
    }
    Finish(db, videoId, jobId, gemini, c.text, c.title);
  }

  method AudioPath(db: Store, videoId: string, jobId: string, audio: Result<AudioInfo>, sdk: SdkTranscript, gemini: GeminiService)
    modifies db
    ensures db.t == AudioState(old(db.t), db.faulty, videoId, jobId, audio, sdk, gemini)
  {
    if audio.Err? {
      MarkBothFailed(db, videoId, jobId);
      return;
    }
    var a := audio.value;
    var ok := db.Run(SetVideoTitleOp(videoId, a.title));
    if !ok {
      MarkBothFailed(db, videoId, jobId);
      return;
    }
    TranscribeAndFinish(db, videoId, jobId, a, sdk, gemini);
  }

  method TranscribeAndFinish(db: Store, videoId: string, jobId: string, a: AudioInfo, sdk: SdkTranscript, gemini: GeminiService)
    modifies db
    ensures db.t == TranscribedState(old(db.t), db.faulty, videoId, jobId, a, sdk, gemini)
  {
    ghost var t0 := db.t;
    var doc := TranscribeAudio(db, a, jobId, sdk);
    if doc.Err? {
      assert db.t == t0;
      MarkBothFailed(db, videoId, jobId);
      return;
    }
    ghost var op := CreateTranscriptOp(jobId, Native(doc.value));
    assert Succeeds(t0, db.faulty, op) && db.t == Effect(t0, op).(files := t0.files - {a.audioPath});
    Finish(db, videoId, jobId, gemini, sdk.text, a.title);
  }

  /** `process_video_complete`.  `audio` is what `ingest_video` returns and
      `sdk` the AssemblyAI transcript; both are only used without captions. */
  method ProcessVideoComplete(db: Store, videoId: string, url: string, jobId: string,
                              captions: string -> CaptionListing, lookupTitle: string -> Option<string>,
                              audio: Result<AudioInfo>, sdk: SdkTranscript, gemini: GeminiService)
    modifies db
    ensures db.t == CompleteState(old(db.t), db.faulty, videoId, jobId, FetchCaptions(url, captions, lookupTitle), audio, sdk, gemini)
  {
    var ok := db.Run(SetVideoStatusOp(videoId, Processing));
    if !ok {
      MarkBothFailed(db, videoId, jobId);
      return;
    }
    var transcript := GetYoutubeTranscript(url, captions, lookupTitle);
    if transcript.Some? {
      CaptionPath(db, videoId, jobId, transcript.value, gemini);
    } else {
      AudioPath(db, videoId, jobId, audio, sdk, gemini);
    }
  }

  /** The video is set to PROCESSING before anything is acquired: when that
      write raises, the outcome depends on nothing that would be fetched. */
  lemma ProcessingComesFirst(t: Tables, faulty: set<Write>, videoId: string, jobId: string,
                             fetched: Option<CaptionResult>, audio: Result<AudioInfo>, sdk: SdkTranscript, gemini: GeminiService,
                             fetched2: Option<CaptionResult>, audio2: Result<AudioInfo>, sdk2: SdkTranscript, gemini2: GeminiService)
    requires !Succeeds(t, faulty, SetVideoStatusOp(videoId, Processing))
    ensures CompleteState(t, faulty, videoId, jobId, fetched, audio, sdk, gemini)
         == CompleteState(t, faulty, videoId, jobId, fetched2, audio2, sdk2, gemini2)
    ensures CompleteState(t, faulty, videoId, jobId, fetched, audio, sdk, gemini).transcripts == t.transcripts
  {
  }

  /** The failure path touches only statuses. */
  lemma FailBothKeeps(t: Tables, faulty: set<Write>, videoId: string, jobId: string)
    ensures var t1 := FailBoth(t, faulty, videoId, jobId);
      t1.files == t.files && t1.transcripts == t.transcripts && t1.assets == t.assets
  {
  }

  /** The content step and the COMPLETED updates touch no file. */
  lemma FinishKeepsFiles(t: Tables, faulty: set<Write>, videoId: string, jobId: string,
                         gemini: GeminiService, text: string, title: string)
    ensures FinishState(t, faulty, videoId, jobId, gemini, text, title).files == t.files
  {
    var n := CreatedCount(faulty, jobId, 0);
    var t1 := t.(assets := t.assets + GeneratedAssets(gemini, text, title, jobId)[..n]);
    FailBothKeeps(t1, faulty, videoId, jobId);
    var videoOp := SetVideoStatusOp(videoId, Completed);
    if Succeeds(t1, faulty, videoOp) {
      FailBothKeeps(Effect(t1, videoOp), faulty, videoId, jobId);
    }
  }

  /** The download and transcription run only without captions: with
      captions the outcome does not depend on them and no file is touched. */
  lemma FallbackOnlyWithoutCaptions(t: Tables, faulty: set<Write>, videoId: string, jobId: string,
                                    c: CaptionResult, audio: Result<AudioInfo>, sdk: SdkTranscript, gemini: GeminiService,
                                    audio2: Result<AudioInfo>, sdk2: SdkTranscript)
    ensures CompleteState(t, faulty, videoId, jobId, Some(c), audio, sdk, gemini)
         == CompleteState(t, faulty, videoId, jobId, Some(c), audio2, sdk2, gemini)
    ensures CompleteState(t, faulty, videoId, jobId, Some(c), audio, sdk, gemini).files == t.files
  {
    var processing := SetVideoStatusOp(videoId, Processing);
    if !Succeeds(t, faulty, processing) {
      FailBothKeeps(t, faulty, videoId, jobId);
    } else {
      var t1 := Effect(t, processing);
      var titleOp := SetVideoTitleOp(videoId, c.title);
      FailBothKeeps(t1, faulty, videoId, jobId);
      if Succeeds(t1, faulty, titleOp) {
        var t2 := Effect(t1, titleOp);
        var transcriptOp := CreateTranscriptOp(jobId, Dumped(CaptionTranscript(c)));
        FailBothKeeps(t2, faulty, videoId, jobId);
        if Succeeds(t2, faulty, transcriptOp) {
          FinishKeepsFiles(Effect(t2, transcriptOp), faulty, videoId, jobId, gemini, c.text, c.title);
        }
      }
    }
  }

  /** With no write failing, `CreatedCount` finds all four creates. */
  lemma AllCreated(jobId: string)
    ensures CreatedCount({}, jobId, 0) == 4
  {
  }

  /** With no write failing, the content step stores all four assets and
      both records end COMPLETED. */
  lemma FinishWithoutFaults(t: Tables, videoId: string, jobId: string, gemini: GeminiService, text: string, title: string)
    requires videoId in t.videos && JobIdUsed(t.jobs, jobId)
    ensures FinishState(t, {}, videoId, jobId, gemini, text, title) ==
      t.(videos := t.videos[videoId := t.videos[videoId].(status := Completed)],
         jobs := WithJobStatus(t.jobs, jobId, JobCompleted),
         assets := t.assets + GeneratedAssets(gemini, text, title, jobId))
  {
    AllCreated(jobId);
    var all := GeneratedAssets(gemini, text, title, jobId);
    assert all[..4] == all;
  }

  /** After PROCESSING, the caption path with every write going through. */
  lemma CaptionStateWithoutFaults(t: Tables, videoId: string, jobId: string, c: CaptionResult, gemini: GeminiService)
    requires videoId in t.videos && JobIdUsed(t.jobs, jobId) && jobId !in t.transcripts
    ensures CaptionState(t, {}, videoId, jobId, c, gemini) ==
      t.(videos := t.videos[videoId := t.videos[videoId].(status := Completed, title := c.title)],
         jobs := WithJobStatus(t.jobs, jobId, JobCompleted),
         transcripts := t.transcripts[jobId := Dumped(CaptionTranscript(c))],
         assets := t.assets + GeneratedAssets(gemini, c.text, c.title, jobId))
  {
    var v := t.videos[videoId];
    var t2 := t.(videos := t.videos[videoId := v.(title := c.title)]);
    assert Effect(t, SetVideoTitleOp(videoId, c.title)) == t2;
    var t3 := t2.(transcripts := t.transcripts[jobId := Dumped(CaptionTranscript(c))]);
    assert Effect(t2, CreateTranscriptOp(jobId, Dumped(CaptionTranscript(c)))) == t3;
    assert t3.videos[videoId := t3.videos[videoId].(status := Completed)] == t.videos[videoId := v.(status := Completed, title := c.title)];
    FinishWithoutFaults(t3, videoId, jobId, gemini, c.text, c.title);
  }

  /** The caption path with every write going through: the title and the
      caption transcript are stored, the four assets are created, and the
      video and job end COMPLETED. */
  lemma CaptionPathCompletes(t: Tables, videoId: string, jobId: string, c: CaptionResult,
                             audio: Result<AudioInfo>, sdk: SdkTranscript, gemini: GeminiService)
    requires videoId in t.videos && JobIdUsed(t.jobs, jobId) && jobId !in t.transcripts
    ensures CompleteState(t, {}, videoId, jobId, Some(c), audio, sdk, gemini) ==
      t.(videos := t.videos[videoId := t.videos[videoId].(status := Completed, title := c.title)],
         jobs := WithJobStatus(t.jobs, jobId, JobCompleted),
         transcripts := t.transcripts[jobId := Dumped(CaptionTranscript(c))],
         assets := t.assets + GeneratedAssets(gemini, c.text, c.title, jobId))
  {
    var v := t.videos[videoId];
    var t1 := t.(videos := t.videos[videoId := v.(status := Processing)]);
    assert Effect(t, SetVideoStatusOp(videoId, Processing)) == t1;
    CaptionStateWithoutFaults(t1, videoId, jobId, c, gemini);
    assert t1.videos[videoId := t1.videos[videoId].(status := Completed, title := c.title)] == t.videos[videoId := v.(status := Completed, title := c.title)];
  }

  /** With only asset creates failing, the content step and the COMPLETED
      updates complete the video and the job. */
  lemma FinishCompletes(t: Tables, faulty: set<Write>, videoId: string, jobId: string,
                        gemini: GeminiService, text: string, title: string)
    requires videoId in t.videos && JobIdUsed(t.jobs, jobId)
    requires forall w :: w in faulty ==> w.CreateAssetW?
    ensures var t1 := FinishState(t, faulty, videoId, jobId, gemini, text, title);
      && videoId in t1.videos && t1.videos[videoId].status == Completed
      && t1.jobs == WithJobStatus(t.jobs, jobId, JobCompleted) && t1.transcripts == t.transcripts
  {
  }

  /** Failed asset writes do not stop completion: if only asset creates
      raise, the video and the job still end COMPLETED. */
  lemma CompletedDespiteContentFailure(t: Tables, faulty: set<Write>, videoId: string, jobId: string, c: CaptionResult,
                                       audio: Result<AudioInfo>, sdk: SdkTranscript, gemini: GeminiService)
    requires videoId in t.videos && JobIdUsed(t.jobs, jobId) && jobId !in t.transcripts
    requires forall w :: w in faulty ==> w.CreateAssetW?
    ensures var t1 := CompleteState(t, faulty, videoId, jobId, Some(c), audio, sdk, gemini);
      && videoId in t1.videos && t1.videos[videoId].status == Completed && t1.jobs == WithJobStatus(t.jobs, jobId, JobCompleted)
      && t1.transcripts == t.transcripts[jobId := Dumped(CaptionTranscript(c))]
  {
    var t1 := Effect(t, SetVideoStatusOp(videoId, Processing));
    var t2 := Effect(t1, SetVideoTitleOp(videoId, c.title));
    var t3 := Effect(t2, CreateTranscriptOp(jobId, Dumped(CaptionTranscript(c))));
    assert t3.jobs == t.jobs && t3.transcripts == t.transcripts[jobId := Dumped(CaptionTranscript(c))];
    FinishCompletes(t3, faulty, videoId, jobId, gemini, c.text, c.title);
  }

  /** Without captions or download, the video and job end FAILED and nothing
      is stored. */
  lemma NoSourceFails(t: Tables, videoId: string, jobId: string, error: string, sdk: SdkTranscript, gemini: GeminiService)
    requires videoId in t.videos && JobIdUsed(t.jobs, jobId)
    ensures var t1 := CompleteState(t, {}, videoId, jobId, None, Err(error), sdk, gemini);
      && t1 == t.(videos := t.videos[videoId := t.videos[videoId].(status := Failed)],
                  jobs := WithJobStatus(t.jobs, jobId, JobFailed))
  {
    var v := t.videos[videoId];
    var t1 := t.(videos := t.videos[videoId := v.(status := Processing)]);
    assert Effect(t, SetVideoStatusOp(videoId, Processing)) == t1;
    assert Effect(t1, SetVideoStatusOp(videoId, Failed)).videos == t.videos[videoId := v.(status := Failed)];
  }

  // ---------------------------------------------------------------------
  // process_pending_videos

  /** A row of the PENDING query: the video id, its URL and its job's id. */
  datatype PendingRow = PendingRow(id: string, url: string, job: Option<string>)

  /** A queued background run: video id, URL and job id. */
  datatype QueuedRun = QueuedRun(videoId: string, url: string, jobId: string)

  /** The rows that have a job, as queued runs, in order. */
  function Queued(rows: seq<PendingRow>): seq<QueuedRun>
  {
    if |rows| == 0 then []
    else
      var last := rows[|rows| - 1];
      Queued(rows[..|rows| - 1]) + (if last.job.Some? then [QueuedRun(last.id, last.url, last.job.value)] else [])
  }

  const QueuedSuffix: string := " videos queued for AI processing (transcription + content generation)"

  /** `process_pending_videos`: the runs it queues, their count and its message. */
  method ProcessPendingVideos(rows: seq<PendingRow>) returns (queued: seq<QueuedRun>, count: nat, message: string)
    ensures queued == Queued(rows) && count == |queued|
    ensures message == NatStr(count) + QueuedSuffix
  {
    queued := [];
    count := 0;
    for i := 0 to |rows|
      invariant queued == Queued(rows[..i]) && count == |queued|
    {
      assert rows[..i + 1][..i] == rows[..i];
      if rows[i].job.Some? {
        queued := queued + [QueuedRun(rows[i].id, rows[i].url, rows[i].job.value)];
        count := count + 1;
      }
    }
    assert rows[..|rows|] == rows;
    message := NatStr(count) + QueuedSuffix;
  }

  /** The query lists each PENDING video of the store once, with its URL and job. */
  predicate ListsPending(t: Tables, rows: seq<PendingRow>) {
    && (forall i, j :: 0 <= i < j < |rows| ==> rows[i].id != rows[j].id)
    && (forall i :: 0 <= i < |rows| ==>
          && rows[i].id in t.videos && t.videos[rows[i].id].status == Pending
          && (rows[i].job.Some? <==> rows[i].id in t.jobs))
    && (forall v :: v in t.videos && t.videos[v].status == Pending ==> exists i :: 0 <= i < |rows| && rows[i].id == v)
  }

  /** The PENDING videos that have a job. */
  function PendingWithJob(t: Tables): set<string> {
    set v | v in t.videos && t.videos[v].status == Pending && v in t.jobs
  }

  /** A queued run comes from a row with a job, and every row with a job is queued. */
  lemma {:induction false} QueuedMembers(rows: seq<PendingRow>, x: string)
    ensures (exists k :: 0 <= k < |Queued(rows)| && Queued(rows)[k].videoId == x)
        <==> (exists i :: 0 <= i < |rows| && rows[i].id == x && rows[i].job.Some?)
  {
    if |rows| > 0 {
      var init := rows[..|rows| - 1];
      QueuedMembers(init, x);
      var q := Queued(rows);
      var qi := Queued(init);
      assert q[..|qi|] == qi;
      if exists i :: 0 <= i < |rows| && rows[i].id == x && rows[i].job.Some? {
        var i :| 0 <= i < |rows| && rows[i].id == x && rows[i].job.Some?;
        if i < |rows| - 1 {
          assert init[i] == rows[i];
          assert exists i' :: 0 <= i' < |init| && init[i'].id == x && init[i'].job.Some?;
          var k :| 0 <= k < |qi| && qi[k].videoId == x;
          assert q[k] == qi[k];
        } else {
          assert q[|qi|].videoId == x;
        }
      }
      if exists k :: 0 <= k < |q| && q[k].videoId == x {
        var k :| 0 <= k < |q| && q[k].videoId == x;
        if k < |qi| {
          assert q[k] == qi[k];
          assert exists k' :: 0 <= k' < |Queued(init)| && Queued(init)[k'].videoId == x;
          var i :| 0 <= i < |init| && init[i].id == x && init[i].job.Some?;
          assert rows[i] == init[i];
        } else {
          assert rows[|rows| - 1].id == x;
        }
      }
    }
  }

  /** Queued runs of distinct rows name distinct videos. */
  lemma {:induction false} QueuedDistinct(rows: seq<PendingRow>)
    requires forall i, j :: 0 <= i < j < |rows| ==> rows[i].id != rows[j].id
    ensures forall k, l :: 0 <= k < l < |Queued(rows)| ==> Queued(rows)[k].videoId != Queued(rows)[l].videoId
  {
    if |rows| > 0 {
      var init := rows[..|rows| - 1];
      QueuedDistinct(init);
      var q := Queued(rows);
      var qi := Queued(init);
      assert q[..|qi|] == qi;
      if |q| > |qi| {
        forall k | 0 <= k < |qi|
          ensures qi[k].videoId != rows[|rows| - 1].id
        {
          var x := qi[k].videoId;
          QueuedMembers(init, x);
          assert exists k' :: 0 <= k' < |Queued(init)| && Queued(init)[k'].videoId == x;
          var i :| 0 <= i < |init| && init[i].id == x && init[i].job.Some?;
          assert rows[i] == init[i];
        }
      }
    }
  }

  /** A sequence without repeats has as many elements as its set. */
  lemma {:induction false} DistinctCard(s: seq<string>)
    requires forall i, j :: 0 <= i < j < |s| ==> s[i] != s[j]
    ensures |set x | x in s| == |s|
  {
    if |s| > 0 {
      var init := s[..|s| - 1];
      DistinctCard(init);
      assert (set x | x in s) == (set x | x in init) + {s[|s| - 1]};
      assert s[|s| - 1] !in init;
    }
  }

  /** Over the store's PENDING rows, the count is the number of PENDING
      videos that have a job. */
  lemma QueuedCountsPendingWithJob(t: Tables, rows: seq<PendingRow>)
    requires ListsPending(t, rows)
    ensures |Queued(rows)| == |PendingWithJob(t)|
  {
    var q := Queued(rows);
    var ids := seq(|q|, (k: nat) requires k < |q| => q[k].videoId);
    QueuedDistinct(rows);
    DistinctCard(ids);
    forall x
      ensures x in ids <==> x in PendingWithJob(t)
    {
      QueuedMembers(rows, x);
      if x in ids {
        var k :| 0 <= k < |ids| && ids[k] == x;
        assert q[k].videoId == x;
        assert exists k' :: 0 <= k' < |Queued(rows)| && Queued(rows)[k'].videoId == x;
        assert exists i :: 0 <= i < |rows| && rows[i].id == x && rows[i].job.Some?;
        var i :| 0 <= i < |rows| && rows[i].id == x && rows[i].job.Some?;
        assert x in PendingWithJob(t);
      }
      if x in PendingWithJob(t) {
        var i :| 0 <= i < |rows| && rows[i].id == x;
        assert rows[i].job.Some?;
        var k :| 0 <= k < |q| && q[k].videoId == x;
        assert ids[k] == x;
      }
    }
    assert (set x | x in ids) == PendingWithJob(t);
  }
}
