/** The manual processing routes (backend/app/routes/processing.py):
    `force_real_processing` and `process_video_manually` take one video
    through info extraction, job set-up, download, transcription, transcript
    storage, asset replacement and completion; `process_all_pending_videos`
    walks the user's PENDING videos.  The YouTube, transcription and OpenAI
    services are oracles bundled in `Services`. */
module Processing {
  import opened Wrappers
  import opened Strs
  import opened Models
  import opened Db
  import T = Transcription
  import CG = ContentGeneration
  import VP = VideoProcessor

  /** The external services a route calls: the video's title from
      `extract_video_info`, the path `download_audio` writes, the finished
      `transcribe_audio` result, and the content generator's configuration
      and fixed texts (`CG.Fixed` in the service).  An `Err` is the
      exception the call raises. */
  datatype Services = Services(
    extract: string -> Result<string>,
    download: string -> Result<string>,
    transcribe: string -> Result<T.Transcript>,
    openaiKey: Option<string>,
    chat: CG.Chat,
    clientReady: bool,
    texts: CG.Texts)

  /** What a route answers. */
  datatype Reply =
    | Processed(message: string, videoId: string, assetCount: nat, title: Option<string>)
    | HttpError(code: nat, detail: string)

  const ForceRealPrefix := "force-real-processing-"
  const RealPrefix := "real-processing-"
  const DemoPrefix := "demo-workflow-"
  const ProcessingFailedPrefix := "Processing failed: "

  /** The text of the AttributeError raised when a video's workspace row is missing. */
  const NoWorkspaceError := "'NoneType' object has no attribute 'ownerId'"

  /** The title a manually processed video ends with. */
  function ProcessedTitle(videoId: string): string {
    "Processed Video - " + Take(videoId, 8)
  }

  // ---------------------------------------------------------------------
  // Admission

  datatype Admission = Admitted | Denied(code: nat, detail: string) | NoWorkspace

  /** The route's first checks: the video exists and its workspace belongs
      to the caller. */
  function Admit(t: Tables, user: string, videoId: string): (a: Admission)
    ensures a.Admitted? ==> videoId in t.videos
    ensures a == Denied(404, "Video not found") <==> videoId !in t.videos
    ensures a == Denied(403, "Access denied") <==>
      videoId in t.videos && t.videos[videoId].workspaceId in t.workspaces
      && t.workspaces[t.videos[videoId].workspaceId] != user
    ensures a.Admitted? <==>
      videoId in t.videos && t.videos[videoId].workspaceId in t.workspaces
      && t.workspaces[t.videos[videoId].workspaceId] == user
  {
    if videoId !in t.videos then Denied(404, "Video not found")
    else
      var ws := t.videos[videoId].workspaceId;
      if ws !in t.workspaces then NoWorkspace
      else if t.workspaces[ws] != user then Denied(403, "Access denied")
      else Admitted
  }

  // ---------------------------------------------------------------------
  // Job, transcript and asset steps

  /** Create or reset the video's job: an existing job goes back to
      STARTED, otherwise a STARTED job with workflow id `workflowId` is
      created.  The value is the job's id. */
  function JobFor(t: Tables, faulty: set<Write>, videoId: string, newJobId: string, workflowId: string): Step<string>
  {
    if videoId in t.jobs then
      var id := t.jobs[videoId].id;
      var op := SetJobStatusOp(id, Started);
      if Succeeds(t, faulty, op) then Next(Effect(t, op), id) else Threw(t, WriteError)
    else
      var op := CreateJobOp(videoId, Job(newJobId, workflowId, Started));
      if Succeeds(t, faulty, op) then Next(Effect(t, op), newJobId) else Threw(t, WriteError)
  }

  method JobForM(db: Store, videoId: string, newJobId: string, workflowId: string) returns (r: Result<string>)
    modifies db
    ensures StepOf(db.t, r) == JobFor(old(db.t), db.faulty, videoId, newJobId, workflowId)
  {
    if videoId in db.t.jobs {
      var id := db.t.jobs[videoId].id;
      var ok := db.Run(SetJobStatusOp(id, Started));
      r := if ok then Ok(id) else Err(WriteError);
    } else {
      var ok := db.Run(CreateJobOp(videoId, Job(newJobId, workflowId, Started)));
      r := if ok then Ok(newJobId) else Err(WriteError);
    }
  }

  /** After the step the video has exactly one job, STARTED: the existing
      one keeps its id and workflow id, a new one gets `newJobId` and
      `workflowId`; no other video gains or loses a job. */
  lemma JobForSpec(t: Tables, faulty: set<Write>, videoId: string, newJobId: string, workflowId: string)
    requires videoId in t.videos
    ensures var s := JobFor(t, faulty, videoId, newJobId, workflowId);
      && (s.Next? ==> s.t.jobs.Keys == t.jobs.Keys + {videoId} && s.t.jobs[videoId].status == Started)
      && (s.Next? && videoId in t.jobs ==> s.value == t.jobs[videoId].id && s.t.jobs[videoId] == t.jobs[videoId].(status := Started))
      && (s.Next? && videoId !in t.jobs ==> s.value == newJobId && s.t.jobs == t.jobs[videoId := Job(newJobId, workflowId, Started)])
      && (s.Threw? ==> s.t == t)
      && (videoId !in t.jobs && !JobIdUsed(t.jobs, newJobId) && CreateJobW(videoId) !in faulty ==> s.Next?)
      && (videoId in t.jobs && SetJobStatusW(t.jobs[videoId].id, Started) !in faulty ==> s.Next?)
  {
  }

  /** Create-or-update of the job's transcript row. */
  function StoreTranscript(t: Tables, faulty: set<Write>, jobId: string, doc: StoredTranscript): Step<()>
  {
    var op := if jobId in t.transcripts then UpdateTranscriptOp(jobId, doc) else CreateTranscriptOp(jobId, doc);
    if Succeeds(t, faulty, op) then Next(Effect(t, op), ()) else Threw(t, WriteError)
  }

  method StoreTranscriptM(db: Store, jobId: string, doc: StoredTranscript) returns (r: Result<()>)
    modifies db
    ensures StepOf(db.t, r) == StoreTranscript(old(db.t), db.faulty, jobId, doc)
  {
    var ok;
    if jobId in db.t.transcripts {
      ok := db.Run(UpdateTranscriptOp(jobId, doc));
    } else {
      ok := db.Run(CreateTranscriptOp(jobId, doc));
    }
    r := if ok then Ok(()) else Err(WriteError);
  }

  /** The row exists whether or not it did before, so the job never has two:
      only the job's entry changes, to `doc`; the step fails only on the
      fault of the write it chose. */
  lemma StoreTranscriptSpec(t: Tables, faulty: set<Write>, jobId: string, doc: StoredTranscript)
    ensures var s := StoreTranscript(t, faulty, jobId, doc);
      && (s.Next? ==> s.t == t.(transcripts := t.transcripts[jobId := doc]))
      && (s.Next? ==> s.t.transcripts.Keys == t.transcripts.Keys + {jobId})
      && (s.Threw? ==> s.t == t)
      && (s.Threw? <==> (if jobId in t.transcripts then UpdateTranscriptW(jobId) else CreateTranscriptW(jobId)) in faulty)
  {
  }

  /** The rows created for the generated assets: the job's id with each
      asset's type, content and status. */
  function JobAssets(content: seq<CG.ContentAsset>, jobId: string): (r: seq<Asset>)
    ensures |r| == |content|
    ensures forall i :: 0 <= i < |r| ==> r[i] == Asset(jobId, content[i].kind, content[i].content, content[i].status)
  {
    seq(|content|, (i: nat) requires i < |content| => Asset(jobId, content[i].kind, content[i].content, content[i].status))
  }

  /** Delete the job's assets, then create the new ones in order. */
  function ReplaceAssets(t: Tables, faulty: set<Write>, jobId: string, content: seq<CG.ContentAsset>): Step<()>
  {
    var del := DeleteAssetsOp(jobId);
    if !Succeeds(t, faulty, del) then Threw(t, WriteError)
    else
      var (t1, ok) := VP.CreateAssets(Effect(t, del), faulty, JobAssets(content, jobId));
      if ok then Next(t1, ()) else Threw(t1, WriteError)
  }

  method ReplaceAssetsM(db: Store, jobId: string, content: seq<CG.ContentAsset>) returns (r: Result<()>)
    modifies db
    ensures StepOf(db.t, r) == ReplaceAssets(old(db.t), db.faulty, jobId, content)
  {
    var ok := db.Run(DeleteAssetsOp(jobId));
    if !ok {
      return Err(WriteError);
    }
    ghost var rows := JobAssets(content, jobId);
    ghost var cleared := db.t;
    var i := 0;
    while i < |content|
      invariant 0 <= i <= |content|
      invariant VP.CreateAssets(cleared, db.faulty, rows[..i]) == (db.t, true)
    {
      assert rows[..i + 1][..i] == rows[..i];
      ok := db.Run(CreateAssetOp(Asset(jobId, content[i].kind, content[i].content, content[i].status)));
      if !ok {
        VP.CreateAssetsStops(cleared, db.faulty, rows, i + 1);
        return Err(WriteError);
      }
      i := i + 1;
    }
    assert rows[..i] == rows;
    r := Ok(());
  }

  /** Creating assets changes the asset list only. */
  lemma {:induction false} CreateAssetsOnlyAssets(t: Tables, faulty: set<Write>, rows: seq<Asset>)
    ensures VP.CreateAssets(t, faulty, rows).0 == t.(assets := VP.CreateAssets(t, faulty, rows).0.assets)
    decreases |rows|
  {
    if |rows| > 0 {
      CreateAssetsOnlyAssets(t, faulty, rows[..|rows| - 1]);
    }
  }

  /** Appending rows of job `jobId` extends that job's list by them and no other. */
  lemma {:induction false} AssetsOfConcat(assets: seq<Asset>, rows: seq<Asset>, jobId: string, other: string)
    requires forall i :: 0 <= i < |rows| ==> rows[i].jobId == jobId
    ensures AssetsOf(assets + rows, jobId) == AssetsOf(assets, jobId) + rows
    ensures other != jobId ==> AssetsOf(assets + rows, other) == AssetsOf(assets, other)
    decreases |rows|
  {
    if |rows| == 0 {
      assert assets + rows == assets;
    } else {
      var init := rows[..|rows| - 1];
      var last := rows[|rows| - 1];
      AssetsOfConcat(assets, init, jobId, other);
      assert assets + rows == (assets + init) + [last];
      AssetsOfAppend(assets + init, last, jobId);
      AssetsOfAppend(assets + init, last, other);
      assert init + [last] == rows;
    }
  }

  /** With no fault on the delete or the creates, the job's assets become
      exactly the generated list, in order, and every other job keeps its own. */
  lemma ReplaceAssetsSpec(t: Tables, faulty: set<Write>, jobId: string, content: seq<CG.ContentAsset>, other: string)
    requires DeleteAssetsW(jobId) !in faulty
    requires forall i :: 0 <= i < |content| ==> CreateAssetW(jobId, content[i].kind) !in faulty
    ensures var s := ReplaceAssets(t, faulty, jobId, content);
      && s.Next? && s.t == t.(assets := s.t.assets)
      && AssetsOf(s.t.assets, jobId) == JobAssets(content, jobId)
      && (other != jobId ==> AssetsOf(s.t.assets, other) == AssetsOf(t.assets, other))
  {
    var rows := JobAssets(content, jobId);
    var t1 := Effect(t, DeleteAssetsOp(jobId));
    VP.CreateAssetsAppends(t1, faulty, rows);
    DeleteAssetsSplits(t.assets, jobId);
    AssetsOfConcat(t1.assets, rows, jobId, other);
  }

  /** Replacing assets changes the asset list only, whatever fails. */
  lemma ReplaceAssetsOnlyAssets(t: Tables, faulty: set<Write>, jobId: string, content: seq<CG.ContentAsset>)
    ensures var s := ReplaceAssets(t, faulty, jobId, content); s.t == t.(assets := s.t.assets)
  {
    if Succeeds(t, faulty, DeleteAssetsOp(jobId)) {
      CreateAssetsOnlyAssets(Effect(t, DeleteAssetsOp(jobId)), faulty, JobAssets(content, jobId));
    }
  }

  // ---------------------------------------------------------------------
  // Transcript documents

  function SegmentJson(s: T.Segment): Json {
    JObj([("start", JNum(s.start)), ("end", JNum(s.end)), ("text", JStr(s.text))]
         + (if s.confidence.Some? then [("confidence", JNum(s.confidence.value))] else []))
  }

  /** The dictionary `transcribe_audio` returns, as `json.dumps` writes it. */
  function TranscriptJson(tr: T.Transcript): (d: Json)
    ensures d.JObj? && Get(d.fields, "full_text") == Some(JStr(tr.fullText))
  {
    JObj([("full_text", JStr(tr.fullText)),
          ("segments", JArr(seq(|tr.segments|, (i: nat) requires i < |tr.segments| => SegmentJson(tr.segments[i])))),
          ("language", JStr(tr.language)), ("confidence", JNum(tr.confidence)), ("service", JStr(tr.service))]
         + (if tr.transcriptId.Some? then [("transcript_id", JStr(tr.transcriptId.value))] else [])
         + (if tr.audioDuration.Some? then [("audio_duration", JNum(tr.audioDuration.value))] else [])
         + (if tr.note.Some? then [("note", JStr(tr.note.value))] else []))
  }

  /** The fixed texts of the manual route's demo fallback. */
  datatype ManualTexts = ManualTexts(
    segmentTexts: seq<string>, fullTextHead: string, fullTextTail: string, note: string,
    blogHead: string, blogMiddle: string, blogTail: string,
    threadHead: string, threadTail: string,
    linkedinHead: string, linkedinTail: string,
    newsletterHead: string, newsletterTail: string)

  /** The texts of the five demo segments. */
  const DemoSegmentTexts: seq<string> := ["Welcome to this video demonstration", "This is an AI-generated transcript",
     "The video processing has been completed successfully", "Thank you for watching this CreatorOS demo",
     "End of transcript"]

  /** The route's demo texts.  The methods take the texts as a parameter so
      that their proofs do not carry these literals. */
  const Manual: ManualTexts := ManualTexts(
    DemoSegmentTexts,
    "This is a demo transcript for the video: ",
    ". Welcome to this video demonstration. This is an AI-generated transcript. The video processing has been completed successfully. Thank you for watching this CreatorOS demo. End of transcript. This transcript was automatically generated by CreatorOS AI processing system.",
    "Demo transcription - install yt-dlp and whisper for real processing",
    "# Blog Post: ",
    "\n\n## Introduction\nThis blog post was automatically generated from your YouTube video using CreatorOS AI technology.\n\n## Key Points\n- Professional content creation made easy\n- AI-powered video analysis and transcription  \n- Multiple content formats from a single video\n- Streamlined workflow for content creators\n\n## Conclusion\nCreatorOS transforms your video content into multiple marketing assets, saving you hours of manual work.\n\n*Generated by CreatorOS AI - ",
    "*\n",
    "\U{F8FF}\U{FC}\U{E9}\U{A8} Just processed an amazing video with @CreatorOS! \n\n\U{201A}\U{FA}\U{AE} AI-powered content creation\n\U{F8FF}\U{FC}\U{F6}\U{C4} Multiple formats from one video  \n\U{201A}\U{E8}\U{221E} Saves hours of work\n\nCheck it out: ",
    "\n\n#ContentCreation #AI #VideoMarketing #CreatorOS\n",
    "\U{F8FF}\U{FC}\U{E9}\U{D8} Excited to share how CreatorOS is revolutionizing content creation!\n\nJust processed this video and got:\n\U{201A}\U{DC}\U{ED} Full transcript with timestamps\n\U{201A}\U{DC}\U{ED} Blog post ready for publishing  \n\U{201A}\U{DC}\U{ED} Social media content optimized\n\U{201A}\U{DC}\U{ED} Newsletter content formatted\n\nThe AI analysis extracted key insights and created multiple content formats automatically.\n\nThis is the future of content marketing - one video, endless possibilities.\n\nVideo: ",
    "\n\n#ContentStrategy #AITools #VideoMarketing #Productivity\n",
    "\U{F8FF}\U{FC}\U{EC}\U{DF} Newsletter Content\n\nSubject: New Video Content Available\n\nDear Subscriber,\n\nWe're excited to share our latest video content with you:\n\n\U{F8FF}\U{FC}\U{E9}\U{A8} Video: ",
    "\n\nKey highlights from this video:\n\U{201A}\U{C4}\U{A2} Professional insights on content creation\n\U{201A}\U{C4}\U{A2} Practical tips you can implement today\n\U{201A}\U{C4}\U{A2} Behind-the-scenes look at our process\n\nThis content was processed using CreatorOS AI technology, ensuring high-quality, engaging material for our audience.\n\nBest regards,\nThe CreatorOS Team\n\n---\nPowered by CreatorOS AI Content Generation\n")

  /** The demo segments: piece i spans [30 i, 30 i + 30] seconds. */
  function DemoSegments(texts: seq<string>): (r: seq<Json>)
    ensures |r| == |texts|
    ensures forall i :: 0 <= i < |r| ==>
      r[i] == JObj([("start", JNum(30000 * i)), ("end", JNum(30000 * (i + 1))), ("text", JStr(texts[i]))])
  {
    seq(|texts|, (i: nat) requires i < |texts| =>
      JObj([("start", JNum(30000 * i)), ("end", JNum(30000 * (i + 1))), ("text", JStr(texts[i]))]))
  }

  /** The demo transcript the manual route stores when real processing fails. */
  function DemoTranscriptJson(x: ManualTexts, url: string): Json {
    JObj([("segments", JArr(DemoSegments(x.segmentTexts))),
          ("full_text", JStr(x.fullTextHead + url + x.fullTextTail)),
          ("language", JStr("en")), ("confidence", JNum(850)), ("service", JStr("demo")),
          ("note", JStr(x.note))])
  }

  /** The four demo assets: a blog post naming the URL and the video id, a
      thread, a LinkedIn post and a newsletter naming the URL. */
  function DemoAssets(x: ManualTexts, url: string, videoId: string): seq<CG.ContentAsset> {
    [CG.ContentAsset("BLOG_POST", x.blogHead + url + x.blogMiddle + videoId + x.blogTail, "GENERATED"),
     CG.ContentAsset("TWITTER_THREAD", x.threadHead + url + x.threadTail, "GENERATED"),
     CG.ContentAsset("LINKEDIN_POST", x.linkedinHead + url + x.linkedinTail, "GENERATED"),
     CG.ContentAsset("NEWSLETTER", x.newsletterHead + url + x.newsletterTail, "GENERATED")]
  }

  /** The demo transcript has one segment per text, back to back from 0 in
      30-second pieces, its full text names the URL, and the four demo assets
      are GENERATED, typed in the order of the templates, and carry the URL. */
  lemma DemoShape(x: ManualTexts, url: string, videoId: string)
    ensures var d := DemoTranscriptJson(x, url);
      && Get(d.fields, "segments") == Some(JArr(DemoSegments(x.segmentTexts)))
      && Get(d.fields, "full_text") == Some(JStr(x.fullTextHead + url + x.fullTextTail))
    ensures forall i :: 0 < i < |x.segmentTexts| ==>
      DemoSegments(x.segmentTexts)[i].fields[0].1 == DemoSegments(x.segmentTexts)[i - 1].fields[1].1
    ensures var a := DemoAssets(x, url, videoId);
      && |a| == 4 && (forall i :: 0 <= i < 4 ==> a[i].kind == CG.AssetKinds[i] && a[i].status == CG.GeneratedStatus)
      && (forall i :: 0 <= i < 4 ==> Contains(a[i].content, url))
      && Contains(a[0].content, videoId)
  {
    var a := DemoAssets(x, url, videoId);
    ContainsMiddle(x.blogHead, url, x.blogMiddle + videoId + x.blogTail);
    assert a[0].content == x.blogHead + url + (x.blogMiddle + videoId + x.blogTail);
    ContainsMiddle(x.blogHead + url + x.blogMiddle, videoId, x.blogTail);
    ContainsMiddle(x.threadHead, url, x.threadTail);
    ContainsMiddle(x.linkedinHead, url, x.linkedinTail);
    ContainsMiddle(x.newsletterHead, url, x.newsletterTail);
  }

  /** `b` occurs in `a + b + c`. */
  lemma ContainsMiddle(a: string, b: string, c: string)
    ensures Contains(a + b + c, b)
  {
    var s := a + b + c;
    assert s[|a|..|a| + |b|] == b;
    assert OccursAt(s, b, |a|);
  }

  /** There are five demo segments, as the route writes them. */
  lemma ManualDemoHasFiveSegments()
    ensures |DemoSegments(DemoSegmentTexts)| == 5
  {
  }

  // ---------------------------------------------------------------------
  // The shared acquisition: info, title, job, download, transcription

  /** What the real pipeline has once the transcript is in hand. */
  datatype Acquired = Acquired(title: string, jobId: string, transcript: T.Transcript)

  /** Download and transcribe: the audio file exists from the download on
      and is removed only once the transcription has returned. */
  function Fetch(t: Tables, url: string, s: Services): Step<T.Transcript>
  {
    match s.download(url)
    case Err(e) => Threw(t, e)
    case Ok(path) =>
      var t1 := t.(files := t.files + {path});
      match s.transcribe(path)
      case Err(e) => Threw(t1, e)
      case Ok(tr) => Next(t1.(files := t1.files - {path}), tr)
  }

  /** Extract the info, store the title, set up the job, then fetch. */
  function Acquire(t: Tables, faulty: set<Write>, videoId: string, url: string, newJobId: string, workflowId: string,
                   s: Services): Step<Acquired>
  {
    match s.extract(url)
    case Err(e) => Threw(t, e)
    case Ok(title) =>
      var titleOp := SetVideoTitleOp(videoId, title);
      if !Succeeds(t, faulty, titleOp) then Threw(t, WriteError)
      else
        match JobFor(Effect(t, titleOp), faulty, videoId, newJobId, workflowId)
        case Threw(t2, e) => Threw(t2, e)
        case Next(t2, jobId) =>
          match Fetch(t2, url, s)
          case Threw(t3, e) => Threw(t3, e)
          case Next(t3, tr) => Next(t3, Acquired(title, jobId, tr))
  }

  method FetchM(db: Store, url: string, s: Services) returns (r: Result<T.Transcript>)
    modifies db
    ensures StepOf(db.t, r) == Fetch(old(db.t), url, s)
  {
    var downloaded := s.download(url);
    if downloaded.Err? {
      return Err(downloaded.message);
    }
    var path := downloaded.value;
    db.CreateFile(path);
    var transcribed := s.transcribe(path);
    if transcribed.Err? {
      return Err(transcribed.message);
    }
    db.RemoveFile(path);
    r := Ok(transcribed.value);
  }

  method AcquireM(db: Store, videoId: string, url: string, newJobId: string, workflowId: string, s: Services)
    returns (r: Result<Acquired>)
    modifies db
    ensures StepOf(db.t, r) == Acquire(old(db.t), db.faulty, videoId, url, newJobId, workflowId, s)
  {
    var info := s.extract(url);
    if info.Err? {
      return Err(info.message);
    }
    var title := info.value;
    var ok := db.Run(SetVideoTitleOp(videoId, title));
    if !ok {
      return Err(WriteError);
    }
    var job := JobForM(db, videoId, newJobId, workflowId);
    if job.Err? {
      return Err(job.message);
    }
    var tr := FetchM(db, url, s);
    if tr.Err? {
      return Err(tr.message);
    }
    r := Ok(Acquired(title, job.value, tr.value));
  }

  /** A transcription that raises leaves the downloaded audio on disk; a
      successful one removes it. */
  lemma FetchFileLifetime(t: Tables, url: string, s: Services)
    requires s.download(url).Ok?
    ensures var path := s.download(url).value; var r := Fetch(t, url, s);
      && (s.transcribe(path).Err? ==> r.Threw? && path in r.t.files && r.t.files == t.files + {path})
      && (s.transcribe(path).Ok? ==> r.Next? && path !in r.t.files && r.t.files == t.files - {path})
      && (r.t == t.(files := r.t.files))
  {
  }

  /** The content the generator returns for a transcript. */
  function ContentFor(s: Services, tr: T.Transcript, title: string, url: string): seq<CG.ContentAsset> {
    CG.ContentOf(s.texts, s.openaiKey, s.chat, s.clientReady, tr.fullText, CG.VideoInfo(Some(title), Some(url)))
  }

  /** Store the transcript, replace the assets, then complete the job and
      then the video with `videoOp`. */
  function Persist(t: Tables, faulty: set<Write>, jobId: string, doc: StoredTranscript,
                 content: seq<CG.ContentAsset>, videoOp: Op): Step<()>
  {
    match StoreTranscript(t, faulty, jobId, doc)
    case Threw(t1, e) => Threw(t1, e)
    case Next(t1, _) =>
      match ReplaceAssets(t1, faulty, jobId, content)
      case Threw(t2, e) => Threw(t2, e)
      case Next(t2, _) =>
        var jobOp := SetJobStatusOp(jobId, JobCompleted);
        if !Succeeds(t2, faulty, jobOp) then Threw(t2, WriteError)
        else
          var t3 := Effect(t2, jobOp);
          if !Succeeds(t3, faulty, videoOp) then Threw(t3, WriteError)
          else Next(Effect(t3, videoOp), ())
  }

  method PersistM(db: Store, jobId: string, doc: StoredTranscript, content: seq<CG.ContentAsset>, videoOp: Op)
    returns (r: Result<()>)
    modifies db
    ensures StepOf(db.t, r) == Persist(old(db.t), db.faulty, jobId, doc, content, videoOp)
  {
    r := StoreTranscriptM(db, jobId, doc);
    if r.Err? {
      return;
    }
    r := ReplaceAssetsM(db, jobId, content);
    if r.Err? {
      return;
    }
    var ok := db.Run(SetJobStatusOp(jobId, JobCompleted));
    if !ok {
      return Err(WriteError);
    }
    ok := db.Run(videoOp);
    r := if ok then Ok(()) else Err(WriteError);
  }

  // ---------------------------------------------------------------------
  // force_real_processing

  const ForceRealMessage := "Video processed successfully with real processing"

  /** Everything inside the `try` of `force_real_processing`.  `httpText`
      gives the text of an HTTPException, which the `except Exception`
      handler embeds in its detail. */
  function ForceRealBody(t: Tables, faulty: set<Write>, user: string, videoId: string, newJobId: string,
                         s: Services, httpText: (nat, string) -> string): Step<(string, nat)>
  {
    match Admit(t, user, videoId)
    case Denied(code, detail) => Threw(t, httpText(code, detail))
    case NoWorkspace => Threw(t, NoWorkspaceError)
    case Admitted =>
      var url := t.videos[videoId].url;
      var processing := SetVideoStatusOp(videoId, Processing);
      if !Succeeds(t, faulty, processing) then Threw(t, WriteError)
      else
        match Acquire(Effect(t, processing), faulty, videoId, url, newJobId, ForceRealPrefix + videoId, s)
        case Threw(t1, e) => Threw(t1, e)
        case Next(t1, a) => ForceRealStore(t1, faulty, videoId, url, a, s)
  }

  /** The end of `force_real_processing`'s `try`: generate the content, then
      store it with the transcript and complete the job and the video. */
  function ForceRealStore(t: Tables, faulty: set<Write>, videoId: string, url: string, a: Acquired,
                          s: Services): Step<(string, nat)>
  {
    var content := ContentFor(s, a.transcript, a.title, url);
    match Persist(t, faulty, a.jobId, Dumped(TranscriptJson(a.transcript)), content, SetVideoStatusOp(videoId, Completed))
    case Threw(t2, e) => Threw(t2, e)
    case Next(t2, _) => Next(t2, (a.title, |content|))
  }

  /** The handler: only the video is set to FAILED, its own error is
      swallowed, and the route answers 500. */
  function Handle(t: Tables, faulty: set<Write>, videoId: string, error: string): (Tables, Reply) {
    (Apply(t, faulty, SetVideoStatusOp(videoId, Failed)), HttpError(500, ProcessingFailedPrefix + error))
  }

  /** `force_real_processing` as written. */
  function ForceRealRun(t: Tables, faulty: set<Write>, user: string, videoId: string, newJobId: string,
                        s: Services, httpText: (nat, string) -> string): (Tables, Reply)
  {
    match ForceRealBody(t, faulty, user, videoId, newJobId, s, httpText)
    case Threw(t1, e) => Handle(t1, faulty, videoId, e)
    case Next(t1, v) => (t1, Processed(ForceRealMessage, videoId, v.1, Some(v.0)))
  }

  method ForceRealProcessing(db: Store, user: string, videoId: string, newJobId: string,
                             s: Services, httpText: (nat, string) -> string) returns (reply: Reply)
    modifies db
    ensures (db.t, reply) == ForceRealRun(old(db.t), db.faulty, user, videoId, newJobId, s, httpText)
  {
    var body := ForceRealTry(db, user, videoId, newJobId, s, httpText);
    if body.Err? {
      var _ := db.Run(SetVideoStatusOp(videoId, Failed));
      return HttpError(500, ProcessingFailedPrefix + body.message);
    }
    reply := Processed(ForceRealMessage, videoId, body.value.1, Some(body.value.0));
  }

  method ForceRealTry(db: Store, user: string, videoId: string, newJobId: string,
                      s: Services, httpText: (nat, string) -> string) returns (r: Result<(string, nat)>)
    modifies db
    ensures StepOf(db.t, r) == ForceRealBody(old(db.t), db.faulty, user, videoId, newJobId, s, httpText)
  {
    var admission := Admit(db.t, user, videoId);
    match admission
    case Denied(code, detail) =>
      return Err(httpText(code, detail));
    case NoWorkspace =>
      return Err(NoWorkspaceError);
    case Admitted =>
      var url := db.t.videos[videoId].url;
      var ok := db.Run(SetVideoStatusOp(videoId, Processing));
      if !ok {
        return Err(WriteError);
      }
      var a := AcquireM(db, videoId, url, newJobId, ForceRealPrefix + videoId, s);
      if a.Err? {
        return Err(a.message);
      }
      var content := CG.GenerateContentFromTranscript(s.texts, s.openaiKey, s.chat, s.clientReady, a.value.transcript.fullText,
                                                      CG.VideoInfo(Some(a.value.title), Some(url)));
      var stored := PersistM(db, a.value.jobId, Dumped(TranscriptJson(a.value.transcript)), content, SetVideoStatusOp(videoId, Completed));
      if stored.Err? {
        return Err(stored.message);
      }
      r := Ok((a.value.title, |content|));
  }

  /** As written, a caller who does not own the video gets a 500 instead of
      the 403, and the video they may not touch is set to FAILED; a missing
      video gets a 500 instead of the 404. */
  lemma ForceRealDenialAsWritten(t: Tables, faulty: set<Write>, user: string, videoId: string, newJobId: string,
                                  s: Services, httpText: (nat, string) -> string)
    ensures videoId !in t.videos ==>
      ForceRealRun(t, faulty, user, videoId, newJobId, s, httpText) == (t, HttpError(500, ProcessingFailedPrefix + httpText(404, "Video not found")))
    ensures Admit(t, user, videoId) == Denied(403, "Access denied") && SetVideoStatusW(videoId, Failed) !in faulty ==>
      var (t1, reply) := ForceRealRun(t, faulty, user, videoId, newJobId, s, httpText);
      && reply == HttpError(500, ProcessingFailedPrefix + httpText(403, "Access denied"))
      && t1 == t.(videos := t.videos[videoId := t.videos[videoId].(status := Failed)])
  {
  }

  /** `force_real_processing` with the HTTPException let through, as
      `process_video_manually` does. */
  function ForceRealRunFixed(t: Tables, faulty: set<Write>, user: string, videoId: string, newJobId: string,
                             s: Services, httpText: (nat, string) -> string): (Tables, Reply)
  {
    match Admit(t, user, videoId)
    case Denied(code, detail) => (t, HttpError(code, detail))
    case _ => ForceRealRun(t, faulty, user, videoId, newJobId, s, httpText)
  }

  /** With the fix, a missing video is a 404 and a non-owner a 403, both
      before any state change; an admitted caller gets what the route as
      written gives. */
  lemma ForceRealFixedDenies(t: Tables, faulty: set<Write>, user: string, videoId: string, newJobId: string,
                             s: Services, httpText: (nat, string) -> string)
    ensures videoId !in t.videos ==>
      ForceRealRunFixed(t, faulty, user, videoId, newJobId, s, httpText) == (t, HttpError(404, "Video not found"))
    ensures Admit(t, user, videoId) == Denied(403, "Access denied") ==>
      ForceRealRunFixed(t, faulty, user, videoId, newJobId, s, httpText) == (t, HttpError(403, "Access denied"))
    ensures Admit(t, user, videoId).Admitted? ==>
      ForceRealRunFixed(t, faulty, user, videoId, newJobId, s, httpText) == ForceRealRun(t, faulty, user, videoId, newJobId, s, httpText)
  {
  }

  /** No job is FAILED. */
  predicate NoFailedJob(jobs: map<string, Job>) {
    forall v :: v in jobs ==> jobs[v].status != JobFailed
  }

  lemma AcquireKeepsNoFailedJob(t: Tables, faulty: set<Write>, videoId: string, url: string, newJobId: string,
                                workflowId: string, s: Services)
    requires NoFailedJob(t.jobs)
    ensures NoFailedJob(Acquire(t, faulty, videoId, url, newJobId, workflowId, s).t.jobs)
  {
    match s.extract(url)
    case Err(_) =>
    case Ok(title) =>
      var titleOp := SetVideoTitleOp(videoId, title);
      if Succeeds(t, faulty, titleOp) {
        var t1 := Effect(t, titleOp);
        assert t1.jobs == t.jobs;
        JobForKeepsNoFailedJob(t1, faulty, videoId, newJobId, workflowId);
      }
  }

  /** A write that neither creates a job nor marks one FAILED cannot make
      a job FAILED. */
  lemma EffectKeepsNoFailedJob(t: Tables, op: Op)
    requires Allowed(t, op) && NoFailedJob(t.jobs) && !op.CreateJobOp? && !(op.SetJobStatusOp? && op.js == JobFailed)
    ensures NoFailedJob(Effect(t, op).jobs)
  {
    var t1 := Effect(t, op);
    forall v | v in t1.jobs
      ensures t1.jobs[v].status != JobFailed
    {
    }
  }

  /** The job step leaves every job it touches STARTED. */
  lemma JobForKeepsNoFailedJob(t: Tables, faulty: set<Write>, videoId: string, newJobId: string, workflowId: string)
    requires NoFailedJob(t.jobs)
    ensures NoFailedJob(JobFor(t, faulty, videoId, newJobId, workflowId).t.jobs)
  {
  }

  lemma PersistKeepsNoFailedJob(t: Tables, faulty: set<Write>, jobId: string, doc: StoredTranscript,
                              content: seq<CG.ContentAsset>, videoOp: Op)
    requires NoFailedJob(t.jobs) && !videoOp.CreateJobOp? && !videoOp.SetJobStatusOp?
    ensures NoFailedJob(Persist(t, faulty, jobId, doc, content, videoOp).t.jobs)
  {
    var s1 := StoreTranscript(t, faulty, jobId, doc);
    StoreTranscriptSpec(t, faulty, jobId, doc);
    if s1.Next? {
      var s2 := ReplaceAssets(s1.t, faulty, jobId, content);
      ReplaceAssetsOnlyAssets(s1.t, faulty, jobId, content);
      assert s2.t.jobs == t.jobs;
      var jobOp := SetJobStatusOp(jobId, JobCompleted);
      if s2.Next? && Succeeds(s2.t, faulty, jobOp) {
        var t3 := Effect(s2.t, jobOp);
        EffectKeepsNoFailedJob(s2.t, jobOp);
        if Succeeds(t3, faulty, videoOp) {
          EffectKeepsNoFailedJob(t3, videoOp);
        }
      }
    }
  }

  /** `force_real_processing` never marks a job FAILED: if no job was FAILED
      before, none is afterwards, whatever fails along the way. */
  lemma ForceRealNeverFailsJob(t: Tables, faulty: set<Write>, user: string, videoId: string, newJobId: string,
                               s: Services, httpText: (nat, string) -> string)
    requires NoFailedJob(t.jobs)
    ensures NoFailedJob(ForceRealRun(t, faulty, user, videoId, newJobId, s, httpText).0.jobs)
  {
    ForceRealBodyKeepsNoFailedJob(t, faulty, user, videoId, newJobId, s, httpText);
    match ForceRealBody(t, faulty, user, videoId, newJobId, s, httpText)
    case Threw(t1, e) => ApplyTouchesOneTable(t1, faulty, SetVideoStatusOp(videoId, Failed));
    case Next(t1, v) =>
  }

  /** The body of `force_real_processing` marks no job FAILED. */
  lemma ForceRealBodyKeepsNoFailedJob(t: Tables, faulty: set<Write>, user: string, videoId: string, newJobId: string,
                                      s: Services, httpText: (nat, string) -> string)
    requires NoFailedJob(t.jobs)
    ensures NoFailedJob(ForceRealBody(t, faulty, user, videoId, newJobId, s, httpText).t.jobs)
  {
    if Admit(t, user, videoId).Admitted? && Succeeds(t, faulty, SetVideoStatusOp(videoId, Processing)) {
      var t0 := Effect(t, SetVideoStatusOp(videoId, Processing));
      var url := t.videos[videoId].url;
      var a := Acquire(t0, faulty, videoId, url, newJobId, ForceRealPrefix + videoId, s);
      AcquireKeepsNoFailedJob(t0, faulty, videoId, url, newJobId, ForceRealPrefix + videoId, s);
      if a.Next? {
        PersistKeepsNoFailedJob(a.t, faulty, a.value.jobId, Dumped(TranscriptJson(a.value.transcript)),
                              ContentFor(s, a.value.transcript, a.value.title, url), SetVideoStatusOp(videoId, Completed));
        assert NoFailedJob(ForceRealStore(a.t, faulty, videoId, url, a.value, s).t.jobs);
      }
    }
  }

  // ---------------------------------------------------------------------
  // process_video_manually

  const ManualMessage := "Video processed successfully"

  /** The outcome of the inner `try`: the real pipeline's job, transcript
      and content, or the demo fallback's. */
  function ManualSource(t: Tables, faulty: set<Write>, videoId: string, url: string, newJobId: string,
                        s: Services, x: ManualTexts): Step<(string, StoredTranscript, seq<CG.ContentAsset>)>
  {
    match Acquire(t, faulty, videoId, url, newJobId, RealPrefix + videoId, s)
    case Next(t1, a) => Next(t1, (a.jobId, Dumped(TranscriptJson(a.transcript)), ContentFor(s, a.transcript, a.title, url)))
    case Threw(t1, _) =>
      match JobFor(t1, faulty, videoId, newJobId, DemoPrefix + videoId)
      case Threw(t2, e) => Threw(t2, e)
      case Next(t2, jobId) => Next(t2, (jobId, Dumped(DemoTranscriptJson(x, url)), DemoAssets(x, url, videoId)))
  }

  /** Everything inside the outer `try` of `process_video_manually`, after
      the admission checks. */
  function ManualBody(t: Tables, faulty: set<Write>, videoId: string, s: Services, newJobId: string,
                      x: ManualTexts): Step<nat>
    requires videoId in t.videos
  {
    var url := t.videos[videoId].url;
    var processing := SetVideoStatusOp(videoId, Processing);
    if !Succeeds(t, faulty, processing) then Threw(t, WriteError)
    else
      match ManualSource(Effect(t, processing), faulty, videoId, url, newJobId, s, x)
      case Threw(t1, e) => Threw(t1, e)
      case Next(t1, src) =>
        match Persist(t1, faulty, src.0, src.1, src.2, SetVideoStatusTitleOp(videoId, Completed, ProcessedTitle(videoId)))
        case Threw(t2, e) => Threw(t2, e)
        case Next(t2, _) => Next(t2, |src.2|)
  }

  /** `process_video_manually`: an HTTPException is re-raised unchanged,
      any other exception goes to the FAILED handler. */
  function ManualRun(t: Tables, faulty: set<Write>, user: string, videoId: string, newJobId: string,
                     s: Services, x: ManualTexts): (Tables, Reply)
  {
    match Admit(t, user, videoId)
    case Denied(code, detail) => (t, HttpError(code, detail))
    case NoWorkspace => Handle(t, faulty, videoId, NoWorkspaceError)
    case Admitted =>
      match ManualBody(t, faulty, videoId, s, newJobId, x)
      case Threw(t1, e) => Handle(t1, faulty, videoId, e)
      case Next(t1, n) => (t1, Processed(ManualMessage, videoId, n, None))
  }

  method ManualSourceM(db: Store, videoId: string, url: string, newJobId: string, s: Services, x: ManualTexts)
    returns (r: Result<(string, StoredTranscript, seq<CG.ContentAsset>)>)
    modifies db
    ensures StepOf(db.t, r) == ManualSource(old(db.t), db.faulty, videoId, url, newJobId, s, x)
  {
    var a := AcquireM(db, videoId, url, newJobId, RealPrefix + videoId, s);
    if a.Ok? {
      var content := CG.GenerateContentFromTranscript(s.texts, s.openaiKey, s.chat, s.clientReady, a.value.transcript.fullText,
                                                      CG.VideoInfo(Some(a.value.title), Some(url)));
      return Ok((a.value.jobId, Dumped(TranscriptJson(a.value.transcript)), content));
    }
    var job := JobForM(db, videoId, newJobId, DemoPrefix + videoId);
    if job.Err? {
      return Err(job.message);
    }
    r := Ok((job.value, Dumped(DemoTranscriptJson(x, url)), DemoAssets(x, url, videoId)));
  }

  /** `process_video_manually`, with the demo texts `x` (`Manual` in the route). */
  method ProcessVideoManually(db: Store, user: string, videoId: string, newJobId: string, s: Services, x: ManualTexts)
    returns (reply: Reply)
    modifies db
    ensures (db.t, reply) == ManualRun(old(db.t), db.faulty, user, videoId, newJobId, s, x)
  {
    var admission := Admit(db.t, user, videoId);
    if admission.Denied? {
      return HttpError(admission.code, admission.detail);
    }
    if admission.NoWorkspace? {
      var _ := db.Run(SetVideoStatusOp(videoId, Failed));
      return HttpError(500, ProcessingFailedPrefix + NoWorkspaceError);
    }
    var url := db.t.videos[videoId].url;
    var body: Result<nat>;
    var ok := db.Run(SetVideoStatusOp(videoId, Processing));
    if !ok {
      body := Err(WriteError);
    } else {
      var src := ManualSourceM(db, videoId, url, newJobId, s, x);
      if src.Err? {
        body := Err(src.message);
      } else {
        var stored := PersistM(db, src.value.0, src.value.1, src.value.2,
                             SetVideoStatusTitleOp(videoId, Completed, ProcessedTitle(videoId)));
        body := if stored.Ok? then Ok(|src.value.2|) else Err(stored.message);
      }
    }
    if body.Err? {
      var _ := db.Run(SetVideoStatusOp(videoId, Failed));
      return HttpError(500, ProcessingFailedPrefix + body.message);
    }
    reply := Processed(ManualMessage, videoId, body.value, None);
  }

  /** The manual route checks the video and its owner before any write: a
      missing video is a 404, a non-owner a 403, and nothing changes. */
  lemma ManualDenialsChangeNothing(t: Tables, faulty: set<Write>, user: string, videoId: string, newJobId: string,
                                   s: Services, x: ManualTexts)
    ensures videoId !in t.videos ==>
      ManualRun(t, faulty, user, videoId, newJobId, s, x) == (t, HttpError(404, "Video not found"))
    ensures Admit(t, user, videoId) == Denied(403, "Access denied") ==>
      ManualRun(t, faulty, user, videoId, newJobId, s, x) == (t, HttpError(403, "Access denied"))
  {
  }

  /** When the real pipeline fails at the start, the demo fallback runs:
      with no write failing, a video without a job gets a demo job, the
      demo transcript and the four demo assets, and ends COMPLETED under the
      title "Processed Video - <first 8 characters of its id>". */
  lemma ManualDemoFallback(t: Tables, user: string, videoId: string, newJobId: string, s: Services, x: ManualTexts)
    requires Admit(t, user, videoId).Admitted?
    requires s.extract(t.videos[videoId].url).Err?
    requires videoId !in t.jobs && !JobIdUsed(t.jobs, newJobId) && newJobId !in t.transcripts
    ensures var url := t.videos[videoId].url; var (t1, reply) := ManualRun(t, {}, user, videoId, newJobId, s, x);
      && reply == Processed(ManualMessage, videoId, 4, None)
      && t1.jobs == t.jobs[videoId := Job(newJobId, DemoPrefix + videoId, JobCompleted)]
      && t1.transcripts == t.transcripts[newJobId := Dumped(DemoTranscriptJson(x, url))]
      && AssetsOf(t1.assets, newJobId) == JobAssets(DemoAssets(x, url, videoId), newJobId)
      && t1.videos == t.videos[videoId := t.videos[videoId].(status := Completed, title := ProcessedTitle(videoId))]
  {
    ManualBodyDemo(t, videoId, newJobId, s, x);
  }

  /** The body of the manual route on the demo path, without faults. */
  lemma ManualBodyDemo(t: Tables, videoId: string, newJobId: string, s: Services, x: ManualTexts)
    requires videoId in t.videos && s.extract(t.videos[videoId].url).Err?
    requires videoId !in t.jobs && !JobIdUsed(t.jobs, newJobId) && newJobId !in t.transcripts
    ensures var url := t.videos[videoId].url; var b := ManualBody(t, {}, videoId, s, newJobId, x);
      && b.Next? && b.value == 4
      && b.t.jobs == t.jobs[videoId := Job(newJobId, DemoPrefix + videoId, JobCompleted)]
      && b.t.transcripts == t.transcripts[newJobId := Dumped(DemoTranscriptJson(x, url))]
      && AssetsOf(b.t.assets, newJobId) == JobAssets(DemoAssets(x, url, videoId), newJobId)
      && b.t.videos == t.videos[videoId := t.videos[videoId].(status := Completed, title := ProcessedTitle(videoId))]
  {
    ManualBodyThroughDemo(t, videoId, newJobId, s, x);
    var url := t.videos[videoId].url;
    FreshJobPersists(t, videoId, newJobId, DemoPrefix + videoId, Dumped(DemoTranscriptJson(x, url)), DemoAssets(x, url, videoId),
                     ProcessedTitle(videoId));
  }

  /** Without faults, `Persist` after a fresh job was set up completes it and
      the video, with the given transcript and assets. */
  lemma FreshJobPersists(t: Tables, videoId: string, newJobId: string, workflowId: string, doc: StoredTranscript,
                         content: seq<CG.ContentAsset>, title: string)
    requires videoId in t.videos && videoId !in t.jobs && !JobIdUsed(t.jobs, newJobId)
    ensures var t1 := Effect(t, SetVideoStatusOp(videoId, Processing)).(jobs := t.jobs[videoId := Job(newJobId, workflowId, Started)]);
      var p := Persist(t1, {}, newJobId, doc, content, SetVideoStatusTitleOp(videoId, Completed, title));
      && p.Next?
      && p.t.jobs == t.jobs[videoId := Job(newJobId, workflowId, JobCompleted)]
      && p.t.transcripts == t.transcripts[newJobId := doc]
      && AssetsOf(p.t.assets, newJobId) == JobAssets(content, newJobId)
      && p.t.videos == t.videos[videoId := t.videos[videoId].(status := Completed, title := title)]
  {
    var t1 := Effect(t, SetVideoStatusOp(videoId, Processing)).(jobs := t.jobs[videoId := Job(newJobId, workflowId, Started)]);
    FreshJobIdUnique(t.jobs, t1.jobs, videoId, newJobId, Job(newJobId, workflowId, Started));
    PersistCompletes(t1, newJobId, videoId, doc, content, title);
    FreshJobTables(t, videoId, newJobId, workflowId, title);
  }

  /** The tables once the video is PROCESSING and has its fresh job: completing
      that job and the video gives the original tables with both updated. */
  lemma FreshJobTables(t: Tables, videoId: string, newJobId: string, workflowId: string, title: string)
    requires videoId in t.videos
    ensures var t1 := Effect(t, SetVideoStatusOp(videoId, Processing)).(jobs := t.jobs[videoId := Job(newJobId, workflowId, Started)]);
      && videoId in t1.videos && videoId in t1.jobs && t1.jobs[videoId].id == newJobId
      && t1.jobs[videoId := t1.jobs[videoId].(status := JobCompleted)] == t.jobs[videoId := Job(newJobId, workflowId, JobCompleted)]
      && t1.transcripts == t.transcripts
      && t1.videos[videoId := t1.videos[videoId].(status := Completed, title := title)]
         == t.videos[videoId := t.videos[videoId].(status := Completed, title := title)]
  {
    var v := t.videos[videoId];
    var t1 := Effect(t, SetVideoStatusOp(videoId, Processing)).(jobs := t.jobs[videoId := Job(newJobId, workflowId, Started)]);
    assert t1.videos == t.videos[videoId := v.(status := Processing)];
    assert t1.videos[videoId := t1.videos[videoId].(status := Completed, title := title)] == t.videos[videoId := v.(status := Completed, title := title)];
  }

  /** A job id unused before is, once given to `videoId`'s job, held by no other video's job. */
  lemma FreshJobIdUnique(jobs: map<string, Job>, updated: map<string, Job>, videoId: string, newJobId: string, job: Job)
    requires !JobIdUsed(jobs, newJobId) && updated == jobs[videoId := job]
    ensures forall w :: w in updated && w != videoId ==> updated[w].id != newJobId
  {
    forall w | w in updated && w != videoId ensures updated[w].id != newJobId {
      assert w in jobs && updated[w] == jobs[w];
    }
  }

  /** Without faults, the demo path of the manual body is `Persist` of the
      demo job, transcript and assets. */
  lemma ManualBodyThroughDemo(t: Tables, videoId: string, newJobId: string, s: Services, x: ManualTexts)
    requires videoId in t.videos && s.extract(t.videos[videoId].url).Err?
    requires videoId !in t.jobs && !JobIdUsed(t.jobs, newJobId)
    ensures var url := t.videos[videoId].url;
      var t1 := Effect(t, SetVideoStatusOp(videoId, Processing)).(jobs := t.jobs[videoId := Job(newJobId, DemoPrefix + videoId, Started)]);
      var p := Persist(t1, {}, newJobId, Dumped(DemoTranscriptJson(x, url)), DemoAssets(x, url, videoId),
                       SetVideoStatusTitleOp(videoId, Completed, ProcessedTitle(videoId)));
      ManualBody(t, {}, videoId, s, newJobId, x) == (if p.Next? then Next(p.t, 4) else Threw(p.t, p.error))
  {
    var url := t.videos[videoId].url;
    var t0 := Effect(t, SetVideoStatusOp(videoId, Processing));
    assert Succeeds(t, {}, SetVideoStatusOp(videoId, Processing));
    assert t0.jobs == t.jobs && t0.videos[videoId].url == url;
    DemoSourceWithoutFaults(t0, videoId, url, newJobId, s, x);
    assert |DemoAssets(x, url, videoId)| == 4;
  }

  /** When the info extraction raises, the fallback sets up the demo job and
      hands on the demo transcript and assets. */
  lemma DemoSourceWithoutFaults(t: Tables, videoId: string, url: string, newJobId: string, s: Services, x: ManualTexts)
    requires videoId in t.videos && s.extract(url).Err?
    requires videoId !in t.jobs && !JobIdUsed(t.jobs, newJobId)
    ensures ManualSource(t, {}, videoId, url, newJobId, s, x)
      == Next(t.(jobs := t.jobs[videoId := Job(newJobId, DemoPrefix + videoId, Started)]),
              (newJobId, Dumped(DemoTranscriptJson(x, url)), DemoAssets(x, url, videoId)))
  {
  }

  /** With no write failing, `Persist` leaves the transcript, exactly the
      given assets for the job, the job COMPLETED and the video COMPLETED
      under `title`. */
  lemma PersistCompletes(t: Tables, jobId: string, videoId: string, doc: StoredTranscript,
                       content: seq<CG.ContentAsset>, title: string)
    requires videoId in t.videos && videoId in t.jobs && t.jobs[videoId].id == jobId
    requires forall v :: v in t.jobs && v != videoId ==> t.jobs[v].id != jobId
    ensures var s := Persist(t, {}, jobId, doc, content, SetVideoStatusTitleOp(videoId, Completed, title));
      && s.Next?
      && s.t.jobs == t.jobs[videoId := t.jobs[videoId].(status := JobCompleted)]
      && s.t.transcripts == t.transcripts[jobId := doc]
      && AssetsOf(s.t.assets, jobId) == JobAssets(content, jobId)
      && s.t.videos == t.videos[videoId := t.videos[videoId].(status := Completed, title := title)]
  {
    StoreTranscriptSpec(t, {}, jobId, doc);
    var t1 := t.(transcripts := t.transcripts[jobId := doc]);
    ReplaceAssetsSpec(t1, {}, jobId, content, jobId);
    var t2 := ReplaceAssets(t1, {}, jobId, content).t;
    assert t2.jobs == t.jobs && t2.videos == t.videos;
    OnlyJobCompleted(t.jobs, videoId, jobId);
  }

  /** Completing the job with a given id, held by `videoId`'s job alone,
      updates that one entry. */
  lemma OnlyJobCompleted(jobs: map<string, Job>, videoId: string, jobId: string)
    requires videoId in jobs && jobs[videoId].id == jobId
    requires forall v :: v in jobs && v != videoId ==> jobs[v].id != jobId
    ensures WithJobStatus(jobs, jobId, JobCompleted) == jobs[videoId := jobs[videoId].(status := JobCompleted)]
  {
  }

  /** The manual route always ends with that title when it succeeds: the
      real title stored on the way is overwritten. */
  lemma ManualOverwritesTitle(t: Tables, faulty: set<Write>, user: string, videoId: string, newJobId: string,
                              s: Services, x: ManualTexts)
    ensures var (t1, reply) := ManualRun(t, faulty, user, videoId, newJobId, s, x);
      reply.Processed? ==> videoId in t1.videos && t1.videos[videoId].status == Completed && t1.videos[videoId].title == ProcessedTitle(videoId)
  {
    if Admit(t, user, videoId).Admitted? && Succeeds(t, faulty, SetVideoStatusOp(videoId, Processing)) {
      var t0 := Effect(t, SetVideoStatusOp(videoId, Processing));
      var src := ManualSource(t0, faulty, videoId, t.videos[videoId].url, newJobId, s, x);
      if src.Next? {
        PersistEndsWithVideo(src.t, faulty, src.value.0, src.value.1, src.value.2, videoId, Completed, ProcessedTitle(videoId));
      }
    }
  }

  /** A `Persist` that goes through ends with its video write. */
  lemma PersistEndsWithVideo(t: Tables, faulty: set<Write>, jobId: string, doc: StoredTranscript,
                             content: seq<CG.ContentAsset>, videoId: string, vs: VideoStatus, title: string)
    ensures var p := Persist(t, faulty, jobId, doc, content, SetVideoStatusTitleOp(videoId, vs, title));
      p.Next? ==> videoId in p.t.videos && p.t.videos[videoId].status == vs && p.t.videos[videoId].title == title
  {
  }

  // ---------------------------------------------------------------------
  // process_all_pending_videos

  /** The state of the batch loop: the tables, the count, and whether an
      unguarded FAILED write raised and ended the batch. */
  datatype Batch = Batch(t: Tables, count: nat, aborted: bool)

  datatype BatchReply = BatchDone(message: string, processedCount: nat) | BatchError(code: nat, detail: string)

  const TranscriptTable := "transcript"
  const AssetTable := "contentasset"
  const SimulatedTranscriptPrefix := "Simulated transcript for video "
  const SimulatedBlogPrefix := "Blog post content for "

  /** The transcript row the batch creates for a video. */
  function BatchTranscriptRow(id: string): VideoKeyedRow {
    VideoKeyedRow(TranscriptTable, id, "", SimulatedTranscriptPrefix + id, "COMPLETED")
  }

  /** The blog-post asset row the batch creates for a video. */
  function BatchAssetRow(id: string): VideoKeyedRow {
    VideoKeyedRow(AssetTable, id, "blog_post", SimulatedBlogPrefix + id, "COMPLETED")
  }

  /** One video of the batch: PROCESSING, its transcript row, its asset
      row, then COMPLETED with the processed title.  The second component
      says whether all went through; a raise keeps the writes before it. */
  function RowRun(t: Tables, faulty: set<Write>, id: string): (Tables, bool)
  {
    var processing := SetVideoStatusOp(id, Processing);
    if !Succeeds(t, faulty, processing) then (t, false)
    else
      var t1 := Effect(t, processing);
      var transcript := CreateVideoKeyedOp(BatchTranscriptRow(id));
      if !Succeeds(t1, faulty, transcript) then (t1, false)
      else
        var t2 := Effect(t1, transcript);
        var asset := CreateVideoKeyedOp(BatchAssetRow(id));
        if !Succeeds(t2, faulty, asset) then (t2, false)
        else
          var t3 := Effect(t2, asset);
          var done := SetVideoStatusTitleOp(id, Completed, ProcessedTitle(id));
          if !Succeeds(t3, faulty, done) then (t3, false) else (Effect(t3, done), true)
  }

  method RowRunM(db: Store, id: string) returns (ok: bool)
    modifies db
    ensures (db.t, ok) == RowRun(old(db.t), db.faulty, id)
  {
    ok := db.Run(SetVideoStatusOp(id, Processing));
    if ok {
      ok := db.Run(CreateVideoKeyedOp(BatchTranscriptRow(id)));
    }
    if ok {
      ok := db.Run(CreateVideoKeyedOp(BatchAssetRow(id)));
    }
    if ok {
      ok := db.Run(SetVideoStatusTitleOp(id, Completed, ProcessedTitle(id)));
    }
  }

  /** The batch after the loop body for one more video.  The handler's
      FAILED write is not guarded: when it raises, the batch ends. */
  function BatchStep(b: Batch, faulty: set<Write>, id: string): Batch {
    var (t1, ok) := RowRun(b.t, faulty, id);
    if ok then Batch(t1, b.count + 1, false)
    else
      var failed := SetVideoStatusOp(id, Failed);
      if Succeeds(t1, faulty, failed) then Batch(Effect(t1, failed), b.count, false)
      else Batch(t1, b.count, true)
  }

  function BatchFrom(t: Tables, faulty: set<Write>, ids: seq<string>): Batch
  {
    if |ids| == 0 then Batch(t, 0, false)
    else
      var b := BatchFrom(t, faulty, ids[..|ids| - 1]);
      if b.aborted then b else BatchStep(b, faulty, ids[|ids| - 1])
  }

  const BatchFailedPrefix := "Batch processing failed: "

  /** `process_all_pending_videos` over the listed video ids. */
  function BatchRun(t: Tables, faulty: set<Write>, ids: seq<string>): (Tables, BatchReply)
  {
    var b := BatchFrom(t, faulty, ids);
    if b.aborted then (b.t, BatchError(500, BatchFailedPrefix + WriteError))
    else (b.t, BatchDone("Processed " + NatStr(b.count) + " videos", b.count))
  }

  /** `process_all_pending_videos` for the caller `user`: `ids` is what the
      query over the caller's workspaces lists, each own PENDING video once. */
  method ProcessAllPendingVideos(db: Store, user: string, ids: seq<string>) returns (reply: BatchReply)
    requires ListsUserPending(db.t, user, ids)
    modifies db
    ensures (db.t, reply) == BatchRun(old(db.t), db.faulty, ids)
  {
    ghost var t0 := db.t;
    var count := 0;
    for i := 0 to |ids|
      invariant BatchFrom(t0, db.faulty, ids[..i]) == Batch(db.t, count, false)
    {
      assert ids[..i + 1][..i] == ids[..i];
      var id := ids[i];
      var ok := RowRunM(db, id);
      if ok {
        count := count + 1;
      } else {
        var failed := db.Run(SetVideoStatusOp(id, Failed));
        if !failed {
          assert ids[..i + 1] == ids[..i] + [id];
          BatchStopsAfterAbort(t0, db.faulty, ids, i + 1);
          assert ids[..|ids|] == ids;
          return BatchError(500, BatchFailedPrefix + WriteError);
        }
      }
    }
    assert ids[..|ids|] == ids;
    reply := BatchDone("Processed " + NatStr(count) + " videos", count);
  }

  /** Once the batch has ended, the later videos are not visited. */
  lemma {:induction false} BatchStopsAfterAbort(t: Tables, faulty: set<Write>, ids: seq<string>, i: nat)
    requires i <= |ids| && BatchFrom(t, faulty, ids[..i]).aborted
    ensures BatchFrom(t, faulty, ids) == BatchFrom(t, faulty, ids[..i])
    decreases |ids| - i
  {
    if i < |ids| {
      var init := ids[..|ids| - 1];
      assert init[..i] == ids[..i];
      BatchStopsAfterAbort(t, faulty, init, i);
    } else {
      assert ids[..i] == ids;
    }
  }

  /** Whether the writes of a video's loop body all go through. */
  predicate RowClean(faulty: set<Write>, id: string) {
    && SetVideoStatusW(id, Processing) !in faulty
    && CreateVideoKeyedW(id, TranscriptTable) !in faulty && CreateVideoKeyedW(id, AssetTable) !in faulty
    && SetVideoStatusW(id, Completed) !in faulty
  }

  /** The rows a video's loop body leaves in the video-keyed tables: none
      when PROCESSING or the transcript create raises, the transcript row
      alone when the asset create raises, and both otherwise. */
  function RowRows(faulty: set<Write>, id: string): seq<VideoKeyedRow> {
    if SetVideoStatusW(id, Processing) in faulty || CreateVideoKeyedW(id, TranscriptTable) in faulty then []
    else [BatchTranscriptRow(id)] + (if CreateVideoKeyedW(id, AssetTable) in faulty then [] else [BatchAssetRow(id)])
  }

  /** The rows the loop bodies of the listed videos leave, in order. */
  function BatchRows(faulty: set<Write>, ids: seq<string>): seq<VideoKeyedRow> {
    if |ids| == 0 then []
    else BatchRows(faulty, ids[..|ids| - 1]) + RowRows(faulty, ids[|ids| - 1])
  }

  /** The number of listed videos whose loop body can go through. */
  function CleanCount(faulty: set<Write>, ids: seq<string>): nat {
    if |ids| == 0 then 0
    else CleanCount(faulty, ids[..|ids| - 1]) + (if RowClean(faulty, ids[|ids| - 1]) then 1 else 0)
  }

  /** One video's loop body changes only that video and appends its own
      rows, and completes it exactly when its writes are clean. */
  lemma RowRunSpec(t: Tables, faulty: set<Write>, id: string)
    requires id in t.videos
    ensures var (t1, ok) := RowRun(t, faulty, id);
      && ok == RowClean(faulty, id)
      && t1 == t.(videos := t1.videos, videoKeyed := t.videoKeyed + RowRows(faulty, id))
      && t1.videos.Keys == t.videos.Keys
      && (forall v :: v in t.videos && v != id ==> t1.videos[v] == t.videos[v])
      && (ok ==> t1.videos[id] == t.videos[id].(status := Completed, title := ProcessedTitle(id)))
  {
    RowRunVideos(t, faulty, id);
    RowRunRows(t, faulty, id);
  }

  /** Apart from the videos, one video's loop body only appends its own rows. */
  lemma RowRunRows(t: Tables, faulty: set<Write>, id: string)
    requires id in t.videos
    ensures var (t1, ok) := RowRun(t, faulty, id);
      t1 == t.(videos := t1.videos, videoKeyed := t.videoKeyed + RowRows(faulty, id))
  {
    var processing := SetVideoStatusOp(id, Processing);
    if Succeeds(t, faulty, processing) {
      var t1 := Effect(t, processing);
      var transcript := CreateVideoKeyedOp(BatchTranscriptRow(id));
      if Succeeds(t1, faulty, transcript) {
        var t2 := Effect(t1, transcript);
        assert t2.videoKeyed == t.videoKeyed + [BatchTranscriptRow(id)];
        var asset := CreateVideoKeyedOp(BatchAssetRow(id));
        if Succeeds(t2, faulty, asset) {
          assert Effect(t2, asset).videoKeyed == t.videoKeyed + RowRows(faulty, id);
        }
      }
    }
  }

  /** The videos table after one video's loop body: only that video
      changes, and it is completed exactly when its writes are clean. */
  lemma RowRunVideos(t: Tables, faulty: set<Write>, id: string)
    requires id in t.videos
    ensures var (t1, ok) := RowRun(t, faulty, id);
      && ok == RowClean(faulty, id)
      && t1.videos.Keys == t.videos.Keys
      && (forall v :: v in t.videos && v != id ==> t1.videos[v] == t.videos[v])
      && (ok ==> t1.videos[id] == t.videos[id].(status := Completed, title := ProcessedTitle(id)))
  {
  }

  /** A batch that runs to its end has counted exactly the videos whose
      loop body went through; the video-keyed tables gain each video's rows
      in turn, and no table other than the videos changes. */
  lemma {:induction false} BatchTables(t: Tables, faulty: set<Write>, ids: seq<string>)
    requires forall i :: 0 <= i < |ids| ==> ids[i] in t.videos
    ensures var b := BatchFrom(t, faulty, ids);
      !b.aborted ==>
        && b.count == CleanCount(faulty, ids)
        && b.t == t.(videos := b.t.videos, videoKeyed := t.videoKeyed + BatchRows(faulty, ids))
        && b.t.videos.Keys == t.videos.Keys
  {
    if |ids| > 0 {
      var init := ids[..|ids| - 1];
      var id := ids[|ids| - 1];
      BatchTables(t, faulty, init);
      var b0 := BatchFrom(t, faulty, init);
      if !b0.aborted {
        BatchStepTables(b0, faulty, id);
        var b := BatchStep(b0, faulty, id);
        assert BatchFrom(t, faulty, ids) == b;
        assert BatchRows(faulty, ids) == BatchRows(faulty, init) + RowRows(faulty, id);
        if !b.aborted {
          AppendChain(t, b0.t, b.t, BatchRows(faulty, init), RowRows(faulty, id));
        }
      }
    }
  }

  /** Two updates that change the videos and append video-keyed rows make
      one such update. */
  lemma AppendChain(t: Tables, t0: Tables, t1: Tables, rows0: seq<VideoKeyedRow>, rows1: seq<VideoKeyedRow>)
    requires t0 == t.(videos := t0.videos, videoKeyed := t.videoKeyed + rows0)
    requires t1 == t0.(videos := t1.videos, videoKeyed := t0.videoKeyed + rows1)
    ensures t1 == t.(videos := t1.videos, videoKeyed := t.videoKeyed + (rows0 + rows1))
  {
    assert t.videoKeyed + rows0 + rows1 == t.videoKeyed + (rows0 + rows1);
  }

  /** One more video of an unfinished batch leaves the tables as its loop
      body does, apart from its FAILED write, and counts it when it is clean. */
  lemma BatchStepTables(b0: Batch, faulty: set<Write>, id: string)
    requires id in b0.t.videos
    ensures var b := BatchStep(b0, faulty, id);
      !b.aborted ==>
        && b.count == b0.count + (if RowClean(faulty, id) then 1 else 0)
        && b.t == b0.t.(videos := b.t.videos, videoKeyed := b0.t.videoKeyed + RowRows(faulty, id))
        && b.t.videos.Keys == b0.t.videos.Keys
  {
    RowRunSpec(b0.t, faulty, id);
  }

  /** In a batch that runs to its end, each listed video is COMPLETED when
      its loop body went through and FAILED otherwise, and unlisted videos
      are untouched. */
  lemma {:induction false} BatchSpec(t: Tables, faulty: set<Write>, ids: seq<string>)
    requires forall i, j :: 0 <= i < j < |ids| ==> ids[i] != ids[j]
    requires forall i :: 0 <= i < |ids| ==> ids[i] in t.videos
    ensures var b := BatchFrom(t, faulty, ids);
      !b.aborted ==>
        && b.t.videos.Keys == t.videos.Keys
        && (forall i :: 0 <= i < |ids| ==> b.t.videos[ids[i]].status == (if RowClean(faulty, ids[i]) then Completed else Failed))
        && (forall v :: v in t.videos && v !in ids ==> b.t.videos[v] == t.videos[v])
  {
    if |ids| > 0 {
      var init := ids[..|ids| - 1];
      var id := ids[|ids| - 1];
      BatchSpec(t, faulty, init);
      var b0 := BatchFrom(t, faulty, init);
      if !b0.aborted {
        RowRunVideos(b0.t, faulty, id);
        assert id !in init;
        forall i | 0 <= i < |ids|
          ensures BatchFrom(t, faulty, ids).aborted || BatchFrom(t, faulty, ids).t.videos[ids[i]].status == (if RowClean(faulty, ids[i]) then Completed else Failed)
        {
          if i < |ids| - 1 {
            assert ids[i] == init[i];
          }
        }
        forall v | v in t.videos && v !in ids
          ensures BatchFrom(t, faulty, ids).aborted || BatchFrom(t, faulty, ids).t.videos[v] == t.videos[v]
        {
          assert v !in init;
        }
      }
    }
  }

  /** Without a fault on the FAILED writes the batch always runs to its end. */
  lemma {:induction false} BatchRunsToEnd(t: Tables, faulty: set<Write>, ids: seq<string>)
    requires forall i :: 0 <= i < |ids| ==> SetVideoStatusW(ids[i], Failed) !in faulty
    requires forall i :: 0 <= i < |ids| ==> ids[i] in t.videos
    requires forall i, j :: 0 <= i < j < |ids| ==> ids[i] != ids[j]
    ensures !BatchFrom(t, faulty, ids).aborted
  {
    if |ids| > 0 {
      var init := ids[..|ids| - 1];
      BatchRunsToEnd(t, faulty, init);
      BatchTables(t, faulty, init);
      RowRunSpec(BatchFrom(t, faulty, init).t, faulty, ids[|ids| - 1]);
    }
  }

  /** The batch lists the caller's PENDING videos: those in a workspace the
      caller owns, each once. */
  predicate OwnPending(t: Tables, user: string, v: string) {
    v in t.videos && t.videos[v].status == Pending
    && t.videos[v].workspaceId in t.workspaces && t.workspaces[t.videos[v].workspaceId] == user
  }

  predicate ListsUserPending(t: Tables, user: string, ids: seq<string>) {
    && (forall i, j :: 0 <= i < j < |ids| ==> ids[i] != ids[j])
    && (forall i :: 0 <= i < |ids| ==> OwnPending(t, user, ids[i]))
    && (forall v :: v in t.videos && OwnPending(t, user, v) ==> v in ids)
  }

  /** Over such a listing, another owner's videos are never touched. */
  lemma BatchLeavesOthersAlone(t: Tables, faulty: set<Write>, user: string, ids: seq<string>, v: string)
    requires ListsUserPending(t, user, ids)
    requires v in t.videos && t.videos[v].workspaceId in t.workspaces && t.workspaces[t.videos[v].workspaceId] != user
    ensures !BatchFrom(t, faulty, ids).aborted ==> v in BatchFrom(t, faulty, ids).t.videos && BatchFrom(t, faulty, ids).t.videos[v] == t.videos[v]
  {
    BatchSpec(t, faulty, ids);
  }
}
