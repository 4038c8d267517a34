/** The polling worker (backend/simple_worker_prisma.py): for every PENDING
    video it replaces the video's job by a fresh STARTED one, obtains the
    audio (extracted locally for an uploaded `file://` source, downloaded
    otherwise), transcribes it, stores the transcript, runs four Gemini
    generators whose failures are skipped one by one, and completes the
    video and the job; an exception marks the video, and the job the
    handler sees, FAILED.  ffprobe, ffmpeg, yt-dlp and Whisper are oracles
    bundled in `Tools`. */
module Worker {
  import opened Wrappers
  import opened Strs
  import opened Models
  import opened Db
  import G = Gemini

  /** A row of the PENDING listing, as read when the batch starts. */
  datatype PendingVideo = PendingVideo(id: string, url: string, title: string)

  /** What yt-dlp reports of a download: the video's id and, when present, its title. */
  datatype YtInfo = YtInfo(id: string, title: Option<string>)

  /** A Whisper segment, times in milliseconds. */
  datatype WhisperSegment = WhisperSegment(start: int, end: int, text: string)

  datatype Whisper = Whisper(text: string, segments: seq<WhisperSegment>)

  /** The external programs: ffprobe's output for a file, ffmpeg's return
      code and error output for an extraction from a file to a path, the
      yt-dlp download of a URL, the Whisper transcription of a path, and
      the Gemini service.  An `Err` is the exception the call raises. */
  datatype Tools = Tools(
    ffprobe: string -> string,
    ffmpeg: (string, string) -> (int, string),
    ytdl: string -> Result<YtInfo>,
    whisper: string -> Result<Whisper>,
    gemini: G.Service)

  /** The identifiers drawn for a video: the id the store gives its new job,
      and the two 8-character uuid prefixes of the workflow id and of the
      extracted audio file. */
  datatype Fresh = Fresh(jobId: string, workflowHex: string, audioHex: string)

  const FileScheme := "file://"
  const NoAudioTrack := "La vidéo n'a pas de piste audio. Veuillez uploader une vidéo avec du son."
  const ExtractFailedPrefix := "Échec de l'extraction audio: "
  const Untitled := "Sans titre"

  function WorkflowId(videoId: string, hex: string): string {
    "video-processing-" + videoId + "-" + hex
  }

  /** `url.replace('file://', '')`: every occurrence is removed, not only the prefix. */
  function LocalPath(url: string): string {
    Join(Split(url, FileScheme), "")
  }

  /** `os.path.basename`: what follows the last `/`. */
  function Basename(path: string): (r: string)
    ensures '/' !in r
  {
    var parts := Split(path, "/");
    var last := parts[|parts| - 1];
    SplitLastHasNoSlash(path);
    last
  }

  /** The last piece of a split on `/` holds no `/`. */
  lemma {:induction false} SplitLastHasNoSlash(s: string)
    ensures var parts := Split(s, "/"); '/' !in parts[|parts| - 1]
    decreases |s|
  {
    match IndexOf(s, "/", 0)
    case None =>
      if '/' in s {
        var i :| 0 <= i < |s| && s[i] == '/';
        assert OccursAt(s, "/", i) by { assert s[i..i + 1] == "/"; }
        assert false;
      }
    case Some(i) =>
      SplitLastHasNoSlash(s[i + 1..]);
  }

  /** `s[-n:]` for a positive `n`. */
  function LastChars(s: string, n: nat): (r: string)
    ensures |r| == if n <= |s| then n else |s|
    ensures r == s[|s| - |r|..]
  {
    if n <= |s| then s[|s| - n..] else s
  }

  // ---------------------------------------------------------------------
  // The loop body, phase by phase

  /** Delete the video's job if it has one, then create a STARTED job with
      a fresh workflow id.  The value is the new job's id. */
  function NewJob(t: Tables, faulty: set<Write>, v: PendingVideo, f: Fresh): Step<string>
  {
    if v.id in t.jobs && !Succeeds(t, faulty, DeleteJobOp(v.id)) then Threw(t, WriteError)
    else
      var t1 := if v.id in t.jobs then Effect(t, DeleteJobOp(v.id)) else t;
      var create := CreateJobOp(v.id, Job(f.jobId, WorkflowId(v.id, f.workflowHex), Started));
      if !Succeeds(t1, faulty, create) then Threw(t1, WriteError)
      else Next(Effect(t1, create), f.jobId)
  }

  /** The audio to transcribe and the title handed to the generators. */
  datatype Audio = Audio(path: string, title: string)

  /** Obtain the audio.  A `file://` source is probed for an audio stream
      and extracted to `/tmp/<hex>.mp3`; its title is the stored one, or
      the file's name when that is empty.  Any other URL is downloaded to
      `/tmp/<id>.mp3` and its title is stored. */
  function FetchAudio(t: Tables, faulty: set<Write>, v: PendingVideo, f: Fresh, tools: Tools): Step<Audio>
  {
    if StartsWith(v.url, FileScheme) then
      var source := LocalPath(v.url);
      if Strip(tools.ffprobe(source)) == "" then Threw(t, NoAudioTrack)
      else
        var path := "/tmp/" + f.audioHex + ".mp3";
        var (code, stderr) := tools.ffmpeg(source, path);
        if code != 0 then Threw(t, ExtractFailedPrefix + LastChars(stderr, 500))
        else Next(t.(files := t.files + {path}), Audio(path, if v.title != "" then v.title else Basename(source)))
    else
      match tools.ytdl(v.url)
      case Err(e) => Threw(t, e)
      case Ok(info) =>
        var path := "/tmp/" + info.id + ".mp3";
        var t1 := t.(files := t.files + {path});
        var title := info.title.GetOr(Untitled);
        var op := SetVideoTitleOp(v.id, title);
        if !Succeeds(t1, faulty, op) then Threw(t1, WriteError)
        else Next(Effect(t1, op), Audio(path, title))
  }

  function SegmentJson(s: WhisperSegment): Json {
    JObj([("start", JNum(s.start)), ("end", JNum(s.end)), ("text", JStr(s.text))])
  }

  /** The transcript document the worker stores: the text, and every
      segment's start, end and text. */
  function WhisperJson(w: Whisper): Json {
    JObj([("text", JStr(w.text)),
          ("segments", JArr(SegmentsJson(w.segments)))])
  }

  /** The stored segments, in order. */
  function SegmentsJson(segs: seq<WhisperSegment>): (js: seq<Json>)
    ensures |js| == |segs| && forall i :: 0 <= i < |segs| ==> js[i] == SegmentJson(segs[i])
  {
    seq(|segs|, (i: nat) requires i < |segs| => SegmentJson(segs[i]))
  }

  /** Reading a stored segment back. */
  function ReadSegment(j: Json): Option<WhisperSegment> {
    if !j.JObj? then None
    else match (Get(j.fields, "start"), Get(j.fields, "end"), Get(j.fields, "text"))
      case (Some(JNum(s)), Some(JNum(e)), Some(JStr(x))) => Some(WhisperSegment(s, e, x))
      case _ => None
  }

  function ReadSegments(js: seq<Json>): Option<seq<WhisperSegment>> {
    if |js| == 0 then Some([])
    else match (ReadSegment(js[0]), ReadSegments(js[1..]))
      case (Some(s), Some(rest)) => Some([s] + rest)
      case _ => None
  }

  /** Reading a stored transcript back: its text and its segments. */
  function ReadWhisper(j: Json): Option<Whisper> {
    if !j.JObj? then None
    else match (Get(j.fields, "text"), Get(j.fields, "segments"))
      case (Some(JStr(text)), Some(JArr(segs))) =>
        (match ReadSegments(segs)
         case Some(ss) => Some(Whisper(text, ss))
         case None => None)
      case _ => None
  }

  lemma ReadSegmentOfStored(s: WhisperSegment)
    ensures ReadSegment(SegmentJson(s)) == Some(s)
  {
    var fields := SegmentJson(s).fields;
    assert fields[1..][1..] == [("text", JStr(s.text))];
    assert fields[1..] == [("end", JNum(s.end)), ("text", JStr(s.text))];
    assert Get(fields, "start") == Some(JNum(s.start));
    assert Get(fields, "end") == Some(JNum(s.end));
    assert Get(fields[1..][1..], "text") == Some(JStr(s.text));
    assert Get(fields[1..], "text") == Get(fields[1..][1..], "text");
    assert Get(fields, "text") == Some(JStr(s.text));
  }

  lemma {:induction false} ReadSegmentsOfStored(segs: seq<WhisperSegment>)
    ensures ReadSegments(SegmentsJson(segs)) == Some(segs)
    decreases |segs|
  {
    var js := SegmentsJson(segs);
    if |segs| > 0 {
      ReadSegmentsOfStored(segs[1..]);
      assert js[1..] == SegmentsJson(segs[1..]);
      ReadSegmentOfStored(segs[0]);
      assert [segs[0]] + segs[1..] == segs;
    }
  }

  /** The stored document keeps the transcription: reading it back gives
      the text and every segment's start, end and text, in order. */
  lemma WhisperRoundTrip(w: Whisper)
    ensures ReadWhisper(WhisperJson(w)) == Some(w)
  {
    ReadSegmentsOfStored(w.segments);
    var fields := WhisperJson(w).fields;
    assert fields[1..] == [fields[1]];
    assert Get(fields[1..], "segments") == Some(fields[1].1);
    assert Get(fields, "segments") == Some(fields[1].1);
    assert Get(fields, "text") == Some(JStr(w.text));
  }

  /** Transcribe the audio and store the transcript of the job. */
  function Transcribed(t: Tables, faulty: set<Write>, jobId: string, audio: Audio, tools: Tools): Step<string>
  {
    match tools.whisper(audio.path)
    case Err(e) => Threw(t, e)
    case Ok(w) =>
      var op := CreateTranscriptOp(jobId, Dumped(WhisperJson(w)));
      if !Succeeds(t, faulty, op) then Threw(t, WriteError) else Next(Effect(t, op), w.text)
  }

  /** The worker's generators: the asset type and the Gemini format, in
      the order of its mapping. */
  const Generators: seq<(string, G.Kind)> :=
    [("BLOG_POST", G.BlogPostK), ("TWITTER_THREAD", G.TwitterThreadK), ("LINKEDIN_POST", G.LinkedinPostK), ("TIKTOK", G.TiktokK)]

  /** The asset row a generator's result becomes. */
  function GenAsset(m: G.Service, gen: (string, G.Kind), text: string, title: string, jobId: string): Asset {
    Asset(jobId, gen.0, G.Generate(m, gen.1, text, title).content, "GENERATED")
  }

  /** The generator loop: an asset whose write goes through is appended and
      counted; one whose write raises is skipped. */
  function Generated(t: Tables, faulty: set<Write>, m: G.Service, gens: seq<(string, G.Kind)>,
                     text: string, title: string, jobId: string): (Tables, nat)
  {
    if |gens| == 0 then (t, 0)
    else
      var (t1, n) := Generated(t, faulty, m, gens[..|gens| - 1], text, title, jobId);
      var op := CreateAssetOp(GenAsset(m, gens[|gens| - 1], text, title, jobId));
      if Succeeds(t1, faulty, op) then (Effect(t1, op), n + 1) else (t1, n)
  }

  /** The generators whose asset write goes through, in order. */
  function Kept(faulty: set<Write>, gens: seq<(string, G.Kind)>, jobId: string): (r: seq<(string, G.Kind)>)
  {
    if |gens| == 0 then []
    else
      var g := gens[|gens| - 1];
      Kept(faulty, gens[..|gens| - 1], jobId) + (if CreateAssetW(jobId, g.0) !in faulty then [g] else [])
  }

  /** Exactly the generators whose write goes through are kept, in order. */
  lemma {:induction false} KeptMembers(faulty: set<Write>, gens: seq<(string, G.Kind)>, jobId: string)
    ensures forall g :: g in Kept(faulty, gens, jobId) <==> g in gens && CreateAssetW(jobId, g.0) !in faulty
    decreases |gens|
  {
    if |gens| > 0 {
      KeptMembers(faulty, gens[..|gens| - 1], jobId);
      assert gens == gens[..|gens| - 1] + [gens[|gens| - 1]];
    }
  }

  /** The assets of the kept generators. */
  function AssetsFor(m: G.Service, gens: seq<(string, G.Kind)>, text: string, title: string, jobId: string): (r: seq<Asset>)
    ensures |r| == |gens|
  {
    seq(|gens|, (i: nat) requires i < |gens| => GenAsset(m, gens[i], text, title, jobId))
  }

  /** The loop appends the assets of the generators whose write goes
      through, in order, changes nothing else, and counts them: a failed
      write does not stop the writes after it. */
  lemma {:induction false} GeneratedSpec(t: Tables, faulty: set<Write>, m: G.Service, gens: seq<(string, G.Kind)>,
                                          text: string, title: string, jobId: string)
    ensures var (t1, n) := Generated(t, faulty, m, gens, text, title, jobId); var kept := Kept(faulty, gens, jobId);
      && t1 == t.(assets := t.assets + AssetsFor(m, kept, text, title, jobId))
      && n == |kept|
    decreases |gens|
  {
    if |gens| == 0 {
      assert t.assets + [] == t.assets;
    } else {
      var init := gens[..|gens| - 1];
      var g := gens[|gens| - 1];
      GeneratedSpec(t, faulty, m, init, text, title, jobId);
      var k0 := Kept(faulty, init, jobId);
      var a0 := AssetsFor(m, k0, text, title, jobId);
      var t1 := Generated(t, faulty, m, init, text, title, jobId).0;
      var a := GenAsset(m, g, text, title, jobId);
      assert Key(CreateAssetOp(a)) == CreateAssetW(jobId, g.0);
      if CreateAssetW(jobId, g.0) !in faulty {
        assert Effect(t1, CreateAssetOp(a)).assets == t1.assets + [a];
        assert AssetsFor(m, k0 + [g], text, title, jobId) == a0 + [a];
        assert t.assets + a0 + [a] == t.assets + (a0 + [a]);
      } else {
        assert k0 + [] == k0;
      }
    }
  }

  /** With the worker's four generators, the count is four less the
      number of asset writes that raise. */
  lemma GeneratedCount(t: Tables, faulty: set<Write>, m: G.Service, text: string, title: string, jobId: string)
    ensures Generated(t, faulty, m, Generators, text, title, jobId).1
      == (if CreateAssetW(jobId, "BLOG_POST") in faulty then 0 else 1)
       + (if CreateAssetW(jobId, "TWITTER_THREAD") in faulty then 0 else 1)
       + (if CreateAssetW(jobId, "LINKEDIN_POST") in faulty then 0 else 1)
       + (if CreateAssetW(jobId, "TIKTOK") in faulty then 0 else 1)
  {
    GeneratedSpec(t, faulty, m, Generators, text, title, jobId);
    var g := Generators;
    var ind := (k: string) => if CreateAssetW(jobId, k) in faulty then 0 else 1;
    assert g[..3][..2][..1][..0] == [];
    assert g[..3][..2][..1] == [g[0]];
    assert g[..3][..2] == [g[0], g[1]];
    assert g[..3] == [g[0], g[1], g[2]];
    assert |Kept(faulty, g[..3][..2][..1], jobId)| == ind(g[0].0);
    assert |Kept(faulty, g[..3][..2], jobId)| == ind(g[0].0) + ind(g[1].0);
    assert |Kept(faulty, g[..3], jobId)| == ind(g[0].0) + ind(g[1].0) + ind(g[2].0);
    assert |Kept(faulty, g, jobId)| == ind(g[0].0) + ind(g[1].0) + ind(g[2].0) + ind(g[3].0);
  }

  /** Complete the video, then the job, then remove the audio file. */
  function Completion(t: Tables, faulty: set<Write>, videoId: string, jobId: string, path: string): Step<()>
  {
    var videoDone := SetVideoStatusOp(videoId, Completed);
    if !Succeeds(t, faulty, videoDone) then Threw(t, WriteError)
    else
      var t1 := Effect(t, videoDone);
      var jobDone := SetJobStatusOp(jobId, JobCompleted);
      if !Succeeds(t1, faulty, jobDone) then Threw(t1, WriteError)
      else Next(Effect(t1, jobDone).(files := t1.files - {path}), ())
  }

  /** How one turn of the loop ends: the tables, the `job` variable the
      handler will see, and the number of assets or the exception. */
  datatype Attempt = Attempt(t: Tables, job: Option<string>, result: Result<nat>)

  /** The `try` block of one turn.  `job` is the variable left by earlier
      turns; it is rebound only once this turn's job has been created. */
  function AttemptRow(t: Tables, faulty: set<Write>, v: PendingVideo, f: Fresh, tools: Tools, job: Option<string>): Attempt
  {
    match NewJob(t, faulty, v, f)
    case Threw(t1, e) => Attempt(t1, job, Err(e))
    case Next(t1, jobId) => Attempt(AfterJob(t1, faulty, v, f, tools, jobId).t, Some(jobId), StepResult(AfterJob(t1, faulty, v, f, tools, jobId)))
  }

  /** The count, or the exception, of a finished step. */
  function StepResult(s: Step<nat>): Result<nat> {
    match s
    case Next(_, n) => Ok(n)
    case Threw(_, e) => Err(e)
  }

  /** The turn once its job exists: PROCESSING, then the audio, then the rest. */
  function AfterJob(t: Tables, faulty: set<Write>, v: PendingVideo, f: Fresh, tools: Tools, jobId: string): Step<nat>
  {
    var processing := SetVideoStatusOp(v.id, Processing);
    if !Succeeds(t, faulty, processing) then Threw(t, WriteError)
    else
      match FetchAudio(Effect(t, processing), faulty, v, f, tools)
      case Threw(t2, e) => Threw(t2, e)
      case Next(t2, audio) => Transcribing(t2, faulty, v.id, jobId, audio, tools)
  }

  /** The turn once the audio is there: transcript, generators, completion. */
  function Transcribing(t: Tables, faulty: set<Write>, videoId: string, jobId: string, audio: Audio, tools: Tools): Step<nat>
  {
    match Transcribed(t, faulty, jobId, audio, tools)
    case Threw(t3, e) => Threw(t3, e)
    case Next(t3, text) =>
      var (t4, n) := Generated(t3, faulty, tools.gemini, Generators, text, audio.title, jobId);
      match Completion(t4, faulty, videoId, jobId, audio.path)
      case Threw(t5, e) => Threw(t5, e)
      case Next(t5, _) => Next(t5, n)
  }

  /** The handler of one turn: the video is set to FAILED and then, if a
      `job` variable is bound, that job too.  Neither write is guarded: if
      one raises, the exception leaves the loop and ends the batch (the
      second component). */
  function Handler(t: Tables, faulty: set<Write>, videoId: string, job: Option<string>): (Tables, bool)
  {
    var failed := SetVideoStatusOp(videoId, Failed);
    if !Succeeds(t, faulty, failed) then (t, true)
    else
      var t1 := Effect(t, failed);
      if job.None? then (t1, false)
      else
        var jobFailed := SetJobStatusOp(job.value, JobFailed);
        if Succeeds(t1, faulty, jobFailed) then (Effect(t1, jobFailed), false) else (t1, true)
  }

  /** The state between turns: the tables, the `job` variable, and whether
      the batch has ended early. */
  datatype Worker = Worker(t: Tables, job: Option<string>, stopped: bool)

  /** One turn of the loop, as written. */
  function WorkerStep(w: Worker, faulty: set<Write>, v: PendingVideo, f: Fresh, tools: Tools): Worker {
    var a := AttemptRow(w.t, faulty, v, f, tools, w.job);
    if a.result.Ok? then Worker(a.t, a.job, false)
    else
      var (t1, stopped) := Handler(a.t, faulty, v.id, a.job);
      Worker(t1, a.job, stopped)
  }

  /** `process_pending_videos` over the listed rows; `draws` gives each
      video's drawn identifiers. */
  function WorkerFrom(t: Tables, faulty: set<Write>, rows: seq<PendingVideo>, draws: string -> Fresh, tools: Tools): Worker
  {
    if |rows| == 0 then Worker(t, None, false)
    else
      var w := WorkerFrom(t, faulty, rows[..|rows| - 1], draws, tools);
      var v := rows[|rows| - 1];
      if w.stopped then w else WorkerStep(w, faulty, v, draws(v.id), tools)
  }

  // ---------------------------------------------------------------------
  // The methods

  method NewJobM(db: Store, v: PendingVideo, f: Fresh) returns (r: Result<string>)
    modifies db
    ensures StepOf(db.t, r) == NewJob(old(db.t), db.faulty, v, f)
  {
    if v.id in db.t.jobs {
      var deleted := db.Run(DeleteJobOp(v.id));
      if !deleted {
        return Err(WriteError);
      }
    }
    var ok := db.Run(CreateJobOp(v.id, Job(f.jobId, WorkflowId(v.id, f.workflowHex), Started)));
    r := if ok then Ok(f.jobId) else Err(WriteError);
  }

  method FetchAudioM(db: Store, v: PendingVideo, f: Fresh, tools: Tools) returns (r: Result<Audio>)
    modifies db
    ensures StepOf(db.t, r) == FetchAudio(old(db.t), db.faulty, v, f, tools)
  {
    if StartsWith(v.url, FileScheme) {
      var source := LocalPath(v.url);
      if Strip(tools.ffprobe(source)) == "" {
        return Err(NoAudioTrack);
      }
      var path := "/tmp/" + f.audioHex + ".mp3";
      var (code, stderr) := tools.ffmpeg(source, path);
      if code != 0 {
        return Err(ExtractFailedPrefix + LastChars(stderr, 500));
      }
      db.CreateFile(path);
      r := Ok(Audio(path, if v.title != "" then v.title else Basename(source)));
    } else {
      var info := tools.ytdl(v.url);
      if info.Err? {
        return Err(info.message);
      }
      var path := "/tmp/" + info.value.id + ".mp3";
      db.CreateFile(path);
      var title := info.value.title.GetOr(Untitled);
      var ok := db.Run(SetVideoTitleOp(v.id, title));
      r := if ok then Ok(Audio(path, title)) else Err(WriteError);
    }
  }

  method TranscribedM(db: Store, jobId: string, audio: Audio, tools: Tools) returns (r: Result<string>)
    modifies db
    ensures StepOf(db.t, r) == Transcribed(old(db.t), db.faulty, jobId, audio, tools)
  {
    var w := tools.whisper(audio.path);
    if w.Err? {
      return Err(w.message);
    }
    var ok := db.Run(CreateTranscriptOp(jobId, Dumped(WhisperJson(w.value))));
    r := if ok then Ok(w.value.text) else Err(WriteError);
  }

  /** The generator loop, over the generators `gens` (the worker passes
      `Generators`). */
  method GenerateAssets(db: Store, m: G.Service, gens: seq<(string, G.Kind)>, text: string, title: string, jobId: string)
    returns (count: nat)
    modifies db
    ensures (db.t, count) == Generated(old(db.t), db.faulty, m, gens, text, title, jobId)
  {
    ghost var t0 := db.t;
    count := 0;
    for i := 0 to |gens|
      invariant (db.t, count) == Generated(t0, db.faulty, m, gens[..i], text, title, jobId)
    {
      ghost var prev := db.t;
      var a := GenAsset(m, gens[i], text, title, jobId);
      var ok := db.Run(CreateAssetOp(a));
      assert db.t == (if ok then prev.(assets := prev.assets + [a]) else prev);
      if ok {
        count := count + 1;
      }
      assert gens[..i + 1][..i] == gens[..i];
      assert gens[..i + 1][i] == gens[i];
    }
    assert gens[..|gens|] == gens;
  }

  method CompletionM(db: Store, videoId: string, jobId: string, path: string) returns (r: Result<()>)
    modifies db
    ensures StepOf(db.t, r) == Completion(old(db.t), db.faulty, videoId, jobId, path)
  {
    var ok := db.Run(SetVideoStatusOp(videoId, Completed));
    if !ok {
      return Err(WriteError);
    }
    ok := db.Run(SetJobStatusOp(jobId, JobCompleted));
    if !ok {
      return Err(WriteError);
    }
    db.RemoveFile(path);
    r := Ok(());
  }

  method AttemptRowM(db: Store, v: PendingVideo, f: Fresh, tools: Tools, job: Option<string>)
    returns (job': Option<string>, r: Result<nat>)
    modifies db
    ensures Attempt(db.t, job', r) == AttemptRow(old(db.t), db.faulty, v, f, tools, job)
  {
    ghost var t0 := db.t;
    var created := NewJobM(db, v, f);
    if created.Err? {
      return job, Err(created.message);
    }
    ghost var t1 := db.t;
    assert NewJob(t0, db.faulty, v, f) == Next(t1, created.value);
    job' := Some(created.value);
    r := AfterJobM(db, v, f, tools, created.value);
    assert StepResult(StepOf(db.t, r)) == r;
  }

  method AfterJobM(db: Store, v: PendingVideo, f: Fresh, tools: Tools, jobId: string) returns (r: Result<nat>)
    modifies db
    ensures StepOf(db.t, r) == AfterJob(old(db.t), db.faulty, v, f, tools, jobId)
  {
    var ok := db.Run(SetVideoStatusOp(v.id, Processing));
    if !ok {
      return Err(WriteError);
    }
    var audio := FetchAudioM(db, v, f, tools);
    if audio.Err? {
      return Err(audio.message);
    }
    r := TranscribingM(db, v.id, jobId, audio.value, tools);
  }

  method TranscribingM(db: Store, videoId: string, jobId: string, audio: Audio, tools: Tools) returns (r: Result<nat>)
    modifies db
    ensures StepOf(db.t, r) == Transcribing(old(db.t), db.faulty, videoId, jobId, audio, tools)
  {
    var text := TranscribedM(db, jobId, audio, tools);
    if text.Err? {
      return Err(text.message);
    }
    var n := GenerateAssets(db, tools.gemini, Generators, text.value, audio.title, jobId);
    var done := CompletionM(db, videoId, jobId, audio.path);
    if done.Err? {
      return Err(done.message);
    }
    r := Ok(n);
  }

  method HandlerM(db: Store, videoId: string, job: Option<string>) returns (stopped: bool)
    modifies db
    ensures (db.t, stopped) == Handler(old(db.t), db.faulty, videoId, job)
  {
    var ok := db.Run(SetVideoStatusOp(videoId, Failed));
    if !ok {
      return true;
    }
    if job.Some? {
      ok := db.Run(SetJobStatusOp(job.value, JobFailed));
      if !ok {
        return true;
      }
    }
    stopped := false;
  }

  /** One turn of the loop: the `try` block, then the handler on an exception. */
  method Turn(db: Store, v: PendingVideo, f: Fresh, tools: Tools, job: Option<string>) returns (job': Option<string>, stopped: bool)
    modifies db
    ensures Worker(db.t, job', stopped) == WorkerStep(Worker(old(db.t), job, false), db.faulty, v, f, tools)
  {
    var r;
    job', r := AttemptRowM(db, v, f, tools, job);
    stopped := false;
    if r.Err? {
      stopped := HandlerM(db, v.id, job');
    }
  }

  /** `rows` is what `find_many(where={'status': 'PENDING'})` returns: every
      PENDING video once, with its URL and title. */
  predicate ListsPending(t: Tables, rows: seq<PendingVideo>) {
    && (forall i, j :: 0 <= i < j < |rows| ==> rows[i].id != rows[j].id)
    && (forall i :: 0 <= i < |rows| ==>
          rows[i].id in t.videos && t.videos[rows[i].id].status == Pending
          && rows[i].url == t.videos[rows[i].id].url && rows[i].title == t.videos[rows[i].id].title)
    && (forall v :: v in t.videos && t.videos[v].status == Pending ==> exists i :: 0 <= i < |rows| && rows[i].id == v)
  }

  /** The listing of the query meets the hypotheses of the batch lemmas: its
      rows are distinct stored videos, and exactly the PENDING ones. */
  lemma ListingIsPending(t: Tables, rows: seq<PendingVideo>, v: string)
    requires ListsPending(t, rows)
    ensures forall i :: 0 <= i < |rows| ==> rows[i].id in t.videos
    ensures forall i, j :: 0 <= i < j < |rows| ==> rows[i].id != rows[j].id
    ensures v in t.videos ==> (t.videos[v].status == Pending <==> exists i :: 0 <= i < |rows| && rows[i].id == v)
  {
  }

  /** `process_pending_videos` over the PENDING rows its query listed. */
  method ProcessPendingVideos(db: Store, rows: seq<PendingVideo>, draws: string -> Fresh, tools: Tools)
    requires ListsPending(db.t, rows)
    modifies db
    ensures db.t == WorkerFrom(old(db.t), db.faulty, rows, draws, tools).t
  {
    ghost var t0 := db.t;
    var job: Option<string> := None;
    for i := 0 to |rows|
      invariant WorkerFrom(t0, db.faulty, rows[..i], draws, tools) == Worker(db.t, job, false)
    {
      assert rows[..i + 1][..i] == rows[..i];
      var v := rows[i];
      var stopped;
      job, stopped := Turn(db, v, draws(v.id), tools, job);
      if stopped {
        WorkerStopsAfterStop(t0, db.faulty, rows, draws, tools, i + 1);
        assert rows[..|rows|] == rows;
        return;
      }
    }
    assert rows[..|rows|] == rows;
  }

  /** Once the batch has ended, the later rows are not visited. */
  lemma {:induction false} WorkerStopsAfterStop(t: Tables, faulty: set<Write>, rows: seq<PendingVideo>,
                                                draws: string -> Fresh, tools: Tools, i: nat)
    requires i <= |rows| && WorkerFrom(t, faulty, rows[..i], draws, tools).stopped
    ensures WorkerFrom(t, faulty, rows, draws, tools) == WorkerFrom(t, faulty, rows[..i], draws, tools)
    decreases |rows| - i
  {
    if i < |rows| {
      var init := rows[..|rows| - 1];
      assert init[..i] == rows[..i];
      WorkerStopsAfterStop(t, faulty, init, draws, tools, i);
    } else {
      assert rows[..i] == rows;
    }
  }

  // ---------------------------------------------------------------------
  // Properties

  /** Job ids are unique across videos. */
  predicate DistinctJobIds(jobs: map<string, Job>) {
    forall a, b :: a in jobs && b in jobs && a != b ==> jobs[a].id != jobs[b].id
  }

  /** The old job is deleted before the new one is created: after the step
      the video has exactly the new STARTED job, with workflow id
      `video-processing-<video id>-<hex>`, the other videos' jobs are
      untouched, and the job ids stay unique. */
  lemma NewJobSpec(t: Tables, faulty: set<Write>, v: PendingVideo, f: Fresh)
    requires v.id in t.videos && DistinctJobIds(t.jobs)
    ensures var s := NewJob(t, faulty, v, f);
      && (s.Next? ==>
            && s.value == f.jobId && s.t == t.(jobs := s.t.jobs)
            && s.t.jobs == (t.jobs - {v.id})[v.id := Job(f.jobId, WorkflowId(v.id, f.workflowHex), Started)]
            && DistinctJobIds(s.t.jobs))
      && (s.Threw? ==> s.t == t || (s.t == t.(jobs := s.t.jobs) && s.t.jobs == t.jobs - {v.id}))
      && ((DeleteJobW(v.id) !in faulty && CreateJobW(v.id) !in faulty
           && (forall u :: u in t.jobs && u != v.id ==> t.jobs[u].id != f.jobId)) ==> s.Next?)
  {
    var t1 := if v.id in t.jobs then Effect(t, DeleteJobOp(v.id)) else t;
    assert t1.jobs == t.jobs - {v.id};
    if DeleteJobW(v.id) !in faulty && CreateJobW(v.id) !in faulty
       && (forall u :: u in t.jobs && u != v.id ==> t.jobs[u].id != f.jobId) {
      assert !JobIdUsed(t1.jobs, f.jobId);
    }
  }

  /** An uploaded file without an audio stream raises before any file is
      written, with the message asking for a video with sound. */
  lemma SilentUploadRaises(t: Tables, faulty: set<Write>, v: PendingVideo, f: Fresh, tools: Tools)
    requires StartsWith(v.url, FileScheme) && Strip(tools.ffprobe(LocalPath(v.url))) == ""
    ensures FetchAudio(t, faulty, v, f, tools) == Threw(t, NoAudioTrack)
  {
  }

  /** An uploaded file's audio is extracted to `/tmp/<hex>.mp3` with the
      stored title kept; a downloaded video's title is stored on the video. */
  lemma FetchAudioSpec(t: Tables, faulty: set<Write>, v: PendingVideo, f: Fresh, tools: Tools)
    requires v.id in t.videos
    ensures var s := FetchAudio(t, faulty, v, f, tools);
      && (s.Next? && StartsWith(v.url, FileScheme) ==>
            s.t == t.(files := t.files + {"/tmp/" + f.audioHex + ".mp3"}) && s.value.path == "/tmp/" + f.audioHex + ".mp3"
            && (v.title != "" ==> s.value.title == v.title))
      && (s.Next? && !StartsWith(v.url, FileScheme) ==>
            s.t.videos == t.videos[v.id := t.videos[v.id].(title := s.value.title)]
            && s.value.path in s.t.files && s.t.jobs == t.jobs && s.t.assets == t.assets)
      && s.t.jobs == t.jobs && s.t.transcripts == t.transcripts && s.t.assets == t.assets
      && s.t.videos.Keys == t.videos.Keys && (forall u :: u in t.videos && u != v.id ==> s.t.videos[u] == t.videos[u])
      && (forall u :: u in t.videos ==> s.t.videos[u].status == t.videos[u].status)
  {
  }

  /** The video exists and owns the job `jobId`, and job ids are unique. */
  predicate OwnsJob(t: Tables, videoId: string, jobId: string) {
    videoId in t.videos && videoId in t.jobs && t.jobs[videoId].id == jobId && DistinctJobIds(t.jobs)
  }

  /** From `t` to `t1` only the rows of video `videoId` and of its job changed. */
  predicate Confined(t: Tables, t1: Tables, videoId: string)
    requires videoId in t.jobs
  {
    && t1.videos.Keys == t.videos.Keys && (forall u :: u in t.videos && u != videoId ==> t1.videos[u] == t.videos[u])
    && t1.jobs.Keys == t.jobs.Keys && (forall u :: u in t.jobs && u != videoId ==> t1.jobs[u] == t.jobs[u])
    && t1.jobs[videoId].id == t.jobs[videoId].id && DistinctJobIds(t1.jobs)
  }

  /** Completing a video's job changes that video's job only. */
  lemma CompletionSpec(t: Tables, faulty: set<Write>, videoId: string, jobId: string, path: string)
    requires OwnsJob(t, videoId, jobId)
    ensures var s := Completion(t, faulty, videoId, jobId, path);
      && Confined(t, s.t, videoId)
      && (s.Next? ==> s.t.videos[videoId].status == Completed && s.t.jobs[videoId] == t.jobs[videoId].(status := JobCompleted)
                      && path !in s.t.files)
      && (SetVideoStatusW(videoId, Completed) !in faulty && SetJobStatusW(jobId, JobCompleted) !in faulty ==> s.Next?)
  {
    assert JobIdUsed(t.jobs, jobId);
  }

  /** Transcript, generators and completion touch only the video's own rows,
      and end with both COMPLETED when they go through. */
  lemma TranscribingSpec(t: Tables, faulty: set<Write>, videoId: string, jobId: string, audio: Audio, tools: Tools)
    requires OwnsJob(t, videoId, jobId)
    ensures var s := Transcribing(t, faulty, videoId, jobId, audio, tools);
      && Confined(t, s.t, videoId)
      && (s.Next? ==> s.t.videos[videoId].status == Completed && s.t.jobs[videoId].status == JobCompleted)
  {
    var s3 := Transcribed(t, faulty, jobId, audio, tools);
    if s3.Next? {
      GeneratedSpec(s3.t, faulty, tools.gemini, Generators, s3.value, audio.title, jobId);
      var g := Generated(s3.t, faulty, tools.gemini, Generators, s3.value, audio.title, jobId);
      CompletionSpec(g.0, faulty, videoId, jobId, audio.path);
    }
  }

  /** The same once the job exists, from PROCESSING on. */
  lemma AfterJobSpec(t: Tables, faulty: set<Write>, v: PendingVideo, f: Fresh, tools: Tools, jobId: string)
    requires OwnsJob(t, v.id, jobId)
    ensures var s := AfterJob(t, faulty, v, f, tools, jobId);
      && Confined(t, s.t, v.id)
      && (s.Next? ==> s.t.videos[v.id].status == Completed && s.t.jobs[v.id].status == JobCompleted)
  {
    var processing := SetVideoStatusOp(v.id, Processing);
    if Succeeds(t, faulty, processing) {
      var t1 := Effect(t, processing);
      FetchAudioSpec(t1, faulty, v, f, tools);
      var s2 := FetchAudio(t1, faulty, v, f, tools);
      if s2.Next? {
        TranscribingSpec(s2.t, faulty, v.id, jobId, s2.value, tools);
      }
    }
  }

  /** A turn changes no other video and no other video's job, keeps job
      ids unique, and completes its video when it goes through.  Its `job`
      is the one it started with, or the job it created for its own video. */
  lemma AttemptRowSpec(t: Tables, faulty: set<Write>, v: PendingVideo, f: Fresh, tools: Tools, job: Option<string>)
    requires v.id in t.videos && DistinctJobIds(t.jobs)
    ensures var a := AttemptRow(t, faulty, v, f, tools, job);
      && a.t.videos.Keys == t.videos.Keys
      && (forall u :: u in t.videos && u != v.id ==> a.t.videos[u] == t.videos[u])
      && (a.result.Ok? ==> a.t.videos[v.id].status == Completed)
      && DistinctJobIds(a.t.jobs)
      && (forall u :: u != v.id && u in t.jobs ==> u in a.t.jobs && a.t.jobs[u] == t.jobs[u])
      && (forall u :: u != v.id && u in a.t.jobs ==> u in t.jobs)
      && (a.job == job || (a.job == Some(f.jobId) && v.id in a.t.jobs && a.t.jobs[v.id].id == f.jobId))
  {
    NewJobSpec(t, faulty, v, f);
    var s := NewJob(t, faulty, v, f);
    if s.Next? {
      AfterJobSpec(s.t, faulty, v, f, tools, s.value);
    }
  }

  /** With the programs answering and only asset writes failing, a
      downloaded video's turn completes: the video and its new job both
      end COMPLETED, whatever the generators' writes did. */
  lemma CompletesDespiteAssetFaults(t: Tables, faulty: set<Write>, v: PendingVideo, f: Fresh, tools: Tools, job: Option<string>)
    requires v.id in t.videos && v.id !in t.jobs && DistinctJobIds(t.jobs)
    requires forall u :: u in t.jobs ==> t.jobs[u].id != f.jobId
    requires f.jobId !in t.transcripts
    requires forall w :: w in faulty ==> w.CreateAssetW?
    requires !StartsWith(v.url, FileScheme) && tools.ytdl(v.url).Ok?
    requires tools.whisper("/tmp/" + tools.ytdl(v.url).value.id + ".mp3").Ok?
    ensures var a := AttemptRow(t, faulty, v, f, tools, job);
      && a.result.Ok? && a.job == Some(f.jobId)
      && v.id in a.t.videos && a.t.videos[v.id].status == Completed
      && v.id in a.t.jobs && a.t.jobs[v.id] == Job(f.jobId, WorkflowId(v.id, f.workflowHex), JobCompleted)
  {
    NewJobSpec(t, faulty, v, f);
    AfterJobWithoutFaults(NewJob(t, faulty, v, f).t, faulty, v, f, tools, f.jobId);
  }

  lemma AfterJobWithoutFaults(t: Tables, faulty: set<Write>, v: PendingVideo, f: Fresh, tools: Tools, jobId: string)
    requires OwnsJob(t, v.id, jobId) && jobId !in t.transcripts
    requires forall w :: w in faulty ==> w.CreateAssetW?
    requires !StartsWith(v.url, FileScheme) && tools.ytdl(v.url).Ok?
    requires tools.whisper("/tmp/" + tools.ytdl(v.url).value.id + ".mp3").Ok?
    ensures var s := AfterJob(t, faulty, v, f, tools, jobId);
      && s.Next? && v.id in s.t.videos && s.t.videos[v.id].status == Completed
      && v.id in s.t.jobs && s.t.jobs[v.id] == t.jobs[v.id].(status := JobCompleted)
  {
    var t2 := Effect(t, SetVideoStatusOp(v.id, Processing));
    var s2 := FetchAudio(t2, faulty, v, f, tools);
    assert s2.Next? && s2.t.jobs == t.jobs && s2.t.transcripts == t.transcripts && v.id in s2.t.videos;
    assert s2.value.path == "/tmp/" + tools.ytdl(v.url).value.id + ".mp3";
    TranscribingWithoutFaults(s2.t, faulty, v.id, jobId, s2.value, tools);
  }

  lemma TranscribingWithoutFaults(t: Tables, faulty: set<Write>, videoId: string, jobId: string, audio: Audio, tools: Tools)
    requires OwnsJob(t, videoId, jobId) && jobId !in t.transcripts
    requires forall w :: w in faulty ==> w.CreateAssetW?
    requires tools.whisper(audio.path).Ok?
    ensures var s := Transcribing(t, faulty, videoId, jobId, audio, tools);
      && s.Next? && videoId in s.t.videos && s.t.videos[videoId].status == Completed
      && videoId in s.t.jobs && s.t.jobs[videoId] == t.jobs[videoId].(status := JobCompleted)
  {
    var w := tools.whisper(audio.path).value;
    var op := CreateTranscriptOp(jobId, Dumped(WhisperJson(w)));
    assert Key(op) !in faulty;
    var t3 := t.(transcripts := t.transcripts[jobId := Dumped(WhisperJson(w))]);
    assert Transcribed(t, faulty, jobId, audio, tools) == Next(t3, w.text);
    GeneratedSpec(t3, faulty, tools.gemini, Generators, w.text, audio.title, jobId);
    var t4 := Generated(t3, faulty, tools.gemini, Generators, w.text, audio.title, jobId).0;
    assert t4.videos == t.videos && t4.jobs == t.jobs;
    CompletionSpec(t4, faulty, videoId, jobId, audio.path);
    assert SetVideoStatusW(videoId, Completed) !in faulty && SetJobStatusW(jobId, JobCompleted) !in faulty;
  }

  /** On an exception the handler sets the video to FAILED and, when the
      turn created its job, that job too. */
  lemma FailureMarksVideoAndJob(t: Tables, faulty: set<Write>, v: PendingVideo, f: Fresh, tools: Tools, job: Option<string>)
    requires v.id in t.videos && DistinctJobIds(t.jobs)
    requires var a := AttemptRow(t, faulty, v, f, tools, job); a.result.Err? && a.job == Some(f.jobId) && job != Some(f.jobId)
    requires SetVideoStatusW(v.id, Failed) !in faulty && SetJobStatusW(f.jobId, JobFailed) !in faulty
    ensures var w := WorkerStep(Worker(t, job, false), faulty, v, f, tools);
      && !w.stopped && v.id in w.t.videos && w.t.videos[v.id].status == Failed
      && v.id in w.t.jobs && w.t.jobs[v.id].status == JobFailed
  {
    AttemptRowSpec(t, faulty, v, f, tools, job);
    var a := AttemptRow(t, faulty, v, f, tools, job);
    assert JobIdUsed(a.t.jobs, f.jobId);
  }

  /** As written, a turn whose job cannot be created still sees the
      previous turn's `job` (a local of the whole function), so the handler
      marks the previous video's job FAILED, even after that video was
      completed. */
  lemma StaleJobMarkedFailed(t: Tables, faulty: set<Write>, v: PendingVideo, f: Fresh, tools: Tools, u: string)
    requires v.id in t.videos && v.id !in t.jobs && u in t.jobs && u != v.id
    requires CreateJobW(v.id) in faulty
    requires SetVideoStatusW(v.id, Failed) !in faulty && SetJobStatusW(t.jobs[u].id, JobFailed) !in faulty
    ensures var w := WorkerStep(Worker(t, Some(t.jobs[u].id), false), faulty, v, f, tools);
      && !w.stopped && w.t.jobs[u].status == JobFailed && w.t.videos[v.id].status == Failed
  {
    assert JobIdUsed(t.jobs, t.jobs[u].id);
  }

  /** One turn with the `job` variable cleared at its start, as the handler
      evidently intends. */
  function WorkerStepFixed(w: Worker, faulty: set<Write>, v: PendingVideo, f: Fresh, tools: Tools): Worker {
    WorkerStep(w.(job := None), faulty, v, f, tools)
  }

  function WorkerFromFixed(t: Tables, faulty: set<Write>, rows: seq<PendingVideo>, draws: string -> Fresh, tools: Tools): Worker
  {
    if |rows| == 0 then Worker(t, None, false)
    else
      var w := WorkerFromFixed(t, faulty, rows[..|rows| - 1], draws, tools);
      var v := rows[|rows| - 1];
      if w.stopped then w else WorkerStepFixed(w, faulty, v, draws(v.id), tools)
  }

  /** With the fix a turn touches no other video's job: the jobs of other
      videos are exactly as before, and job ids stay unique. */
  lemma FixedTurnKeepsOtherJobs(w: Worker, faulty: set<Write>, v: PendingVideo, f: Fresh, tools: Tools)
    requires v.id in w.t.videos && DistinctJobIds(w.t.jobs)
    ensures var w1 := WorkerStepFixed(w, faulty, v, f, tools);
      && DistinctJobIds(w1.t.jobs) && w1.t.videos.Keys == w.t.videos.Keys
      && (forall u :: u != v.id && u in w.t.jobs ==> u in w1.t.jobs && w1.t.jobs[u] == w.t.jobs[u])
      && (forall u :: u != v.id && u in w1.t.jobs ==> u in w.t.jobs)
      && (forall u :: u != v.id && u in w.t.videos ==> w1.t.videos[u] == w.t.videos[u])
  {
    AttemptRowSpec(w.t, faulty, v, f, tools, None);
    var a := AttemptRow(w.t, faulty, v, f, tools, None);
    if a.result.Err? {
      HandlerSpec(a.t, faulty, v.id, a.job);
      if a.job.Some? {
        HandlerOwnJob(a.t, faulty, v.id, f.jobId);
      } else {
        assert Handler(a.t, faulty, v.id, None).0.jobs == a.t.jobs;
      }
    }
  }

  /** The handler changes no other video, keeps job ids unique, and when
      it does not end the batch the video is FAILED. */
  lemma HandlerSpec(t: Tables, faulty: set<Write>, videoId: string, job: Option<string>)
    requires DistinctJobIds(t.jobs) && videoId in t.videos
    ensures var (t1, stopped) := Handler(t, faulty, videoId, job);
      && DistinctJobIds(t1.jobs) && t1.videos.Keys == t.videos.Keys
      && (forall u :: u != videoId && u in t.videos ==> t1.videos[u] == t.videos[u])
      && (!stopped ==> t1.videos[videoId].status == Failed)
      && (stopped <==> SetVideoStatusW(videoId, Failed) in faulty
                       || (job.Some? && JobIdUsed(t.jobs, job.value) && SetJobStatusW(job.value, JobFailed) in faulty)
                       || (job.Some? && !JobIdUsed(t.jobs, job.value)))
  {
  }

  /** A turn as written changes no other video, keeps job ids unique, and
      leaves its video COMPLETED or FAILED unless the batch ends. */
  lemma WorkerStepSpec(w: Worker, faulty: set<Write>, v: PendingVideo, f: Fresh, tools: Tools)
    requires v.id in w.t.videos && DistinctJobIds(w.t.jobs)
    ensures var w1 := WorkerStep(w, faulty, v, f, tools);
      && DistinctJobIds(w1.t.jobs) && w1.t.videos.Keys == w.t.videos.Keys
      && (forall u :: u != v.id && u in w.t.videos ==> w1.t.videos[u] == w.t.videos[u])
      && (!w1.stopped ==> w1.t.videos[v.id].status in {Completed, Failed})
  {
    AttemptRowSpec(w.t, faulty, v, f, tools, w.job);
    var a := AttemptRow(w.t, faulty, v, f, tools, w.job);
    HandlerSpec(a.t, faulty, v.id, a.job);
  }

  /** The handler, given the video's own job, changes that job only. */
  lemma HandlerOwnJob(t: Tables, faulty: set<Write>, videoId: string, jobId: string)
    requires DistinctJobIds(t.jobs) && videoId in t.jobs && t.jobs[videoId].id == jobId
    ensures var (t1, _) := Handler(t, faulty, videoId, Some(jobId));
      && DistinctJobIds(t1.jobs) && t1.jobs.Keys == t.jobs.Keys
      && (forall u :: u != videoId && u in t.jobs ==> t1.jobs[u] == t.jobs[u])
      && t1.videos.Keys == t.videos.Keys && (forall u :: u != videoId && u in t.videos ==> t1.videos[u] == t.videos[u])
  {
  }

  /** Over any listing, the fixed worker never changes a job of a video it
      does not list, and job ids stay unique. */
  lemma {:induction false} FixedWorkerKeepsUnlistedJobs(t: Tables, faulty: set<Write>, rows: seq<PendingVideo>,
                                                         draws: string -> Fresh, tools: Tools)
    requires DistinctJobIds(t.jobs)
    requires forall i :: 0 <= i < |rows| ==> rows[i].id in t.videos
    ensures var w := WorkerFromFixed(t, faulty, rows, draws, tools);
      && DistinctJobIds(w.t.jobs) && w.t.videos.Keys == t.videos.Keys
      && (forall u :: u in t.jobs && (forall i :: 0 <= i < |rows| ==> rows[i].id != u) ==> u in w.t.jobs && w.t.jobs[u] == t.jobs[u])
  {
    if |rows| > 0 {
      var init := rows[..|rows| - 1];
      var v := rows[|rows| - 1];
      FixedWorkerKeepsUnlistedJobs(t, faulty, init, draws, tools);
      var w0 := WorkerFromFixed(t, faulty, init, draws, tools);
      if !w0.stopped {
        FixedTurnKeepsOtherJobs(w0, faulty, v, draws(v.id), tools);
        forall u | u in t.jobs && (forall i :: 0 <= i < |rows| ==> rows[i].id != u)
          ensures u in WorkerFromFixed(t, faulty, rows, draws, tools).t.jobs
          ensures WorkerFromFixed(t, faulty, rows, draws, tools).t.jobs[u] == t.jobs[u]
        {
          assert forall i :: 0 <= i < |init| ==> init[i].id != u by {
            forall i | 0 <= i < |init| ensures init[i].id != u { assert init[i] == rows[i]; }
          }
          assert rows[|rows| - 1].id != u;
        }
      }
    }
  }

  /** Whatever happens, every listed video the batch reaches ends
      COMPLETED or FAILED when the batch runs to its end, and videos it does
      not list keep their row. */
  lemma {:induction false} WorkerSettlesRows(t: Tables, faulty: set<Write>, rows: seq<PendingVideo>,
                                             draws: string -> Fresh, tools: Tools)
    requires forall i :: 0 <= i < |rows| ==> rows[i].id in t.videos
    requires forall i, j :: 0 <= i < j < |rows| ==> rows[i].id != rows[j].id
    requires DistinctJobIds(t.jobs)
    ensures var w := WorkerFrom(t, faulty, rows, draws, tools);
      && w.t.videos.Keys == t.videos.Keys && DistinctJobIds(w.t.jobs)
      && (!w.stopped ==> forall i :: 0 <= i < |rows| ==> w.t.videos[rows[i].id].status in {Completed, Failed})
      && (forall u :: u in t.videos && (forall i :: 0 <= i < |rows| ==> rows[i].id != u) ==> w.t.videos[u] == t.videos[u])
  {
    if |rows| > 0 {
      var init := rows[..|rows| - 1];
      var v := rows[|rows| - 1];
      WorkerSettlesRows(t, faulty, init, draws, tools);
      var w0 := WorkerFrom(t, faulty, init, draws, tools);
      if !w0.stopped {
        WorkerStepSpec(w0, faulty, v, draws(v.id), tools);
        SettleStep(t, rows, w0, WorkerStep(w0, faulty, v, draws(v.id), tools));
      }
    }
  }

  /** The step of `WorkerSettlesRows`: what the turn on the last row keeps,
      extended from the rows before it to all of them. */
  lemma SettleStep(t: Tables, rows: seq<PendingVideo>, w0: Worker, w: Worker)
    requires |rows| > 0
    requires forall i :: 0 <= i < |rows| ==> rows[i].id in t.videos
    requires forall i, j :: 0 <= i < j < |rows| ==> rows[i].id != rows[j].id
    requires var init := rows[..|rows| - 1];
      && w0.t.videos.Keys == t.videos.Keys && !w0.stopped
      && (forall i :: 0 <= i < |init| ==> w0.t.videos[init[i].id].status in {Completed, Failed})
      && (forall u :: u in t.videos && (forall i :: 0 <= i < |init| ==> init[i].id != u) ==> w0.t.videos[u] == t.videos[u])
    requires var v := rows[|rows| - 1];
      && w.t.videos.Keys == w0.t.videos.Keys
      && (forall u :: u != v.id && u in w0.t.videos ==> w.t.videos[u] == w0.t.videos[u])
      && (!w.stopped ==> w.t.videos[v.id].status in {Completed, Failed})
    ensures !w.stopped ==> forall i :: 0 <= i < |rows| ==> w.t.videos[rows[i].id].status in {Completed, Failed}
    ensures forall u :: u in t.videos && (forall i :: 0 <= i < |rows| ==> rows[i].id != u) ==> w.t.videos[u] == t.videos[u]
  {
    var init := rows[..|rows| - 1];
    forall i | 0 <= i < |rows|
      ensures !w.stopped ==> w.t.videos[rows[i].id].status in {Completed, Failed}
    {
      if i < |rows| - 1 {
        assert rows[i] == init[i];
        assert rows[i].id != rows[|rows| - 1].id;
      }
    }
    forall u | u in t.videos && (forall i :: 0 <= i < |rows| ==> rows[i].id != u)
      ensures w.t.videos[u] == t.videos[u]
    {
      assert forall i :: 0 <= i < |init| ==> init[i].id != u by {
        forall i | 0 <= i < |init| ensures init[i].id != u { assert init[i] == rows[i]; }
      }
      assert rows[|rows| - 1].id != u;
    }
  }
}
