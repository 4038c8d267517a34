/** The video routes (backend/app/routes/videos.py) that write or read the
    pipeline's rows: submitting a YouTube URL, uploading a file, and
    reading a video's transcript back. */
module Videos {
  import opened Wrappers
  import opened Strs
  import opened Models
  import opened Db
  import W = Worker
  import P = Processing

  /** The workflow start the submit route asks Temporal for. */
  datatype Launch = Launch(workflowId: string, videoId: string, url: string, jobId: string, taskQueue: string)

  /** The Temporal client: not set (the route logs the workflow id and goes
      on), or set, with what `start_workflow` did. */
  datatype Temporal = NoClient | Client(start: Result<()>)

  /** What the routes answer.  `Invalid` is the validation error the web
      framework raises for a body that fails `VideoSubmit`. */
  datatype Reply =
    | Submitted(videoId: string, jobId: string, workflowId: string, launched: Option<Launch>)
    | Uploaded(videoId: string, jobId: string, filename: string)
    | TranscriptBody(content: Json, segments: Json)
    | Invalid
    | Raise(code: nat, detail: string)

  const TaskQueue := "video-processing"
  const SubmitFailedPrefix := "Failed to submit video: "
  const UploadFailedPrefix := "Failed to upload video: "
  const TranscriptFailedPrefix := "Failed to get transcript: "
  const InvalidTypePrefix := "Invalid file type. Allowed: "

  /** The `temporalWorkflowId` of a submitted or uploaded video's job. */
  function WorkflowIdOf(videoId: string, jobId: string): string {
    "process-video-" + videoId + "-" + jobId
  }

  // ---------------------------------------------------------------------
  // Admission and the two records

  /** The workspace checks of submit and upload; `None` lets the request on. */
  function OwnWorkspace(t: Tables, user: string, workspaceId: string): (r: Option<Reply>)
    ensures r == Some(Raise(404, "Workspace not found")) <==> workspaceId !in t.workspaces
    ensures r == Some(Raise(403, "Access denied to this workspace")) <==>
      workspaceId in t.workspaces && t.workspaces[workspaceId] != user
    ensures r.None? <==> workspaceId in t.workspaces && t.workspaces[workspaceId] == user
  {
    if workspaceId !in t.workspaces then Some(Raise(404, "Workspace not found"))
    else if t.workspaces[workspaceId] != user then Some(Raise(403, "Access denied to this workspace"))
    else None
  }

  /** The VideoSource row, then its STARTED ProcessingJob. */
  function CreateRecords(t: Tables, faulty: set<Write>, videoId: string, video: Video, jobId: string): Step<()>
  {
    var videoOp := CreateVideoOp(videoId, video);
    if !Succeeds(t, faulty, videoOp) then Threw(t, WriteError)
    else
      var t1 := Effect(t, videoOp);
      var jobOp := CreateJobOp(videoId, Job(jobId, WorkflowIdOf(videoId, jobId), Started));
      if !Succeeds(t1, faulty, jobOp) then Threw(t1, WriteError) else Next(Effect(t1, jobOp), ())
  }

  /** The two writes go through exactly when neither is faulty, the video id
      is new, no job hangs off it and the job id is unused; then the tables
      gain the video and its job and nothing else.  A failed job write
      leaves the video behind. */
  lemma CreateRecordsSpec(t: Tables, faulty: set<Write>, videoId: string, video: Video, jobId: string)
    ensures var s := CreateRecords(t, faulty, videoId, video, jobId);
      && (s.Next? <==> CreateVideoW(videoId) !in faulty && CreateJobW(videoId) !in faulty
                       && videoId !in t.videos && videoId !in t.jobs && !JobIdUsed(t.jobs, jobId))
      && (s.Next? ==> s.t == t.(videos := t.videos[videoId := video],
                                jobs := t.jobs[videoId := Job(jobId, WorkflowIdOf(videoId, jobId), Started)]))
      && (s.Threw? ==> s.error == WriteError
                       && (s.t == t || s.t == t.(videos := t.videos[videoId := video])))
  {
  }

  method CreateRecordsM(db: Store, videoId: string, video: Video, jobId: string) returns (r: Result<()>)
    modifies db
    ensures StepOf(db.t, r) == CreateRecords(old(db.t), db.faulty, videoId, video, jobId)
  {
    var ok := db.Run(CreateVideoOp(videoId, video));
    if !ok {
      return Err(WriteError);
    }
    ok := db.Run(CreateJobOp(videoId, Job(jobId, WorkflowIdOf(videoId, jobId), Started)));
    r := if ok then Ok(()) else Err(WriteError);
  }

  // ---------------------------------------------------------------------
  // submit_video_for_processing

  /** `submit_video_for_processing`: `videoId` is the id the store gives the
      new row, `jobId` the drawn UUID, `temporal` the client. */
  function Submit(t: Tables, faulty: set<Write>, user: string, workspaceId: string, url: string,
                  videoId: string, jobId: string, temporal: Temporal): (Tables, Reply)
  {
    if !ValidSubmitUrl(url) then (t, Invalid)
    else match OwnWorkspace(t, user, workspaceId)
      case Some(denied) => (t, denied)
      case None =>
        match CreateRecords(t, faulty, videoId, Video(workspaceId, "", url, Pending), jobId)
        case Threw(t1, e) => (t1, Raise(500, SubmitFailedPrefix + e))
        case Next(t1, _) =>
          var wf := WorkflowIdOf(videoId, jobId);
          match temporal
          case NoClient => (t1, Submitted(videoId, jobId, wf, None))
          case Client(Err(e)) => (t1, Raise(500, SubmitFailedPrefix + e))
          case Client(Ok(_)) => (t1, Submitted(videoId, jobId, wf, Some(Launch(wf, videoId, url, jobId, TaskQueue))))
  }

  method SubmitVideo(db: Store, user: string, workspaceId: string, url: string,
                     videoId: string, jobId: string, temporal: Temporal) returns (reply: Reply)
    modifies db
    ensures (db.t, reply) == Submit(old(db.t), db.faulty, user, workspaceId, url, videoId, jobId, temporal)
  {
    if !ValidSubmitUrl(url) {
      return Invalid;
    }
    var denied := OwnWorkspace(db.t, user, workspaceId);
    if denied.Some? {
      return denied.value;
    }
    var created := CreateRecordsM(db, videoId, Video(workspaceId, "", url, Pending), jobId);
    if created.Err? {
      return Raise(500, SubmitFailedPrefix + created.message);
    }
    var wf := WorkflowIdOf(videoId, jobId);
    if temporal.NoClient? {
      reply := Submitted(videoId, jobId, wf, None);
    } else if temporal.start.Err? {
      reply := Raise(500, SubmitFailedPrefix + temporal.start.message);
    } else {
      reply := Submitted(videoId, jobId, wf, Some(Launch(wf, videoId, url, jobId, TaskQueue)));
    }
  }

  /** An invalid URL, a missing workspace and another user's workspace are
      refused with 422, 404 and 403, and none of them writes anything. */
  lemma SubmitDenials(t: Tables, faulty: set<Write>, user: string, workspaceId: string, url: string,
                      videoId: string, jobId: string, temporal: Temporal)
    ensures var (t1, r) := Submit(t, faulty, user, workspaceId, url, videoId, jobId, temporal);
      && (r == Invalid <==> !ValidSubmitUrl(url))
      && (r == Raise(404, "Workspace not found") <==> ValidSubmitUrl(url) && workspaceId !in t.workspaces)
      && (r == Raise(403, "Access denied to this workspace") <==>
            ValidSubmitUrl(url) && workspaceId in t.workspaces && t.workspaces[workspaceId] != user)
      && (r.Invalid? || (r.Raise? && r.code != 500) ==> t1 == t)
  {
    if ValidSubmitUrl(url) && OwnWorkspace(t, user, workspaceId).None? {
      CreateRecordsSpec(t, faulty, videoId, Video(workspaceId, "", url, Pending), jobId);
    }
  }

  /** An accepted submission adds exactly one PENDING video with the URL and
      one STARTED job whose workflow id is `process-video-{video}-{job}`;
      the reply carries that id, and a started workflow the same id, the
      video's URL and the job id on the `video-processing` queue. */
  lemma SubmitCreates(t: Tables, faulty: set<Write>, user: string, workspaceId: string, url: string,
                      videoId: string, jobId: string, temporal: Temporal)
    ensures var (t1, r) := Submit(t, faulty, user, workspaceId, url, videoId, jobId, temporal);
      r.Submitted? ==>
        && t1 == t.(videos := t.videos[videoId := Video(workspaceId, "", url, Pending)],
                    jobs := t.jobs[videoId := Job(jobId, "process-video-" + videoId + "-" + jobId, Started)])
        && r.videoId == videoId && r.jobId == jobId && r.workflowId == t1.jobs[videoId].workflowId
        && (r.launched.Some? <==> temporal.Client?)
        && (r.launched.Some? ==> r.launched.value == Launch(r.workflowId, videoId, url, jobId, "video-processing"))
  {
    CreateRecordsSpec(t, faulty, videoId, Video(workspaceId, "", url, Pending), jobId);
  }

  /** A workflow that fails to start answers 500 but keeps both rows: the
      route does not roll the submission back. */
  lemma SubmitKeepsRowsWhenLaunchFails(t: Tables, faulty: set<Write>, user: string, workspaceId: string, url: string,
                                       videoId: string, jobId: string, e: string)
    requires ValidSubmitUrl(url) && workspaceId in t.workspaces && t.workspaces[workspaceId] == user
    requires CreateVideoW(videoId) !in faulty && CreateJobW(videoId) !in faulty
    requires videoId !in t.videos && videoId !in t.jobs && !JobIdUsed(t.jobs, jobId)
    ensures var (t1, r) := Submit(t, faulty, user, workspaceId, url, videoId, jobId, Client(Err(e)));
      && r == Raise(500, SubmitFailedPrefix + e)
      && videoId in t1.videos && t1.videos[videoId].status == Pending
      && videoId in t1.jobs && t1.jobs[videoId].status == Started
  {
    CreateRecordsSpec(t, faulty, videoId, Video(workspaceId, "", url, Pending), jobId);
  }

  // ---------------------------------------------------------------------
  // Paths and extensions

  /** `s.rfind([c])`. */
  function LastIndex(s: string, c: char): (r: Option<nat>)
    ensures r.Some? ==> r.value < |s| && s[r.value] == c && forall j :: r.value < j < |s| ==> s[j] != c
    ensures r.None? ==> forall j :: 0 <= j < |s| ==> s[j] != c
  {
    if |s| == 0 then None
    else if s[|s| - 1] == c then Some(|s| - 1)
    else LastIndex(s[..|s| - 1], c)
  }

  /** `os.path.splitext` (POSIX): the extension runs from the last `.` of the
      last path component, unless everything before it in that component
      is dots. */
  function SplitExt(p: string): (string, string)
  {
    var base := BaseStart(p);
    match LastIndex(p, '.')
    case Some(d) =>
      if d >= base && HasNonDot(p, base, d) then (p[..d], p[d..]) else (p, "")
    case None => (p, "")
  }

  /** Where the last path component starts. */
  function BaseStart(p: string): nat {
    match LastIndex(p, '/') case Some(i) => i + 1 case None => 0
  }

  /** Some character of `p[lo..hi]` is not a dot. */
  predicate HasNonDot(p: string, lo: nat, hi: nat) {
    exists k :: lo <= k < hi && k < |p| && p[k] != '.'
  }

  /** The two parts make up the path; an extension is empty or a dot
      followed by neither a dot nor a slash, and never the whole last
      component. */
  lemma SplitExtSpec(p: string)
    ensures var (root, ext) := SplitExt(p);
      && root + ext == p
      && (ext == "" || (ext[0] == '.' && forall j :: 1 <= j < |ext| ==> ext[j] != '.' && ext[j] != '/'))
      && (ext != "" ==> |root| > 0 && root[|root| - 1] != '/')
  {
    var (root, ext) := SplitExt(p);
    match LastIndex(p, '.')
    case None =>
    case Some(d) =>
      if ext != "" {
        var base := BaseStart(p);
        assert root == p[..d] && ext == p[d..];
        forall j | 1 <= j < |ext| ensures ext[j] != '.' && ext[j] != '/' {
          assert ext[j] == p[d + j];
        }
        var k :| base <= k < d && k < |p| && p[k] != '.';
        assert p[d - 1] != '/';
      }
  }

  const AllowedExtensions: set<string> := {".mp4", ".avi", ".mov", ".mkv", ".webm", ".flv", ".wmv", ".m4v"}

  /** The lower-cased extension the upload route checks and keeps. */
  function UploadExt(filename: string): string {
    Lower(SplitExt(filename).1)
  }

  lemma {:induction false} LastIndexLower(s: string, c: char)
    requires c == '.' || c == '/'
    ensures LastIndex(Lower(s), c) == LastIndex(s, c)
    decreases |s|
  {
    if |s| > 0 {
      var q := Lower(s);
      assert q[|s| - 1] == c <==> s[|s| - 1] == c by {
        assert q[|s| - 1] == LowerChar(s[|s| - 1]);
      }
      assert q[..|s| - 1] == Lower(s[..|s| - 1]);
      LastIndexLower(s[..|s| - 1], c);
    }
  }

  /** Lower-casing commutes with taking the extension. */
  lemma SplitExtLower(p: string)
    ensures SplitExt(Lower(p)).1 == Lower(SplitExt(p).1)
  {
    LastIndexLower(p, '.');
    LastIndexLower(p, '/');
    var q := Lower(p);
    assert BaseStart(q) == BaseStart(p);
    if LastIndex(p, '.').Some? {
      var d := LastIndex(p, '.').value;
      HasNonDotLower(p, BaseStart(p), d);
      assert q[d..] == Lower(p[d..]);
    }
  }

  lemma HasNonDotLower(p: string, lo: nat, hi: nat)
    ensures HasNonDot(Lower(p), lo, hi) == HasNonDot(p, lo, hi)
  {
    var q := Lower(p);
    forall k | lo <= k < hi && k < |p| ensures q[k] != '.' <==> p[k] != '.' {
      assert q[k] == LowerChar(p[k]);
    }
  }

  /** The check ignores case: two file names that agree once lower-cased
      are both accepted or both refused, with the same stored extension. */
  lemma ExtensionCaseInsensitive(a: string, b: string)
    requires Lower(a) == Lower(b)
    ensures UploadExt(a) == UploadExt(b)
  {
    SplitExtLower(a);
    SplitExtLower(b);
  }

  /** An upper-case extension is accepted, lower-cased. */
  lemma UpperCaseExtensionAccepted()
    ensures UploadExt("clip.MP4") == ".mp4" && ".mp4" in AllowedExtensions
  {
    var a := "clip.MP4";
    assert a[4] == '.' && a[4..] == ".MP4" && a[0] != '.';
    assert LastIndex(a, '/') == None && LastIndex(a, '.') == Some(4);
  }

  /** Only the last dot starts the extension. */
  lemma LastDotStartsExtension()
    ensures UploadExt("talk.final.webm") == ".webm"
  {
    var b := "talk.final.webm";
    assert b[10] == '.' && b[10..] == ".webm" && b[0] != '.';
    assert LastIndex(b, '/') == None && LastIndex(b, '.') == Some(10);
  }

  /** A name that is only a dotted extension, and a dot in a directory
      name, give no extension, so such uploads are refused. */
  lemma NoExtensionRefused()
    ensures UploadExt(".mp4") == "" && UploadExt("dir.mp4/movie") == "" && "" !in AllowedExtensions
  {
    var c, d := ".mp4", "dir.mp4/movie";
    assert c[0] == '.';
    assert LastIndex(c, '/') == None && LastIndex(c, '.') == Some(0);
    assert d[7] == '/' && d[3] == '.';
    assert LastIndex(d, '/') == Some(7) && LastIndex(d, '.') == Some(3);
  }

  /** `os.path.join(a, b)` (POSIX). */
  function PathJoin(a: string, b: string): string {
    if StartsWith(b, "/") then b
    else if a == "" || EndsWith(a, "/") then a + b
    else a + "/" + b
  }

  /** Where the upload is saved: `<cwd>/uploads/videos/<fileId><ext>`. */
  function UploadPath(cwd: string, fileId: string, ext: string): string {
    PathJoin(PathJoin(PathJoin(cwd, "uploads"), "videos"), fileId + ext)
  }

  // ---------------------------------------------------------------------
  // upload_video_file

  /** `upload_video_file`: `cwd` is the working directory, `fileId` the
      drawn UUID for the file name, `videoId` the id the store gives the
      row, `jobId` the job's UUID, `listing` the allowed extensions as the
      set's iteration order lists them. */
  function Upload(t: Tables, faulty: set<Write>, user: string, workspaceId: string, filename: string,
                  cwd: string, fileId: string, videoId: string, jobId: string, listing: string): (Tables, Reply)
  {
    match OwnWorkspace(t, user, workspaceId)
    case Some(denied) => (t, denied)
    case None =>
      var ext := UploadExt(filename);
      if ext !in AllowedExtensions then (t, Raise(400, InvalidTypePrefix + listing))
      else
        var path := UploadPath(cwd, fileId, ext);
        var t1 := t.(files := t.files + {path});
        match CreateRecords(t1, faulty, videoId, Video(workspaceId, filename, W.FileScheme + path, Pending), jobId)
        case Threw(t2, e) => (t2, Raise(500, UploadFailedPrefix + e))
        case Next(t2, _) => (t2, Uploaded(videoId, jobId, filename))
  }

  method UploadVideoFile(db: Store, user: string, workspaceId: string, filename: string,
                         cwd: string, fileId: string, videoId: string, jobId: string, listing: string)
    returns (reply: Reply)
    modifies db
    ensures (db.t, reply) == Upload(old(db.t), db.faulty, user, workspaceId, filename, cwd, fileId, videoId, jobId, listing)
  {
    var denied := OwnWorkspace(db.t, user, workspaceId);
    if denied.Some? {
      return denied.value;
    }
    var ext := UploadExt(filename);
    if ext !in AllowedExtensions {
      return Raise(400, InvalidTypePrefix + listing);
    }
    var path := UploadPath(cwd, fileId, ext);
    db.CreateFile(path);
    var created := CreateRecordsM(db, videoId, Video(workspaceId, filename, W.FileScheme + path, Pending), jobId);
    if created.Err? {
      return Raise(500, UploadFailedPrefix + created.message);
    }
    reply := Uploaded(videoId, jobId, filename);
  }

  /** After the workspace checks, a file whose lower-cased extension is not
      one of the eight is refused with 400 and nothing is written, and a
      file with one of them is never refused with 400. */
  lemma UploadExtensionCheck(t: Tables, faulty: set<Write>, user: string, workspaceId: string, filename: string,
                             cwd: string, fileId: string, videoId: string, jobId: string, listing: string)
    requires workspaceId in t.workspaces && t.workspaces[workspaceId] == user
    ensures var (t1, r) := Upload(t, faulty, user, workspaceId, filename, cwd, fileId, videoId, jobId, listing);
      && (r.Raise? && r.code == 400 <==> Lower(SplitExt(filename).1) !in AllowedExtensions)
      && (r.Raise? && r.code == 400 ==> t1 == t && r.detail == InvalidTypePrefix + listing)
  {
  }

  /** An accepted upload saves the file and adds one PENDING video titled
      with the file name whose URL is `file://` and the saved path, and its
      STARTED job; the saved name keeps the lower-cased extension. */
  lemma UploadCreates(t: Tables, faulty: set<Write>, user: string, workspaceId: string, filename: string,
                      cwd: string, fileId: string, videoId: string, jobId: string, listing: string)
    ensures var (t1, r) := Upload(t, faulty, user, workspaceId, filename, cwd, fileId, videoId, jobId, listing);
      var path := UploadPath(cwd, fileId, UploadExt(filename));
      && (r.Uploaded? ==>
            && UploadExt(filename) in AllowedExtensions
            && EndsWith(path, fileId + UploadExt(filename))
            && t1 == t.(files := t.files + {path},
                        videos := t.videos[videoId := Video(workspaceId, filename, "file://" + path, Pending)],
                        jobs := t.jobs[videoId := Job(jobId, WorkflowIdOf(videoId, jobId), Started)]))
      && (r.Raise? && r.code == 500 ==> path in t1.files)
  {
    var path := UploadPath(cwd, fileId, UploadExt(filename));
    var t1 := t.(files := t.files + {path});
    CreateRecordsSpec(t1, faulty, videoId, Video(workspaceId, filename, W.FileScheme + path, Pending), jobId);
    var inner := PathJoin(PathJoin(cwd, "uploads"), "videos");
    var name := fileId + UploadExt(filename);
    if !StartsWith(name, "/") {
      if inner == "" || EndsWith(inner, "/") {
        assert PathJoin(inner, name)[|inner|..] == name;
      } else {
        assert PathJoin(inner, name)[|inner| + 1..] == name;
      }
    }
  }

  /** What the worker reads from an uploaded video's URL is the saved path,
      and the URL takes its `file://` branch. */
  lemma UploadedUrlIsLocal(path: string)
    requires !Contains(path, W.FileScheme)
    ensures StartsWith(W.FileScheme + path, W.FileScheme)
    ensures W.LocalPath(W.FileScheme + path) == path
  {
    var url := W.FileScheme + path;
    var sep := W.FileScheme;
    assert OccursAt(url, sep, 0) by { assert url[..|sep|] == sep; }
    assert IndexOf(url, sep, 0) == Some(0);
    assert url[|sep|..] == path;
    assert IndexOf(path, sep, 0) == None;
    assert Split(path, sep) == [path];
    assert Split(url, sep) == [""] + [path];
    assert Join(["", path], "") == "" + "" + Join([path], "");
  }

  // ---------------------------------------------------------------------
  // get_video_transcript

  /** What the route holds once it has read `fullTranscript`: a dumped
      document is loaded back, a stored string goes through `loads` (the
      client's `json.loads`), and text that is not JSON is wrapped as
      `full_text`. */
  function Decoded(st: StoredTranscript, loads: string -> Option<Json>): Json {
    match st
    case Dumped(doc) => doc
    case Native(doc) =>
      if doc.JStr? then
        match loads(doc.s)
        case Some(d) => d
        case None => JObj([("full_text", doc)])
      else doc
    case Raw(text) => JObj([("full_text", JStr(text))])
  }

  /** `d.get(key, default)`. */
  function GetOr(fields: seq<(string, Json)>, key: string, default: Json): (r: Json)
    ensures Get(fields, key).None? ==> r == default
    ensures Get(fields, key).Some? ==> r == Get(fields, key).value
  {
    match Get(fields, key)
    case Some(j) => j
    case None => default
  }

  /** `get_video_transcript`.  `noGet(doc)` is the text of the
      AttributeError that `.get` raises on a loaded value `doc` that is not an
      object; Python's message names the value's type (list, number, string,
      ...), so it is a function of the value. */
  function GetTranscript(t: Tables, user: string, videoId: string, loads: string -> Option<Json>, noGet: Json -> string): Reply
  {
    if videoId !in t.videos then Raise(404, "Video not found")
    else
      var ws := t.videos[videoId].workspaceId;
      if ws !in t.workspaces then Raise(500, TranscriptFailedPrefix + P.NoWorkspaceError)
      else if t.workspaces[ws] != user then Raise(403, "Access denied")
      else if videoId !in t.jobs || t.jobs[videoId].id !in t.transcripts then Raise(404, "Transcript not found")
      else
        var doc := Decoded(t.transcripts[t.jobs[videoId].id], loads);
        if !doc.JObj? then Raise(500, TranscriptFailedPrefix + noGet(doc))
        else TranscriptBody(GetOr(doc.fields, "full_text", JStr("")), GetOr(doc.fields, "segments", JArr([])))
  }

  /** The route's answers: 404 for a missing video, 403 for another user's
      video, 404 for a video without job or transcript, and otherwise the
      loaded document's `full_text` and `segments`, defaulting to `""` and
      `[]`. */
  lemma TranscriptAnswers(t: Tables, user: string, videoId: string, loads: string -> Option<Json>, noGet: Json -> string)
    ensures var r := GetTranscript(t, user, videoId, loads, noGet);
      && (r == Raise(404, "Video not found") <==> videoId !in t.videos)
      && (r == Raise(403, "Access denied") <==>
            videoId in t.videos && t.videos[videoId].workspaceId in t.workspaces
            && t.workspaces[t.videos[videoId].workspaceId] != user)
      && (r == Raise(404, "Transcript not found") <==>
            videoId in t.videos && t.videos[videoId].workspaceId in t.workspaces
            && t.workspaces[t.videos[videoId].workspaceId] == user
            && (videoId !in t.jobs || t.jobs[videoId].id !in t.transcripts))
      && (r.TranscriptBody? ==>
            var doc := Decoded(t.transcripts[t.jobs[videoId].id], loads);
            && doc.JObj?
            && (Get(doc.fields, "full_text").None? ==> r.content == JStr(""))
            && (Get(doc.fields, "segments").None? ==> r.segments == JArr([]))
            && (Get(doc.fields, "full_text").Some? ==> r.content == Get(doc.fields, "full_text").value))
  {
  }

  /** A transcript that is not JSON comes back as the whole content, with
      no segments. */
  lemma RawTranscriptWrapped(t: Tables, user: string, videoId: string, loads: string -> Option<Json>, noGet: Json -> string)
    requires videoId in t.videos && t.videos[videoId].workspaceId in t.workspaces
    requires t.workspaces[t.videos[videoId].workspaceId] == user
    requires videoId in t.jobs && t.jobs[videoId].id in t.transcripts
    requires t.transcripts[t.jobs[videoId].id].Raw?
    ensures GetTranscript(t, user, videoId, loads, noGet)
      == TranscriptBody(JStr(t.transcripts[t.jobs[videoId].id].text), JArr([]))
  {
  }

  /** A transcript the processing routes stored reads back with its full
      text. */
  lemma ProcessingTranscriptReadsBack(t: Tables, user: string, videoId: string, tr: P.T.Transcript,
                                      loads: string -> Option<Json>, noGet: Json -> string)
    requires videoId in t.videos && t.videos[videoId].workspaceId in t.workspaces
    requires t.workspaces[t.videos[videoId].workspaceId] == user
    requires videoId in t.jobs && t.jobs[videoId].id in t.transcripts
    requires t.transcripts[t.jobs[videoId].id] == Dumped(P.TranscriptJson(tr))
    ensures GetTranscript(t, user, videoId, loads, noGet).TranscriptBody?
    ensures GetTranscript(t, user, videoId, loads, noGet).content == JStr(tr.fullText)
  {
  }

  // ---------------------------------------------------------------------
  // The transcript key the worker writes

  /** As written, a transcript the worker stored (keys `text` and
      `segments`) reads back with empty content, whatever its text: the
      route looks for `full_text` only. */
  lemma WorkerTranscriptContentLost(t: Tables, user: string, videoId: string, w: W.Whisper,
                                    loads: string -> Option<Json>, noGet: Json -> string)
    requires videoId in t.videos && t.videos[videoId].workspaceId in t.workspaces
    requires t.workspaces[t.videos[videoId].workspaceId] == user
    requires videoId in t.jobs && t.jobs[videoId].id in t.transcripts
    requires t.transcripts[t.jobs[videoId].id] == Dumped(W.WhisperJson(w))
    ensures GetTranscript(t, user, videoId, loads, noGet).TranscriptBody?
    ensures GetTranscript(t, user, videoId, loads, noGet).content == JStr("")
  {
    var fields := W.WhisperJson(w).fields;
    assert fields[1..][1..] == [];
    assert Get(fields, "full_text") == None;
  }

  /** The content read with `text` as the fallback key of `full_text`. */
  function ContentOf(fields: seq<(string, Json)>): (r: Json)
    ensures Get(fields, "full_text").Some? ==> r == Get(fields, "full_text").value
    ensures Get(fields, "full_text").None? && Get(fields, "text").Some? ==> r == Get(fields, "text").value
    ensures Get(fields, "full_text").None? && Get(fields, "text").None? ==> r == JStr("")
  {
    match Get(fields, "full_text")
    case Some(j) => j
    case None => GetOr(fields, "text", JStr(""))
  }

  /** `get_video_transcript` reading the key every writer uses. */
  function GetTranscriptFixed(t: Tables, user: string, videoId: string, loads: string -> Option<Json>, noGet: Json -> string): Reply
  {
    match GetTranscript(t, user, videoId, loads, noGet)
    case TranscriptBody(_, segments) =>
      TranscriptBody(ContentOf(Decoded(t.transcripts[t.jobs[videoId].id], loads).fields), segments)
    case other => other
  }

  /** With the fallback, the worker's transcript reads back with its text
      and every segment; the processing routes' transcripts and every
      refusal read as before. */
  lemma FixedReadsWorkerTranscript(t: Tables, user: string, videoId: string, w: W.Whisper,
                                   loads: string -> Option<Json>, noGet: Json -> string)
    ensures !GetTranscript(t, user, videoId, loads, noGet).TranscriptBody? ==>
      GetTranscriptFixed(t, user, videoId, loads, noGet) == GetTranscript(t, user, videoId, loads, noGet)
    ensures (GetTranscript(t, user, videoId, loads, noGet).TranscriptBody?
             && Get(Decoded(t.transcripts[t.jobs[videoId].id], loads).fields, "full_text").Some?) ==>
      GetTranscriptFixed(t, user, videoId, loads, noGet) == GetTranscript(t, user, videoId, loads, noGet)
    ensures (GetTranscript(t, user, videoId, loads, noGet).TranscriptBody?
             && t.transcripts[t.jobs[videoId].id] == Dumped(W.WhisperJson(w))) ==>
      GetTranscriptFixed(t, user, videoId, loads, noGet)
        == TranscriptBody(JStr(w.text), JArr(W.SegmentsJson(w.segments)))
  {
    if GetTranscript(t, user, videoId, loads, noGet).TranscriptBody?
       && t.transcripts[t.jobs[videoId].id] == Dumped(W.WhisperJson(w)) {
      var fields := W.WhisperJson(w).fields;
      assert fields[1..][1..] == [];
      assert fields[1..] == [fields[1]];
      assert Get(fields, "full_text") == None;
      assert Get(fields[1..], "segments") == Some(fields[1].1);
      assert Get(fields, "segments") == Some(JArr(W.SegmentsJson(w.segments)));
    }
  }
}
