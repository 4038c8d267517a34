/** The Prisma store the pipeline reads and writes: workspaces, VideoSource,
    ProcessingJob, Transcript and ContentAsset rows and the temporary files on
    disk.  A write raises when the row it updates is missing, when it would
    break a uniqueness constraint, or when the run's fault plan says so. */
module Db {
  import opened Wrappers
  import opened Models

  /** A JSON value.  A number is kept in thousandths: `JNum(m)` is the JSON
      number `NumValue(m)`, so 0.85 is `JNum(850)` and a time of 30.0
      seconds is `JNum(30000)`. */
  datatype Json =
    | JNull
    | JBool(b: bool)
    | JNum(milli: int)
    | JStr(s: string)
    | JArr(items: seq<Json>)
    | JObj(fields: seq<(string, Json)>)

  /** The number `JNum(m)` stands for. */
  function NumValue(m: int): real {
    m as real / 1000.0
  }

  /** `d.get(key)` on an object: the value of the first field named `key`. */
  function Get(fields: seq<(string, Json)>, key: string): (r: Option<Json>)
    ensures r.Some? <==> exists i :: 0 <= i < |fields| && fields[i].0 == key
    ensures r.Some? ==> exists i :: 0 <= i < |fields| && fields[i] == (key, r.value)
  {
    if |fields| == 0 then None
    else if fields[0].0 == key then Some(fields[0].1)
    else
      var r := Get(fields[1..], key);
      assert r.Some? ==> fields[1..][0..] == fields[1..];
      r
  }

  /** Python truthiness of a decoded JSON value. */
  predicate Truthy(j: Json) {
    match j
    case JNull => false
    case JBool(b) => b
    case JNum(m) => m != 0
    case JStr(s) => s != ""
    case JArr(items) => items != []
    case JObj(fields) => fields != []
  }

  /** `d.get(key, default)` for a field that must hold a string: the error
      is a present value of another type. */
  function StrField(fields: seq<(string, Json)>, key: string, default: string): (r: Result<string>)
    ensures Get(fields, key).None? ==> r == Ok(default)
    ensures r.Ok? && Get(fields, key).Some? ==> Get(fields, key).value == JStr(r.value)
    ensures r.Err? <==> Get(fields, key).Some? && !Get(fields, key).value.JStr?
  {
    match Get(fields, key)
    case None => Ok(default)
    case Some(JStr(s)) => Ok(s)
    case Some(_) => Err("field " + key + " is not a string")
  }

  /** What a Transcript row's `fullTranscript` column holds: the text that
      `json.dumps(doc)` produced, a document stored as it is, or a string
      that is not valid JSON. */
  datatype StoredTranscript = Dumped(doc: Json) | Native(doc: Json) | Raw(text: string)

  datatype Video = Video(workspaceId: string, title: string, url: string, status: VideoStatus)

  /** A ProcessingJob; a video has at most one, so the table is keyed by video id. */
  datatype Job = Job(id: string, workflowId: string, status: JobStatus)

  datatype Asset = Asset(jobId: string, kind: string, content: string, status: string)

  /** A transcript or content-asset row created with a `videoSourceId`
      instead of a job id, as the batch route writes them; `kind` is the
      asset type, empty for a transcript. */
  datatype VideoKeyedRow = VideoKeyedRow(table: string, videoId: string, kind: string, content: string, status: string)

  datatype Tables = Tables(
    workspaces: map<string, string>,          // workspace id -> owner id
    videos: map<string, Video>,               // by video id
    jobs: map<string, Job>,                   // by video id
    transcripts: map<string, StoredTranscript>, // by job id
    assets: seq<Asset>,                        // in creation order
    files: set<string>,                        // temporary files on disk
    videoKeyed: seq<VideoKeyedRow>)            // rows keyed by video id, in creation order

  /** Every write the pipeline issues, named with the row it targets. */
  datatype Write =
    | CreateVideoW(video: string)
    | SetVideoStatusW(video: string, vs: VideoStatus)
    | SetVideoTitleW(video: string)
    | CreateJobW(video: string)
    | SetJobStatusW(job: string, js: JobStatus)
    | DeleteJobW(video: string)
    | CreateTranscriptW(job: string)
    | UpdateTranscriptW(job: string)
    | CreateAssetW(job: string, kind: string)
    | DeleteAssetsW(job: string)
    | CreateVideoKeyedW(video: string, table: string)

  predicate JobIdUsed(jobs: map<string, Job>, id: string) {
    exists v :: v in jobs && jobs[v].id == id
  }

  /** The jobs after the job with id `jobId` is given status `s`. */
  function WithJobStatus(jobs: map<string, Job>, jobId: string, s: JobStatus): (r: map<string, Job>)
    ensures r.Keys == jobs.Keys
    ensures forall v :: v in jobs && jobs[v].id == jobId ==> r[v] == jobs[v].(status := s)
    ensures forall v :: v in jobs && jobs[v].id != jobId ==> r[v] == jobs[v]
  {
    map v | v in jobs :: if jobs[v].id == jobId then jobs[v].(status := s) else jobs[v]
  }

  /** The rows of `assets` that belong to job `jobId`, in order. */
  function AssetsOf(assets: seq<Asset>, jobId: string): (r: seq<Asset>)
    ensures |r| <= |assets|
  {
    if |assets| == 0 then []
    else (if assets[0].jobId == jobId then [assets[0]] else []) + AssetsOf(assets[1..], jobId)
  }

  /** The rows of `assets` that belong to other jobs, in order. */
  function AssetsNotOf(assets: seq<Asset>, jobId: string): (r: seq<Asset>)
    ensures |r| <= |assets|
  {
    if |assets| == 0 then []
    else (if assets[0].jobId != jobId then [assets[0]] else []) + AssetsNotOf(assets[1..], jobId)
  }

  /** Deleting a job's assets keeps every other row and leaves none of the job's. */
  lemma {:induction false} DeleteAssetsSplits(assets: seq<Asset>, jobId: string)
    ensures |AssetsOf(assets, jobId)| + |AssetsNotOf(assets, jobId)| == |assets|
    ensures AssetsOf(AssetsNotOf(assets, jobId), jobId) == []
    ensures forall other :: other != jobId ==> AssetsOf(AssetsNotOf(assets, jobId), other) == AssetsOf(assets, other)
  {
    if |assets| > 0 {
      DeleteAssetsSplits(assets[1..], jobId);
      var rest := AssetsNotOf(assets[1..], jobId);
      if assets[0].jobId != jobId {
        assert AssetsNotOf(assets, jobId) == [assets[0]] + rest;
        assert ([assets[0]] + rest)[1..] == rest;
      } else {
        assert AssetsNotOf(assets, jobId) == rest;
      }
    }
  }

  /** Appending one row adds it to its own job's list and to no other. */
  lemma {:induction false} AssetsOfAppend(assets: seq<Asset>, a: Asset, jobId: string)
    ensures AssetsOf(assets + [a], jobId) == AssetsOf(assets, jobId) + (if a.jobId == jobId then [a] else [])
    decreases |assets|
  {
    var tail := if a.jobId == jobId then [a] else [];
    if |assets| == 0 {
      assert assets + [a] == [a];
      assert AssetsOf([a], jobId) == tail + AssetsOf([], jobId);
    } else {
      var head := if assets[0].jobId == jobId then [assets[0]] else [];
      AssetsOfAppend(assets[1..], a, jobId);
      assert (assets + [a])[1..] == assets[1..] + [a];
      assert AssetsOf(assets + [a], jobId) == head + AssetsOf(assets[1..] + [a], jobId);
      assert AssetsOf(assets, jobId) == head + AssetsOf(assets[1..], jobId);
      assert head + (AssetsOf(assets[1..], jobId) + tail) == (head + AssetsOf(assets[1..], jobId)) + tail;
    }
  }

  /** A write the pipeline issues, with what it writes. */
  datatype Op =
    | CreateVideoOp(video: string, v: Video)
    | SetVideoStatusOp(video: string, vs: VideoStatus)
    | SetVideoTitleOp(video: string, title: string)
    | SetVideoStatusTitleOp(video: string, vs: VideoStatus, title: string)
    | CreateJobOp(video: string, j: Job)
    | SetJobStatusOp(job: string, js: JobStatus)
    | DeleteJobOp(video: string)
    | CreateTranscriptOp(job: string, doc: StoredTranscript)
    | UpdateTranscriptOp(job: string, doc: StoredTranscript)
    | CreateAssetOp(a: Asset)
    | DeleteAssetsOp(job: string)
    | CreateVideoKeyedOp(row: VideoKeyedRow)

  /** The fault-plan entry of a write.  A combined status and title update
      shares its entry with the status update. */
  function Key(op: Op): Write {
    match op
    case CreateVideoOp(id, _) => CreateVideoW(id)
    case SetVideoStatusOp(id, s) => SetVideoStatusW(id, s)
    case SetVideoTitleOp(id, _) => SetVideoTitleW(id)
    case SetVideoStatusTitleOp(id, s, _) => SetVideoStatusW(id, s)
    case CreateJobOp(id, _) => CreateJobW(id)
    case SetJobStatusOp(id, s) => SetJobStatusW(id, s)
    case DeleteJobOp(id) => DeleteJobW(id)
    case CreateTranscriptOp(id, _) => CreateTranscriptW(id)
    case UpdateTranscriptOp(id, _) => UpdateTranscriptW(id)
    case CreateAssetOp(a) => CreateAssetW(a.jobId, a.kind)
    case DeleteAssetsOp(id) => DeleteAssetsW(id)
    case CreateVideoKeyedOp(row) => CreateVideoKeyedW(row.videoId, row.table)
  }

  /** The store's own constraints: updates need their row, creates must not
      duplicate a key, and a job needs its video. */
  predicate Allowed(t: Tables, op: Op) {
    match op
    case CreateVideoOp(id, _) => id !in t.videos
    case SetVideoStatusOp(id, _) => id in t.videos
    case SetVideoTitleOp(id, _) => id in t.videos
    case SetVideoStatusTitleOp(id, _, _) => id in t.videos
    case CreateJobOp(id, j) => id in t.videos && id !in t.jobs && !JobIdUsed(t.jobs, j.id)
    case SetJobStatusOp(id, _) => JobIdUsed(t.jobs, id)
    case DeleteJobOp(id) => id in t.jobs
    case CreateTranscriptOp(id, _) => id !in t.transcripts
    case UpdateTranscriptOp(id, _) => id in t.transcripts
    case CreateAssetOp(_) => true
    case DeleteAssetsOp(_) => true
    case CreateVideoKeyedOp(_) => true
  }

  /** A write succeeds when the fault plan lets it through and the store's
      constraints hold. */
  predicate Succeeds(t: Tables, faulty: set<Write>, op: Op) {
    Key(op) !in faulty && Allowed(t, op)
  }

  /** The tables after a successful write. */
  function Effect(t: Tables, op: Op): Tables
    requires Allowed(t, op)
  {
    match op
    case CreateVideoOp(id, v) => t.(videos := t.videos[id := v])
    case SetVideoStatusOp(id, s) => t.(videos := t.videos[id := t.videos[id].(status := s)])
    case SetVideoTitleOp(id, title) => t.(videos := t.videos[id := t.videos[id].(title := title)])
    case SetVideoStatusTitleOp(id, s, title) => t.(videos := t.videos[id := t.videos[id].(status := s, title := title)])
    case CreateJobOp(id, j) => t.(jobs := t.jobs[id := j])
    case SetJobStatusOp(id, s) => t.(jobs := WithJobStatus(t.jobs, id, s))
    case DeleteJobOp(id) => t.(jobs := t.jobs - {id})
    case CreateTranscriptOp(id, doc) => t.(transcripts := t.transcripts[id := doc])
    case UpdateTranscriptOp(id, doc) => t.(transcripts := t.transcripts[id := doc])
    case CreateAssetOp(a) => t.(assets := t.assets + [a])
    case DeleteAssetsOp(id) => t.(assets := AssetsNotOf(t.assets, id))
    case CreateVideoKeyedOp(row) => t.(videoKeyed := t.videoKeyed + [row])
  }

  /** The text the model gives the exception a failed write raises; the
      client library's own wording is not modelled. */
  const WriteError: string := "database write failed"

  /** The tables after issuing a write: a failed write raises and changes nothing. */
  function Apply(t: Tables, faulty: set<Write>, op: Op): Tables {
    if Succeeds(t, faulty, op) then Effect(t, op) else t
  }

  /** How far a sequence of steps got: on, with a value, or stopped by an
      exception, with the tables as the exception left them. */
  datatype Step<T> = Next(t: Tables, value: T) | Threw(t: Tables, error: string)

  /** The step a method's result and final tables describe. */
  function StepOf<T>(t: Tables, r: Result<T>): Step<T> {
    match r
    case Ok(v) => Next(t, v)
    case Err(e) => Threw(t, e)
  }

  /** Writes never touch the workspaces or the files on disk. */
  lemma ApplyKeepsWorkspacesAndFiles(t: Tables, faulty: set<Write>, op: Op)
    ensures Apply(t, faulty, op).workspaces == t.workspaces && Apply(t, faulty, op).files == t.files
  {
  }

  /** A write changes only the table it targets. */
  lemma ApplyTouchesOneTable(t: Tables, faulty: set<Write>, op: Op)
    ensures var t1 := Apply(t, faulty, op);
      && (!op.CreateVideoOp? && !op.SetVideoStatusOp? && !op.SetVideoTitleOp? && !op.SetVideoStatusTitleOp? ==> t1.videos == t.videos)
      && (!op.CreateJobOp? && !op.SetJobStatusOp? && !op.DeleteJobOp? ==> t1.jobs == t.jobs)
      && (!op.CreateTranscriptOp? && !op.UpdateTranscriptOp? ==> t1.transcripts == t.transcripts)
      && (!op.CreateAssetOp? && !op.DeleteAssetsOp? ==> t1.assets == t.assets)
      && (!op.CreateVideoKeyedOp? ==> t1.videoKeyed == t.videoKeyed)
      && (op.CreateVideoKeyedOp? ==>
            t1 == t.(videoKeyed := t.videoKeyed + (if Key(op) in faulty then [] else [op.row])))
  {
  }

  /** The database connection of one run.  `faulty` is the run's fault plan:
      the writes that raise when they are issued.  Each method issues one
      write and reports whether it went through. */
  class Store {
    var t: Tables
    const faulty: set<Write>

    constructor(t0: Tables, faults: set<Write>)
      ensures t == t0 && faulty == faults
    {
      t := t0;
      faulty := faults;
    }

    /** Issue one write. */
    method Run(op: Op) returns (ok: bool)
      modifies this
      ensures ok == Succeeds(old(t), faulty, op)
      ensures t == Apply(old(t), faulty, op)
    {
      ok := Succeeds(t, faulty, op);
      if ok {
        t := Effect(t, op);
      }
    }

    /** A file written to disk: downloaded or extracted audio, an upload. */
    method CreateFile(path: string)
      modifies this
      ensures t == old(t).(files := old(t.files) + {path})
    {
      t := t.(files := t.files + {path});
    }

    /** `os.remove(path)` guarded by `os.path.exists(path)`. */
    method RemoveFile(path: string)
      modifies this
      ensures t == old(t).(files := old(t.files) - {path})
    {
      t := t.(files := t.files - {path});
    }
  }
}
