/** The request/response enumerations and field validators of the API layer
    (backend/app/models.py). */
module Models {
  import opened Wrappers
  import opened Strs

  /** Lifecycle of a VideoSource. */
  datatype VideoStatus = Pending | Processing | Completed | Failed {
    function Name(): string {
      match this
      case Pending => "PENDING"
      case Processing => "PROCESSING"
      case Completed => "COMPLETED"
      case Failed => "FAILED"
    }
  }

  /** Lifecycle of a ProcessingJob. */
  datatype JobStatus = Started | JobCompleted | JobFailed {
    function Name(): string {
      match this
      case Started => "STARTED"
      case JobCompleted => "COMPLETED"
      case JobFailed => "FAILED"
    }
  }

  /** The content formats the API layer knows. */
  datatype AssetType = BlogPost | TwitterThread | LinkedinPost | Tiktok | VideoHighlights {
    function Name(): string {
      match this
      case BlogPost => "BLOG_POST"
      case TwitterThread => "TWITTER_THREAD"
      case LinkedinPost => "LINKEDIN_POST"
      case Tiktok => "TIKTOK"
      case VideoHighlights => "VIDEO_HIGHLIGHTS"
    }
  }

  datatype AssetStatus = Generated | Published | Archived {
    function Name(): string {
      match this
      case Generated => "GENERATED"
      case Published => "PUBLISHED"
      case Archived => "ARCHIVED"
    }
  }

  const VideoStatuses: seq<VideoStatus> := [Pending, Processing, Completed, Failed]
  const JobStatuses: seq<JobStatus> := [Started, JobCompleted, JobFailed]
  const AssetTypes: seq<AssetType> := [BlogPost, TwitterThread, LinkedinPost, Tiktok, VideoHighlights]
  const AssetStatuses: seq<AssetStatus> := [Generated, Published, Archived]

  /** Each enumeration lists every member once, under distinct names:
      four video statuses, three job statuses, five asset types and three
      asset statuses. */
  lemma EnumerationsExact()
    ensures |VideoStatuses| == 4 && |JobStatuses| == 3 && |AssetTypes| == 5 && |AssetStatuses| == 3
    ensures forall v: VideoStatus :: v in VideoStatuses
    ensures forall v: JobStatus :: v in JobStatuses
    ensures forall v: AssetType :: v in AssetTypes
    ensures forall v: AssetStatus :: v in AssetStatuses
    ensures forall i, j :: 0 <= i < j < |VideoStatuses| ==> VideoStatuses[i].Name() != VideoStatuses[j].Name()
    ensures forall i, j :: 0 <= i < j < |JobStatuses| ==> JobStatuses[i].Name() != JobStatuses[j].Name()
    ensures forall i, j :: 0 <= i < j < |AssetTypes| ==> AssetTypes[i].Name() != AssetTypes[j].Name()
    ensures forall i, j :: 0 <= i < j < |AssetStatuses| ==> AssetStatuses[i].Name() != AssetStatuses[j].Name()
  {
    forall v: VideoStatus ensures v in VideoStatuses {
      match v
      case Pending => assert VideoStatuses[0] == v;
      case Processing => assert VideoStatuses[1] == v;
      case Completed => assert VideoStatuses[2] == v;
      case Failed => assert VideoStatuses[3] == v;
    }
    forall v: JobStatus ensures v in JobStatuses {
      match v
      case Started => assert JobStatuses[0] == v;
      case JobCompleted => assert JobStatuses[1] == v;
      case JobFailed => assert JobStatuses[2] == v;
    }
    forall v: AssetType ensures v in AssetTypes {
      match v
      case BlogPost => assert AssetTypes[0] == v;
      case TwitterThread => assert AssetTypes[1] == v;
      case LinkedinPost => assert AssetTypes[2] == v;
      case Tiktok => assert AssetTypes[3] == v;
      case VideoHighlights => assert AssetTypes[4] == v;
    }
    forall v: AssetStatus ensures v in AssetStatuses {
      match v
      case Generated => assert AssetStatuses[0] == v;
      case Published => assert AssetStatuses[1] == v;
      case Archived => assert AssetStatuses[2] == v;
    }
  }

  /** `VideoStatus(s)`: the member whose value is `s`, or the ValueError. */
  function ParseVideoStatus(s: string): (r: Option<VideoStatus>)
    ensures r.Some? ==> r.value.Name() == s
    ensures (exists v: VideoStatus :: v.Name() == s) ==> r.Some?
  {
    if s == "PENDING" then Some(Pending)
    else if s == "PROCESSING" then Some(Processing)
    else if s == "COMPLETED" then Some(Completed)
    else if s == "FAILED" then Some(Failed)
    else None
  }

  function ParseJobStatus(s: string): (r: Option<JobStatus>)
    ensures r.Some? ==> r.value.Name() == s
    ensures (exists v: JobStatus :: v.Name() == s) ==> r.Some?
  {
    if s == "STARTED" then Some(Started)
    else if s == "COMPLETED" then Some(JobCompleted)
    else if s == "FAILED" then Some(JobFailed)
    else None
  }

  /** What `^https?://(www\.)?` accepts, longest alternative first. */
  const SubmitSchemes: seq<string> := ["https://www.", "https://", "http://www.", "http://"]

  /** What `(youtube\.com/watch\?v=|youtu\.be/)` accepts. */
  const SubmitHosts: seq<string> := ["youtube.com/watch?v=", "youtu.be/"]

  /** The `VideoSubmit.youtube_url` pattern: the anchored expression matches
      a prefix of the URL, a scheme followed by a host. */
  predicate ValidSubmitUrl(url: string) {
    exists i, j :: 0 <= i < |SubmitSchemes| && 0 <= j < |SubmitHosts| && StartsWith(url, SubmitSchemes[i] + SubmitHosts[j])
  }

  /** `UserCreate`: an address that pydantic's `EmailStr` accepts, a
      password of at least 8 characters and a non-empty workspace name;
      anything else is a validation error, which names the first failing
      field.  `EmailStr` is the email-validator library, given as
      `normalize`: None for an address it refuses, otherwise the normalized
      address (domain lower-cased, a display name dropped), which replaces
      the one submitted. */
  function ValidateUserCreate(normalize: string -> Option<string>, email: string, password: string, workspaceName: string)
    : (r: Result<(string, string, string)>)
    ensures r.Ok? <==> normalize(email).Some? && |password| >= 8 && |workspaceName| >= 1
    ensures r.Ok? ==> r.value == (normalize(email).value, password, workspaceName)
    ensures normalize(email).None? ==> r == Err("email: value is not a valid email address")
  {
    match normalize(email)
    case None => Err("email: value is not a valid email address")
    case Some(address) =>
      if |password| < 8 then Err("password: String should have at least 8 characters")
      else if |workspaceName| < 1 then Err("workspace_name: String should have at least 1 character")
      else Ok((address, password, workspaceName))
  }
}
