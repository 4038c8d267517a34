/** The live progress report of a video (backend/app/routes/progress.py):
    a mapping from the video's status and how far its job has got (job
    present, transcript present, assets counted) to a step, a percentage
    and a French message. */
module Progress {
  import opened Wrappers
  import opened Strs
  import opened Models
  import opened Db

  /** The body `get_video_progress` returns. */
  datatype Report = Report(status: string, step: nat, percent: nat, message: string, currentStep: Option<string>)

  /** What the route answers: a body, or an HTTPException with its code and detail. */
  datatype Reply = Body(report: Report) | Raise(code: nat, detail: string)

  /** What the job of a PROCESSING video shows of its progress, in the
      order the route tests it. */
  datatype Evidence = NoJob | NoTranscript | Assets(count: nat)

  /** The report for a video with status `status`; `ev` only matters while
      it is PROCESSING. */
  function StatusReport(status: string, ev: Evidence): Report
  {
    if status == "PENDING" then
      Report("PENDING", 0, 0, "En attente de traitement", None)
    else if status == "PROCESSING" then
      match ev
      case NoJob =>
        Report("PROCESSING", 0, 10, "Initialisation du traitement", Some("Téléchargement audio"))
      case NoTranscript =>
        Report("PROCESSING", 1, 25, "Téléchargement et transcription en cours", Some("Transcription"))
      case Assets(n) =>
        if n == 0 then
          Report("PROCESSING", 2, 50, "Analyse de la transcription", Some("Analyse IA"))
        else if n < 4 then
          Report("PROCESSING", 3, 50 + n * 10, "Génération de contenu (" + NatStr(n) + "/4)",
                 Some("Génération de contenu"))
        else
          Report("PROCESSING", 4, 95, "Finalisation...", Some("Finalisation"))
    else if status == "COMPLETED" then
      Report("COMPLETED", 4, 100, "Traitement terminé", Some("Terminé"))
    else if status == "FAILED" then
      Report("FAILED", 0, 0, "Le traitement a échoué", Some("Erreur"))
    else
      Report(status, 0, 0, "Statut inconnu", None)
  }

  /** The fixed points of the mapping: PENDING is (0, 0%), COMPLETED (4,
      100%), FAILED (0, 0%); a PROCESSING video without a job is (0, 10%),
      with a job but no transcript (1, 25%), with a transcript and no asset
      (2, 50%), with n = 1..3 assets (3, 50 + 10n%), with four or more (4, 95%). */
  lemma StatusReportTable(status: string, ev: Evidence)
    ensures var r := StatusReport(status, ev);
      && (status == "PENDING" ==> r.step == 0 && r.percent == 0 && r.currentStep.None?)
      && (status == "COMPLETED" ==> r.step == 4 && r.percent == 100)
      && (status == "FAILED" ==> r.step == 0 && r.percent == 0)
      && (status == "PROCESSING" && ev.NoJob? ==> r.step == 0 && r.percent == 10)
      && (status == "PROCESSING" && ev.NoTranscript? ==> r.step == 1 && r.percent == 25)
      && (status == "PROCESSING" && ev == Assets(0) ==> r.step == 2 && r.percent == 50)
      && (status == "PROCESSING" && ev.Assets? && 1 <= ev.count < 4 ==> r.step == 3 && r.percent == 50 + 10 * ev.count)
      && (status == "PROCESSING" && ev.Assets? && ev.count >= 4 ==> r.step == 4 && r.percent == 95)
  {
  }

  /** The status is echoed back, and a status the route does not know gets
      (0, 0%) and no current step. */
  lemma StatusEchoed(status: string, ev: Evidence)
    ensures StatusReport(status, ev).status == status
    ensures status !in {"PENDING", "PROCESSING", "COMPLETED", "FAILED"} ==>
      StatusReport(status, ev) == Report(status, 0, 0, "Statut inconnu", None)
  {
  }

  /** The step lies in 0..4 and the percentage in 0..100; only COMPLETED
      reaches 100%. */
  lemma ReportBounds(status: string, ev: Evidence)
    ensures var r := StatusReport(status, ev);
      r.step <= 4 && r.percent <= 100 && (r.percent == 100 <==> status == "COMPLETED")
  {
  }

  /** How far along a PROCESSING job is, in the order the pipeline writes:
      the job, then the transcript, then the assets one by one. */
  function Level(ev: Evidence): nat {
    match ev
    case NoJob => 0
    case NoTranscript => 1
    case Assets(n) => 2 + n
  }

  /** While a video is PROCESSING, more evidence never lowers the step or the
      percentage, and a COMPLETED report is ahead of every PROCESSING one. */
  lemma ProcessingMonotone(ev1: Evidence, ev2: Evidence)
    requires Level(ev1) <= Level(ev2)
    ensures StatusReport("PROCESSING", ev1).percent <= StatusReport("PROCESSING", ev2).percent
    ensures StatusReport("PROCESSING", ev1).step <= StatusReport("PROCESSING", ev2).step
    ensures StatusReport("PROCESSING", ev2).percent < StatusReport("COMPLETED", ev1).percent
  {
  }

  /** The evidence the route gathers for a video: its job, whether a
      transcript row points at the job, and how many assets do. */
  function EvidenceOf(t: Tables, videoId: string): (ev: Evidence)
    ensures ev.NoJob? <==> videoId !in t.jobs
    ensures ev.Assets? ==>
      videoId in t.jobs && t.jobs[videoId].id in t.transcripts && ev.count == |AssetsOf(t.assets, t.jobs[videoId].id)|
  {
    if videoId !in t.jobs then NoJob
    else
      var job := t.jobs[videoId];
      if job.id !in t.transcripts then NoTranscript
      else Assets(|AssetsOf(t.assets, job.id)|)
  }

  /** `get_video_progress` as written.  The 404 for a missing video is raised
      inside the `try`, whose `except Exception` turns it into a 500 whose
      detail is the text of the 404 exception, `notFoundText` (that text
      depends on the web framework's version).  `connected` says whether
      the database client is set; the dependency answers 500 otherwise. */
  function GetVideoProgress(t: Tables, connected: bool, videoId: string, notFoundText: string): Reply
  {
    if !connected then Raise(500, "Database not connected")
    else if videoId !in t.videos then Raise(500, notFoundText)
    else Body(StatusReport(t.videos[videoId].status.Name(), EvidenceOf(t, videoId)))
  }

  /** As written, asking for a video that does not exist answers 500, not
      the 404 the route raises. */
  lemma MissingVideoIsServerError(t: Tables, videoId: string, notFoundText: string)
    requires videoId !in t.videos
    ensures GetVideoProgress(t, true, videoId, notFoundText).Raise?
    ensures GetVideoProgress(t, true, videoId, notFoundText).code == 500
  {
  }

  /** `get_video_progress` with the `HTTPException` let through the handler,
      as the route evidently intends. */
  function GetVideoProgressFixed(t: Tables, connected: bool, videoId: string): Reply
  {
    if !connected then Raise(500, "Database not connected")
    else if videoId !in t.videos then Raise(404, "Video not found")
    else Body(StatusReport(t.videos[videoId].status.Name(), EvidenceOf(t, videoId)))
  }

  /** With the fix, a missing video is a 404, an existing one gets a report
      carrying its stored status, and the two versions agree on every video
      that exists. */
  lemma FixedProgressAnswers(t: Tables, videoId: string, notFoundText: string)
    ensures var r := GetVideoProgressFixed(t, true, videoId);
      && (videoId !in t.videos <==> r == Raise(404, "Video not found"))
      && (videoId in t.videos ==> r.Body? && r.report.status == t.videos[videoId].status.Name())
      && (videoId in t.videos ==> r == GetVideoProgress(t, true, videoId, notFoundText))
  {
    if videoId in t.videos {
      StatusEchoed(t.videos[videoId].status.Name(), EvidenceOf(t, videoId));
    }
  }

  /** A stored video always has one of the four known statuses, so the
      "Statut inconnu" branch is never reached from the database. */
  lemma StoredStatusIsKnown(t: Tables, videoId: string)
    requires videoId in t.videos
    ensures GetVideoProgressFixed(t, true, videoId).report.message != "Statut inconnu"
  {
  }

  /** A video whose job has all four assets and a transcript, still marked
      PROCESSING, shows (4, 95%); once marked COMPLETED it shows 100%. */
  lemma FinishingReports(t: Tables, videoId: string)
    requires videoId in t.videos && videoId in t.jobs && t.jobs[videoId].id in t.transcripts
    requires |AssetsOf(t.assets, t.jobs[videoId].id)| >= 4
    ensures t.videos[videoId].status == Processing ==>
      GetVideoProgressFixed(t, true, videoId).report.percent == 95
    ensures t.videos[videoId].status == Completed ==>
      GetVideoProgressFixed(t, true, videoId).report.percent == 100
  {
  }
}
