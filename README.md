# Video pipeline model

A Dafny model of the video-processing core of the creatoros backend. A creator submits a
YouTube link or uploads a video file into a workspace. The backend then fetches captions, or
downloads and transcribes the audio, and turns the transcript into marketing content: blog post,
tweet thread, LinkedIn post, newsletter, TikTok and Instagram scripts, and a summary. Every step
records its progress in a relational store. That store holds four tables: video sources,
processing jobs, transcripts and content assets.

The model has one module per source file of the pipeline:

| module | file | form |
|---|---|---|
| `VideoProcessor` | `backend/app/services/video_processor.py` | pure id extraction and proxy choice; caption re-segmentation, the strategy loop and the transcript walk as methods with loop invariants; `process_video` over the store |
| `Usage` | `backend/app/services/usage_service.py` | plan limits and admission as functions; the usage table as a class whose methods create and increment records |
| `Transcription` | `backend/app/services/transcription_service.py` | dispatch; word grouping, sentence fallback, polling and the demo transcript as methods with loops |
| `ContentGeneration` | `backend/app/services/content_generation_service.py` | key-point parsing, summary, keywords, hashtags, bullets and the four template assets |
| `Gemini` | `backend/app/services/gemini_service.py` | six generators (truncation, counters, demo fallback) and `generate_all_content` |
| `Progress` | `backend/app/routes/progress.py` | the status/step/percentage mapping |
| `Workflows` | `backend/temporal_workflows/workflows.py` | the workflow's step sequence, fan-out accounting and failure path, as a method over the store |
| `SimpleProcessing` | `backend/app/routes/simple_processing.py` | caption-or-fallback orchestration and pending-video queueing |
| `Processing` | `backend/app/routes/processing.py` | forced, manual and batch processing over the store |
| `Worker` | `backend/simple_worker_prisma.py` | the polling worker's batch: job reset, generator loop, failure marking |
| `Videos` | `backend/app/routes/videos.py` | submission, the upload extension check and transcript read-back |
| `Models` | `backend/app/models.py` | status and asset enumerations, the submit URL pattern, registration validators |

Three modules are shared. `Strs` models the Python string operations the source uses: split,
strip, join, find, lower and prefix tests. `Db` models the store: its rows, a datatype of writes,
and a `Store` class whose `Run` applies one write. The batch route creates transcript and content-asset rows keyed by a video id, not a job id. Those rows go to a separate listing of `Db.VideoKeyedRow`s, in creation order. `Wrappers` holds `Option` and `Result`.
External services are parameters of the functions and methods that call them. That covers
YouTube, the caption API, yt-dlp, ffmpeg, Whisper, AssemblyAI, Gemini, OpenAI and the store's
own failures. A store failure is an injected set of writes that raise. With these parameters
every orchestration is deterministic. Each orchestration is written in two forms: a method, and
a pure function of the old store that specifies the method's new state. The lemmas are stated
about those functions.

On these points the model follows the code as written:
- A caption paragraph starts where the previous one ended (backend/app/services/video_processor.py:219-220).
- The downloaded audio is deleted only on the success path (backend/app/services/video_processor.py:408-409).
- `force_real_processing` marks only the video FAILED, never the job (backend/app/routes/processing.py:177-183).
- A parsed but empty probe result in `ingest_video` ends the strategy loop and then raises (backend/app/services/video_processor.py:324-337).
- The summary fallback text in the content generator is dead code, because splitting never gives an empty list (backend/app/services/content_generation_service.py:197-198).
- Every Gemini generator catches its own errors, so `generate_all_content` always returns six pieces (backend/app/services/gemini_service.py:145-147 and the five like it, 534-560).
- In the polling worker, the FAILED writes inside the per-video handler are not guarded. If one of them raises, the whole batch ends (backend/simple_worker_prisma.py:250-260).

These points are proved as stated. Five further places where the code evidently differs from
what its authors meant are listed under "## Findings".

## Model

| member | source | states |
|---|---|---|
| Db.Get | backend/app/routes/videos.py:280-281 | a key is found exactly when some field has that name, and the value found is that field's |
| Db.StrField | backend/app/services/video_processor.py:336-337 | a missing key gives the default, a present string is returned, and a present value of another type is an error |
| Db.WithJobStatus | backend/app/routes/processing.py:152-155 | the job with the given id gets the new status and every other job is unchanged |
| Db.DeleteAssetsSplits | backend/app/routes/processing.py:138-140 | deleting a job's assets leaves none of that job's rows and keeps every other job's rows in order |
| Db.AssetsOfAppend | backend/app/routes/processing.py:143-149 | appending a row adds it to its own job's list and to no other |
| Db.ApplyKeepsWorkspacesAndFiles | backend/app/routes/processing.py:19-189 | database writes never touch the workspaces or the files on disk |
| Db.ApplyTouchesOneTable | backend/app/routes/processing.py:19-189 | a write changes only the table it targets |
| Db.Store.Run | backend/app/routes/processing.py:49-52 | one write: it reports success exactly when the write goes through and leaves the tables as the write does |
| Db.Store.CreateFile | backend/app/routes/videos.py:449-450 | the file is added to the files on disk |
| Db.Store.RemoveFile | backend/simple_worker_prisma.py:235-236 | the file is removed from the files on disk |
| Usage.PlanName | backend/app/services/usage_service.py:49 | a missing or empty plan column reads as FREE; any other plan is kept as stored |
| Usage.LimitOfUser | backend/app/services/usage_service.py:10-55 | the limit is -1 (unlimited) exactly for PRO and ENTERPRISE, and 3 for FREE, a missing plan and any unknown plan |
| Usage.LimitFor | backend/app/services/usage_service.py:10-55 | defines the plan's monthly limit: 3 for FREE, -1 (unlimited) for PRO and ENTERPRISE, 3 for any other plan |
| Usage.Summary | backend/app/services/usage_service.py:68-80 | the summary carries the plan, the stored count and the month |
| Usage.SummaryFields | backend/app/services/usage_service.py:68-80 | isUnlimited iff the plan is PRO or ENTERPRISE; canProcess iff unlimited or the count is below 3; remaining is -1 when unlimited and 3 minus the count otherwise |
| Usage.Processed | backend/app/services/usage_service.py:57-68 | defines the stored count of a user and month, 0 when no row exists (the row the lookup would create starts at 0) |
| Usage.UnlimitedAlwaysAdmitted | backend/app/services/usage_service.py:70 | a PRO or ENTERPRISE user can always process, whatever the count |
| Usage.LimitedRefusedAtLimit | backend/app/services/usage_service.py:69-70 | a limited plan is refused exactly from its limit on, and the remaining count is then at most 0 |
| Usage.MissingUserRefused | backend/app/services/usage_service.py:42-46 | the error form for a missing user never admits, is not a summary, and carries "User not found" |
| Usage.UsageOf | backend/app/services/usage_service.py:22-80 | the error form exactly when the user is missing; otherwise the summary of the user's plan and the stored count, 0 without a row |
| Usage.AfterLookup | backend/app/services/usage_service.py:57-66 | defines the rows after `get_user_usage`: a known user without a row for the month gets one at 0 with the plan's limit, nothing else changes |
| Usage.LookupCreatesLazily | backend/app/services/usage_service.py:57-66 | a lookup keeps every existing row, creates at most the row of this user and month, at 0, creates nothing for a missing user, and a second lookup reports the same |
| Usage.Upsert | backend/app/services/usage_service.py:101-119 | defines the upsert: an existing row's count goes up by one, a missing row is created at 1 with the looked-up limit |
| Usage.AfterIncrement | backend/app/services/usage_service.py:83-127 | defines the rows after `increment_usage`: the lookup's lazy creation, then the upsert only when the lookup admits |
| Usage.IncrementOf | backend/app/services/usage_service.py:83-127 | defines the reply of `increment_usage`: the refusal with "Usage limit reached" and the first lookup, or success with the usage read again after the upsert |
| Usage.IncrementByOne | backend/app/services/usage_service.py:83-127 | refused exactly when the first lookup does not admit, with "Usage limit reached" and the count unchanged; an admitted increment raises the count by exactly one (creating the row at 1), reports the new count and leaves every other row alone |
| Usage.MissingUserNotCounted | backend/app/services/usage_service.py:91-98 | a missing user is refused and nothing is stored |
| Usage.CheckOf | backend/app/services/usage_service.py:130-146 | admitted iff the summary admits, and then with no message; a missing user gets "User not found", a FREE user the message naming the limit, any other plan the fixed refusal |
| Usage.FreeRefusalNamesThree | backend/app/services/usage_service.py:141-142 | a FREE user at or over the limit reads the refusal with 3 in it |
| Usage.UsageTable.GetUserUsage | backend/app/services/usage_service.py:22-80 | returns `UsageOf` of the stored rows and leaves the rows as `AfterLookup` says |
| Usage.UsageTable.IncrementUsage | backend/app/services/usage_service.py:83-127 | returns `IncrementOf` of the stored rows and leaves them as `AfterIncrement` says |
| Usage.UsageTable.CheckCanProcessVideo | backend/app/services/usage_service.py:130-146 | returns `CheckOf` of the user's summary; only the lookup's lazy row creation changes the table |
| Progress.StatusReportTable | backend/app/routes/progress.py:46-134 | PENDING is (0, 0%), COMPLETED (4, 100%), FAILED (0, 0%); PROCESSING without a job is (0, 10%), with a job and no transcript (1, 25%), with a transcript and no asset (2, 50%), with 1 to 3 assets (3, 50 + 10n%), with 4 or more (4, 95%) |
| Progress.StatusReport | backend/app/routes/progress.py:46-143 | defines the step, percentage and current-step labels for each stored status and, while PROCESSING, for the evidence of job, transcript and assets |
| Progress.StatusEchoed | backend/app/routes/progress.py:136-143 | the status is echoed back; an unknown status gets (0, 0%), "Statut inconnu" and no current step |
| Progress.ReportBounds | backend/app/routes/progress.py:46-143 | the step lies in 0..4 and the percentage in 0..100, and only COMPLETED reaches 100% |
| Progress.Level | backend/app/routes/progress.py:57-116 | defines how far a PROCESSING job is, in the order the pipeline writes its rows: job, transcript, then assets |
| Progress.ProcessingMonotone | backend/app/routes/progress.py:71-116 | while PROCESSING, more evidence (job, then transcript, then assets) never lowers the step or the percentage, and every PROCESSING percentage is below COMPLETED's |
| Progress.EvidenceOf | backend/app/routes/progress.py:57-68 | no job exactly when the video has none; an asset count is reported only with a job and its transcript, and it is the number of the job's assets |
| Progress.GetVideoProgress | backend/app/routes/progress.py:19-146 | defines `get_video_progress` as written: 500 without a database client, the report of a stored video, and the caught 404 re-raised as a 500 |
| Progress.MissingVideoIsServerError | backend/app/routes/progress.py:39-146 | as written, a missing video answers 500, not 404 |
| Progress.GetVideoProgressFixed | backend/app/routes/progress.py:19-146 | defines the route with the 404 let through the handler |
| Progress.FixedProgressAnswers | backend/app/routes/progress.py:39-40 | with the 404 let through, a missing video is exactly the 404 case, an existing one gets a report with its stored status, and both versions agree on every existing video |
| Progress.StoredStatusIsKnown | backend/app/routes/progress.py:136-143 | a stored video never reaches the "Statut inconnu" branch |
| Progress.FinishingReports | backend/app/routes/progress.py:99-125 | a job with a transcript and four assets shows 95% while PROCESSING and 100% once COMPLETED |
| Gemini.TweetLines | backend/app/services/gemini_service.py:217 | defines the list comprehension of the thread's lines whose stripped form is non-blank and does not start with `---`; never longer than the lines |
| Gemini.IsTweetLine | backend/app/services/gemini_service.py:217 | defines a line that counts as a tweet: not blank once stripped, and not starting with `---` once stripped |
| Gemini.TweetLinesMembers | backend/app/services/gemini_service.py:217 | a line is kept exactly when it is one of the lines and a tweet |
| Gemini.TweetLinesAppend | backend/app/services/gemini_service.py:217 | the filter distributes over concatenation, so kept lines keep their order and their multiplicity |
| Gemini.TweetIndices | backend/app/services/gemini_service.py:217 | defines the positions that hold a tweet line, the reference the count is proved against |
| Gemini.TweetLinesCount | backend/app/services/gemini_service.py:217 | the number of kept lines is the number of positions that hold a tweet line |
| Gemini.WordStart | backend/app/services/gemini_service.py:140 | defines a word start: a position with a non-whitespace character that is first or follows whitespace |
| Gemini.WordStarts | backend/app/services/gemini_service.py:140 | defines the set of word starts, the reference the word count is proved against |
| Gemini.WordCountIsStarts | backend/app/services/gemini_service.py:140 | `len(content.split())` is the number of positions where a run of non-whitespace starts |
| Gemini.WordStartsSnoc | backend/app/services/gemini_service.py:140 | one more character adds at most its own position to the word starts |
| Gemini.CounterFor | backend/app/services/gemini_service.py:140-525 | defines each format's counter: `tweet_count` for a thread, `character_count` for an Instagram caption, `word_count` for the rest |
| Gemini.CounterSpec | backend/app/services/gemini_service.py:140-525 | a thread's count is the number of tweet-line positions, an Instagram caption's its length, and every other format's the number of word starts of the reply |
| Gemini.BlankReplyCountsZero | backend/app/services/gemini_service.py:140-217 | a whitespace-only reply has a word count of 0 and, as a thread, no tweet lines |
| Gemini.DemoText | backend/app/services/gemini_service.py:570-579 | an unknown content type gets "Demo content" |
| Gemini.DemoContent | backend/app/services/gemini_service.py:568-586 | a demo result has the requested type, status, service and quality "demo", no counter, the fixed note, and the demo text of its type |
| Gemini.DemoOf | backend/app/services/gemini_service.py:72-147 | a generator's fallback is `_generate_demo_content` of its own type: that type, status "demo" and no counter |
| Gemini.Generate | backend/app/services/gemini_service.py:67-532 | status "generated" exactly when a model is configured and the call returns; then the content is the reply to the truncated transcript, with the format's counter and service "gemini"; otherwise the demo of the same type |
| Gemini.OnlyPrefixMatters | backend/app/services/gemini_service.py:88-474 | two transcripts that agree on the format's first 4500/2000/3500/4000/2500/3500 characters give the same result |
| Gemini.PromptPrefix | backend/app/services/gemini_service.py:88-474 | a transcript within the limit reaches the model whole; a longer one is cut to exactly the limit, keeping its start |
| Gemini.GenerateAllContent | backend/app/services/gemini_service.py:534-566 | six results, in the order blog, thread, LinkedIn, TikTok, Instagram, summary, each the generator's result |
| ContentGeneration.SummarySentences | backend/app/services/content_generation_service.py:197 | one to three pieces: splitting on `". "` never yields an empty list |
| ContentGeneration.Url | backend/app/services/content_generation_service.py:127 | defines `video_info.get('youtube_url', '')`: the URL, or empty when missing |
| ContentGeneration.Summary | backend/app/services/content_generation_service.py:197-198 | defines the summary: the first three ". " pieces rejoined with ". " and a final "." |
| ContentGeneration.SummaryIsOpening | backend/app/services/content_generation_service.py:197-198 | the summary ends with `.`, what precedes it is the opening of the transcript up to its third `". "`, and a transcript of at most three pieces comes back whole with a `.` added |
| ContentGeneration.KeepWord | backend/app/services/content_generation_service.py:199-203 | defines a candidate keyword: longer than four characters and not one of the common words |
| ContentGeneration.KeptWords | backend/app/services/content_generation_service.py:203 | a word is kept exactly when it is a word of the input longer than four characters and not a common word |
| ContentGeneration.Keywords | backend/app/services/content_generation_service.py:201-203 | defines the first five candidate keywords of the lower-cased transcript's words |
| ContentGeneration.KeywordsSpec | backend/app/services/content_generation_service.py:201-203 | at most five keywords, each a lower-case token of the transcript longer than four characters and not a common word; with fewer than five, every such token is among them |
| ContentGeneration.Tags | backend/app/services/content_generation_service.py:204 | one tag per word: `#` and the capitalised word |
| ContentGeneration.Hashtags | backend/app/services/content_generation_service.py:204 | defines the hashtag line: the first three keywords as capitalised tags, joined by spaces |
| ContentGeneration.HashtagsRoundTrip | backend/app/services/content_generation_service.py:204 | the hashtag line splits back on spaces into the first three keywords (or fewer), each as `#` and the capitalised keyword |
| ContentGeneration.LongSentences | backend/app/services/content_generation_service.py:288 | each kept piece is longer than 20 characters and is a stripped piece of the input, and every stripped piece longer than 20 characters is kept |
| ContentGeneration.BulletSentences | backend/app/services/content_generation_service.py:288 | at most five sentences, each longer than 20 characters |
| ContentGeneration.BulletLines | backend/app/services/content_generation_service.py:291-293 | one bullet line per sentence: the bullet mark and the sentence |
| ContentGeneration.BulletsText | backend/app/services/content_generation_service.py:285-295 | defines the bullet text: the bullet lines joined by newlines, or the single default bullet when there are none |
| ContentGeneration.BulletsSpec | backend/app/services/content_generation_service.py:285-295 | at most five bullet lines, one per stripped `.`-piece longer than 20 characters, in order; fewer than five means every such piece was taken; with none, the single default bullet |
| ContentGeneration.CreateBulletPoints | backend/app/services/content_generation_service.py:285-295 | the loop builds exactly `BulletsText` of the transcript |
| ContentGeneration.BlogParts | backend/app/services/content_generation_service.py:209-224 | defines the parts of the template blog post: title, summary, bullets and URL between the fixed texts |
| ContentGeneration.ThreadParts | backend/app/services/content_generation_service.py:229-236 | defines the parts of the template thread: title, the summary cut to 200 characters, URL and hashtags between the fixed texts |
| ContentGeneration.LinkedinParts | backend/app/services/content_generation_service.py:241-249 | defines the parts of the template LinkedIn post: title, summary, hashtags and URL between the fixed texts |
| ContentGeneration.NewsletterParts | backend/app/services/content_generation_service.py:254-278 | defines the parts of the template newsletter: title twice, summary, bullets and URL between the fixed texts |
| ContentGeneration.TemplateAssetsFrom | backend/app/services/content_generation_service.py:206-283 | defines the four template assets, each with its own default title, given the summary, hashtags and bullets |
| ContentGeneration.TemplateAssets | backend/app/services/content_generation_service.py:192-283 | defines `_generate_with_templates`: the template assets over the transcript's summary, hashtags and bullets |
| ContentGeneration.TemplateAssetsKinds | backend/app/services/content_generation_service.py:206-283 | the templates give exactly four GENERATED assets typed BLOG_POST, TWITTER_THREAD, LINKEDIN_POST, NEWSLETTER in that order |
| ContentGeneration.BlogCarries | backend/app/services/content_generation_service.py:209-224 | the template blog post contains its title, the summary and the bullets |
| ContentGeneration.ThreadCarries | backend/app/services/content_generation_service.py:229-236 | the template thread contains its title, the first 200 characters of the summary and the hashtags |
| ContentGeneration.LinkedinCarries | backend/app/services/content_generation_service.py:241-249 | the template LinkedIn post contains its title, the summary and the hashtags |
| ContentGeneration.NewsletterCarries | backend/app/services/content_generation_service.py:254-278 | the template newsletter contains its title, the summary and the bullets |
| ContentGeneration.TemplateAssetsContent | backend/app/services/content_generation_service.py:206-283 | each template asset carries the summary (the thread its first 200 characters), the bullets or hashtags it names, and the title or its own default ("Video Analysis", "Amazing Video", "Professional Video", "Featured Video") |
| ContentGeneration.GenerateWithTemplates | backend/app/services/content_generation_service.py:192-283 | returns `TemplateAssets` of the transcript, building the bullets once for the blog post and once for the newsletter |
| ContentGeneration.KeyPointLines | backend/app/services/content_generation_service.py:100 | every reply line that is not blank and not a `#` heading is kept stripped, and nothing else is kept |
| ContentGeneration.IsKeyPointLine | backend/app/services/content_generation_service.py:100 | defines a reply line that makes a key point: not blank and, once stripped, not a `#` heading |
| ContentGeneration.ParseKeyPoints | backend/app/services/content_generation_service.py:98-101 | defines the key points of a reply: the first seven stripped key-point lines |
| ContentGeneration.ParseKeyPointsSpec | backend/app/services/content_generation_service.py:98-101 | at most seven key points, each non-empty, stripped, not starting with `#` and a stripped line of the reply; fewer than seven means every such line was taken |
| ContentGeneration.KeyPoints | backend/app/services/content_generation_service.py:85-105 | defines `_extract_key_points_openai`: the request on the first 3000 characters, its parsed reply, or the three fixed points when it raises |
| ContentGeneration.KeyPointsSpec | backend/app/services/content_generation_service.py:85-105 | the request sees the transcript's first 3000 characters; a failed request gives the three fixed points, a reply gives its parsed key points |
| ContentGeneration.BlogPrompt | backend/app/services/content_generation_service.py:107-118 | defines the blog request: title (default "Video"), URL, key points and the first 2000 characters |
| ContentGeneration.ExcerptPrompt | backend/app/services/content_generation_service.py:134-184 | defines the thread, LinkedIn and newsletter requests: title (default empty), key points and the first 1500 characters |
| ContentGeneration.BlogPostText | backend/app/services/content_generation_service.py:107-132 | defines the blog post: the reply under the title heading followed by the URL and signature, or the failure text naming the title |
| ContentGeneration.ThreadText | backend/app/services/content_generation_service.py:134-151 | defines the thread: the reply itself, or the fixed fallback thread |
| ContentGeneration.LinkedinText | backend/app/services/content_generation_service.py:153-171 | defines the LinkedIn post: the reply followed by the video URL, or the fallback naming the title |
| ContentGeneration.NewsletterText | backend/app/services/content_generation_service.py:173-190 | defines the newsletter: the reply itself, or the fallback naming the title (default "New Video") |
| ContentGeneration.AiAssets | backend/app/services/content_generation_service.py:34-83 | defines the OpenAI path: the key points, then the four GENERATED assets from the four requests' replies |
| ContentGeneration.AiAssetsKinds | backend/app/services/content_generation_service.py:44-78 | the OpenAI path gives four GENERATED assets typed in the fixed order |
| ContentGeneration.AiKeepsReplies | backend/app/services/content_generation_service.py:120-186 | a reply is kept whole: the blog post contains it, the LinkedIn post starts with it, the thread and the newsletter are it |
| ContentGeneration.AiSeesOnlyPrefix | backend/app/services/content_generation_service.py:92-180 | transcripts that agree on their first 3000 characters give the same OpenAI assets |
| ContentGeneration.AiAllRequestsFail | backend/app/services/content_generation_service.py:103-190 | when every request raises, the key points are the three fixed ones and each asset is its generator's fixed fallback text |
| ContentGeneration.GenerateWithOpenAi | backend/app/services/content_generation_service.py:34-83 | the OpenAI assets when the client can be built, the templates when importing or building it raises |
| ContentGeneration.ContentOf | backend/app/services/content_generation_service.py:14-32 | defines `generate_content_from_transcript`: the OpenAI path when a key is set and the client can be built, the templates otherwise |
| ContentGeneration.ContentShape | backend/app/services/content_generation_service.py:18-283 | whatever path is taken, four GENERATED assets typed BLOG_POST, TWITTER_THREAD, LINKEDIN_POST, NEWSLETTER |
| ContentGeneration.GenerateContentFromTranscript | backend/app/services/content_generation_service.py:14-32 | returns `ContentOf`: the OpenAI path when a key is set, the templates otherwise |
| Transcription.WhisperTranscript | backend/app/services/transcription_service.py:62-78 | one segment per Whisper segment in order, with its start and end (0 when missing) and stripped text; no segments key gives none; the full text is the stripped text, the language defaults to en, the service is whisper and the confidence 0.9 |
| Transcription.WhisperSegment | backend/app/services/transcription_service.py:63-71 | defines one formatted Whisper segment: start and end default to 0, the text defaults to "" and is stripped, and there is no confidence |
| Transcription.FormatWhisper | backend/app/services/transcription_service.py:62-78 | the formatting loop builds exactly the Whisper transcript |
| Transcription.WordOf | backend/app/services/transcription_service.py:151-155 | defines a word with the defaults of the `.get` calls: empty text, start and end 0, confidence 1 (1000 thousandths) |
| Transcription.Words | backend/app/services/transcription_service.py:151-155 | one word per raw word, in order, with its defaults filled in |
| Transcription.EndsSentence | backend/app/services/transcription_service.py:163 | defines a text that ends in ".", "!" or "?" |
| Transcription.Closes | backend/app/services/transcription_service.py:157-163 | defines a word that closes the segment opened at a given start: it ends a sentence, or the segment has reached its target length |
| Transcription.Groups | backend/app/services/transcription_service.py:147-172 | every group is non-empty, and there are groups exactly when there are words |
| Transcription.SegmentsOf | backend/app/services/transcription_service.py:163-182 | one segment per group, in order |
| Transcription.WordSegments | backend/app/services/transcription_service.py:145-182 | defines the word-level segments of a completed AssemblyAI result: the words grouped, one segment per group |
| Transcription.GroupsGrow | backend/app/services/transcription_service.py:157-172 | one more word either opens a group of its own or joins the last group |
| Transcription.GroupsFlatten | backend/app/services/transcription_service.py:151-172 | the groups hold every word exactly once, in order |
| Transcription.GroupsClose | backend/app/services/transcription_service.py:157-172 | every group but the last ends on its closing word and no earlier word of a group closes it |
| Transcription.SegmentOf | backend/app/services/transcription_service.py:163-182 | defines a group's segment: first word's start to last word's end, the texts joined by spaces and stripped, the last word's confidence |
| Transcription.SegmentsCloseOnSentenceOrTarget | backend/app/services/transcription_service.py:149-163 | each non-final segment ends on a word ending in a full stop, exclamation or question mark, or spans at least 30 000 ms |
| Transcription.GroupsStep | backend/app/services/transcription_service.py:151-172 | one pass of the loop keeps the closed segments, the open words and the open start in step with the groups of the prefix |
| Transcription.GroupWords | backend/app/services/transcription_service.py:145-182 | the word loop plus the final-segment step yield exactly the segments of the word groups |
| Transcription.FinalGroup | backend/app/services/transcription_service.py:174-182 | leftover words become the final segment, ending at the last word's end with its confidence |
| Transcription.SentenceSegmentText | backend/app/services/transcription_service.py:187-196 | a non-blank piece gives a non-empty text that ends with a full stop, starts with the stripped piece and spans [5i, 5i+5] seconds |
| Transcription.SentenceSegment | backend/app/services/transcription_service.py:187-196 | defines the fallback segment of the i-th piece: seconds 5i to 5i+5, the stripped piece with a "." added when the unstripped piece does not end with one, confidence 0.9 |
| Transcription.SentenceSegments | backend/app/services/transcription_service.py:185-196 | defines the fallback segments of the ". " pieces: one per non-blank piece, in order, numbered by piece |
| Transcription.SentenceSegmentsCount | backend/app/services/transcription_service.py:185-196 | there is one fallback segment per non-blank piece, so no more than there are pieces |
| Transcription.SentenceSegmentsFromPieces | backend/app/services/transcription_service.py:185-196 | every fallback segment comes from the non-blank piece whose index is its start over five seconds |
| Transcription.SegmentSentences | backend/app/services/transcription_service.py:183-196 | the fallback loop yields exactly the segments of the non-blank pieces of the text split on ". " |
| Transcription.FirstTerminal | backend/app/services/transcription_service.py:133-213 | the index found is the first completed or error poll, and no earlier poll is terminal |
| Transcription.Terminal | backend/app/services/transcription_service.py:133-213 | defines a poll that ends the polling loop: its status is completed or error |
| Transcription.AwaitTranscript | backend/app/services/transcription_service.py:133-213 | the polling loop stops at the first terminal poll, or never stops within the polls given |
| Transcription.Failure | backend/app/services/transcription_service.py:80-217 | a re-raised error starts with "Transcription failed: " followed by the inner message |
| Transcription.CompletedTranscript | backend/app/services/transcription_service.py:136-206 | a completed poll gives its text and the assemblyai service, word segments when it has words and sentence segments otherwise |
| Transcription.PollOutcome | backend/app/services/transcription_service.py:136-209 | the terminal poll succeeds exactly when its status is completed; an error poll's message carries the failure prefix twice |
| Transcription.AssemblyOf | backend/app/services/transcription_service.py:84-217 | every error the AssemblyAI path finishes with starts with the failure prefix |
| Transcription.PollingDecides | backend/app/services/transcription_service.py:127-213 | after a good upload and request, the service keeps polling exactly when no poll is terminal, and otherwise the first terminal poll decides the result |
| Transcription.BadStatusFails | backend/app/services/transcription_service.py:102-125 | an upload or transcription request answered with a status other than 200 fails with a message naming that status |
| Transcription.DemoSpans | backend/app/services/transcription_service.py:234-258 | the demo has between one and ten segments, 30 s apart, each within the duration and at most 30 s long |
| Transcription.DemoCount | backend/app/services/transcription_service.py:234-239 | defines the number of demo segments: one per started 30 seconds of audio, at most the number of demo texts |
| Transcription.DemoStart | backend/app/services/transcription_service.py:251-258 | defines demo segment i's start, 30 i seconds |
| Transcription.DemoEnd | backend/app/services/transcription_service.py:251-258 | defines demo segment i's end: 30 seconds after its start, capped at the audio's duration |
| Transcription.DemoSegment | backend/app/services/transcription_service.py:251-258 | defines demo segment i: its span and the demo text at i modulo the number of texts, with no confidence |
| Transcription.DemoTextAt | backend/app/services/transcription_service.py:251-258 | segment i carries the i-th demo text, since the index never wraps |
| Transcription.DemoTranscriptOf | backend/app/services/transcription_service.py:219-269 | the demo transcript has one segment per counted slot, its full text joins the segment texts with spaces, and it has the demo service, English and the demo note |
| Transcription.BuildDemo | backend/app/services/transcription_service.py:251-260 | the demo loop builds exactly the demo transcript |
| Transcription.CreateDemoTranscription | backend/app/services/transcription_service.py:219-269 | the demo over the WAV length, or 300 s when the file cannot be read |
| Transcription.DispatchOrder | backend/app/services/transcription_service.py:39-45 | Whisper is preferred, then AssemblyAI when a key is set, then the demo; a success names the service that produced it, the demo always succeeds, and only AssemblyAI can keep polling |
| Transcription.TranscribeAudio | backend/app/services/transcription_service.py:28-45 | the dispatch returns the chosen service's result |
| Transcription.TranscribeOf | backend/app/services/transcription_service.py:28-269 | defines `transcribe_audio`: Whisper when the model loaded, else AssemblyAI when a key is set, else the demo over the WAV duration |
| Transcription.TranscribeWithAssembly | backend/app/services/transcription_service.py:84-217 | upload, request and polling give the AssemblyAI result |
| VideoProcessor.ProxyUrl | backend/app/services/video_processor.py:147-150 | the proxy URL starts with the scheme and the chosen pool user |
| VideoProcessor.ProxyHostIsEndpoint | backend/app/services/video_processor.py:34-177 | splitting a proxy URL on "@" gives the credentials and the shared endpoint and port, so the logged part is always the endpoint |
| VideoProcessor.IdChar | backend/app/services/video_processor.py:155-157 | defines the characters the id group `[^&\?\n]` accepts: anything but `&`, `?` and a newline |
| VideoProcessor.IdRunLen | backend/app/services/video_processor.py:155-157 | the id run is the longest run of characters other than "&", "?" and newline from that position |
| VideoProcessor.AltMatchesAt | backend/app/services/video_processor.py:155-157 | defines a match of one pattern alternative at a position: the alternative occurs there and at least one id character follows it |
| VideoProcessor.AltAt | backend/app/services/video_processor.py:155 | the first alternative that matches at a position, and none of the earlier ones match there |
| VideoProcessor.MatchAt | backend/app/services/video_processor.py:154-161 | there is a match at a position exactly when some alternative followed by an id character occurs there |
| VideoProcessor.MatchAtShape | backend/app/services/video_processor.py:155-157 | a match's group is a non-empty maximal run of id characters directly after one alternative |
| VideoProcessor.FirstMatchPos | backend/app/services/video_processor.py:160 | the leftmost match position, with no match before it |
| VideoProcessor.Search | backend/app/services/video_processor.py:160-162 | a search succeeds exactly when some position matches, and gives the group of the leftmost match |
| VideoProcessor.ExtractVideoId | backend/app/services/video_processor.py:152-163 | no id exactly when no pattern's search succeeds |
| VideoProcessor.IdFromFirstPattern | backend/app/services/video_processor.py:159-162 | the id is the group of the first pattern that matches |
| VideoProcessor.NoIdIffNoMatch | backend/app/services/video_processor.py:159-163 | no id is extracted exactly when no pattern matches anywhere in the URL |
| VideoProcessor.SearchShape | backend/app/services/video_processor.py:155-161 | a group found by a search is non-empty and holds only id characters |
| VideoProcessor.ExtractedIdShape | backend/app/services/video_processor.py:152-163 | an extracted id is non-empty and holds no "&", "?" or newline |
| VideoProcessor.SubmittedUrlHasId | backend/app/models.py:75 | a URL that passes the submission pattern yields an id as soon as an id character follows its prefix |
| VideoProcessor.ParagraphExists | backend/app/services/video_processor.py:207-211 | paragraph j exists exactly when snippet 5j does |
| VideoProcessor.ParagraphCount | backend/app/services/video_processor.py:207-211 | defines the number of paragraphs of n snippets, one per five rounded up |
| VideoProcessor.ParaStart | backend/app/services/video_processor.py:205-220 | defines where paragraph j starts: 0 for the first, otherwise the end of the last snippet of the paragraph before |
| VideoProcessor.Paragraph | backend/app/services/video_processor.py:203-220 | defines paragraph j: snippets 5j to 5j+4 (fewer for the last), their texts joined by a space, from its start to its last snippet's end |
| VideoProcessor.Paragraphs | backend/app/services/video_processor.py:203-220 | one paragraph per five snippets, rounding up, each the paragraph of its index |
| VideoProcessor.CloseParagraph | backend/app/services/video_processor.py:211-220 | closing after the fifth or the last snippet emits the joined texts from the paragraph's start to that snippet's end |
| VideoProcessor.SegmentCaptions | backend/app/services/video_processor.py:203-223 | the snippet loop yields exactly the paragraphs, and the full text joins them with blank lines |
| VideoProcessor.ParagraphSizes | backend/app/services/video_processor.py:211 | every paragraph holds between one and five snippets |
| VideoProcessor.ParagraphsCover | backend/app/services/video_processor.py:207-218 | read in order, the paragraphs' snippets are exactly the snippets, none lost, repeated or moved |
| VideoProcessor.GroupsFrom | backend/app/services/video_processor.py:207-218 | defines the texts of paragraphs j, j+1, ..., in order |
| VideoProcessor.ParagraphTiming | backend/app/services/video_processor.py:205-220 | the first paragraph starts at 0 and each later one where the one before ends |
| VideoProcessor.FindTrack | backend/app/services/video_processor.py:191-195 | the track of the first language code present, none exactly when no code is present |
| VideoProcessor.ChooseTrack | backend/app/services/video_processor.py:190-196 | a manual French or English track wins; otherwise a generated one, flagged as generated; none when neither exists |
| VideoProcessor.FetchCaptions | backend/app/services/video_processor.py:165-267 | no result without an id, a listing, a preferred track or its fetch; a result carries the id, the track's language and flag, the paragraphs, their joined text and the looked-up or fallback title |
| VideoProcessor.GetYoutubeTranscript | backend/app/services/video_processor.py:165-267 | the method returns the caption result |
| VideoProcessor.CleanUrl | backend/app/services/video_processor.py:272 | defines the URL handed to yt-dlp: a share link holding `?si=` loses everything from its first `?`, any other URL is kept |
| VideoProcessor.CleanUrlPrefix | backend/app/services/video_processor.py:272 | the cleaned URL is a prefix of the URL; a share link loses everything from its first "?", and any other URL is unchanged |
| VideoProcessor.Stops | backend/app/services/video_processor.py:314-330 | defines a probe that ends the strategy loop: a timeout, which escapes it, or a success |
| VideoProcessor.ProbeFailed | backend/app/services/video_processor.py:326-329 | defines a probe that records an error: a non-zero exit |
| VideoProcessor.ErrText | backend/app/services/video_processor.py:329 | defines a failed probe's `last_error`: its stderr cut to 200 characters, or "Unknown error" when stderr is empty |
| VideoProcessor.FirstStop | backend/app/services/video_processor.py:314-330 | the first probe that timed out or exited 0 with parseable output, and no earlier one did |
| VideoProcessor.LastFailed | backend/app/services/video_processor.py:328-329 | the last probe before the stop with a non-zero exit |
| VideoProcessor.LastFailure | backend/app/services/video_processor.py:312-329 | defines the error text of the last failed probe before the loop stopped, or none |
| VideoProcessor.ScanStrategies | backend/app/services/video_processor.py:310-330 | the loop stops at the first stopping probe, reports a timeout only for one, and keeps the error text of the last failed probe before it |
| VideoProcessor.Probes | backend/app/services/video_processor.py:303-317 | one probe per strategy, in order, on the cleaned URL |
| VideoProcessor.AllFailedMessage | backend/app/services/video_processor.py:333-334 | defines the error raised when no probe succeeds: "All strategies failed. Last error: " and the last error, or "Unable to access video" without one |
| VideoProcessor.IngestVideo | backend/app/services/video_processor.py:269-365 | a timeout gives the timeout error; no usable metadata gives the all-failed error with the last failure; success needs exit 0 and the created file, and returns the id, title and temporary path; a failed download reports its stderr cut to 200 characters |
| VideoProcessor.TranscriptDoc | backend/app/services/video_processor.py:390-397 | the document holds exactly three fields: the text, the summary (null when absent) and one entry per chapter, in order, each entry exactly the chapter's headline, start and end as JSON integers |
| VideoProcessor.JInt | backend/app/services/video_processor.py:392-395 | defines the JSON integer n: kept in thousandths, a whole multiple of 1000 whose value is n |
| VideoProcessor.ChapterJson | backend/app/services/video_processor.py:392-395 | defines a chapter entry: the headline, and the SDK's start and end in milliseconds, unchanged |
| VideoProcessor.ChaptersJson | backend/app/services/video_processor.py:390-397 | one entry per chapter, in order, each the chapter's own entry |
| VideoProcessor.ChapterEntries | backend/app/services/video_processor.py:392-395 | each chapter entry holds exactly the chapter's headline, start and end, the times unchanged as JSON integers |
| VideoProcessor.ChapterTimesUnchanged | backend/app/services/video_processor.py:392-395 | the number stored under "start" and "end" of every chapter entry is the chapter's own start and end, not rescaled |
| VideoProcessor.TranscribeAudio | backend/app/services/video_processor.py:367-414 | an SDK error raises with the "Transcription failed: " prefix and changes nothing; otherwise the document of the text, summary and chapters is stored as the job's transcript and only then is the audio file removed; a failed create changes nothing and keeps the file |
| VideoProcessor.AssetKind | backend/app/services/video_processor.py:428-476 | defines the four generators `generate_content_assets` calls, in order: blog post, Twitter thread, LinkedIn post, TikTok |
| VideoProcessor.AssetTypeFor | backend/app/services/video_processor.py:428-476 | defines the asset type each generator's result is stored under: BLOG_POST, TWITTER_THREAD, LINKEDIN_POST, TIKTOK |
| VideoProcessor.GeneratedAsset | backend/app/services/video_processor.py:428-476 | the k-th row is a GENERATED asset of the k-th type whose content is the generator's result |
| VideoProcessor.GeneratedAssets | backend/app/services/video_processor.py:428-476 | the four rows, in order |
| VideoProcessor.CreatedCount | backend/app/services/video_processor.py:416-484 | the creates before the first that raises all succeed, and the one after them raises |
| VideoProcessor.GenerateContentAssets | backend/app/services/video_processor.py:416-484 | it returns True exactly when all four creates succeed, and stores the rows before the first failure, in order |
| VideoProcessor.MapAssetType | backend/app/services/video_processor.py:98-107 | the four asset types map to themselves, INSTAGRAM to TIKTOK, any other key to BLOG_POST |
| VideoProcessor.MarkFailed | backend/app/services/video_processor.py:130-143 | the job becomes FAILED and, only if that succeeds, the video too; errors are swallowed |
| VideoProcessor.FailState | backend/app/services/video_processor.py:130-143 | defines the failure path: the job set to FAILED and, only if that goes through, the video too, with either error swallowed |
| VideoProcessor.ProcessVideo | backend/app/services/video_processor.py:41-145 | the tables afterwards are the as-written run's state for the caption result |
| VideoProcessor.ProcessVideoState | backend/app/services/video_processor.py:41-145 | defines `process_video` as written: PROCESSING, the caption fetch, the title write, then the missing `generate_content` method that sends every such run to the failure path |
| VideoProcessor.FailStateChangesStatusesOnly | backend/app/services/video_processor.py:130-143 | the failure path changes only the job's status to FAILED and the video's status to FAILED |
| VideoProcessor.ProcessVideoNeverCompletes | backend/app/services/video_processor.py:41-145 | the run as written stores no transcript or asset and never makes a video COMPLETED |
| VideoProcessor.ProcessVideoFailsWithoutFaults | backend/app/services/video_processor.py:84-141 | even with every write going through, the run as written leaves the video and its job FAILED |
| VideoProcessor.MappedAssets | backend/app/services/video_processor.py:96-115 | one GENERATED asset per generated entry, in order, typed by the mapping |
| VideoProcessor.CaptionDoc | backend/app/services/video_processor.py:88-93 | the stored document carries the transcript text |
| VideoProcessor.CreateAssetsAppends | backend/app/services/video_processor.py:106-115 | when no create raises, exactly the given rows are appended, in order |
| VideoProcessor.CreateAssetsStops | backend/app/services/video_processor.py:106-130 | once a create has raised, no later entry is issued |
| VideoProcessor.StoreMappedAssets | backend/app/services/video_processor.py:106-115 | the asset loop performs exactly the creates until the first that raises |
| VideoProcessor.CreateAssets | backend/app/services/video_processor.py:106-130 | defines the asset creates one after another, stopping at the first that raises, and whether all went through |
| VideoProcessor.ProcessVideoFixed | backend/app/services/video_processor.py:41-145 | the tables afterwards are the corrected run's state |
| VideoProcessor.ProcessVideoFixedState | backend/app/services/video_processor.py:41-145 | defines `process_video` with the generated contents supplied: PROCESSING, title, transcript, the mapped assets, then COMPLETED for the video and the job |
| VideoProcessor.ProcessVideoFixedCompletes | backend/app/services/video_processor.py:46-127 | with every write going through, the corrected run stores the transcript and the mapped assets and completes the job and the video under its title |
| VideoProcessor.ProcessVideoFixedNoTranscript | backend/app/services/video_processor.py:57-141 | without a transcript, the corrected run stores nothing and does not complete the video |
| Workflows.RetryFromSpec | backend/temporal_workflows/workflows.py:31-45 | from a given attempt on, the outcome is the last attempt made, every earlier one raised a retryable error, and no more attempts are made than the policy allows |
| Workflows.RetrySpec | backend/temporal_workflows/workflows.py:31-45 | between one and the allowed number of attempts are made, the outcome is the last one, every earlier one raised a retryable error, and a retryable error is final only at the last allowed attempt |
| Workflows.PolicyLimits | backend/temporal_workflows/workflows.py:31-45 | external calls get at most five attempts and a ValueError or TypeError is never retried; database activities get at most three attempts |
| Workflows.Retries | backend/temporal_workflows/workflows.py:31-45 | defines when a policy tries again: the attempt raised an error type the policy retries and fewer than its maximum attempts were made |
| Workflows.RetryFrom | backend/temporal_workflows/workflows.py:31-45 | defines attempts k, k+1, ... of an activity under a policy: the first outcome that is not retried and how many attempts were made |
| Workflows.Retry | backend/temporal_workflows/workflows.py:31-45 | defines an activity run under its retry policy from the first attempt |
| Workflows.DelaysGrowToCap | backend/temporal_workflows/workflows.py:31-45 | both policies wait 1 s and then twice as long each time, never more than 5 minutes and 30 seconds respectively and never less than before |
| Workflows.Delay | backend/temporal_workflows/workflows.py:31-45 | defines the wait before a retry: the initial interval times the backoff coefficient to the power of the retry index, capped at the maximum interval |
| Workflows.FanOutResults | backend/temporal_workflows/workflows.py:85-106 | one outcome per asset type, in the order their tasks were built |
| Workflows.StartFanOut | backend/temporal_workflows/workflows.py:88-103 | the loop that builds the content activities gathers exactly the five outcomes |
| Workflows.FanOutResult | backend/temporal_workflows/workflows.py:88-103 | defines the outcome of the content activity of the i-th asset type |
| Workflows.FanOutAccounting | backend/temporal_workflows/workflows.py:109-139 | every outcome is counted once, as generated or as failed, and a type is listed as failed exactly when its activity raised |
| Workflows.FailedAmongBefore | backend/temporal_workflows/workflows.py:109-112 | the failed list of a prefix names only raised types of that prefix |
| Workflows.CollectFailures | backend/temporal_workflows/workflows.py:109-113 | the loop collects exactly the types whose outcome is an exception, in order |
| Workflows.FailedAmong | backend/temporal_workflows/workflows.py:109-113 | defines the asset types among the first n outcomes whose outcome is an exception, in order |
| Workflows.ReturnedAmong | backend/temporal_workflows/workflows.py:109-139 | defines how many of the first n outcomes returned normally |
| Workflows.UpdateVideoStatus | backend/temporal_workflows/activities.py:15-31 | the video status write is applied to the tables, and a write that raises is swallowed |
| Workflows.MarkFailed | backend/temporal_workflows/workflows.py:144-167 | the tables afterwards are the failure path's |
| Workflows.FailPath | backend/temporal_workflows/workflows.py:144-167 | defines the failure path: the video is set to FAILED, its error swallowed by the activity, then the job, its error swallowed too |
| Workflows.Run | backend/temporal_workflows/workflows.py:19-174 | the tables and the returned dictionary are the run's |
| Workflows.WorkflowRun | backend/temporal_workflows/workflows.py:47-174 | defines the tables after a run and its return value: the upstream activities in order, the fan-out, the completion writes, and the failure path on any raised error, reporting the text of the exception the workflow caught |
| Workflows.CompletesDespiteFanOutFailures | backend/temporal_workflows/workflows.py:105-142 | with every write going through and the upstream activities returning, the run completes the video and the job whatever the content activities do; generated plus failed is five and a type is failed exactly when its activity raised |
| Workflows.FailPathSpec | backend/temporal_workflows/workflows.py:147-164 | the failure path sets the video and the job to FAILED when both updates can be made, and changes nothing else |
| Workflows.StatusWriteKeeps | backend/temporal_workflows/workflows.py:116-154 | a status write keeps the video keys, the jobs, the transcripts and the assets |
| Workflows.RunOutcomeMatchesStore | backend/temporal_workflows/workflows.py:47-174 | a failed run leaves the video and the job FAILED, a completed run leaves the job COMPLETED and the video too unless its update raised, and the workflow's own writes touch no transcript or asset |
| Workflows.UpstreamFailureStops | backend/temporal_workflows/workflows.py:47-174 | a raised upstream activity fails the run whatever the content activities do, and the error reported is the text of the exception caught for the first upstream activity that failed |
| Workflows.LateJobFailureUndoesCompletion | backend/temporal_workflows/workflows.py:116-164 | a job update that raises after the video was set COMPLETED sends the run to the failure path, which sets the video back to FAILED and the job to FAILED |
| SimpleProcessing.CaptionTranscript | backend/app/routes/simple_processing.py:45-50 | the stored caption document carries the caption text |
| SimpleProcessing.SegmentJson | backend/app/routes/simple_processing.py:45-50 | defines a stored caption paragraph: its text, start and duration |
| SimpleProcessing.MarkBothFailed | backend/app/routes/simple_processing.py:105-119 | the video becomes FAILED and, only if that succeeds, the job too; errors are swallowed |
| SimpleProcessing.FailBoth | backend/app/routes/simple_processing.py:105-119 | defines the failure path: the video set to FAILED and, only if that goes through, the job too, with either error swallowed |
| SimpleProcessing.Finish | backend/app/routes/simple_processing.py:83-100 | the content step runs, its result is ignored, and both records are set COMPLETED |
| SimpleProcessing.FinishState | backend/app/routes/simple_processing.py:83-100 | defines the content step, whose False is ignored, followed by the video and the job set to COMPLETED |
| SimpleProcessing.CaptionPath | backend/app/routes/simple_processing.py:31-60 | the title and the caption transcript are stored, then the content step |
| SimpleProcessing.CaptionState | backend/app/routes/simple_processing.py:31-60 | defines the caption path after PROCESSING: the title, the caption transcript, then the content step |
| SimpleProcessing.AudioPath | backend/app/routes/simple_processing.py:62-81 | the downloaded audio's title is stored, then the transcription and the content step |
| SimpleProcessing.AudioState | backend/app/routes/simple_processing.py:62-81 | defines the fallback after PROCESSING: the downloaded audio's title, then the transcription |
| SimpleProcessing.TranscribeAndFinish | backend/app/routes/simple_processing.py:78-100 | an SDK error or a failed transcript create marks both records FAILED; otherwise the AssemblyAI document (text, summary, chapters with their times unchanged) is stored as the job's transcript and the audio removed, then the content step runs |
| SimpleProcessing.TranscribedState | backend/app/routes/simple_processing.py:78-100 | defines the stored AssemblyAI transcript, the audio file removed, then the content step |
| SimpleProcessing.ProcessVideoComplete | backend/app/routes/simple_processing.py:11-122 | the tables afterwards are the pipeline's state for the caption result, the download and the transcript |
| SimpleProcessing.CompleteState | backend/app/routes/simple_processing.py:11-122 | defines `process_video_complete`: PROCESSING, the caption path or the audio fallback, and the failure path on any raise |
| SimpleProcessing.ProcessingComesFirst | backend/app/routes/simple_processing.py:18-27 | when the PROCESSING write raises, the outcome depends on nothing fetched later and no transcript is stored |
| SimpleProcessing.FailBothKeeps | backend/app/routes/simple_processing.py:105-119 | the failure path touches only statuses |
| SimpleProcessing.FinishKeepsFiles | backend/app/routes/simple_processing.py:83-100 | the content step and the COMPLETED updates touch no file |
| SimpleProcessing.FallbackOnlyWithoutCaptions | backend/app/routes/simple_processing.py:31-81 | with captions, the download and the transcription play no part and no file is touched |
| SimpleProcessing.FinishWithoutFaults | backend/app/routes/simple_processing.py:83-100 | with every write going through, all four assets are stored and both records end COMPLETED |
| SimpleProcessing.CaptionStateWithoutFaults | backend/app/routes/simple_processing.py:31-100 | after PROCESSING, with every write going through, the caption path stores title, transcript and four assets and completes both records |
| SimpleProcessing.CaptionPathCompletes | backend/app/routes/simple_processing.py:11-100 | with every write going through and captions found, the title and transcript are stored, the four assets created, and the video and job end COMPLETED |
| SimpleProcessing.FinishCompletes | backend/app/routes/simple_processing.py:83-100 | with only asset creates failing, the video and the job still end COMPLETED |
| SimpleProcessing.CompletedDespiteContentFailure | backend/app/routes/simple_processing.py:31-100 | on the caption path, failed asset writes do not stop completion and the transcript is still stored |
| SimpleProcessing.NoSourceFails | backend/app/routes/simple_processing.py:62-117 | without captions or a download, the video and job end FAILED and nothing is stored |
| SimpleProcessing.ProcessPendingVideos | backend/app/routes/simple_processing.py:136-151 | the runs queued are the rows that have a job, in order, and the message reports their count |
| SimpleProcessing.Queued | backend/app/routes/simple_processing.py:137-145 | defines the runs queued: one per listed row that has a job, in order |
| SimpleProcessing.ListsPending | backend/app/routes/simple_processing.py:131-134 | defines the query's listing: each PENDING video of the store once, with its job when it has one |
| SimpleProcessing.PendingWithJob | backend/app/routes/simple_processing.py:137-145 | defines the PENDING videos that have a job, the set the count is proved against |
| SimpleProcessing.QueuedMembers | backend/app/routes/simple_processing.py:137-145 | a video is queued exactly when it is listed with a job |
| SimpleProcessing.QueuedDistinct | backend/app/routes/simple_processing.py:131-145 | distinct rows give runs for distinct videos |
| SimpleProcessing.QueuedCountsPendingWithJob | backend/app/routes/simple_processing.py:131-145 | over the store's PENDING rows, the count is the number of PENDING videos that have a job |
| Processing.Admit | backend/app/routes/processing.py:30-46 | a missing video is denied with 404 "Video not found", another owner's video with 403 "Access denied", and the caller's own video is admitted |
| Processing.ProcessedTitle | backend/app/routes/processing.py:462 | defines the title `Processed Video - <first 8 characters of the id>` that a manual or batch run leaves |
| Processing.JobForM | backend/app/routes/processing.py:72-88 | the method performs the job step |
| Processing.JobFor | backend/app/routes/processing.py:72-88 | defines the job step: an existing job is put back to STARTED, otherwise a STARTED job with the workflow id is created; the value is the job's id |
| Processing.JobForSpec | backend/app/routes/processing.py:72-88 | afterwards the video has exactly one STARTED job: an existing one keeps its id and workflow id, a new one gets the fresh id and workflow id; no other video's job changes, and a failed write changes nothing |
| Processing.StoreTranscriptM | backend/app/routes/processing.py:108-123 | the method performs the transcript step |
| Processing.StoreTranscript | backend/app/routes/processing.py:108-123 | defines the create-or-update of the job's transcript row: the existing row's content is replaced, or a new row is created |
| Processing.StoreTranscriptSpec | backend/app/routes/processing.py:108-123 | whether or not a row existed, the job afterwards has exactly one transcript, the new document; the step fails only on the fault of the write it chose, and then changes nothing |
| Processing.JobAssets | backend/app/routes/processing.py:143-149 | one row per generated asset, carrying the job's id and the asset's type, content and status |
| Processing.ReplaceAssetsM | backend/app/routes/processing.py:137-149 | the method performs the delete and the creates |
| Processing.ReplaceAssets | backend/app/routes/processing.py:137-149 | defines the delete of the job's assets followed by one create per generated asset, in order, stopping at the first write that raises |
| Processing.CreateAssetsOnlyAssets | backend/app/routes/processing.py:143-149 | creating assets changes only the asset list |
| Processing.AssetsOfConcat | backend/app/routes/processing.py:143-149 | appending rows of one job extends that job's list by them and no other job's |
| Processing.ReplaceAssetsSpec | backend/app/routes/processing.py:137-149 | without faults, the job's assets become exactly the generated list, in order, and every other job keeps its own |
| Processing.ReplaceAssetsOnlyAssets | backend/app/routes/processing.py:137-149 | whatever fails, replacing assets changes only the asset list |
| Processing.TranscriptJson | backend/app/routes/processing.py:104-105 | the stored document carries the transcription's full text |
| Processing.SegmentJson | backend/app/routes/processing.py:104-105 | defines one segment as `json.dumps` writes it: start, end and text, and the confidence when there is one |
| Processing.DemoSegments | backend/app/routes/processing.py:316-322 | piece i spans 30 i to 30 i + 30 seconds and carries the i-th text |
| Processing.DemoTranscriptJson | backend/app/routes/processing.py:315-328 | defines the demo transcript document: the five demo segments, a full text naming the URL, language en, confidence 0.85, service demo and the note |
| Processing.DemoAssets | backend/app/routes/processing.py:352-435 | defines the four demo assets: a blog post naming the URL and the video id, a thread, a LinkedIn post and a newsletter naming the URL |
| Processing.DemoShape | backend/app/routes/processing.py:315-435 | the demo transcript's pieces are back to back, its full text names the URL, and the four demo assets are GENERATED, typed in order, name the URL, and the blog post names the video id |
| Processing.ManualDemoHasFiveSegments | backend/app/routes/processing.py:316-322 | the manual demo transcript has five pieces |
| Processing.FetchM | backend/app/routes/processing.py:92-101 | the method performs the download and transcription step |
| Processing.Fetch | backend/app/routes/processing.py:92-101 | defines download then transcription, with the audio file on disk from the download on and removed only after the transcription returns |
| Processing.AcquireM | backend/app/routes/processing.py:59-101 | the method performs the extraction, title, job and fetch steps |
| Processing.Acquire | backend/app/routes/processing.py:59-101 | defines info extraction, title write, the job step and the fetch, stopping at the first step that raises |
| Processing.FetchFileLifetime | backend/app/routes/processing.py:92-101 | a transcription that raises leaves the downloaded audio on disk, a successful one removes it, and only files change |
| Processing.ContentFor | backend/app/routes/processing.py:126-134 | defines the content the generator returns for the transcript's full text, the stored title and the URL |
| Processing.PersistM | backend/app/routes/processing.py:108-161 | the method performs the transcript, asset, job and video writes |
| Processing.Persist | backend/app/routes/processing.py:108-161 | defines the transcript write, the asset replacement, then the job and the video set to COMPLETED, stopping at the first write that raises |
| Processing.ForceRealProcessing | backend/app/routes/processing.py:19-189 | the tables and the reply are the route's |
| Processing.ForceRealBody | backend/app/routes/processing.py:28-172 | defines the `try` of `force_real_processing`: admission, PROCESSING, acquisition, content, persisting and the success reply |
| Processing.ForceRealStore | backend/app/routes/processing.py:126-172 | defines the end of that `try`: generate the content, persist it with the transcript, answer with the video id, the asset count and the title |
| Processing.Handle | backend/app/routes/processing.py:174-187 | defines the handler: the video alone is set to FAILED, an error of that write is swallowed, and the route answers 500 naming the error |
| Processing.ForceRealRun | backend/app/routes/processing.py:19-189 | defines `force_real_processing` as written: every exception from the `try`, the 404 and 403 included, goes to the handler |
| Processing.ForceRealTry | backend/app/routes/processing.py:28-172 | the method performs the route's try body |
| Processing.ForceRealDenialAsWritten | backend/app/routes/processing.py:35-187 | as written, a missing video gets 500 instead of 404, and a non-owner gets 500 instead of 403 while the video they may not touch is set FAILED |
| Processing.ForceRealRunFixed | backend/app/routes/processing.py:19-189 | defines `force_real_processing` with HTTP errors re-raised unchanged before the handler |
| Processing.ForceRealFixedDenies | backend/app/routes/processing.py:35-187 | with HTTP errors let through, a missing video is a 404 and a non-owner a 403, both without a state change; an admitted caller gets what the route as written gives |
| Processing.AcquireKeepsNoFailedJob | backend/app/routes/processing.py:59-101 | the acquisition steps mark no job FAILED |
| Processing.PersistKeepsNoFailedJob | backend/app/routes/processing.py:108-161 | the persisting steps mark no job FAILED |
| Processing.EffectKeepsNoFailedJob | backend/app/routes/processing.py:108-161 | a write that neither creates a job nor marks one FAILED leaves no job FAILED |
| Processing.JobForKeepsNoFailedJob | backend/app/routes/processing.py:71-88 | creating or restarting the job leaves no job FAILED |
| Processing.ForceRealNeverFailsJob | backend/app/routes/processing.py:174-183 | the forced route never marks a job FAILED, whatever fails along the way |
| Processing.ForceRealBodyKeepsNoFailedJob | backend/app/routes/processing.py:28-172 | the forced route's try body marks no job FAILED |
| Processing.ManualSourceM | backend/app/routes/processing.py:231-328 | the method performs the inner try and its demo fallback |
| Processing.ManualSource | backend/app/routes/processing.py:231-328 | defines the inner `try` of the manual route: the real job, transcript and content, or on any error the demo job, transcript and assets |
| Processing.ManualBody | backend/app/routes/processing.py:220-474 | defines the outer `try` after the admission checks: PROCESSING, the inner `try`, then the transcript, the assets, the COMPLETED job and the COMPLETED video with its processed title |
| Processing.ManualRun | backend/app/routes/processing.py:191-493 | defines `process_video_manually`: HTTP errors re-raised unchanged, any other exception sent to the handler that sets the video FAILED |
| Processing.ProcessVideoManually | backend/app/routes/processing.py:191-493 | the tables and the reply are the manual route's |
| Processing.ManualDenialsChangeNothing | backend/app/routes/processing.py:207-477 | the manual route answers a missing video with 404 and a non-owner with 403, and changes nothing |
| Processing.ManualDemoFallback | backend/app/routes/processing.py:289-474 | when the real pipeline fails at the start and no write fails, a video without a job gets a demo job, the demo transcript and the four demo assets, and ends COMPLETED under the processed title |
| Processing.ManualBodyDemo | backend/app/routes/processing.py:220-464 | the manual body on the demo path, without faults, counts four assets and stores the demo job, transcript and assets |
| Processing.FreshJobPersists | backend/app/routes/processing.py:330-464 | without faults, persisting after a fresh job was set up completes it and the video, with the given transcript and assets |
| Processing.ManualBodyThroughDemo | backend/app/routes/processing.py:231-464 | without faults, the demo path of the manual body is the persisting of the demo job, transcript and assets |
| Processing.DemoSourceWithoutFaults | backend/app/routes/processing.py:289-328 | when the info extraction raises, the fallback sets up the demo job and hands on the demo transcript and assets |
| Processing.PersistCompletes | backend/app/routes/processing.py:330-464 | without faults, the transcript is stored, the job's assets are exactly the given ones, the job is COMPLETED and the video COMPLETED under the given title |
| Processing.ManualOverwritesTitle | backend/app/routes/processing.py:457-464 | a successful manual run always ends with the processed title, overwriting the real title stored on the way |
| Processing.PersistEndsWithVideo | backend/app/routes/processing.py:157-464 | a persisting step that goes through ends with its video write |
| Processing.ProcessAllPendingVideos | backend/app/routes/processing.py:495-581 | over the query's listing of the caller's own PENDING videos, the loop leaves the tables and the reply of `BatchRun`: per video PROCESSING, a transcript row, a blog-post asset row and COMPLETED with the processed title, the FAILED write on a raise, and a 500 when that write raises |
| Processing.BatchStopsAfterAbort | backend/app/routes/processing.py:561-579 | once the handler's FAILED write has raised, no later video is visited |
| Processing.RowRunSpec | backend/app/routes/processing.py:520-559 | one video's loop body changes only that video and appends its own rows keyed by its id: none when PROCESSING or the transcript create raises, the transcript row alone when the asset create raises, both otherwise; it completes the video exactly when its writes go through |
| Processing.RowRunVideos | backend/app/routes/processing.py:520-559 | in the videos table, only the processed video changes, and it gets COMPLETED and the title "Processed Video - " with its first 8 characters exactly when its writes go through |
| Processing.RowRunRows | backend/app/routes/processing.py:520-559 | besides the videos, one video's loop body changes only the video-keyed rows, appending exactly its own transcript and asset rows as far as its creates go through |
| Processing.BatchStepTables | backend/app/routes/processing.py:518-566 | one more video in a batch that goes on adds one to the count exactly when its body went through, appends its own rows, and changes no other table |
| Processing.BatchTables | backend/app/routes/processing.py:518-566 | a batch that runs to its end has counted exactly the videos whose body went through; the video-keyed transcript and asset rows are the listed videos' rows in turn, and no table other than the videos changes |
| Processing.BatchSpec | backend/app/routes/processing.py:518-566 | in a batch that runs to its end, each listed video ends COMPLETED when its body went through and FAILED otherwise, and unlisted videos are untouched |
| Processing.BatchRunsToEnd | backend/app/routes/processing.py:561-566 | without a fault on the FAILED writes, the batch always runs to its end |
| Processing.BatchLeavesOthersAlone | backend/app/routes/processing.py:505-566 | another owner's videos are never touched |
| Processing.OwnPending | backend/app/routes/processing.py:505-517 | defines a video the batch query returns: PENDING and in a workspace the caller owns |
| Processing.ListsUserPending | backend/app/routes/processing.py:505-517 | defines the query's listing: each of the caller's PENDING videos exactly once, and nothing else |
| Processing.BatchTranscriptRow | backend/app/routes/processing.py:530-538 | defines the batch's transcript row: keyed by the video id, content `Simulated transcript for video <id>`, COMPLETED |
| Processing.BatchAssetRow | backend/app/routes/processing.py:540-548 | defines the batch's asset row: keyed by the video id, type blog_post, content `Blog post content for <id>`, COMPLETED |
| Processing.RowRun | backend/app/routes/processing.py:520-559 | defines one video's loop body: PROCESSING, the transcript row, the asset row, then COMPLETED with the processed title, keeping the writes made before a raise |
| Processing.RowRunM | backend/app/routes/processing.py:520-557 | the loop body's four writes leave the tables and the outcome of `RowRun` |
| Processing.BatchStep | backend/app/routes/processing.py:519-566 | defines one more video of the batch: its loop body, and on a raise the unguarded FAILED write, whose own raise ends the batch |
| Processing.BatchFrom | backend/app/routes/processing.py:519-566 | defines the loop over the listed videos, counting the loop bodies that go through |
| Processing.BatchRun | backend/app/routes/processing.py:495-581 | defines `process_all_pending_videos` over the listed video ids: the count on success, 500 when a FAILED write raised |
| Processing.RowClean | backend/app/routes/processing.py:520-559 | defines a video whose loop body's writes all go through |
| Processing.RowRows | backend/app/routes/processing.py:520-548 | defines the rows a loop body leaves keyed by the video: none when PROCESSING or the transcript create raises, the transcript alone when the asset create raises, both otherwise |
| Processing.BatchRows | backend/app/routes/processing.py:519-566 | defines the rows the listed videos' loop bodies leave keyed by video, in order |
| Processing.CleanCount | backend/app/routes/processing.py:519-566 | defines the number of listed videos whose loop body goes through |
| Worker.Basename | backend/simple_worker_prisma.py:115 | the file name holds no "/" |
| Worker.WorkflowId | backend/simple_worker_prisma.py:59 | defines the worker's workflow id `video-processing-<video id>-<first 8 hex digits>` |
| Worker.LocalPath | backend/simple_worker_prisma.py:87 | defines the local path of an uploaded video: every `file://` in its URL removed, not only the prefix |
| Worker.SplitLastHasNoSlash | backend/simple_worker_prisma.py:115 | the last piece of a split on "/" holds no "/" |
| Worker.LastChars | backend/simple_worker_prisma.py:113 | the last n characters, or the whole text when it is shorter |
| Worker.SegmentsJson | backend/simple_worker_prisma.py:163-173 | one stored segment per Whisper segment, in order |
| Worker.SegmentJson | backend/simple_worker_prisma.py:165-170 | defines one stored segment: its start, end and text |
| Worker.WhisperJson | backend/simple_worker_prisma.py:162-172 | defines the stored transcript document: the text, and the segments in order |
| Worker.ReadSegmentOfStored | backend/simple_worker_prisma.py:166-170 | a stored segment reads back as itself |
| Worker.ReadSegment | backend/simple_worker_prisma.py:165-170 | defines reading a stored segment back: an object with a numeric start and end and a string text, or nothing |
| Worker.ReadSegments | backend/simple_worker_prisma.py:165-172 | defines reading the stored segments back, in order, or nothing when one does not read |
| Worker.ReadSegmentsOfStored | backend/simple_worker_prisma.py:165-172 | the stored segments read back as the segments, in order |
| Worker.ReadWhisper | backend/simple_worker_prisma.py:162-172 | defines reading a stored transcript back into its text and segments, or nothing when the document is not of that shape |
| Worker.WhisperRoundTrip | backend/simple_worker_prisma.py:157-180 | the stored transcript reads back as the text and every segment's start, end and text, in order |
| Worker.KeptMembers | backend/simple_worker_prisma.py:199-218 | exactly the generators whose asset write goes through are kept |
| Worker.AssetsFor | backend/simple_worker_prisma.py:203-214 | one asset per kept generator |
| Worker.GenAsset | backend/simple_worker_prisma.py:202-214 | defines a generator's asset row: its type, the generated content, GENERATED, the job's id |
| Worker.Generated | backend/simple_worker_prisma.py:199-218 | defines the generator loop: an asset whose write goes through is appended and counted, one whose write raises is skipped |
| Worker.Kept | backend/simple_worker_prisma.py:199-218 | defines the generators whose asset write goes through, in order |
| Worker.GeneratedSpec | backend/simple_worker_prisma.py:199-218 | the loop appends the assets of the generators whose write goes through, in order, changes nothing else, and counts them; a failed write does not stop later ones |
| Worker.GeneratedCount | backend/simple_worker_prisma.py:192-218 | with the four generators, the count is four less the number of asset writes that raise |
| Worker.NewJobM | backend/simple_worker_prisma.py:47-69 | the method performs the job step |
| Worker.NewJob | backend/simple_worker_prisma.py:47-69 | defines the job step: the video's job deleted when it has one, then a STARTED job with a fresh workflow id created; the value is the new job's id |
| Worker.FetchAudioM | backend/simple_worker_prisma.py:80-149 | the method performs the audio step |
| Worker.FetchAudio | backend/simple_worker_prisma.py:80-149 | defines the audio step: a `file://` source probed for an audio stream and extracted to `/tmp/<hex>.mp3`, titled by its stored title or file name; any other URL downloaded to `/tmp/<id>.mp3` with its title stored |
| Worker.TranscribedM | backend/simple_worker_prisma.py:151-180 | the method performs the transcription step |
| Worker.Transcribed | backend/simple_worker_prisma.py:151-180 | defines the transcription step: Whisper on the audio, then the transcript row of the job; the value is the transcript text |
| Worker.GenerateAssets | backend/simple_worker_prisma.py:199-218 | the method performs the generator loop |
| Worker.CompletionM | backend/simple_worker_prisma.py:220-236 | the method performs the completion step |
| Worker.Completion | backend/simple_worker_prisma.py:220-236 | defines completion: the video then the job set to COMPLETED, then the audio file removed when it exists |
| Worker.AttemptRowM | backend/simple_worker_prisma.py:40-236 | the method performs one turn's try block |
| Worker.AttemptRow | backend/simple_worker_prisma.py:40-236 | defines one turn's `try` block: the job step, which rebinds the `job` variable, then the rest of the turn |
| Worker.AfterJobM | backend/simple_worker_prisma.py:71-236 | the method performs the turn from PROCESSING on |
| Worker.AfterJob | backend/simple_worker_prisma.py:71-236 | defines the turn once its job exists: PROCESSING, then the audio, then transcription, generation and completion |
| Worker.TranscribingM | backend/simple_worker_prisma.py:151-236 | the method performs transcription, generation and completion |
| Worker.Transcribing | backend/simple_worker_prisma.py:151-236 | defines the turn once the audio is there: transcript, generators, completion; the value is the generated count |
| Worker.HandlerM | backend/simple_worker_prisma.py:244-260 | the method performs the handler |
| Worker.Handler | backend/simple_worker_prisma.py:244-260 | defines the handler: the video set to FAILED, then the job the `job` variable names, if bound; a raise in either write ends the batch |
| Worker.Turn | backend/simple_worker_prisma.py:39-260 | one loop turn as written |
| Worker.WorkerStep | backend/simple_worker_prisma.py:39-260 | defines one loop turn as written: the `try` block, the handler on any exception, and the `job` variable carried to the next turn |
| Worker.WorkerFrom | backend/simple_worker_prisma.py:23-265 | defines `process_pending_videos` over the listed rows, each turn with its own drawn identifiers, stopping when a handler write raises |
| Worker.ProcessPendingVideos | backend/simple_worker_prisma.py:23-265 | over the query's listing of the PENDING videos, the tables afterwards are the batch's as written |
| Worker.ListsPending | backend/simple_worker_prisma.py:27-30 | defines the query's listing: every PENDING video once, with its URL and title |
| Worker.ListingIsPending | backend/simple_worker_prisma.py:27-30 | the listing's rows are distinct stored videos, and a stored video is listed exactly when it is PENDING |
| Worker.WorkerStopsAfterStop | backend/simple_worker_prisma.py:244-265 | once a handler write has raised, no later row is visited |
| Worker.NewJobSpec | backend/simple_worker_prisma.py:47-69 | after the step the video has exactly the new STARTED job named video-processing-id-hex, the other jobs are untouched, and job ids stay unique |
| Worker.SilentUploadRaises | backend/simple_worker_prisma.py:84-98 | a file without an audio stream raises before any file is written |
| Worker.FetchAudioSpec | backend/simple_worker_prisma.py:84-145 | an upload is extracted to /tmp/hex.mp3 keeping the stored title; a download's title is stored on the video; no status, job, transcript or asset changes |
| Worker.CompletionSpec | backend/simple_worker_prisma.py:220-236 | completion changes only the video's own rows, and ends with the video and its job COMPLETED and the audio removed |
| Worker.TranscribingSpec | backend/simple_worker_prisma.py:151-236 | transcript, generators and completion touch only the video's own rows and end with both COMPLETED when they go through |
| Worker.AfterJobSpec | backend/simple_worker_prisma.py:71-236 | from PROCESSING on, the turn touches only the video's own rows and ends with both COMPLETED when it goes through |
| Worker.AttemptRowSpec | backend/simple_worker_prisma.py:40-236 | a turn changes no other video or other video's job, keeps job ids unique, completes its video when it goes through, and leaves the job variable as it was or bound to its own new job |
| Worker.CompletesDespiteAssetFaults | backend/simple_worker_prisma.py:40-236 | with the programs answering and only asset writes failing, a downloaded video and its new job both end COMPLETED |
| Worker.AfterJobWithoutFaults | backend/simple_worker_prisma.py:71-236 | from PROCESSING on, with only asset writes failing, the video and its job end COMPLETED |
| Worker.TranscribingWithoutFaults | backend/simple_worker_prisma.py:151-236 | with only asset writes failing, transcription onwards completes the video and its job |
| Worker.FailureMarksVideoAndJob | backend/simple_worker_prisma.py:244-260 | on an exception, the handler sets the video FAILED and, when the turn created its job, that job too |
| Worker.StaleJobMarkedFailed | backend/simple_worker_prisma.py:256-260 | as written, a turn whose job cannot be created marks the previous video's job FAILED |
| Worker.WorkerStepFixed | backend/simple_worker_prisma.py:39-260 | defines one turn with the `job` variable cleared at its start |
| Worker.WorkerFromFixed | backend/simple_worker_prisma.py:23-265 | defines the batch made of the fixed turns |
| Worker.FixedTurnKeepsOtherJobs | backend/simple_worker_prisma.py:39-260 | with the job variable cleared per turn, a turn touches no other video's job and job ids stay unique |
| Worker.HandlerSpec | backend/simple_worker_prisma.py:250-260 | the handler changes no other video, keeps job ids unique, and ends the batch exactly when one of its writes raises |
| Worker.WorkerStepSpec | backend/simple_worker_prisma.py:39-260 | a turn as written changes no other video, keeps job ids unique, and leaves its video COMPLETED or FAILED unless the batch ends |
| Worker.HandlerOwnJob | backend/simple_worker_prisma.py:250-260 | given the video's own job, the handler changes only that job |
| Worker.FixedWorkerKeepsUnlistedJobs | backend/simple_worker_prisma.py:23-265 | the fixed worker never changes the job of a video it does not list, and job ids stay unique |
| Worker.WorkerSettlesRows | backend/simple_worker_prisma.py:23-265 | when the batch runs to its end, every listed video ends COMPLETED or FAILED, and unlisted videos keep their row |
| Worker.SettleStep | backend/simple_worker_prisma.py:39-260 | the settled property extends from the rows before the last turn to all rows |
| Videos.OwnWorkspace | backend/app/routes/videos.py:42-56 | a missing workspace is refused with 404 "Workspace not found", another owner's with 403 "Access denied to this workspace", and the caller's own is let on |
| Videos.WorkflowIdOf | backend/app/routes/videos.py:69 | defines the workflow id `process-video-<video id>-<job id>` |
| Videos.CreateRecordsSpec | backend/app/routes/videos.py:58-78 | both writes go through exactly when neither is faulty, the video id is new and the job id unused; then the tables gain the video and its STARTED job and nothing else; a failed job write leaves the video behind |
| Videos.CreateRecords | backend/app/routes/videos.py:58-78 | defines the two creates: the PENDING video row, then its STARTED job carrying the workflow id |
| Videos.CreateRecordsM | backend/app/routes/videos.py:58-78 | the method performs the two creates |
| Videos.Submit | backend/app/routes/videos.py:30-110 | defines `submit_video_for_processing`: URL validation, workspace checks, the two rows, the workflow start, and 500 for any error, with the rows kept |
| Videos.SubmitVideo | backend/app/routes/videos.py:30-110 | the tables and the reply are the submission's |
| Videos.SubmitDenials | backend/app/routes/videos.py:33-56 | an invalid URL, a missing workspace and another user's workspace are refused with 422, 404 and 403, and none of them writes anything |
| Videos.SubmitCreates | backend/app/routes/videos.py:58-100 | an accepted submission adds one PENDING video with the URL and one STARTED job with workflow id process-video-video-job; the reply carries the ids, and a started workflow gets the same id, the URL and the job id on the video-processing queue |
| Videos.SubmitKeepsRowsWhenLaunchFails | backend/app/routes/videos.py:80-108 | a workflow that fails to start answers 500 but keeps both rows |
| Videos.LastIndex | backend/app/routes/videos.py:432 | the last position of the character, with none after it, or none at all |
| Videos.SplitExt | backend/app/routes/videos.py:432 | defines POSIX `os.path.splitext`: the extension starts at the last "." of the last path component, unless that component holds only dots before it |
| Videos.BaseStart | backend/app/routes/videos.py:432 | defines where the last path component starts: after the last "/" |
| Videos.SplitExtSpec | backend/app/routes/videos.py:432 | root and extension make up the path; an extension is empty or a dot followed by neither dot nor slash, and never the whole last component |
| Videos.LastIndexLower | backend/app/routes/videos.py:432 | lower-casing keeps the last position of a dot or a slash |
| Videos.SplitExtLower | backend/app/routes/videos.py:432 | lower-casing commutes with taking the extension |
| Videos.HasNonDotLower | backend/app/routes/videos.py:432 | lower-casing keeps whether a range holds a character other than a dot |
| Videos.ExtensionCaseInsensitive | backend/app/routes/videos.py:431-438 | two file names equal once lower-cased are both accepted or both refused, with the same stored extension |
| Videos.UpperCaseExtensionAccepted | backend/app/routes/videos.py:431-434 | an upper-case extension is accepted, lower-cased |
| Videos.LastDotStartsExtension | backend/app/routes/videos.py:432 | only the last dot starts the extension |
| Videos.NoExtensionRefused | backend/app/routes/videos.py:431-438 | a name that is only a dotted extension, or a dot in a directory name, gives no extension and is refused |
| Videos.UploadExt | backend/app/routes/videos.py:432 | defines the lower-cased extension that the upload route checks and keeps |
| Videos.PathJoin | backend/app/routes/videos.py:441-446 | defines POSIX `os.path.join` of two parts: the second when it is absolute, else the two joined by a single "/" |
| Videos.UploadPath | backend/app/routes/videos.py:441-446 | defines the saved file's path `<cwd>/uploads/videos/<file id><ext>` |
| Videos.Upload | backend/app/routes/videos.py:402-494 | defines `upload_video_file`: workspace checks, the extension check, the saved file, the two rows with a `file://` URL, the workflow start, and 500 for any error |
| Videos.UploadVideoFile | backend/app/routes/videos.py:402-494 | the tables and the reply are the upload's |
| Videos.UploadExtensionCheck | backend/app/routes/videos.py:430-438 | after the workspace checks, a file whose lower-cased extension is not one of the eight is refused with 400 listing them and nothing is written, and a file with one of them is never refused with 400 |
| Videos.UploadCreates | backend/app/routes/videos.py:440-482 | an accepted upload saves the file under the fresh id with its lower-cased extension and adds one PENDING video titled with the file name, whose URL is file:// and the saved path, and its STARTED job; a later failure leaves the file behind |
| Videos.UploadedUrlIsLocal | backend/app/routes/videos.py:456 | the worker reads an uploaded video's URL back as the saved path, on its file:// branch |
| Videos.GetOr | backend/app/routes/videos.py:280-281 | the value under a key, or the default when it is missing |
| Videos.Decoded | backend/app/routes/videos.py:271-276 | defines what the route holds after reading `fullTranscript`: a stored document as loaded, text that is not JSON wrapped under `full_text` |
| Videos.GetTranscript | backend/app/routes/videos.py:228-290 | defines `get_video_transcript`: 404 for a missing video or transcript, 403 for another user's, the content under `full_text`, and 500 for any other error |
| Videos.TranscriptAnswers | backend/app/routes/videos.py:248-282 | 404 for a missing video, 403 for another user's, 404 without job or transcript, and otherwise the loaded document's full_text and segments, defaulting to "" and [] |
| Videos.RawTranscriptWrapped | backend/app/routes/videos.py:271-276 | a transcript that is not JSON comes back as the whole content, with no segments |
| Videos.ProcessingTranscriptReadsBack | backend/app/routes/videos.py:271-282 | a transcript the processing routes stored reads back with its full text |
| Videos.WorkerTranscriptContentLost | backend/app/routes/videos.py:280 | as written, a transcript the worker stored reads back with empty content whatever its text |
| Videos.ContentOf | backend/app/routes/videos.py:280 | the content under full_text, else under text, else "" |
| Videos.GetTranscriptFixed | backend/app/routes/videos.py:228-290 | defines `get_video_transcript` reading `text` when `full_text` is missing |
| Videos.FixedReadsWorkerTranscript | backend/app/routes/videos.py:228-290 | with the text fallback, the worker's transcript reads back with its text and every segment, and every other answer is unchanged |
| Models.EnumerationsExact | backend/app/models.py:9-30 | four video statuses, three job statuses, five asset types and three asset statuses, each listed once under a distinct name |
| Models.ParseVideoStatus | backend/app/models.py:9-13 | a parsed status has the given name, and every status name parses |
| Models.ParseJobStatus | backend/app/models.py:15-18 | a parsed job status has the given name, and every job status name parses |
| Models.ValidSubmitUrl | backend/app/models.py:75 | defines the submission URL pattern: the URL starts with `http://` or `https://`, an optional `www.`, then `youtube.com/watch?v=` or `youtu.be/` |
| Models.ValidateUserCreate | backend/app/models.py:33-36 | a registration is accepted exactly when the email passes the EmailStr check, the password has at least 8 characters and the workspace name at least 1, and then holds the normalized address with the password and workspace name as given; an invalid email is always an error |

## Left out

- Clock times and durations are integer milliseconds and integer seconds. The floating-point division by 1000 and float arithmetic on durations are not modelled. AssemblyAI's confidences are integer thousandths.
- JSON numbers are exact, not floats: `Db.JNum(m)` is the number m / 1000 (`Db.NumValue`). A stored chapter start of 5 is therefore `JNum(5000)`, and the demo's 30.0 seconds is `JNum(30000)`.
- Credentials are not part of the model. That covers the residential proxy pool with its password, the hard-coded AssemblyAI key and the Gemini and OpenAI keys. The proxy pool is a parameter, and random proxy choice is an injected index. A key is a parameter whose only role is whether it is empty.
- External tools and services are oracles passed as parameters. That covers yt-dlp, ffmpeg, ffprobe, Whisper, the AssemblyAI SDK and HTTP API, the OpenAI and Gemini SDKs, youtube_service and the caption API. Their outputs are arbitrary values, and their errors are explicit outcomes.
- The AssemblyAI poll loop runs over a finite list of poll answers. A list with no terminal answer models the loop that is still polling, because the source's `while True` may never end.
- Concurrency is not modelled: FastAPI BackgroundTasks, `asyncio.gather`, Temporal workers and `asyncio.sleep` intervals. Fan-out results are independent outcomes taken in order. Retries are counted attempt by attempt, but the back-off intervals between them are only constants.
- Connecting to and disconnecting from the Prisma client are not modelled; the store is always reachable, and a write fails only when it is in the injected faulty set.
- Only the `update_video_status` activity is modelled in workflows.py. The other activities are oracles.
- Workflows.RunOutcomeMatchesStore: the oracle activities' own writes are not modelled: `transcribe_audio` stores a transcript row (backend/temporal_workflows/activities.py:105) and `generate_content_assets` stores content assets (backend/temporal_workflows/activities.py:267, 285). The lemma's clause on transcripts and assets covers the workflow's own writes only.
- Workflows.WorkflowRun: the text of the ActivityError that `workflow.execute_activity` raises (backend/temporal_workflows/workflows.py:144, 173) is a parameter `caught` of the activity's name, error type and message; how Temporal renders it is not modelled.
- Workflows.Retries: a `maximum_attempts` of 0, which Temporal reads as unlimited, stands for one attempt; only the policies with 5 and 3 attempts occur.
- The order of JSON keys and the row order of store listings are not modelled; listings are treated as sets of rows.
- Lower and upper casing is ASCII only. Unicode case mapping is not modelled.
- File sizes, directory creation, failures of file writes and the uploaded file's bytes are not modelled. The upload stores only the record.
- Processing.ForceRealStore: transcript rows carry no id in the model (they are keyed by their job), so the `transcript_id` field of the reply (backend/app/routes/processing.py:168) is not modelled.
- Processing.ManualRun: transcript rows carry no id in the model, so the `transcript_id` field of the manual route's reply (backend/app/routes/processing.py:470) is not modelled.
- Videos.GetTranscript: transcript rows carry no id in the model, so the `"id"` field of the transcript read-back (backend/app/routes/videos.py:279) is not modelled.
- A null title is modelled as the empty string.
- The wording of pydantic's 422 validation error is not modelled; a rejected input is an error value.
- Models.ValidateUserCreate: the address check and normalization of pydantic's `EmailStr` is the email-validator library. It is a parameter `normalize` (None, or the normalized address), not a model of RFC 5322 syntax, of its deliverability rules or of how it normalizes.
- The demo texts, the template bodies and the prompt texts are parameters, not literal strings. The model states where each piece goes and how it is counted, not its wording.
- An ffmpeg output file is created only when ffmpeg succeeds.
- VideoProcessor.TranscribeAudio: the SDK transcript is assumed terminal, either completed or error, because the SDK call blocks until it is.
- VideoProcessor.IngestVideo: a probe result whose id or title is not a string is an error value. Python would either raise later or store the non-string value.
- The `pip install --upgrade yt-dlp` step and the cookie-file option of `ingest_video` are not modelled; they only change the oracle's behaviour.
- `HealthCheckWorkflow` (backend/temporal_workflows/workflows.py:176-186) is not modelled; it only reads the clock.
- The worker's `main` loop (backend/simple_worker_prisma.py:267-309) is not modelled. It is an endless poll with sleeps, and the model has one batch (`Worker.ProcessPendingVideos`) as that loop's body.
- The other routes of videos.py are not modelled: listing workspace videos, video details, video content and deletion. They are thin reads and deletes outside the pipeline.
- Usage: the limit stored in a usage record is kept but never read back; as in the source, the reported limit is recomputed from the plan. The create branch of the increment's upsert is modelled, but it cannot be reached, because the lookup before it always creates the row.

## Findings

| source | as written | input that shows it | evidently intended | confidence | as-written member | corrected member |
|---|---|---|---|---|---|---|
| backend/app/services/video_processor.py:84 | `process_video` calls `generate_content` on the Gemini service, which has no such method, so every run that gets that far ends FAILED | any video whose ingest and transcription succeed | the service's content generation runs and the video reaches COMPLETED | not executed | VideoProcessor.ProcessVideoFailsWithoutFaults | VideoProcessor.ProcessVideoFixedCompletes |
| backend/app/routes/progress.py:39-40,136-143 | the 404 for a missing video is raised inside `try` and caught by `except Exception`, so the client gets a 500 | a video id that is not in the store | a missing video gets a 404 | not executed | Progress.MissingVideoIsServerError | Progress.FixedProgressAnswers |
| backend/app/routes/processing.py:35-46,174-187 | the 404 and 403 of `force_real_processing` are raised inside `try`, caught, the video is marked FAILED and a 500 is returned | a caller who does not own the video | a 403 with no change to the store | not executed | Processing.ForceRealDenialAsWritten | Processing.ForceRealFixedDenies |
| backend/simple_worker_prisma.py:256-260 | `'job' in locals()` still sees the job of the previous video, so a failure before the new job exists marks the previous video's job FAILED | two pending videos where the second fails before its job is created | only the failing video's own job is marked FAILED | not executed | Worker.StaleJobMarkedFailed | Worker.FixedTurnKeepsOtherJobs |
| backend/app/routes/videos.py:280 | `get_video_transcript` reads only the `full_text` key, while the polling worker stores the text under `text`, so its transcripts read back empty | a transcript written by the polling worker | the worker's stored text is returned | not executed | Videos.WorkerTranscriptContentLost | Videos.FixedReadsWorkerTranscript |
