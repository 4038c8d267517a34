/** The transcription service (backend/app/services/transcription_service.py):
    local Whisper when available, else AssemblyAI when a key is configured,
    else a demo transcript.  Whisper, the AssemblyAI endpoints and the WAV
    reader are oracles given as parameters.  Times are integer milliseconds
    and confidences integer thousandths. */
module Transcription {
  import opened Wrappers
  import opened Strs

  /** A timed piece of the transcript. */
  datatype Segment = Segment(start: int, end: int, text: string, confidence: Option<int>)

  /** The dictionary a transcription returns. */
  datatype Transcript = Transcript(fullText: string, segments: seq<Segment>, language: string,
                                   confidence: int, service: string, transcriptId: Option<string>,
                                   audioDuration: Option<int>, note: Option<string>)

  const FailedPrefix := "Transcription failed: "

  function SegmentTexts(segs: seq<Segment>): (r: seq<string>)
    ensures |r| == |segs| && forall i :: 0 <= i < |segs| ==> r[i] == segs[i].text
  {
    seq(|segs|, i requires 0 <= i < |segs| => segs[i].text)
  }

  // ---------------------------------------------------------------- Whisper

  /** A Whisper segment; any key may be missing. */
  datatype WhisperSeg = WhisperSeg(start: Option<int>, end: Option<int>, text: Option<string>)

  /** The result of `model.transcribe`. */
  datatype WhisperRaw = WhisperRaw(segments: Option<seq<WhisperSeg>>, text: Option<string>, language: Option<string>)

  function WhisperSegment(w: WhisperSeg): Segment {
    Segment(w.start.GetOr(0), w.end.GetOr(0), Strip(w.text.GetOr("")), None)
  }

  /** The formatted Whisper result: one segment per Whisper segment, in order,
      keeping its start, end (0 when missing) and stripped text. */
  function WhisperTranscript(raw: WhisperRaw): (t: Transcript)
    ensures raw.segments.None? ==> t.segments == []
    ensures raw.segments.Some? ==> |t.segments| == |raw.segments.value|
    ensures raw.segments.Some? ==> forall i :: 0 <= i < |t.segments| ==>
              var w := raw.segments.value[i];
              && t.segments[i].start == w.start.GetOr(0) && t.segments[i].end == w.end.GetOr(0)
              && t.segments[i].text == Strip(w.text.GetOr(""))
    ensures t.fullText == Strip(raw.text.GetOr("")) && t.language == raw.language.GetOr("en")
    ensures t.service == "whisper" && t.confidence == 900
  {
    var segs := match raw.segments
      case None => []
      case Some(ss) => seq(|ss|, i requires 0 <= i < |ss| => WhisperSegment(ss[i]));
    Transcript(Strip(raw.text.GetOr("")), segs, raw.language.GetOr("en"), 900, "whisper", None, None, None)
  }

  /** `_transcribe_with_whisper` after the model call. */
  method FormatWhisper(raw: WhisperRaw) returns (t: Transcript)
    ensures t == WhisperTranscript(raw)
  {
    var segments: seq<Segment> := [];
    if raw.segments.Some? {
      var ss := raw.segments.value;
      var i := 0;
      while i < |ss|
        invariant 0 <= i <= |ss|
        invariant |segments| == i
        invariant forall j :: 0 <= j < i ==> segments[j] == WhisperSegment(ss[j])
      {
        segments := segments + [WhisperSegment(ss[i])];
        i := i + 1;
      }
    }
    t := Transcript(Strip(raw.text.GetOr("")), segments, raw.language.GetOr("en"), 900, "whisper", None, None, None);
  }

  // ------------------------------------------------------ AssemblyAI words

  /** A word of the AssemblyAI result; any key may be missing. */
  datatype RawWord = RawWord(text: Option<string>, start: Option<int>, end: Option<int>, confidence: Option<int>)

  /** A word with the defaults of the `.get` calls applied. */
  datatype Word = Word(text: string, start: int, end: int, confidence: int)

  function WordOf(w: RawWord): Word {
    Word(w.text.GetOr(""), w.start.GetOr(0), w.end.GetOr(0), w.confidence.GetOr(1000))
  }

  function Words(raw: seq<RawWord>): (r: seq<Word>)
    ensures |r| == |raw| && forall i :: 0 <= i < |raw| ==> r[i] == WordOf(raw[i])
  {
    seq(|raw|, i requires 0 <= i < |raw| => WordOf(raw[i]))
  }

  function WordTexts(ws: seq<Word>): (r: seq<string>)
    ensures |r| == |ws| && forall i :: 0 <= i < |ws| ==> r[i] == ws[i].text
  {
    seq(|ws|, i requires 0 <= i < |ws| => ws[i].text)
  }

  /** The segment length target. */
  const SegmentTarget: int := 30000

  /** `t.endswith(('.', '!', '?'))` */
  predicate EndsSentence(t: string) {
    |t| > 0 && (t[|t| - 1] == '.' || t[|t| - 1] == '!' || t[|t| - 1] == '?')
  }

  /** A word closes the segment that started at `start`. */
  predicate Closes(w: Word, start: int) {
    w.end - start >= SegmentTarget || EndsSentence(w.text)
  }

  /** A group is closed once its last word closes it. */
  predicate Closed(group: seq<Word>)
    requires |group| > 0
  {
    Closes(group[|group| - 1], group[0].start)
  }

  /** The words cut into segments, word by word: a word opens a new group
      when there is none or the last one is closed, and otherwise joins the
      last group. */
  function Groups(ws: seq<Word>): (r: seq<seq<Word>>)
    ensures forall i :: 0 <= i < |r| ==> |r[i]| > 0
    ensures |ws| > 0 <==> |r| > 0
    decreases |ws|
  {
    if |ws| == 0 then []
    else
      var gs := Groups(ws[..|ws| - 1]);
      var w := ws[|ws| - 1];
      if |gs| == 0 || Closed(gs[|gs| - 1]) then gs + [[w]]
      else gs[..|gs| - 1] + [gs[|gs| - 1] + [w]]
  }

  /** A group's segment: from its first word's start to its last word's end,
      the words joined by spaces and stripped, the last word's confidence. */
  function SegmentOf(group: seq<Word>): Segment
    requires |group| > 0
  {
    var last := group[|group| - 1];
    Segment(group[0].start, last.end, Strip(Join(WordTexts(group), " ")), Some(last.confidence))
  }

  function SegmentsOf(gs: seq<seq<Word>>): (r: seq<Segment>)
    requires forall i :: 0 <= i < |gs| ==> |gs[i]| > 0
    ensures |r| == |gs| && forall i :: 0 <= i < |gs| ==> r[i] == SegmentOf(gs[i])
  {
    seq(|gs|, i requires 0 <= i < |gs| => SegmentOf(gs[i]))
  }

  /** The word-level segments of a completed AssemblyAI result. */
  function WordSegments(ws: seq<Word>): seq<Segment>
  {
    SegmentsOf(Groups(ws))
  }

  function Flatten(gs: seq<seq<Word>>): seq<Word>
    decreases |gs|
  {
    if |gs| == 0 then [] else Flatten(gs[..|gs| - 1]) + gs[|gs| - 1]
  }

  lemma FlattenSnoc(gs: seq<seq<Word>>, g: seq<Word>)
    ensures Flatten(gs + [g]) == Flatten(gs) + g
  {
    assert (gs + [g])[..|gs|] == gs;
  }

  lemma SnocAssoc<T>(a: seq<T>, b: seq<T>, x: T)
    ensures a + (b + [x]) == (a + b) + [x]
  {
  }

  /** Adding a word as a new group adds it at the end. */
  lemma FlattenNewGroup(gs: seq<seq<Word>>, w: Word)
    ensures Flatten(gs + [[w]]) == Flatten(gs) + [w]
  {
    FlattenSnoc(gs, [w]);
  }

  /** Adding a word to the last group adds it at the end. */
  lemma FlattenJoinLast(gs: seq<seq<Word>>, w: Word)
    requires |gs| > 0
    ensures Flatten(gs[..|gs| - 1] + [gs[|gs| - 1] + [w]]) == Flatten(gs) + [w]
  {
    var n := |gs| - 1;
    var pre := gs[..n];
    assert Flatten(gs) == Flatten(pre) + gs[n];
    FlattenSnoc(pre, gs[n] + [w]);
    SnocAssoc(Flatten(pre), gs[n], w);
  }

  /** One more word either makes a group of its own or extends the last group. */
  lemma GroupsGrow(ws: seq<Word>)
    requires |ws| > 0
    ensures var gs := Groups(ws[..|ws| - 1]); var w := ws[|ws| - 1];
      || Groups(ws) == gs + [[w]]
      || (|gs| > 0 && Groups(ws) == gs[..|gs| - 1] + [gs[|gs| - 1] + [w]])
  {
  }

  /** The groups hold every word exactly once, in order. */
  lemma {:induction false} GroupsFlatten(ws: seq<Word>)
    ensures Flatten(Groups(ws)) == ws
    decreases |ws|
  {
    if |ws| > 0 {
      var pre := ws[..|ws| - 1];
      var w := ws[|ws| - 1];
      var gs := Groups(pre);
      assert Flatten(Groups(ws)) == pre + [w] by {
        GroupsFlatten(pre);
        FlattenNewGroup(gs, w);
        if |gs| > 0 {
          FlattenJoinLast(gs, w);
        }
        GroupsGrow(ws);
      }
      assert pre + [w] == ws;
    }
  }

  /** No word of `group` before its last closes it, and, unless it is the
      final group, its last word does. */
  predicate GroupClosed(group: seq<Word>, isFinal: bool)
    requires |group| > 0
  {
    && (forall k :: 0 <= k < |group| - 1 ==> !Closes(group[k], group[0].start))
    && (!isFinal ==> Closed(group))
  }

  /** Every group but the last ends on its closing word, and no earlier word
      of a group closes it; the last group ends on a closing word or on the
      last word. */
  lemma {:induction false} GroupsClose(ws: seq<Word>)
    ensures forall j :: 0 <= j < |Groups(ws)| ==> GroupClosed(Groups(ws)[j], j == |Groups(ws)| - 1)
    decreases |ws|
  {
    if |ws| > 0 {
      var pre := ws[..|ws| - 1];
      var gs := Groups(pre);
      var w := ws[|ws| - 1];
      var r := Groups(ws);
      GroupsClose(pre);
      if |gs| == 0 || Closed(gs[|gs| - 1]) {
        assert r == gs + [[w]];
        forall j | 0 <= j < |r| ensures GroupClosed(r[j], j == |r| - 1) {
          if j < |gs| {
            assert r[j] == gs[j];
            assert GroupClosed(gs[j], j == |gs| - 1);
          }
        }
      } else {
        var n := |gs| - 1;
        assert r == gs[..n] + [gs[n] + [w]];
        assert GroupClosed(gs[n], true);
        var last := gs[n] + [w];
        forall k | 0 <= k < |last| - 1 ensures !Closes(last[k], last[0].start) {
          if k < |gs[n]| - 1 {
            assert last[k] == gs[n][k];
          } else {
            assert last[k] == gs[n][|gs[n]| - 1];
          }
        }
        forall j | 0 <= j < |r| ensures GroupClosed(r[j], j == |r| - 1) {
          if j < n {
            assert r[j] == gs[j];
            assert GroupClosed(gs[j], j == |gs| - 1);
          } else {
            assert r[j] == last;
          }
        }
      }
    }
  }

  /** Each non-final segment ends on a word ending in `.`, `!` or `?`, or
      spans at least the 30 s target from its first word's start to its
      closing word's end. */
  lemma SegmentsCloseOnSentenceOrTarget(ws: seq<Word>)
    ensures var gs := Groups(ws); var segs := WordSegments(ws);
      && |segs| == |gs|
      && forall j :: 0 <= j < |segs| - 1 ==>
           EndsSentence(gs[j][|gs[j]| - 1].text) || segs[j].end - segs[j].start >= SegmentTarget
  {
    GroupsClose(ws);
  }

  lemma SegmentsOfSnoc(gs: seq<seq<Word>>, g: seq<Word>)
    requires forall i :: 0 <= i < |gs| ==> |gs[i]| > 0
    requires |g| > 0
    ensures SegmentsOf(gs + [g]) == SegmentsOf(gs) + [SegmentOf(g)]
  {
  }

  /** What the loop holds after a prefix of the words: the segments of the
      closed groups, and the texts and start of the open one. */
  predicate Tracks(gs: seq<seq<Word>>, segments: seq<Segment>, current: seq<string>, currentStart: Option<int>)
    requires forall i :: 0 <= i < |gs| ==> |gs[i]| > 0
  {
    if |gs| > 0 && !Closed(gs[|gs| - 1]) then
      && segments == SegmentsOf(gs[..|gs| - 1])
      && current == WordTexts(gs[|gs| - 1])
      && currentStart == Some(gs[|gs| - 1][0].start)
    else
      segments == SegmentsOf(gs) && current == [] && currentStart.None?
  }

  lemma WordTextsSnoc(group: seq<Word>, w: Word)
    ensures WordTexts(group + [w]) == WordTexts(group) + [w.text]
  {
  }

  /** A word that arrives when no group is open opens one. */
  lemma OpenStep(ws: seq<Word>, i: nat, segments: seq<Segment>, current: seq<string>, currentStart: Option<int>)
    requires i < |ws|
    requires var gs := Groups(ws[..i]); |gs| == 0 || Closed(gs[|gs| - 1])
    requires Tracks(Groups(ws[..i]), segments, current, currentStart)
    ensures var w := ws[i];
      var start := currentStart.GetOr(w.start);
      var current' := current + [w.text];
      if Closes(w, start) then
        Tracks(Groups(ws[..i + 1]), segments + [Segment(start, w.end, Strip(Join(current', " ")), Some(w.confidence))], [], None)
      else
        Tracks(Groups(ws[..i + 1]), segments, current', Some(start))
  {
    var gs := Groups(ws[..i]);
    var w := ws[i];
    assert current == [] && currentStart.None?;
    assert current + [w.text] == [w.text];
    assert ws[..i + 1][..i] == ws[..i];
    var gs' := Groups(ws[..i + 1]);
    assert gs' == gs + [[w]];
    assert gs'[..|gs|] == gs;
    assert WordTexts([w]) == [w.text];
    SegmentsOfSnoc(gs, [w]);
  }

  /** A word that arrives while a group is open joins it. */
  lemma JoinStep(ws: seq<Word>, i: nat, segments: seq<Segment>, current: seq<string>, currentStart: Option<int>)
    requires i < |ws|
    requires var gs := Groups(ws[..i]); |gs| > 0 && !Closed(gs[|gs| - 1])
    requires Tracks(Groups(ws[..i]), segments, current, currentStart)
    ensures var w := ws[i];
      var start := currentStart.GetOr(w.start);
      var current' := current + [w.text];
      if Closes(w, start) then
        Tracks(Groups(ws[..i + 1]), segments + [Segment(start, w.end, Strip(Join(current', " ")), Some(w.confidence))], [], None)
      else
        Tracks(Groups(ws[..i + 1]), segments, current', Some(start))
  {
    var gs := Groups(ws[..i]);
    var w := ws[i];
    assert currentStart.Some?;
    assert ws[..i + 1][..i] == ws[..i];
    var gs' := Groups(ws[..i + 1]);
    var n := |gs| - 1;
    var group := gs[n] + [w];
    assert gs' == gs[..n] + [group];
    assert gs'[..n] == gs[..n];
    assert group[0] == gs[n][0];
    WordTextsSnoc(gs[n], w);
    SegmentsOfSnoc(gs[..n], group);
  }

  /** One word of the loop: the word opens a group when none is open and
      joins the open one otherwise; when it closes that group, the group's
      segment is emitted. */
  lemma GroupsStep(ws: seq<Word>, i: nat, segments: seq<Segment>, current: seq<string>, currentStart: Option<int>)
    requires i < |ws|
    requires Tracks(Groups(ws[..i]), segments, current, currentStart)
    ensures var w := ws[i];
      var start := currentStart.GetOr(w.start);
      var current' := current + [w.text];
      if Closes(w, start) then
        Tracks(Groups(ws[..i + 1]), segments + [Segment(start, w.end, Strip(Join(current', " ")), Some(w.confidence))], [], None)
      else
        Tracks(Groups(ws[..i + 1]), segments, current', Some(start))
  {
    var gs := Groups(ws[..i]);
    if |gs| == 0 || Closed(gs[|gs| - 1]) {
      OpenStep(ws, i, segments, current, currentStart);
    } else {
      JoinStep(ws, i, segments, current, currentStart);
    }
  }

  /** The word-grouping loop of `_transcribe_with_assemblyai`. */
  method GroupWords(raw: seq<RawWord>) returns (segments: seq<Segment>)
    ensures segments == WordSegments(Words(raw))
  {
    ghost var ws := Words(raw);
    segments := [];
    var current: seq<string> := [];
    var currentStart: Option<int> := None;
    var i := 0;
    while i < |raw|
      invariant 0 <= i <= |raw|
      invariant Tracks(Groups(ws[..i]), segments, current, currentStart)
    {
      var w := WordOf(raw[i]);
      GroupsStep(ws, i, segments, current, currentStart);
      if currentStart.None? {
        currentStart := Some(w.start);
      }
      current := current + [w.text];
      if w.end - currentStart.value >= SegmentTarget || EndsSentence(w.text) {
        if |current| > 0 {
          segments := segments + [Segment(currentStart.value, w.end, Strip(Join(current, " ")), Some(w.confidence))];
          current := [];
          currentStart := None;
        }
      }
      i := i + 1;
    }
    assert ws[..|raw|] == ws;
    if |current| > 0 && |raw| > 0 {
      var last := WordOf(raw[|raw| - 1]);
      var start := if currentStart.Some? && currentStart.value != 0 then currentStart.value else 0;
      FinalGroup(ws, segments, current, currentStart);
      segments := segments + [Segment(start, last.end, Strip(Join(current, " ")), Some(last.confidence))];
    }
  }

  /** After the last word, an open group becomes the final segment. */
  lemma FinalGroup(ws: seq<Word>, segments: seq<Segment>, current: seq<string>, currentStart: Option<int>)
    requires Tracks(Groups(ws), segments, current, currentStart)
    requires |current| > 0 && |ws| > 0
    ensures currentStart.Some?
    ensures WordSegments(ws) == segments + [Segment(if currentStart.value != 0 then currentStart.value else 0,
                                                  ws[|ws| - 1].end, Strip(Join(current, " ")), Some(ws[|ws| - 1].confidence))]
  {
    var gs := Groups(ws);
    var n := |gs| - 1;
    assert gs == gs[..n] + [gs[n]];
    SegmentsOfSnoc(gs[..n], gs[n]);
    GroupsFlatten(ws);
    LastOfFlatten(gs);
  }

  /** The last word of the last group is the last word. */
  lemma LastOfFlatten(gs: seq<seq<Word>>)
    requires |gs| > 0 && forall i :: 0 <= i < |gs| ==> |gs[i]| > 0
    ensures |Flatten(gs)| > 0 && Flatten(gs)[|Flatten(gs)| - 1] == gs[|gs| - 1][|gs[|gs| - 1]| - 1]
  {
  }

  // ------------------------------------------------------ sentence fallback

  /** The segment of the `i`-th `". "`-piece: the span [5i, 5i+5] seconds and
      the stripped piece, with a `.` added when the piece does not end with one. */
  function SentenceSegment(i: nat, sentence: string): Segment {
    Segment(5000 * i, 5000 * (i + 1), Strip(sentence) + (if EndsWith(sentence, ".") then "" else "."), Some(900))
  }

  /** The fallback segments of the pieces: one per non-blank piece, in order. */
  function SentenceSegments(ss: seq<string>): (r: seq<Segment>)
    decreases |ss|
  {
    if |ss| == 0 then []
    else
      var n := |ss| - 1;
      SentenceSegments(ss[..n]) + (if Strip(ss[n]) != "" then [SentenceSegment(n, ss[n])] else [])
  }

  function NonBlankCount(ss: seq<string>): nat
    decreases |ss|
  {
    if |ss| == 0 then 0 else NonBlankCount(ss[..|ss| - 1]) + (if Strip(ss[|ss| - 1]) != "" then 1 else 0)
  }

  /** A non-blank piece gives a non-empty text ending with `.`, five seconds long. */
  lemma SentenceSegmentText(i: nat, sentence: string)
    requires Strip(sentence) != ""
    ensures var s := SentenceSegment(i, sentence);
      && |s.text| > 0 && EndsWith(s.text, ".") && Strip(sentence) == s.text[..|Strip(sentence)|]
      && s.start == 5000 * i && s.end == s.start + 5000
  {
    var s := SentenceSegment(i, sentence);
    if EndsWith(sentence, ".") {
      StripKeepsDot(sentence);
      assert s.text == Strip(sentence);
    } else {
      assert s.text == Strip(sentence) + ".";
    }
  }

  /** One fallback segment per non-blank piece. */
  lemma {:induction false} SentenceSegmentsCount(ss: seq<string>)
    ensures |SentenceSegments(ss)| == NonBlankCount(ss) <= |ss|
    decreases |ss|
  {
    if |ss| > 0 {
      SentenceSegmentsCount(ss[..|ss| - 1]);
    }
  }

  /** `seg` is the fallback segment of the non-blank piece `ss[i]`. */
  predicate FromPiece(seg: Segment, ss: seq<string>, i: int) {
    0 <= i < |ss| && Strip(ss[i]) != "" && seg == SentenceSegment(i, ss[i])
  }

  lemma FromPieceOfPrefix(seg: Segment, ss: seq<string>, n: nat, i: int)
    requires n <= |ss|
    requires FromPiece(seg, ss[..n], i)
    ensures FromPiece(seg, ss, i)
  {
    assert ss[..n][i] == ss[i];
  }

  /** Blank pieces are skipped and every segment comes from a non-blank
      piece, whose index is the segment's start over 5 s. */
  lemma {:induction false} SentenceSegmentsFromPieces(ss: seq<string>)
    ensures forall j :: 0 <= j < |SentenceSegments(ss)| ==>
              FromPiece(SentenceSegments(ss)[j], ss, SentenceSegments(ss)[j].start / 5000)
    decreases |ss|
  {
    if |ss| > 0 {
      var n := |ss| - 1;
      var pre := ss[..n];
      var r := SentenceSegments(ss);
      var head := SentenceSegments(pre);
      var tail := if Strip(ss[n]) != "" then [SentenceSegment(n, ss[n])] else [];
      assert r == head + tail;
      SentenceSegmentsFromPieces(pre);
      forall j | 0 <= j < |r| ensures FromPiece(r[j], ss, r[j].start / 5000) {
        if j < |head| {
          FromPieceOfPrefix(head[j], ss, n, head[j].start / 5000);
          assert r[j] == head[j];
        } else {
          assert |tail| > 0 && r[j] == tail[0];
          assert r[j].start / 5000 == n;
          assert FromPiece(r[j], ss, n);
        }
      }
    }
  }

  /** The sentence-fallback loop. */
  method SegmentSentences(fullText: string) returns (segments: seq<Segment>)
    ensures segments == SentenceSegments(Split(fullText, ". "))
  {
    var sentences := Split(fullText, ". ");
    segments := [];
    var i := 0;
    while i < |sentences|
      invariant 0 <= i <= |sentences|
      invariant segments == SentenceSegments(sentences[..i])
    {
      assert sentences[..i + 1][..i] == sentences[..i];
      if Strip(sentences[i]) != "" {
        segments := segments + [SentenceSegment(i, sentences[i])];
      }
      i := i + 1;
    }
    assert sentences[..i] == sentences;
  }

  // ------------------------------------------------------------- AssemblyAI

  /** The outcome of an upload or transcript request: raised, or a status
      code and the `upload_url` / `id` of the body. */
  datatype Posted = PostRaised(error: string) | PostResponse(code: int, value: string)

  /** One poll of the transcript endpoint. */
  datatype Poll =
    | PollRaised(error: string)
    | PollResult(status: string, text: Option<string>, words: seq<RawWord>, errorText: Option<string>,
                 languageCode: Option<string>, confidence: Option<int>, audioDuration: Option<int>)

  /** A poll that ends the `while True` loop. */
  predicate Terminal(p: Poll) {
    p.PollRaised? || p.status == "completed" || p.status == "error"
  }

  /** The first terminal poll from `from` on. */
  function FirstTerminal(polls: seq<Poll>, from: nat): (r: Option<nat>)
    requires from <= |polls|
    ensures r.Some? ==> from <= r.value < |polls| && Terminal(polls[r.value])
    ensures forall j :: from <= j < |polls| && (r.None? || j < r.value) ==> !Terminal(polls[j])
    decreases |polls| - from
  {
    if from == |polls| then None
    else if Terminal(polls[from]) then Some(from)
    else FirstTerminal(polls, from + 1)
  }

  /** The polling loop: stops at the first terminal poll.  The polls are a
      finite prefix of the endpoint's answers; `None` means none of them
      ended the loop. */
  method AwaitTranscript(polls: seq<Poll>) returns (k: Option<nat>)
    ensures k == FirstTerminal(polls, 0)
  {
    var i := 0;
    while i < |polls|
      invariant 0 <= i <= |polls|
      invariant forall j :: 0 <= j < i ==> !Terminal(polls[j])
    {
      if Terminal(polls[i]) {
        return Some(i);
      }
      i := i + 1;
    }
    return None;
  }

  /** The exception `_transcribe_with_assemblyai` and `_transcribe_with_whisper`
      re-raise: the message behind the common prefix. */
  function Failure(message: string): (r: Result<Transcript>)
    ensures r.Err? && StartsWith(r.message, FailedPrefix)
    ensures r.message[|FailedPrefix|..] == message
  {
    assert (FailedPrefix + message)[..|FailedPrefix|] == FailedPrefix;
    Err(FailedPrefix + message)
  }

  /** The transcript built from a `completed` poll. */
  function CompletedTranscript(p: Poll, transcriptId: string): (t: Transcript)
    requires p.PollResult?
    ensures t.fullText == p.text.GetOr("") && t.service == "assemblyai"
    ensures |p.words| > 0 ==> t.segments == WordSegments(Words(p.words))
    ensures |p.words| == 0 ==> t.segments == SentenceSegments(Split(t.fullText, ". "))
  {
    var fullText := p.text.GetOr("");
    var segments := if |p.words| > 0 then WordSegments(Words(p.words)) else SentenceSegments(Split(fullText, ". "));
    Transcript(fullText, segments, p.languageCode.GetOr("en"), p.confidence.GetOr(900), "assemblyai",
               Some(transcriptId), Some(p.audioDuration.GetOr(0)), None)
  }

  /** The result of the terminal poll; the `error` case is wrapped twice
      because the inner exception passes through the outer handler. */
  function PollOutcome(p: Poll, transcriptId: string): (r: Result<Transcript>)
    requires Terminal(p)
    ensures r.Ok? <==> p.PollResult? && p.status == "completed"
    ensures p.PollResult? && p.status == "error" ==> r == Err(FailedPrefix + FailedPrefix + p.errorText.GetOr("None"))
    ensures r.Err? ==> StartsWith(r.message, FailedPrefix)
  {
    match p
    case PollRaised(e) => Failure(e)
    case PollResult(status, _, _, _, _, _, _) =>
      if status == "completed" then Ok(CompletedTranscript(p, transcriptId))
      else Failure(FailedPrefix + p.errorText.GetOr("None"))
  }

  /** A transcription that has finished, or one still waiting on the
      endpoint after the polls seen. */
  datatype Outcome = Finished(result: Result<Transcript>) | StillPolling

  /** `_transcribe_with_assemblyai`: upload, request, poll. */
  function AssemblyOf(path: string, upload: string -> Posted, request: string -> Posted,
                      polls: string -> seq<Poll>): (r: Outcome)
    ensures r.Finished? && r.result.Err? ==> StartsWith(r.result.message, FailedPrefix)
  {
    match upload(path)
    case PostRaised(e) => Finished(Failure(e))
    case PostResponse(code, audioUrl) =>
      if code != 200 then Finished(Failure("Upload failed: " + IntStr(code)))
      else
        match request(audioUrl)
        case PostRaised(e) => Finished(Failure(e))
        case PostResponse(code2, transcriptId) =>
          if code2 != 200 then Finished(Failure("Transcription request failed: " + IntStr(code2)))
          else
            match FirstTerminal(polls(transcriptId), 0)
            case None => StillPolling
            case Some(k) => Finished(PollOutcome(polls(transcriptId)[k], transcriptId))
  }

  /** Once upload and request succeed, the first `completed` or `error` poll
      decides the outcome, and without one the service keeps polling. */
  lemma PollingDecides(path: string, upload: string -> Posted, request: string -> Posted, polls: string -> seq<Poll>)
    requires upload(path).PostResponse? && upload(path).code == 200
    requires request(upload(path).value).PostResponse? && request(upload(path).value).code == 200
    ensures var id := request(upload(path).value).value; var ps := polls(id);
      && (AssemblyOf(path, upload, request, polls) == StillPolling <==> forall j :: 0 <= j < |ps| ==> !Terminal(ps[j]))
      && (forall k :: 0 <= k < |ps| && Terminal(ps[k]) && (forall j :: 0 <= j < k ==> !Terminal(ps[j])) ==>
            && (ps[k].PollResult? && ps[k].status == "completed" ==>
                  AssemblyOf(path, upload, request, polls) == Finished(Ok(CompletedTranscript(ps[k], id))))
            && (ps[k].PollResult? && ps[k].status == "error" ==>
                  AssemblyOf(path, upload, request, polls) == Finished(Err(FailedPrefix + FailedPrefix + ps[k].errorText.GetOr("None")))))
  {
    var id := request(upload(path).value).value;
    var ps := polls(id);
    var r := AssemblyOf(path, upload, request, polls);
    assert r == (match FirstTerminal(ps, 0) case None => StillPolling case Some(k) => Finished(PollOutcome(ps[k], id)));
    forall k | 0 <= k < |ps| && Terminal(ps[k]) && (forall j :: 0 <= j < k ==> !Terminal(ps[j]))
      ensures r == Finished(PollOutcome(ps[k], id))
    {
      assert FirstTerminal(ps, 0) == Some(k);
    }
  }

  /** A failed upload or request ends with an error naming its status code. */
  lemma BadStatusFails(path: string, upload: string -> Posted, request: string -> Posted, polls: string -> seq<Poll>)
    requires upload(path).PostResponse?
    ensures upload(path).code != 200 ==>
              AssemblyOf(path, upload, request, polls) == Finished(Err(FailedPrefix + "Upload failed: " + IntStr(upload(path).code)))
    ensures upload(path).code == 200 && request(upload(path).value).PostResponse? && request(upload(path).value).code != 200 ==>
              AssemblyOf(path, upload, request, polls)
                == Finished(Err(FailedPrefix + "Transcription request failed: " + IntStr(request(upload(path).value).code)))
  {
  }

  // ------------------------------------------------------------------- demo

  const DemoTexts: seq<string> := [
    "Welcome to this video where we'll be discussing important topics.",
    "In this section, we're going to explore the main concepts and ideas.",
    "Let me explain the key points that you need to understand.",
    "This is a crucial part of our discussion today.",
    "Now we're moving on to the next important topic.",
    "Here are some practical examples that illustrate these concepts.",
    "Let's dive deeper into the technical details.",
    "This approach has proven to be very effective in practice.",
    "I want to share some insights from my experience.",
    "These are the main takeaways from our discussion today."
  ]

  /** The duration assumed when the file cannot be read as WAV: 5 minutes. */
  const DefaultDuration: nat := 300000
  const DemoSpan: nat := 30000
  const DemoNote := "This is a demo transcription. Install Whisper or configure AssemblyAI for real transcription."

  /** `min(int(duration // 30) + 1, len(demo_texts))` */
  function DemoCount(duration: nat, textCount: nat): nat
  {
    var n := duration / DemoSpan + 1;
    if n < textCount then n else textCount
  }

  function DemoStart(i: nat): nat { i * DemoSpan }

  /** `min(start_time + segment_duration, duration)` */
  function DemoEnd(i: nat, duration: nat): nat {
    if DemoStart(i) + DemoSpan < duration then DemoStart(i) + DemoSpan else duration
  }

  /** The `i`-th demo segment over the text list `texts`. */
  function DemoSegment(texts: seq<string>, i: nat, duration: nat): Segment
    requires |texts| > 0
  {
    Segment(DemoStart(i), DemoEnd(i, duration), texts[i % |texts|], None)
  }

  /** The demo has between 1 and `len(demo_texts)` segments; each starts 30 s
      after the previous one, lies within the duration, and is at most 30 s
      long. */
  lemma DemoSpans(duration: nat, textCount: nat)
    requires textCount > 0
    ensures 1 <= DemoCount(duration, textCount) <= textCount
    ensures forall i :: 0 <= i < DemoCount(duration, textCount) ==>
      && DemoStart(i) <= DemoEnd(i, duration) <= duration && DemoEnd(i, duration) - DemoStart(i) <= DemoSpan
      && (i > 0 ==> DemoStart(i) == DemoStart(i - 1) + DemoSpan)
  {
    forall i | 0 <= i < DemoCount(duration, textCount)
      ensures i * DemoSpan <= duration
    {
      StartWithin(i, duration);
    }
  }

  /** The `i`-th demo segment carries the `i`-th text: the modulo never wraps. */
  lemma DemoTextAt(texts: seq<string>, i: nat, duration: nat)
    requires i < DemoCount(duration, |texts|)
    ensures DemoSegment(texts, i, duration).text == texts[i]
  {
    var n := |texts|;
    assert i < n;
    assert i % n == i;
  }

  lemma StartWithin(i: nat, duration: nat)
    requires i <= duration / DemoSpan
    ensures i * DemoSpan <= duration
  {
    var q := duration / DemoSpan;
    assert q * DemoSpan <= duration;
    assert i * DemoSpan <= q * DemoSpan by {
      assert (q - i) * DemoSpan >= 0;
    }
  }

  /** The demo transcript over the text list `texts`. */
  function DemoTranscriptOf(texts: seq<string>, duration: nat): (t: Transcript)
    requires |texts| > 0
    ensures |t.segments| == DemoCount(duration, |texts|)
    ensures forall i :: 0 <= i < |t.segments| ==> t.segments[i] == DemoSegment(texts, i, duration)
    ensures t.fullText == Join(SegmentTexts(t.segments), " ")
    ensures t.service == "demo" && t.language == "en" && t.note == Some(DemoNote)
  {
    var n := DemoCount(duration, |texts|);
    var segs := seq(n, i requires 0 <= i < n => DemoSegment(texts, i, duration));
    Transcript(Join(SegmentTexts(segs), " "), segs, "en", 850, "demo", None, None, Some(DemoNote))
  }

  /** The demo loop over the text list `texts`. */
  method BuildDemo(texts: seq<string>, duration: nat) returns (t: Transcript)
    requires |texts| > 0
    ensures t == DemoTranscriptOf(texts, duration)
  {
    var segments: seq<Segment> := [];
    var numSegments := duration / DemoSpan + 1;
    var count := if numSegments < |texts| then numSegments else |texts|;
    var i := 0;
    while i < count
      invariant 0 <= i <= count
      invariant |segments| == i
      invariant forall j :: 0 <= j < i ==> segments[j] == DemoSegment(texts, j, duration)
    {
      var startTime := i * DemoSpan;
      var endTime := if startTime + DemoSpan < duration then startTime + DemoSpan else duration;
      segments := segments + [Segment(startTime, endTime, texts[i % |texts|], None)];
      i := i + 1;
    }
    assert segments == DemoTranscriptOf(texts, duration).segments;
    t := Transcript(Join(SegmentTexts(segments), " "), segments, "en", 850, "demo", None, None, Some(DemoNote));
  }

  /** `_create_demo_transcription`; `wavDuration` is the length the WAV
      reader reports, `None` when the file cannot be read. */
  method CreateDemoTranscription(wavDuration: Option<nat>) returns (t: Transcript)
    ensures t == DemoTranscriptOf(DemoTexts, wavDuration.GetOr(DefaultDuration))
  {
    var duration := if wavDuration.Some? then wavDuration.value else DefaultDuration;
    t := BuildDemo(DemoTexts, duration);
  }

  // --------------------------------------------------------------- dispatch

  /** `transcribe_audio`.  `whisper` is the local model (an error is the
      exception it raises), `upload`/`request`/`polls` the AssemblyAI
      endpoints, `wavDuration` the WAV reader. */
  function TranscribeOf(whisperAvailable: bool, assemblyKey: string, path: string,
                        whisper: string -> Result<WhisperRaw>,
                        upload: string -> Posted, request: string -> Posted, polls: string -> seq<Poll>,
                        wavDuration: string -> Option<nat>): Outcome
  {
    if whisperAvailable then
      match whisper(path)
      case Err(e) => Finished(Failure(e))
      case Ok(raw) => Finished(Ok(WhisperTranscript(raw)))
    else if assemblyKey != "" then AssemblyOf(path, upload, request, polls)
    else Finished(Ok(DemoTranscriptOf(DemoTexts, wavDuration(path).GetOr(DefaultDuration))))
  }

  /** Whisper is preferred, then AssemblyAI when a key is set, then the demo;
      a successful result names the service that produced it. */
  lemma DispatchOrder(whisperAvailable: bool, assemblyKey: string, path: string,
                      whisper: string -> Result<WhisperRaw>,
                      upload: string -> Posted, request: string -> Posted, polls: string -> seq<Poll>,
                      wavDuration: string -> Option<nat>)
    ensures var r := TranscribeOf(whisperAvailable, assemblyKey, path, whisper, upload, request, polls, wavDuration);
      && (r.Finished? && r.result.Ok? ==>
            r.result.value.service == (if whisperAvailable then "whisper" else if assemblyKey != "" then "assemblyai" else "demo"))
      && (r.Finished? && r.result.Err? ==> StartsWith(r.result.message, FailedPrefix))
      && (!whisperAvailable && assemblyKey == "" ==> r.Finished? && r.result.Ok?)
      && (r.StillPolling? ==> !whisperAvailable && assemblyKey != "")
  {
  }

  /** `transcribe_audio` with the oracles' answers. */
  method TranscribeAudio(whisperAvailable: bool, assemblyKey: string, path: string,
                         whisper: string -> Result<WhisperRaw>,
                         upload: string -> Posted, request: string -> Posted, polls: string -> seq<Poll>,
                         wavDuration: string -> Option<nat>) returns (r: Outcome)
    ensures r == TranscribeOf(whisperAvailable, assemblyKey, path, whisper, upload, request, polls, wavDuration)
  {
    if whisperAvailable {
      var result := whisper(path);
      if result.Err? {
        return Finished(Failure(result.message));
      }
      var t := FormatWhisper(result.value);
      return Finished(Ok(t));
    } else if assemblyKey != "" {
      r := TranscribeWithAssembly(path, upload, request, polls);
    } else {
      var t := CreateDemoTranscription(wavDuration(path));
      return Finished(Ok(t));
    }
  }

  /** `_transcribe_with_assemblyai` with the endpoints' answers. */
  method TranscribeWithAssembly(path: string, upload: string -> Posted, request: string -> Posted,
                                polls: string -> seq<Poll>) returns (r: Outcome)
    ensures r == AssemblyOf(path, upload, request, polls)
  {
    var uploadResponse := upload(path);
    if uploadResponse.PostRaised? {
      return Finished(Failure(uploadResponse.error));
    }
    if uploadResponse.code != 200 {
      return Finished(Failure("Upload failed: " + IntStr(uploadResponse.code)));
    }
    var audioUrl := uploadResponse.value;
    var transcriptResponse := request(audioUrl);
    if transcriptResponse.PostRaised? {
      return Finished(Failure(transcriptResponse.error));
    }
    if transcriptResponse.code != 200 {
      return Finished(Failure("Transcription request failed: " + IntStr(transcriptResponse.code)));
    }
    var transcriptId := transcriptResponse.value;
    var answers := polls(transcriptId);
    var k := AwaitTranscript(answers);
    if k.None? {
      return StillPolling;
    }
    var result := answers[k.value];
    if result.PollRaised? {
      return Finished(Failure(result.error));
    }
    if result.status == "completed" {
      var fullText := result.text.GetOr("");
      var segments: seq<Segment>;
      if |result.words| > 0 {
        segments := GroupWords(result.words);
      } else {
        segments := SegmentSentences(fullText);
      }
      return Finished(Ok(Transcript(fullText, segments, result.languageCode.GetOr("en"), result.confidence.GetOr(900),
                                    "assemblyai", Some(transcriptId), Some(result.audioDuration.GetOr(0)), None)));
    }
    return Finished(Failure(FailedPrefix + result.errorText.GetOr("None")));
  }
}
