/** The video processor service (backend/app/services/video_processor.py):
    video-id extraction, caption re-segmentation, the yt-dlp strategy loop,
    AssemblyAI transcription, content-asset generation and the end-to-end
    `process_video`.  Every external service is an argument: the caption
    service, the title lookup, the yt-dlp probe and download, the AssemblyAI
    SDK result and the Gemini model. */
module VideoProcessor {
  import opened Wrappers
  import opened Strs
  import opened Models
  import opened Db
  import Gemini

  // ---------------------------------------------------------------------
  // Proxy pool

  /** The ten residential proxy accounts; their shared password is injected. */
  const ProxyUsers: seq<string> := [
    "gopomuli-1", "gopomuli-2", "gopomuli-3", "gopomuli-4", "gopomuli-5",
    "gopomuli-6", "gopomuli-7", "gopomuli-8", "gopomuli-9", "gopomuli-10"
  ]
  const ProxyEndpoint: string := "p.webshare.io"
  const ProxyPort: string := "80"

  /** `get_random_proxy`, with the random choice given as an index into the pool. */
  function ProxyUrl(password: string, choice: nat): (r: string)
    requires choice < |ProxyUsers|
    ensures StartsWith(r, "http://" + ProxyUsers[choice] + ":")
  {
    var prefix := "http://" + ProxyUsers[choice] + ":";
    var r := prefix + password + "@" + ProxyEndpoint + ":" + ProxyPort;
    assert r[..|prefix|] == prefix;
    r
  }

  /** Every proxy URL names the same endpoint after its `@` (the part the
      service logs), provided the password has no `@` in it. */
  lemma ProxyHostIsEndpoint(password: string, choice: nat)
    requires choice < |ProxyUsers|
    requires '@' !in password
    ensures Split(ProxyUrl(password, choice), "@") == ["http://" + ProxyUsers[choice] + ":" + password, ProxyEndpoint + ":" + ProxyPort]
  {
    var a := "http://" + ProxyUsers[choice] + ":" + password;
    var b := ProxyEndpoint + ":" + ProxyPort;
    assert '@' !in "http://" + ProxyUsers[choice] + ":" by {
      assert forall k :: 0 <= k < |ProxyUsers| ==> '@' !in ProxyUsers[k];
    }
    assert '@' !in a;
    assert '@' !in b;
    assert ProxyUrl(password, choice) == a + ['@'] + b;
    SplitOnce(a, '@', b);
  }

  // ---------------------------------------------------------------------
  // Video-id extraction

  /** A character `[^&\?\n]` accepts. */
  predicate IdChar(c: char) {
    c != '&' && c != '?' && c != '\n'
  }

  /** The three patterns in the order they are tried; each is a list of
      literal alternatives followed by the id group `([^&\?\n]+)`. */
  const Patterns: seq<seq<string>> := [
    ["youtube.com/watch?v=", "youtu.be/"],
    ["youtube.com/embed/"],
    ["youtube.com/shorts/"]
  ]

  /** Length of the greedy `[^&\?\n]*` run starting at `q`. */
  function IdRunLen(s: string, q: nat): (k: nat)
    requires q <= |s|
    ensures q + k <= |s|
    ensures forall i :: q <= i < q + k ==> IdChar(s[i])
    ensures q + k < |s| ==> !IdChar(s[q + k])
    decreases |s| - q
  {
    if q == |s| || !IdChar(s[q]) then 0 else 1 + IdRunLen(s, q + 1)
  }

  /** Alternative `alt` followed by at least one id character occurs at `p`. */
  predicate AltMatchesAt(url: string, alt: string, p: nat) {
    OccursAt(url, alt, p) && p + |alt| < |url| && IdChar(url[p + |alt|])
  }

  /** The first alternative of `alts` that matches at `p`. */
  function AltAt(url: string, alts: seq<string>, p: nat, k: nat): (r: Option<nat>)
    requires k <= |alts|
    ensures r.Some? ==> k <= r.value < |alts| && AltMatchesAt(url, alts[r.value], p)
    ensures r.None? ==> forall j :: k <= j < |alts| ==> !AltMatchesAt(url, alts[j], p)
    decreases |alts| - k
  {
    if k == |alts| then None
    else if AltMatchesAt(url, alts[k], p) then Some(k)
    else AltAt(url, alts, p, k + 1)
  }

  /** The id group of a match of the pattern at position `p`, if there is one. */
  function MatchAt(url: string, alts: seq<string>, p: nat): (r: Option<string>)
    ensures r.Some? <==> exists j :: 0 <= j < |alts| && AltMatchesAt(url, alts[j], p)
    ensures r.Some? ==> p < |url|
  {
    match AltAt(url, alts, p, 0)
    case None => None
    case Some(j) =>
      var q := p + |alts[j]|;
      Some(url[q..q + IdRunLen(url, q)])
  }

  /** The group of a match is a non-empty maximal run of id characters that
      directly follows one of the alternatives. */
  lemma MatchAtShape(url: string, alts: seq<string>, p: nat)
    requires MatchAt(url, alts, p).Some?
    ensures var id := MatchAt(url, alts, p).value;
      && |id| > 0
      && (forall i :: 0 <= i < |id| ==> IdChar(id[i]))
      && exists j :: 0 <= j < |alts| && var q := p + |alts[j]|;
           && OccursAt(url, alts[j], p) && q + |id| <= |url| && url[q..q + |id|] == id
           && (q + |id| == |url| || !IdChar(url[q + |id|]))
  {
    var j := AltAt(url, alts, p, 0).value;
    var q := p + |alts[j]|;
    var id := MatchAt(url, alts, p).value;
    assert id == url[q..q + IdRunLen(url, q)];
    assert IdRunLen(url, q) > 0;
    forall i | 0 <= i < |id| ensures IdChar(id[i]) {
      assert id[i] == url[q + i];
    }
  }

  /** Leftmost position at or after `p` where the pattern matches. */
  function FirstMatchPos(url: string, alts: seq<string>, p: nat): (r: Option<nat>)
    ensures r.Some? ==> p <= r.value && MatchAt(url, alts, r.value).Some?
    ensures forall q: nat :: p <= q && (r.Some? ==> q < r.value) ==> MatchAt(url, alts, q).None?
    decreases |url| - p
  {
    if p >= |url| then None
    else if MatchAt(url, alts, p).Some? then Some(p)
    else FirstMatchPos(url, alts, p + 1)
  }

  /** `re.search(pattern, url).group(1)`, or `None` when there is no match. */
  function Search(url: string, alts: seq<string>): (r: Option<string>)
    ensures r.Some? <==> exists q: nat :: MatchAt(url, alts, q).Some?
    ensures r.Some? ==> exists q: nat :: r == MatchAt(url, alts, q) && forall p: nat :: p < q ==> MatchAt(url, alts, p).None?
  {
    match FirstMatchPos(url, alts, 0)
    case None => None
    case Some(q) => MatchAt(url, alts, q)
  }

  /** `extract_video_id`: the group of the first pattern that matches. */
  function ExtractVideoId(url: string): (r: Option<string>)
    ensures r.None? <==> forall k :: 0 <= k < |Patterns| ==> Search(url, Patterns[k]).None?
  {
    var watch := Search(url, Patterns[0]);
    if watch.Some? then watch
    else
      var embed := Search(url, Patterns[1]);
      if embed.Some? then embed
      else Search(url, Patterns[2])
  }

  /** The id is the group found by the first pattern that matches. */
  lemma IdFromFirstPattern(url: string, k: nat)
    requires k < |Patterns| && Search(url, Patterns[k]).Some?
    requires forall j :: 0 <= j < k ==> Search(url, Patterns[j]).None?
    ensures ExtractVideoId(url) == Search(url, Patterns[k])
  {
    if k == 1 {
      assert Search(url, Patterns[0]).None?;
    } else if k == 2 {
      assert Search(url, Patterns[0]).None?;
      assert Search(url, Patterns[1]).None?;
    }
  }

  /** No id is extracted exactly when no pattern matches anywhere in the URL. */
  lemma NoIdIffNoMatch(url: string)
    ensures ExtractVideoId(url).None? <==> forall k, q: nat :: 0 <= k < |Patterns| ==> MatchAt(url, Patterns[k], q).None?
  {
    if ExtractVideoId(url).None? {
      forall k, q: nat | 0 <= k < |Patterns| ensures MatchAt(url, Patterns[k], q).None? {
        assert Search(url, Patterns[k]).None?;
      }
    } else {
      var k :| 0 <= k < |Patterns| && Search(url, Patterns[k]).Some?;
      var q: nat :| MatchAt(url, Patterns[k], q).Some?;
    }
  }

  /** A group found by a search is non-empty and holds only id characters. */
  lemma SearchShape(url: string, alts: seq<string>)
    requires Search(url, alts).Some?
    ensures |Search(url, alts).value| > 0
    ensures forall i :: 0 <= i < |Search(url, alts).value| ==> IdChar(Search(url, alts).value[i])
  {
    MatchAtShape(url, alts, FirstMatchPos(url, alts, 0).value);
  }

  /** An extracted id is non-empty and holds no `&`, `?` or newline. */
  lemma ExtractedIdShape(url: string)
    requires ExtractVideoId(url).Some?
    ensures |ExtractVideoId(url).value| > 0
    ensures forall i :: 0 <= i < |ExtractVideoId(url).value| ==> IdChar(ExtractVideoId(url).value[i])
  {
    var pats := Patterns;
    if Search(url, pats[0]).Some? {
      SearchShape(url, pats[0]);
    } else if Search(url, pats[1]).Some? {
      SearchShape(url, pats[1]);
    } else {
      SearchShape(url, pats[2]);
    }
  }

  /** A URL accepted by the submission pattern yields an id as soon as one
      id character follows its prefix. */
  lemma SubmittedUrlHasId(url: string, i: nat, j: nat)
    requires i < |SubmitSchemes| && j < |SubmitHosts|
    requires StartsWith(url, SubmitSchemes[i] + SubmitHosts[j])
    requires |SubmitSchemes[i] + SubmitHosts[j]| < |url|
    requires IdChar(url[|SubmitSchemes[i] + SubmitHosts[j]|])
    ensures ExtractVideoId(url).Some?
  {
    var scheme := SubmitSchemes[i];
    var host := SubmitHosts[j];
    var p := |scheme|;
    assert url[..p + |host|] == scheme + host;
    assert url[p..p + |host|] == (scheme + host)[p..];
    assert (scheme + host)[p..] == host;
    assert Patterns[0][j] == host;
    assert AltMatchesAt(url, Patterns[0][j], p);
    assert MatchAt(url, Patterns[0], p).Some?;
  }

  // ---------------------------------------------------------------------
  // Caption paragraphs

  /** A caption snippet; times are in milliseconds. */
  datatype Snippet = Snippet(text: string, start: int, duration: int)

  /** A re-segmented paragraph. */
  datatype CaptionSegment = CaptionSegment(text: string, start: int, duration: int)

  function SnippetEnd(s: Snippet): int { s.start + s.duration }

  function Texts(snips: seq<Snippet>): (r: seq<string>)
    ensures |r| == |snips| && forall i :: 0 <= i < |snips| ==> r[i] == snips[i].text
  {
    seq(|snips|, i requires 0 <= i < |snips| => snips[i].text)
  }

  function SegmentTexts(segs: seq<CaptionSegment>): (r: seq<string>)
    ensures |r| == |segs| && forall i :: 0 <= i < |segs| ==> r[i] == segs[i].text
  {
    seq(|segs|, i requires 0 <= i < |segs| => segs[i].text)
  }

  /** Number of paragraphs for `n` snippets: ceil(n/5). */
  function ParagraphCount(n: nat): nat { (n + 4) / 5 }

  /** Paragraph `j` exists exactly when snippet `5j` does. */
  lemma ParagraphExists(n: nat, j: nat)
    ensures j < ParagraphCount(n) <==> 5 * j < n
  {
  }

  /** One past the last snippet of paragraph `j`. */
  function ParaHi(n: nat, j: nat): nat { if 5 * j + 5 <= n then 5 * j + 5 else n }

  /** Where paragraph `j` starts: 0 for the first, otherwise the end of the
      last snippet of the paragraph before. */
  function ParaStart(snips: seq<Snippet>, j: nat): int
    requires 5 * j <= |snips|
  {
    if j == 0 then 0 else SnippetEnd(snips[5 * j - 1])
  }

  /** Paragraph `j`: snippets 5j .. 5j+4 (fewer for the last), their texts
      joined by a space, spanning from its start to its last snippet's end. */
  function Paragraph(snips: seq<Snippet>, j: nat): CaptionSegment
    requires 5 * j < |snips|
  {
    var hi := ParaHi(|snips|, j);
    var start := ParaStart(snips, j);
    CaptionSegment(Join(Texts(snips[5 * j..hi]), " "), start, SnippetEnd(snips[hi - 1]) - start)
  }

  /** All the paragraphs of a snippet list, in order. */
  function Paragraphs(snips: seq<Snippet>): (r: seq<CaptionSegment>)
    ensures |r| == ParagraphCount(|snips|)
    ensures forall j :: 0 <= j < |r| ==> 5 * j < |snips| && r[j] == Paragraph(snips, j)
  {
    seq(ParagraphCount(|snips|), j requires 0 <= j < ParagraphCount(|snips|) => Paragraph(snips, j))
  }

  lemma TextsSnoc(snips: seq<Snippet>, lo: nat, hi: nat)
    requires lo <= hi < |snips|
    ensures Texts(snips[lo..hi + 1]) == Texts(snips[lo..hi]) + [snips[hi].text]
  {
    assert snips[lo..hi + 1][hi - lo] == snips[hi];
  }

  /** A paragraph that ends at snippet `n` and starts after `j` full ones is the last. */
  lemma LastParagraph(j: nat, n: nat)
    requires 5 * j < n <= 5 * j + 5
    ensures ParagraphCount(n) == j + 1
  {
  }

  /** Closing paragraph `j` after snippet `i`, when `i` is its fifth snippet
      or the last one, yields exactly `Paragraph(snips, j)`. */
  lemma CloseParagraph(snips: seq<Snippet>, j: nat, i: nat)
    requires 5 * j <= i < |snips| && i < 5 * j + 5
    requires (i + 1) % 5 == 0 || i == |snips| - 1
    ensures ParaHi(|snips|, j) == i + 1
    ensures Paragraph(snips, j) == CaptionSegment(Join(Texts(snips[5 * j..i + 1]), " "), ParaStart(snips, j), SnippetEnd(snips[i]) - ParaStart(snips, j))
    ensures i + 1 < |snips| ==> 5 * (j + 1) == i + 1
    ensures i + 1 == |snips| ==> ParagraphCount(|snips|) == j + 1
  {
    if (i + 1) % 5 == 0 {
      assert i + 1 == 5 * j + 5;
    }
  }

  /** The snippet loop of `get_youtube_transcript`: a paragraph closes after
      every fifth snippet and after the last one. */
  method SegmentCaptions(snips: seq<Snippet>) returns (segments: seq<CaptionSegment>, fullText: string)
    ensures segments == Paragraphs(snips)
    ensures fullText == Join(SegmentTexts(segments), "\n\n")
  {
    segments := [];
    var current: seq<string> := [];
    var paragraphStart := 0;
    ghost var base := 0;
    var i := 0;
    while i < |snips|
      invariant 0 <= base <= i <= |snips| && i - base < 5
      invariant i < |snips| ==> base == 5 * |segments|
      invariant i == |snips| ==> |segments| == ParagraphCount(|snips|)
      invariant forall j :: 0 <= j < |segments| ==> segments[j] == Paragraph(snips, j)
      invariant current == Texts(snips[base..i])
      invariant i < |snips| ==> paragraphStart == ParaStart(snips, |segments|)
    {
      TextsSnoc(snips, base, i);
      current := current + [snips[i].text];
      if (i + 1) % 5 == 0 || i == |snips| - 1 {
        CloseParagraph(snips, |segments|, i);
        var paragraph := CaptionSegment(Join(current, " "), paragraphStart,
                                        snips[i].start + snips[i].duration - paragraphStart);
        ParagraphsSnoc(snips, segments, paragraph);
        segments := segments + [paragraph];
        current := [];
        paragraphStart := snips[i].start + snips[i].duration;
        base := i + 1;
      }
      i := i + 1;
    }
    assert segments == Paragraphs(snips);
    fullText := Join(SegmentTexts(segments), "\n\n");
  }

  /** Closing the next paragraph extends the paragraphs built so far. */
  lemma ParagraphsSnoc(snips: seq<Snippet>, segments: seq<CaptionSegment>, paragraph: CaptionSegment)
    requires 5 * |segments| < |snips| && paragraph == Paragraph(snips, |segments|)
    requires forall j :: 0 <= j < |segments| ==> 5 * j < |snips| && segments[j] == Paragraph(snips, j)
    ensures forall j :: 0 <= j < |segments| + 1 ==> 5 * j < |snips| && (segments + [paragraph])[j] == Paragraph(snips, j)
  {
    forall k | 0 <= k <= |segments| ensures 5 * k < |snips| && (segments + [paragraph])[k] == Paragraph(snips, k) {
      if k < |segments| {
        assert (segments + [paragraph])[k] == segments[k];
      }
    }
  }

  /** Paragraphs hold between one and five snippets. */
  lemma ParagraphSizes(n: nat, j: nat)
    requires j < ParagraphCount(n)
    ensures 5 * j < ParaHi(n, j) <= n && ParaHi(n, j) - 5 * j <= 5
  {
  }

  /** The texts of paragraphs `j`, `j+1`, ... in order. */
  function GroupsFrom(snips: seq<Snippet>, j: nat): seq<string>
    requires j <= ParagraphCount(|snips|)
    decreases ParagraphCount(|snips|) - j
  {
    if j == ParagraphCount(|snips|) then []
    else Texts(snips[5 * j..ParaHi(|snips|, j)]) + GroupsFrom(snips, j + 1)
  }

  /** Read one after another, the paragraphs' snippets are exactly the
      snippets: none is lost, repeated or moved. */
  lemma {:induction false} ParagraphsCover(snips: seq<Snippet>, j: nat)
    requires j <= ParagraphCount(|snips|)
    ensures 5 * j <= |snips| ==> GroupsFrom(snips, j) == Texts(snips[5 * j..])
    decreases ParagraphCount(|snips|) - j
  {
    if j < ParagraphCount(|snips|) {
      var hi := ParaHi(|snips|, j);
      ParagraphsCover(snips, j + 1);
      if hi < |snips| {
        assert 5 * (j + 1) == hi;
        assert snips[5 * j..] == snips[5 * j..hi] + snips[hi..];
        assert Texts(snips[5 * j..]) == Texts(snips[5 * j..hi]) + Texts(snips[hi..]);
      } else {
        assert j + 1 == ParagraphCount(|snips|);
        assert snips[5 * j..] == snips[5 * j..hi];
      }
    }
  }

  /** The first paragraph starts at 0 and each later one where the one
      before it ends. */
  lemma ParagraphTiming(snips: seq<Snippet>, j: nat)
    requires j + 1 < ParagraphCount(|snips|)
    ensures Paragraph(snips, 0).start == 0
    ensures Paragraph(snips, j + 1).start == Paragraph(snips, j).start + Paragraph(snips, j).duration
    ensures Paragraph(snips, j + 1).start == SnippetEnd(snips[5 * j + 4])
  {
  }

  // ---------------------------------------------------------------------
  // Caption fetch

  /** A caption track; `fetched` is `None` when `fetch()` raises. */
  datatype Track = Track(language: string, fetched: Option<seq<Snippet>>)

  /** What `list(video_id)` gives: one of the two "no subtitles" errors,
      another error, or the manual and generated tracks by language code. */
  datatype CaptionListing =
    | TranscriptsDisabled
    | NoTranscriptFound
    | ListFailed
    | Listing(manual: map<string, Track>, generated: map<string, Track>)

  /** The languages asked for, in order of preference. */
  const CaptionLanguages: seq<string> := ["fr", "en"]

  /** `find_..._transcript(codes)`: the track of the first code present. */
  function FindTrack(tracks: map<string, Track>, codes: seq<string>): (r: Option<Track>)
    ensures r.None? <==> forall i :: 0 <= i < |codes| ==> codes[i] !in tracks
    ensures r.Some? ==> exists i :: 0 <= i < |codes| && codes[i] in tracks && r.value == tracks[codes[i]]
                                    && forall k :: 0 <= k < i ==> codes[k] !in tracks
  {
    if |codes| == 0 then None
    else if codes[0] in tracks then Some(tracks[codes[0]])
    else
      var r := FindTrack(tracks, codes[1..]);
      if r.Some? then
        var i :| 0 <= i < |codes[1..]| && codes[1..][i] in tracks && r.value == tracks[codes[1..][i]]
                 && forall k :: 0 <= k < i ==> codes[1..][k] !in tracks;
        assert codes[i + 1] == codes[1..][i];
        assert forall k :: 1 <= k < i + 1 ==> codes[k] == codes[1..][k - 1];
        r
      else r
  }

  /** A manual track in a preferred language wins over a generated one; the
      flag says whether the chosen track is generated. */
  function ChooseTrack(manual: map<string, Track>, generated: map<string, Track>): (r: Option<(Track, bool)>)
    ensures FindTrack(manual, CaptionLanguages).Some? ==> r == Some((FindTrack(manual, CaptionLanguages).value, false))
    ensures FindTrack(manual, CaptionLanguages).None? ==>
              (r.Some? <==> FindTrack(generated, CaptionLanguages).Some?)
              && (r.Some? ==> r.value == (FindTrack(generated, CaptionLanguages).value, true))
  {
    match FindTrack(manual, CaptionLanguages)
    case Some(t) => Some((t, false))
    case None =>
      match FindTrack(generated, CaptionLanguages)
      case Some(t) => Some((t, true))
      case None => None
  }

  /** The dictionary `get_youtube_transcript` returns. */
  datatype CaptionResult = CaptionResult(
    text: string, segments: seq<CaptionSegment>, title: string,
    language: string, isGenerated: bool, videoId: string)

  const FallbackTitlePrefix: string := "YouTube Video "

  /** What `get_youtube_transcript` returns.  `captions` is the caption
      service behind the proxy and `lookupTitle` the YouTube Data API title
      lookup, `None` when there is no key, the call fails or it finds no item.
      The result is `None` when no id can be extracted, when listing the
      captions fails for any reason, when no track is in a preferred language
      or when fetching the chosen track fails. */
  function FetchCaptions(url: string, captions: string -> CaptionListing, lookupTitle: string -> Option<string>): (r: Option<CaptionResult>)
    ensures ExtractVideoId(url).None? ==> r.None?
    ensures ExtractVideoId(url).Some? ==>
              var listing := captions(ExtractVideoId(url).value);
              (r.Some? <==> listing.Listing? && ChooseTrack(listing.manual, listing.generated).Some?
                                             && ChooseTrack(listing.manual, listing.generated).value.0.fetched.Some?)
    ensures r.Some? ==>
              var id := ExtractVideoId(url).value;
              var listing := captions(id);
              var chosen := ChooseTrack(listing.manual, listing.generated).value;
              && r.value.videoId == id
              && r.value.language == chosen.0.language && r.value.isGenerated == chosen.1
              && r.value.segments == Paragraphs(chosen.0.fetched.value)
              && r.value.text == Join(SegmentTexts(r.value.segments), "\n\n")
              && r.value.title == lookupTitle(id).GetOr(FallbackTitlePrefix + id)
  {
    match ExtractVideoId(url)
    case None => None
    case Some(id) =>
      match captions(id)
      case Listing(manual, generated) =>
        (match ChooseTrack(manual, generated)
         case Some((track, isGenerated)) =>
           (match track.fetched
            case Some(snips) =>
              var segments := Paragraphs(snips);
              Some(CaptionResult(Join(SegmentTexts(segments), "\n\n"), segments,
                                 lookupTitle(id).GetOr(FallbackTitlePrefix + id), track.language, isGenerated, id))
            case None => None)
         case None => None)
      case _ => None
  }

  /** `get_youtube_transcript`, whose snippet loop is `SegmentCaptions`. */
  method GetYoutubeTranscript(url: string, captions: string -> CaptionListing, lookupTitle: string -> Option<string>)
    returns (r: Option<CaptionResult>)
    ensures r == FetchCaptions(url, captions, lookupTitle)
  {
    var videoId := ExtractVideoId(url);
    if videoId.None? {
      return None;
    }
    var id := videoId.value;
    var listing := captions(id);
    if !listing.Listing? {
      return None;
    }
    var chosen := ChooseTrack(listing.manual, listing.generated);
    if chosen.None? {
      return None;
    }
    var (track, isGenerated) := chosen.value;
    if track.fetched.None? {
      return None;
    }
    var segments, fullText := SegmentCaptions(track.fetched.value);
    var title := FallbackTitlePrefix + id;
    var looked := lookupTitle(id);
    if looked.Some? {
      title := looked.value;
    }
    r := Some(CaptionResult(fullText, segments, title, track.language, isGenerated, id));
  }

  // ---------------------------------------------------------------------
  // yt-dlp strategy loop

  /** The URL handed to yt-dlp: a share link (`?si=`) loses its whole query. */
  function CleanUrl(url: string): string
  {
    if Contains(url, "?si=") then Split(url, "?")[0] else url
  }

  /** The cleaned URL is a prefix of the URL; a share link's is the part
      before its first `?`, and any other URL is passed unchanged. */
  lemma CleanUrlPrefix(url: string)
    ensures |CleanUrl(url)| <= |url| && CleanUrl(url) == url[..|CleanUrl(url)|]
    ensures Contains(url, "?si=") ==> '?' !in CleanUrl(url)
    ensures Contains(url, "?si=") ==> |CleanUrl(url)| < |url| && url[|CleanUrl(url)|] == '?'
    ensures !Contains(url, "?si=") ==> CleanUrl(url) == url
  {
    if Contains(url, "?si=") {
      var h := Split(url, "?")[0];
      SplitHead(url, "?");
      var i: nat :| i <= |url| && OccursAt(url, "?si=", i);
      assert OccursAt(url, "?", i) by { assert url[i..i + 1] == "?si="[..1]; }
      assert |h| <= i;
      forall k | 0 <= k < |h| ensures h[k] != '?' {
        assert h[k] == url[k];
        assert !OccursAt(url, "?", k);
        assert url[k..k + 1] == [url[k]];
      }
      assert url[|h|..|h| + 1] == "?";
    }
  }

  /** The outcome of one `yt-dlp --dump-json` probe: it timed out, or it
      exited with a return code; `parsed` is the JSON on stdout, `None` when
      stdout does not parse. */
  datatype Probe = ProbeTimeout | ProbeExit(returnCode: int, parsed: Option<Json>, stderr: string)

  /** The outcome of the audio download: it timed out, or it exited and the
      expected `.mp3` file was or was not created. */
  datatype Download = DownloadTimeout | DownloadExit(returnCode: int, created: bool, stderr: string)

  /** The extraction profiles in the order they are tried. */
  const StrategyNames: seq<string> := ["Default (cookies)", "Android client", "iOS client"]

  /** A probe that ends the loop: a timeout (which escapes it) or a success. */
  predicate Stops(p: Probe) {
    p.ProbeTimeout? || (p.returnCode == 0 && p.parsed.Some?)
  }

  /** A probe that records an error: a non-zero exit. */
  predicate ProbeFailed(p: Probe) {
    p.ProbeExit? && p.returnCode != 0
  }

  const UnknownError: string := "Unknown error"

  /** What a failed probe contributes as `last_error`: its stderr cut to 200
      characters, or `"Unknown error"` when stderr is empty. */
  function ErrText(stderr: string): string
  {
    if stderr == "" then UnknownError else Take(stderr, 200)
  }

  /** The first probe at or after `k` that ends the loop. */
  function FirstStop(ps: seq<Probe>, k: nat): (r: Option<nat>)
    ensures r.Some? ==> k <= r.value < |ps| && Stops(ps[r.value])
    ensures forall j :: k <= j < |ps| && (r.Some? ==> j < r.value) ==> !Stops(ps[j])
    decreases |ps| - k
  {
    if k >= |ps| then None
    else if Stops(ps[k]) then Some(k)
    else FirstStop(ps, k + 1)
  }

  /** The index of the last failed probe before `n`. */
  function LastFailed(ps: seq<Probe>, n: nat): (r: Option<nat>)
    requires n <= |ps|
    ensures r.Some? ==> r.value < n && ProbeFailed(ps[r.value])
    ensures forall j :: 0 <= j < n && (r.Some? ==> r.value < j) ==> !ProbeFailed(ps[j])
  {
    if n == 0 then None
    else if ProbeFailed(ps[n - 1]) then Some(n - 1)
    else LastFailed(ps, n - 1)
  }

  /** The error text of the last failed probe before `n`. */
  function LastFailure(ps: seq<Probe>, n: nat): Option<string>
    requires n <= |ps|
  {
    match LastFailed(ps, n)
    case None => None
    case Some(j) => Some(ErrText(ps[j].stderr))
  }

  /** The strategy loop of `ingest_video` over the probe outcomes, in order.
      The first probe that exits 0 with parseable JSON wins; an exit 0 whose
      output does not parse is skipped without touching `lastError`; a
      timeout escapes the loop. */
  method ScanStrategies(ps: seq<Probe>) returns (winner: Option<nat>, timedOut: bool, lastError: Option<string>)
    ensures var stop := FirstStop(ps, 0);
      && (timedOut <==> stop.Some? && ps[stop.value].ProbeTimeout?)
      && winner == (if stop.Some? && !ps[stop.value].ProbeTimeout? then stop else None)
      && lastError == LastFailure(ps, if stop.Some? then stop.value else |ps|)
  {
    winner := None;
    timedOut := false;
    lastError := None;
    var i := 0;
    while i < |ps|
      invariant 0 <= i <= |ps|
      invariant forall j :: 0 <= j < i ==> !Stops(ps[j])
      invariant lastError == LastFailure(ps, i)
      decreases |ps| - i
    {
      match ps[i]
      case ProbeTimeout =>
        timedOut := true;
        return;
      case ProbeExit(rc, parsed, stderr) =>
        if rc == 0 {
          if parsed.Some? {
            winner := Some(i);
            return;
          }
        } else {
          lastError := Some(ErrText(stderr));
        }
      i := i + 1;
    }
  }

  /** The probe outcomes of the three strategies on the cleaned URL. */
  function Probes(probe: (string, nat) -> Probe, clean: string): (ps: seq<Probe>)
    ensures |ps| == |StrategyNames|
    ensures forall i :: 0 <= i < |ps| ==> ps[i] == probe(clean, i)
  {
    seq(|StrategyNames|, i requires 0 <= i < |StrategyNames| => probe(clean, i))
  }

  const TimeoutMessage: string := "Download timeout - video may be too long or connection is slow"
  const AllFailedPrefix: string := "All strategies failed. Last error: "
  const UnableMessage: string := "Unable to access video"
  const DownloadFailedPrefix: string := "Download failed: "
  const NoGetMessage: string := "AttributeError: object has no attribute 'get'"

  /** The error raised when no probe yields usable metadata. */
  function AllFailedMessage(lastError: Option<string>): string {
    match lastError
    case Some(e) => AllFailedPrefix + e
    case None => UnableMessage
  }

  /** The dictionary `ingest_video` returns. */
  datatype AudioInfo = AudioInfo(audioPath: string, title: string, videoId: string)

  /** `ingest_video`.  `probe` and `download` are the two yt-dlp commands,
      given the cleaned URL and the index of the strategy whose arguments they
      carry; `tempDir` is the fresh temporary directory. */
  method IngestVideo(url: string, tempDir: string, probe: (string, nat) -> Probe, download: (string, nat) -> Download)
    returns (r: Result<AudioInfo>)
    ensures var clean := CleanUrl(url); var ps := Probes(probe, clean); var stop := FirstStop(ps, 0);
      && (stop.Some? && ps[stop.value].ProbeTimeout? ==> r == Err(TimeoutMessage))
      && (stop.None? ==> r == Err(AllFailedMessage(LastFailure(ps, |ps|))))
      && (stop.Some? && ps[stop.value].ProbeExit? && !Truthy(ps[stop.value].parsed.value) ==>
            r == Err(AllFailedMessage(LastFailure(ps, stop.value))))
    ensures var clean := CleanUrl(url); var ps := Probes(probe, clean); var stop := FirstStop(ps, 0);
      r.Ok? ==>
        && stop.Some? && ps[stop.value].ProbeExit? && ps[stop.value].parsed.value.JObj?
        && var fields := ps[stop.value].parsed.value.fields;
           && StrField(fields, "id", "video") == Ok(r.value.videoId)
           && StrField(fields, "title", "Unknown") == Ok(r.value.title)
           && download(clean, stop.value).DownloadExit?
           && download(clean, stop.value).returnCode == 0 && download(clean, stop.value).created
           && r.value.audioPath == tempDir + "/" + r.value.videoId + ".mp3"
    ensures var clean := CleanUrl(url); var ps := Probes(probe, clean); var stop := FirstStop(ps, 0);
      stop.Some? && ps[stop.value].ProbeExit? && ps[stop.value].parsed.value.JObj? && Truthy(ps[stop.value].parsed.value)
      && StrField(ps[stop.value].parsed.value.fields, "id", "video").Ok?
      && StrField(ps[stop.value].parsed.value.fields, "title", "Unknown").Ok? ==>
        match download(clean, stop.value)
        case DownloadTimeout => r == Err(TimeoutMessage)
        case DownloadExit(rc, created, stderr) =>
          && (r.Ok? <==> rc == 0 && created)
          && (r.Err? ==> r == Err(DownloadFailedPrefix + Take(if stderr == "" then UnknownError else stderr, 200)))
  {
    var clean := CleanUrl(url);
    var ps := Probes(probe, clean);
    var winner, timedOut, lastError := ScanStrategies(ps);
    if timedOut {
      return Err(TimeoutMessage);
    }
    if winner.None? || !Truthy(ps[winner.value].parsed.value) {
      return Err(AllFailedMessage(lastError));
    }
    var w := winner.value;
    var info := ps[w].parsed.value;
    if !info.JObj? {
      return Err(NoGetMessage);
    }
    var videoId := StrField(info.fields, "id", "video");
    var title := StrField(info.fields, "title", "Unknown");
    if videoId.Err? {
      return Err(videoId.message);
    }
    if title.Err? {
      return Err(title.message);
    }
    match download(clean, w)
    case DownloadTimeout =>
      r := Err(TimeoutMessage);
    case DownloadExit(rc, created, stderr) =>
      if rc == 0 && created {
        r := Ok(AudioInfo(tempDir + "/" + videoId.value + ".mp3", title.value, videoId.value));
      } else {
        r := Err(DownloadFailedPrefix + Take(if stderr == "" then UnknownError else stderr, 200));
      }
  }

  // ---------------------------------------------------------------------
  // AssemblyAI transcription

  /** A chapter of the SDK transcript; `start` and `end` are the SDK's
      integers (milliseconds into the audio). */
  datatype Chapter = Chapter(headline: string, start: int, end: int)

  /** The finished SDK transcript: an error, or the text, the bullet summary
      (absent when AssemblyAI gives none) and the chapters. */
  datatype SdkTranscript =
    | SdkError(error: string)
    | SdkCompleted(text: string, summary: Option<string>, chapters: seq<Chapter>)

  /** The JSON integer `n`: a `JNum` holds its number in thousandths. */
  function JInt(n: int): (j: Json)
    ensures j.JNum? && j.milli % 1000 == 0 && j.milli / 1000 == n && NumValue(j.milli) == n as real
  {
    JNum(n * 1000)
  }

  /** A chapter entry: the headline and the SDK's start and end, unchanged. */
  function ChapterJson(c: Chapter): Json {
    JObj([("headline", JStr(c.headline)), ("start", JInt(c.start)), ("end", JInt(c.end))])
  }

  function ChaptersJson(chapters: seq<Chapter>): (r: seq<Json>)
    ensures |r| == |chapters| && forall i :: 0 <= i < |chapters| ==> r[i] == ChapterJson(chapters[i])
  {
    if |chapters| == 0 then [] else [ChapterJson(chapters[0])] + ChaptersJson(chapters[1..])
  }

  /** The `transcript_data` document of a completed transcript: text,
      summary and one entry per chapter, in order. */
  function TranscriptDoc(text: string, summary: Option<string>, chapters: seq<Chapter>): (d: Json)
    ensures d.JObj? && |d.fields| == 3
    ensures Get(d.fields, "text") == Some(JStr(text))
    ensures Get(d.fields, "summary") == Some(if summary.Some? then JStr(summary.value) else JNull)
    ensures Get(d.fields, "chapters") == Some(JArr(ChaptersJson(chapters)))
    ensures forall i :: 0 <= i < |chapters| ==>
      var e := ChaptersJson(chapters)[i];
      && e.JObj? && |e.fields| == 3
      && Get(e.fields, "headline") == Some(JStr(chapters[i].headline))
      && Get(e.fields, "start") == Some(JInt(chapters[i].start))
      && Get(e.fields, "end") == Some(JInt(chapters[i].end))
  {
    ChapterEntries(chapters);
    var fields := [("text", JStr(text)),
                   ("summary", if summary.Some? then JStr(summary.value) else JNull),
                   ("chapters", JArr(ChaptersJson(chapters)))];
    assert fields[1..][1..] == [("chapters", JArr(ChaptersJson(chapters)))];
    assert Get(fields[1..][1..], "chapters") == Some(JArr(ChaptersJson(chapters)));
    JObj(fields)
  }

  /** Each chapter entry of the document holds exactly the chapter's
      headline, start and end. */
  lemma ChapterEntries(chapters: seq<Chapter>)
    ensures forall i :: 0 <= i < |chapters| ==>
      var e := ChaptersJson(chapters)[i];
      && e.JObj? && |e.fields| == 3
      && Get(e.fields, "headline") == Some(JStr(chapters[i].headline))
      && Get(e.fields, "start") == Some(JInt(chapters[i].start))
      && Get(e.fields, "end") == Some(JInt(chapters[i].end))
  {
    forall i | 0 <= i < |chapters|
      ensures var e := ChaptersJson(chapters)[i];
        && e.JObj? && |e.fields| == 3
        && Get(e.fields, "headline") == Some(JStr(chapters[i].headline))
        && Get(e.fields, "start") == Some(JInt(chapters[i].start))
        && Get(e.fields, "end") == Some(JInt(chapters[i].end))
    {
      var f := ChaptersJson(chapters)[i].fields;
      assert f[1..] == [("start", JInt(chapters[i].start)), ("end", JInt(chapters[i].end))];
      assert f[1..][1..] == [("end", JInt(chapters[i].end))];
      assert Get(f[1..][1..], "end") == Some(JInt(chapters[i].end));
    }
  }

  /** The stored chapter entries carry the SDK's own start and end values,
      not rescaled: the number under "start" is the chapter's start. */
  lemma ChapterTimesUnchanged(chapters: seq<Chapter>, i: int)
    requires 0 <= i < |chapters|
    ensures var e := ChaptersJson(chapters)[i];
      && e.JObj?
      && (exists m :: Get(e.fields, "start") == Some(JNum(m)) && NumValue(m) == chapters[i].start as real)
      && (exists m :: Get(e.fields, "end") == Some(JNum(m)) && NumValue(m) == chapters[i].end as real)
  {
    ChapterEntries(chapters);
    var s := JInt(chapters[i].start);
    var e := JInt(chapters[i].end);
    assert Get(ChaptersJson(chapters)[i].fields, "start") == Some(JNum(s.milli));
    assert Get(ChaptersJson(chapters)[i].fields, "end") == Some(JNum(e.milli));
  }

  const TranscriptionFailedPrefix: string := "Transcription failed: "

  /** `transcribe_audio`.  An SDK error raises with its message and changes
      nothing.  Otherwise the document is stored as the job's transcript and
      only then is the audio file removed: when the row cannot be created the
      file stays on disk. */
  method TranscribeAudio(db: Store, audio: AudioInfo, jobId: string, sdk: SdkTranscript) returns (r: Result<Json>)
    modifies db
    ensures sdk.SdkError? ==> r == Err(TranscriptionFailedPrefix + sdk.error) && db.t == old(db.t)
    ensures sdk.SdkCompleted? ==>
              (r.Ok? <==> CreateTranscriptW(jobId) !in db.faulty && jobId !in old(db.t.transcripts))
    ensures r.Ok? ==> sdk.SdkCompleted? && r.value == TranscriptDoc(sdk.text, sdk.summary, sdk.chapters)
                      && db.t == old(db.t).(transcripts := old(db.t.transcripts)[jobId := Native(r.value)],
                                            files := old(db.t.files) - {audio.audioPath})
    ensures r.Err? ==> db.t == old(db.t)
  {
    match sdk
    case SdkError(error) =>
      return Err(TranscriptionFailedPrefix + error);
    case SdkCompleted(text, summary, chapters) =>
      var doc := TranscriptDoc(text, summary, chapters);
      var ok := db.Run(CreateTranscriptOp(jobId, Native(doc)));
      if !ok {
        return Err(WriteError);
      }
      db.RemoveFile(audio.audioPath);
      r := Ok(doc);
  }

  // ---------------------------------------------------------------------
  // Content assets

  /** The four generators `generate_content_assets` calls, in order. */
  function AssetKind(k: nat): Gemini.Kind
    requires k < 4
  {
    if k == 0 then Gemini.BlogPostK else if k == 1 then Gemini.TwitterThreadK
    else if k == 2 then Gemini.LinkedinPostK else Gemini.TiktokK
  }

  /** The asset type the `k`-th generator's result is stored under. */
  function AssetTypeFor(k: nat): AssetType
    requires k < 4
  {
    if k == 0 then BlogPost else if k == 1 then TwitterThread
    else if k == 2 then LinkedinPost else Tiktok
  }

  /** The Gemini service as the pipeline sees it: the result of the
      generator for a format, on a transcript and a title.  The service is
      `Gemini.Generate` with its model, `(k, t, v) => Gemini.Generate(m, k, t, v)`. */
  type GeminiService = (Gemini.Kind, string, string) -> Gemini.Piece

  /** The asset row stored for the `k`-th generator: its content is the
      generator's result, whether generated or demo. */
  function GeneratedAsset(gemini: GeminiService, transcript: string, title: string, jobId: string, k: nat): (a: Asset)
    requires k < 4
    ensures a.jobId == jobId && a.kind == AssetTypeFor(k).Name() && a.status == Generated.Name()
    ensures a.content == gemini(AssetKind(k), transcript, title).content
  {
    Asset(jobId, AssetTypeFor(k).Name(), gemini(AssetKind(k), transcript, title).content, Generated.Name())
  }

  /** The four rows, in order. */
  function GeneratedAssets(gemini: GeminiService, transcript: string, title: string, jobId: string): (r: seq<Asset>)
    ensures |r| == 4 && forall k :: 0 <= k < 4 ==> r[k] == GeneratedAsset(gemini, transcript, title, jobId, k)
  {
    [GeneratedAsset(gemini, transcript, title, jobId, 0), GeneratedAsset(gemini, transcript, title, jobId, 1),
     GeneratedAsset(gemini, transcript, title, jobId, 2), GeneratedAsset(gemini, transcript, title, jobId, 3)]
  }

  /** How many of the four creates succeed before the first that raises. */
  function CreatedCount(faulty: set<Write>, jobId: string, k: nat): (n: nat)
    requires k <= 4
    ensures k <= n <= 4
    ensures forall j :: k <= j < n ==> CreateAssetW(jobId, AssetTypeFor(j).Name()) !in faulty
    ensures n < 4 ==> CreateAssetW(jobId, AssetTypeFor(n).Name()) in faulty
    decreases 4 - k
  {
    if k == 4 || CreateAssetW(jobId, AssetTypeFor(k).Name()) in faulty then k
    else CreatedCount(faulty, jobId, k + 1)
  }

  /** `generate_content_assets`: blog post, Twitter thread, LinkedIn post and
      TikTok script, each generated and stored as a GENERATED asset before the
      next is started.  The first store failure ends it with `False`, keeping
      the assets stored so far. */
  method GenerateContentAssets(db: Store, gemini: GeminiService, transcript: string, title: string, jobId: string)
    returns (ok: bool)
    modifies db
    ensures var n := CreatedCount(db.faulty, jobId, 0);
      && (ok <==> n == 4)
      && db.t == old(db.t).(assets := old(db.t.assets) + GeneratedAssets(gemini, transcript, title, jobId)[..n])
  {
    ghost var want := GeneratedAssets(gemini, transcript, title, jobId);
    ghost var a0 := old(db.t.assets);
    ok := db.Run(CreateAssetOp(GeneratedAsset(gemini, transcript, title, jobId, 0)));
    if !ok {
      assert a0 + want[..0] == a0;
      return;
    }
    ok := db.Run(CreateAssetOp(GeneratedAsset(gemini, transcript, title, jobId, 1)));
    if !ok {
      assert want[..1] == [want[0]];
      return;
    }
    ok := db.Run(CreateAssetOp(GeneratedAsset(gemini, transcript, title, jobId, 2)));
    if !ok {
      assert want[..2] == [want[0], want[1]];
      return;
    }
    ok := db.Run(CreateAssetOp(GeneratedAsset(gemini, transcript, title, jobId, 3)));
    if !ok {
      assert want[..3] == [want[0], want[1], want[2]];
      return;
    }
    assert want[..4] == want;
  }

  // ---------------------------------------------------------------------
  // process_video

  /** The `type_mapping` lookup of `process_video`: the four asset types map
      to themselves, `INSTAGRAM` to `TIKTOK`, anything else to `BLOG_POST`. */
  function MapAssetType(key: string): (r: string)
    ensures r == BlogPost.Name() || r == TwitterThread.Name() || r == LinkedinPost.Name() || r == Tiktok.Name()
    ensures key == BlogPost.Name() || key == TwitterThread.Name() || key == LinkedinPost.Name() || key == Tiktok.Name() ==> r == key
    ensures key == "INSTAGRAM" ==> r == Tiktok.Name()
    ensures (key != BlogPost.Name() && key != TwitterThread.Name() && key != LinkedinPost.Name()
             && key != Tiktok.Name() && key != "INSTAGRAM") ==> r == BlogPost.Name()
  {
    if key == TwitterThread.Name() then TwitterThread.Name()
    else if key == LinkedinPost.Name() then LinkedinPost.Name()
    else if key == Tiktok.Name() || key == "INSTAGRAM" then Tiktok.Name()
    else BlogPost.Name()
  }

  /** The failure path of `process_video`: the job is set to FAILED and, only
      if that succeeds, the video too; an error in either is swallowed. */
  function FailState(t: Tables, faulty: set<Write>, videoId: string, jobId: string): Tables {
    var jobOp := SetJobStatusOp(jobId, JobFailed);
    if Succeeds(t, faulty, jobOp) then Apply(Effect(t, jobOp), faulty, SetVideoStatusOp(videoId, Failed)) else t
  }

  method MarkFailed(db: Store, videoId: string, jobId: string)
    modifies db
    ensures db.t == FailState(old(db.t), db.faulty, videoId, jobId)
  {
    var ok := db.Run(SetJobStatusOp(jobId, JobFailed));
    if ok {
      ok := db.Run(SetVideoStatusOp(videoId, Failed));
    }
  }

  /** The tables after `process_video` as written, given what the caption
      fetch returned. */
  function ProcessVideoState(t: Tables, faulty: set<Write>, videoId: string, jobId: string,
                             fetched: Option<CaptionResult>): Tables
  {
    var processing := SetVideoStatusOp(videoId, Processing);
    var t1 := Apply(t, faulty, processing);
    var t2 := if Succeeds(t, faulty, processing) && fetched.Some?
              then Apply(t1, faulty, SetVideoTitleOp(videoId, fetched.value.title)) else t1;
    FailState(t2, faulty, videoId, jobId)
  }

  /** `process_video` as written.  After the title is saved it calls
      `self.gemini.generate_content`, which `GeminiService` does not define,
      so every run that gets that far ends in the failure path. */
  method ProcessVideo(db: Store, videoId: string, url: string, jobId: string,
                      captions: string -> CaptionListing, lookupTitle: string -> Option<string>)
    modifies db
    ensures db.t == ProcessVideoState(old(db.t), db.faulty, videoId, jobId, FetchCaptions(url, captions, lookupTitle))
  {
    var ok := db.Run(SetVideoStatusOp(videoId, Processing));
    if ok {
      var transcript := GetYoutubeTranscript(url, captions, lookupTitle);
      if transcript.Some? {
        ok := db.Run(SetVideoTitleOp(videoId, transcript.value.title));
      }
    }
    MarkFailed(db, videoId, jobId);
  }

  /** A failure path changes only job and video statuses: the job to FAILED,
      the video to FAILED. */
  lemma FailStateChangesStatusesOnly(t: Tables, faulty: set<Write>, videoId: string, jobId: string)
    ensures var t1 := FailState(t, faulty, videoId, jobId);
      && t1.transcripts == t.transcripts && t1.assets == t.assets && t1.files == t.files && t1.workspaces == t.workspaces
      && t1.videos.Keys == t.videos.Keys
      && (forall v :: v in t.videos && v != videoId ==> t1.videos[v] == t.videos[v])
      && (videoId in t.videos ==> t1.videos[videoId] == t.videos[videoId] || t1.videos[videoId] == t.videos[videoId].(status := Failed))
      && (t1.jobs == t.jobs || t1.jobs == WithJobStatus(t.jobs, jobId, JobFailed))
  {
  }

  /** `process_video` as written never stores a transcript or an asset and
      never makes a video COMPLETED. */
  lemma ProcessVideoNeverCompletes(t: Tables, faulty: set<Write>, videoId: string, jobId: string, fetched: Option<CaptionResult>)
    ensures var t1 := ProcessVideoState(t, faulty, videoId, jobId, fetched);
      && t1.transcripts == t.transcripts && t1.assets == t.assets
      && t1.videos.Keys == t.videos.Keys
      && (forall v :: v in t.videos && v != videoId ==> t1.videos[v] == t.videos[v])
      && (videoId in t1.videos && t1.videos[videoId].status == Completed ==> t.videos[videoId].status == Completed)
  {
    var processing := SetVideoStatusOp(videoId, Processing);
    var ta := Apply(t, faulty, processing);
    var tb := if Succeeds(t, faulty, processing) && fetched.Some?
              then Apply(ta, faulty, SetVideoTitleOp(videoId, fetched.value.title)) else ta;
    FailStateChangesStatusesOnly(tb, faulty, videoId, jobId);
  }

  /** Even when every write goes through and the captions are found, the
      run as written leaves the video and its job FAILED. */
  lemma ProcessVideoFailsWithoutFaults(t: Tables, videoId: string, jobId: string, fetched: Option<CaptionResult>)
    requires videoId in t.videos && JobIdUsed(t.jobs, jobId)
    ensures var t1 := ProcessVideoState(t, {}, videoId, jobId, fetched);
      t1.videos[videoId].status == Failed && t1.jobs == WithJobStatus(t.jobs, jobId, JobFailed)
  {
  }

  /** The rows `process_video` means to store for the generated contents:
      one GENERATED asset per entry, in order, typed by `MapAssetType`. */
  function MappedAssets(generated: seq<(string, string)>, jobId: string): (r: seq<Asset>)
    ensures |r| == |generated|
    ensures forall i :: 0 <= i < |r| ==> r[i] == Asset(jobId, MapAssetType(generated[i].0), generated[i].1, Generated.Name())
  {
    if |generated| == 0 then []
    else [Asset(jobId, MapAssetType(generated[0].0), generated[0].1, Generated.Name())] + MappedAssets(generated[1..], jobId)
  }

  /** The transcript document `process_video` stores, before `json.dumps`. */
  function CaptionDoc(text: string, language: string): (d: Json)
    ensures d.JObj? && Get(d.fields, "text") == Some(JStr(text))
  {
    JObj([("text", JStr(text)), ("language", JStr(language))])
  }

  /** Creating `assets` one after another, stopping at the first that raises:
      the tables afterwards and whether all went through. */
  function CreateAssets(t: Tables, faulty: set<Write>, assets: seq<Asset>): (r: (Tables, bool))
    decreases |assets|
  {
    if |assets| == 0 then (t, true)
    else
      var (t1, ok) := CreateAssets(t, faulty, assets[..|assets| - 1]);
      var op := CreateAssetOp(assets[|assets| - 1]);
      if ok then (Apply(t1, faulty, op), Succeeds(t1, faulty, op)) else (t1, false)
  }

  /** When no create raises, exactly the given rows are appended, in order. */
  lemma {:induction false} CreateAssetsAppends(t: Tables, faulty: set<Write>, assets: seq<Asset>)
    requires forall i :: 0 <= i < |assets| ==> CreateAssetW(assets[i].jobId, assets[i].kind) !in faulty
    ensures CreateAssets(t, faulty, assets) == (t.(assets := t.assets + assets), true)
    decreases |assets|
  {
    if |assets| > 0 {
      var init := assets[..|assets| - 1];
      CreateAssetsAppends(t, faulty, init);
      assert t.assets + init + [assets[|assets| - 1]] == t.assets + assets;
    } else {
      assert t.assets + assets == t.assets;
    }
  }

  /** Once a create has raised, the later entries are never issued. */
  lemma {:induction false} CreateAssetsStops(t: Tables, faulty: set<Write>, assets: seq<Asset>, i: nat)
    requires i <= |assets| && !CreateAssets(t, faulty, assets[..i]).1
    ensures CreateAssets(t, faulty, assets) == CreateAssets(t, faulty, assets[..i])
    decreases |assets| - i
  {
    if i < |assets| {
      var init := assets[..|assets| - 1];
      assert init[..i] == assets[..i];
      CreateAssetsStops(t, faulty, init, i);
    } else {
      assert assets[..i] == assets;
    }
  }

  /** The asset loop of `process_video`: one create per generated entry,
      ended by the first that raises. */
  method StoreMappedAssets(db: Store, items: seq<(string, string)>, jobId: string) returns (ok: bool)
    modifies db
    ensures (db.t, ok) == CreateAssets(old(db.t), db.faulty, MappedAssets(items, jobId))
  {
    ghost var assets := MappedAssets(items, jobId);
    ghost var before := db.t;
    var i := 0;
    while i < |items|
      invariant 0 <= i <= |items|
      invariant CreateAssets(before, db.faulty, assets[..i]) == (db.t, true)
    {
      assert assets[..i + 1][..i] == assets[..i];
      ok := db.Run(CreateAssetOp(Asset(jobId, MapAssetType(items[i].0), items[i].1, Generated.Name())));
      if !ok {
        CreateAssetsStops(before, db.faulty, assets, i + 1);
        return;
      }
      i := i + 1;
    }
    assert assets[..i] == assets;
    ok := true;
  }

  /** The tables after the corrected `process_video`. */
  function ProcessVideoFixedState(t: Tables, faulty: set<Write>, videoId: string, jobId: string,
                                  fetched: Option<CaptionResult>, generated: Option<seq<(string, string)>>): Tables
  {
    var processing := SetVideoStatusOp(videoId, Processing);
    if !Succeeds(t, faulty, processing) then FailState(t, faulty, videoId, jobId)
    else
      var t1 := Effect(t, processing);
      if fetched.None? then FailState(t1, faulty, videoId, jobId)
      else
        var titleOp := SetVideoTitleOp(videoId, fetched.value.title);
        if !Succeeds(t1, faulty, titleOp) || generated.None? then FailState(Apply(t1, faulty, titleOp), faulty, videoId, jobId)
        else
          var t2 := Effect(t1, titleOp);
          var transcriptOp := CreateTranscriptOp(jobId, Dumped(CaptionDoc(fetched.value.text, fetched.value.language)));
          if !Succeeds(t2, faulty, transcriptOp) then FailState(t2, faulty, videoId, jobId)
          else
            var (t3, ok) := CreateAssets(Effect(t2, transcriptOp), faulty, MappedAssets(generated.value, jobId));
            var jobOp := SetJobStatusOp(jobId, JobCompleted);
            if !ok || !Succeeds(t3, faulty, jobOp) then FailState(t3, faulty, videoId, jobId)
            else
              var t4 := Effect(t3, jobOp);
              var videoOp := SetVideoStatusTitleOp(videoId, Completed, fetched.value.title);
              if !Succeeds(t4, faulty, videoOp) then FailState(t4, faulty, videoId, jobId)
              else Effect(t4, videoOp)
  }

  /** `process_video` with the content call it evidently means:
      `generated` is the dictionary of contents by asset type, `None` when
      generation raises. */
  method ProcessVideoFixed(db: Store, videoId: string, url: string, jobId: string,
                           captions: string -> CaptionListing, lookupTitle: string -> Option<string>,
                           generated: Option<seq<(string, string)>>)
    modifies db
    ensures db.t == ProcessVideoFixedState(old(db.t), db.faulty, videoId, jobId, FetchCaptions(url, captions, lookupTitle), generated)
  {
    var ok := db.Run(SetVideoStatusOp(videoId, Processing));
    if !ok {
      MarkFailed(db, videoId, jobId);
      return;
    }
    var transcript := GetYoutubeTranscript(url, captions, lookupTitle);
    if transcript.None? {
      MarkFailed(db, videoId, jobId);
      return;
    }
    var title := transcript.value.title;
    ok := db.Run(SetVideoTitleOp(videoId, title));
    if !ok || generated.None? {
      MarkFailed(db, videoId, jobId);
      return;
    }
    ok := db.Run(CreateTranscriptOp(jobId, Dumped(CaptionDoc(transcript.value.text, transcript.value.language))));
    if !ok {
      MarkFailed(db, videoId, jobId);
      return;
    }
    ok := StoreMappedAssets(db, generated.value, jobId);
    if !ok {
      MarkFailed(db, videoId, jobId);
      return;
    }
    ok := db.Run(SetJobStatusOp(jobId, JobCompleted));
    if !ok {
      MarkFailed(db, videoId, jobId);
      return;
    }
    ok := db.Run(SetVideoStatusTitleOp(videoId, Completed, title));
    if !ok {
      MarkFailed(db, videoId, jobId);
    }
  }

  /** When every write goes through and a transcript and the contents are
      available, the corrected run stores the transcript and exactly the
      mapped assets, and completes the job and the video under its title. */
  lemma ProcessVideoFixedCompletes(t: Tables, videoId: string, jobId: string, fetched: CaptionResult, generated: seq<(string, string)>)
    requires videoId in t.videos && JobIdUsed(t.jobs, jobId) && jobId !in t.transcripts
    ensures ProcessVideoFixedState(t, {}, videoId, jobId, Some(fetched), Some(generated)) ==
      t.(videos := t.videos[videoId := t.videos[videoId].(status := Completed, title := fetched.title)],
         jobs := WithJobStatus(t.jobs, jobId, JobCompleted),
         transcripts := t.transcripts[jobId := Dumped(CaptionDoc(fetched.text, fetched.language))],
         assets := t.assets + MappedAssets(generated, jobId))
  {
    var v := t.videos[videoId];
    var doc := Dumped(CaptionDoc(fetched.text, fetched.language));
    var assets := MappedAssets(generated, jobId);
    var t1 := t.(videos := t.videos[videoId := v.(status := Processing)]);
    assert Effect(t, SetVideoStatusOp(videoId, Processing)) == t1;
    var t2 := t.(videos := t.videos[videoId := v.(status := Processing, title := fetched.title)]);
    assert Effect(t1, SetVideoTitleOp(videoId, fetched.title)) == t2 by {
      assert t1.videos[videoId := t1.videos[videoId].(title := fetched.title)] == t2.videos;
    }
    var t3 := t2.(transcripts := t.transcripts[jobId := doc]);
    assert Effect(t2, CreateTranscriptOp(jobId, doc)) == t3;
    assert CreateAssets(t3, {}, assets) == (t3.(assets := t.assets + assets), true) by {
      CreateAssetsAppends(t3, {}, assets);
    }
    var t4 := t3.(assets := t.assets + assets, jobs := WithJobStatus(t.jobs, jobId, JobCompleted));
    assert Effect(t3.(assets := t.assets + assets), SetJobStatusOp(jobId, JobCompleted)) == t4;
    assert Effect(t4, SetVideoStatusTitleOp(videoId, Completed, fetched.title)).videos
        == t.videos[videoId := v.(status := Completed, title := fetched.title)];
  }

  /** Without a transcript the corrected run stores nothing and does not
      complete the video. */
  lemma ProcessVideoFixedNoTranscript(t: Tables, faulty: set<Write>, videoId: string, jobId: string, generated: Option<seq<(string, string)>>)
    ensures var t1 := ProcessVideoFixedState(t, faulty, videoId, jobId, None, generated);
      && t1.transcripts == t.transcripts && t1.assets == t.assets
      && (videoId in t1.videos && t1.videos[videoId].status == Completed ==> t.videos[videoId].status == Completed)
  {
    var processing := SetVideoStatusOp(videoId, Processing);
    if Succeeds(t, faulty, processing) {
      FailStateChangesStatusesOnly(Effect(t, processing), faulty, videoId, jobId);
    } else {
      FailStateChangesStatusesOnly(t, faulty, videoId, jobId);
    }
  }
}
