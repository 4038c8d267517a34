/** The Gemini content service (backend/app/services/gemini_service.py): six
    generators that send a prefix of the transcript to the model and report a
    counter over the reply, falling back to fixed demo texts when there is no
    model or the call raises. */
module Gemini {
  import opened Wrappers
  import opened Strs

  /** The six formats, in the order `generate_all_content` produces them. */
  datatype Kind = BlogPostK | TwitterThreadK | LinkedinPostK | TiktokK | InstagramCaptionK | SummaryK {
    /** The `type` value of the result. */
    function Name(): string {
      match this
      case BlogPostK => "blog_post"
      case TwitterThreadK => "twitter_thread"
      case LinkedinPostK => "linkedin_post"
      case TiktokK => "tiktok"
      case InstagramCaptionK => "instagram_caption"
      case SummaryK => "summary"
    }

    /** How many transcript characters reach the prompt. */
    function Limit(): nat {
      match this
      case BlogPostK => 4500
      case TwitterThreadK => 2000
      case LinkedinPostK => 3500
      case TiktokK => 4000
      case InstagramCaptionK => 2500
      case SummaryK => 3500
    }
  }

  const AllKinds: seq<Kind> := [BlogPostK, TwitterThreadK, LinkedinPostK, TiktokK, InstagramCaptionK, SummaryK]

  /** The model: absent without an API key, otherwise a reply for a format,
      the video title and the transcript prefix, or `None` when the call raises. */
  datatype Model = NoModel | GenModel(reply: (Kind, string, string) -> Option<string>)

  /** The counter a generated result carries next to its content. */
  datatype Counter = WordCount(words: nat) | TweetCount(tweets: nat) | CharacterCount(chars: nat)

  /** A generator's result dictionary.  `counter` and `note` are absent from
      demo and generated results respectively. */
  datatype Piece = Piece(kind: string, content: string, counter: Option<Counter>,
                         status: string, service: string, quality: string, note: Option<string>)

  /** A line that counts as a tweet: not blank, and not a `---` separator. */
  predicate IsTweetLine(line: string) {
    Strip(line) != "" && !StartsWith(Strip(line), "---")
  }

  /** The tweet lines of `lines`, in order. */
  function TweetLines(lines: seq<string>): (r: seq<string>)
    ensures |r| <= |lines|
  {
    if |lines| == 0 then []
    else (if IsTweetLine(lines[0]) then [lines[0]] else []) + TweetLines(lines[1..])
  }

  /** A line is among the tweet lines exactly when it is a tweet. */
  lemma {:induction false} TweetLinesMembers(lines: seq<string>)
    ensures forall l :: l in TweetLines(lines) <==> l in lines && IsTweetLine(l)
    decreases |lines|
  {
    if |lines| > 0 {
      TweetLinesMembers(lines[1..]);
      assert lines == [lines[0]] + lines[1..];
    }
  }

  /** Filtering distributes over concatenation: tweet lines keep their
      order and their multiplicity. */
  lemma {:induction false} TweetLinesAppend(a: seq<string>, b: seq<string>)
    ensures TweetLines(a + b) == TweetLines(a) + TweetLines(b)
    decreases |a|
  {
    if |a| == 0 {
      assert a + b == b;
    } else {
      var head := if IsTweetLine(a[0]) then [a[0]] else [];
      assert (a + b)[0] == a[0] && (a + b)[1..] == a[1..] + b;
      TweetLinesAppend(a[1..], b);
      calc {
        TweetLines(a + b);
        head + TweetLines(a[1..] + b);
        head + (TweetLines(a[1..]) + TweetLines(b));
        (head + TweetLines(a[1..])) + TweetLines(b);
      }
    }
  }

  /** The positions of the tweet lines. */
  function TweetIndices(lines: seq<string>): set<int> {
    set i | 0 <= i < |lines| && IsTweetLine(lines[i])
  }

  lemma TweetLinesSnoc(init: seq<string>, x: string)
    ensures TweetLines(init + [x]) == TweetLines(init) + (if IsTweetLine(x) then [x] else [])
  {
    TweetLinesAppend(init, [x]);
    assert TweetLines([x]) == (if IsTweetLine(x) then [x] else []) + TweetLines([x][1..]);
  }

  lemma TweetIndicesSnoc(init: seq<string>, x: string)
    ensures TweetIndices(init + [x]) == TweetIndices(init) + (if IsTweetLine(x) then {|init|} else {})
    ensures |init| !in TweetIndices(init)
  {
    var lines := init + [x];
    forall i ensures i in TweetIndices(lines) <==> i in TweetIndices(init) + (if IsTweetLine(x) then {|init|} else {}) {
      if 0 <= i < |init| {
        assert lines[i] == init[i];
      }
    }
  }

  /** There are as many tweet lines as positions holding one. */
  lemma {:induction false} TweetLinesCount(lines: seq<string>)
    ensures |TweetLines(lines)| == |TweetIndices(lines)|
    decreases |lines|
  {
    if |lines| > 0 {
      var init := lines[..|lines| - 1];
      var x := lines[|lines| - 1];
      assert lines == init + [x];
      TweetLinesCount(init);
      TweetLinesSnoc(init, x);
      TweetIndicesSnoc(init, x);
    }
  }

  /** Whether a word of `s.split()` starts at position `i`. */
  predicate WordStart(s: string, i: int)
    requires 0 <= i < |s|
  {
    !IsSpace(s[i]) && (i == 0 || IsSpace(s[i - 1]))
  }

  /** The positions where a word starts. */
  function WordStarts(s: string): set<int> {
    set i | 0 <= i < |s| && WordStart(s, i)
  }

  /** The leading run of `s` with one more character. */
  lemma {:induction false} RunLenSnoc(s: string, c: char)
    ensures RunLen(s + [c]) == if RunLen(s) < |s| then RunLen(s) else |s| + (if IsSpace(c) then 0 else 1)
    decreases |s|
  {
    if |s| == 0 {
      assert s + [c] == [c];
      assert [c][1..] == [];
    } else if !IsSpace(s[0]) {
      assert (s + [c])[1..] == s[1..] + [c];
      RunLenSnoc(s[1..], c);
    }
  }

  /** One more character adds a word exactly when it starts one. */
  lemma {:induction false} SplitWsSnoc(s: string, c: char)
    ensures |SplitWs(s + [c])| == |SplitWs(s)| + (if !IsSpace(c) && (|s| == 0 || IsSpace(s[|s| - 1])) then 1 else 0)
    decreases |s|
  {
    var sc := s + [c];
    if |s| == 0 {
      assert sc == [c] && sc[1..] == [];
      if !IsSpace(c) {
        assert RunLen(sc) == 1;
      }
    } else if IsSpace(s[0]) {
      assert sc[1..] == s[1..] + [c];
      SplitWsSnoc(s[1..], c);
    } else {
      var k := RunLen(s);
      RunLenSnoc(s, c);
      if k < |s| {
        assert sc[k..] == s[k..] + [c];
        SplitWsSnoc(s[k..], c);
      } else {
        assert s[k..] == [];
        var k2 := RunLen(sc);
        if IsSpace(c) {
          assert sc[k2..] == [c] && [c][1..] == [];
        } else {
          assert sc[k2..] == [];
        }
      }
    }
  }

  /** `s.split()` has one word per word start. */
  lemma {:induction false} WordCountIsStarts(s: string)
    ensures |SplitWs(s)| == |WordStarts(s)|
    decreases |s|
  {
    if |s| > 0 {
      var init := s[..|s| - 1];
      var c := s[|s| - 1];
      assert s == init + [c];
      WordCountIsStarts(init);
      SplitWsSnoc(init, c);
      WordStartsSnoc(init, c);
    }
  }

  /** One more character adds at most its own position to the word starts. */
  lemma WordStartsSnoc(init: string, c: char)
    ensures var s := init + [c];
      WordStarts(s) == WordStarts(init) + (if WordStart(s, |init|) then {|init|} else {})
    ensures |init| !in WordStarts(init)
  {
    var s := init + [c];
    var last: set<int> := if WordStart(s, |init|) then {|init|} else {};
    forall i ensures i in WordStarts(s) <==> i in WordStarts(init) + last {
      if 0 <= i < |init| {
        assert s[i] == init[i];
        if i > 0 {
          assert s[i - 1] == init[i - 1];
        }
      }
    }
  }

  /** The counter of `kind` over `content`. */
  function CounterFor(kind: Kind, content: string): Counter {
    match kind
    case TwitterThreadK => TweetCount(|TweetLines(Split(content, "\n"))|)
    case InstagramCaptionK => CharacterCount(|content|)
    case _ => WordCount(|SplitWs(content)|)
  }

  /** A thread counts the lines of its reply that are tweets, an Instagram
      caption its characters, and every other format the words of its
      reply: the positions where a run of non-whitespace starts. */
  lemma CounterSpec(kind: Kind, content: string)
    ensures var c := CounterFor(kind, content);
      && (kind == TwitterThreadK ==> c == TweetCount(|TweetIndices(Split(content, "\n"))|))
      && (kind == InstagramCaptionK ==> c == CharacterCount(|content|))
      && (kind != TwitterThreadK && kind != InstagramCaptionK ==> c == WordCount(|WordStarts(content)|))
  {
    TweetLinesCount(Split(content, "\n"));
    WordCountIsStarts(content);
  }

  /** A whitespace-only reply has a word count of 0 and, as a thread, no tweets. */
  lemma BlankReplyCountsZero(content: string)
    requires forall i :: 0 <= i < |content| ==> IsSpace(content[i])
    ensures |SplitWs(content)| == 0
    ensures |TweetLines(Split(content, "\n"))| == 0
  {
    SplitWsTokens(content);
    BlankNonSpace(content);
    if |SplitWs(content)| > 0 {
      ConcatNonEmpty(SplitWs(content));
      assert false;
    }
    BlankPieces(content, "\n");
    BlankTweetLines(Split(content, "\n"));
  }

  /** The pieces of a whitespace-only string are whitespace-only. */
  lemma {:induction false} BlankPieces(s: string, sep: string)
    requires |sep| > 0
    requires forall i :: 0 <= i < |s| ==> IsSpace(s[i])
    ensures forall l :: l in Split(s, sep) ==> forall i :: 0 <= i < |l| ==> IsSpace(l[i])
    decreases |s|
  {
    match IndexOf(s, sep, 0)
    case None =>
    case Some(k) =>
      var rest := s[k + |sep|..];
      BlankPieces(rest, sep);
      assert Split(s, sep) == [s[..k]] + Split(rest, sep);
  }

  /** Whitespace-only lines are never tweets. */
  lemma {:induction false} BlankTweetLines(lines: seq<string>)
    requires forall l :: l in lines ==> forall i :: 0 <= i < |l| ==> IsSpace(l[i])
    ensures TweetLines(lines) == []
    decreases |lines|
  {
    if |lines| > 0 {
      StripEmptyIffBlank(lines[0]);
      BlankTweetLines(lines[1..]);
    }
  }

  lemma {:induction false} BlankNonSpace(s: string)
    requires forall i :: 0 <= i < |s| ==> IsSpace(s[i])
    ensures NonSpace(s) == ""
    decreases |s|
  {
    if |s| > 0 {
      BlankNonSpace(s[1..]);
    }
  }

  lemma ConcatNonEmpty(parts: seq<string>)
    requires |parts| > 0 && |parts[0]| > 0
    ensures |Concat(parts)| > 0
  {
  }

  const BlogDemoBody := "\n\nThis is a demo blog post. Install Google Gemini API for premium AI-generated content.\n\nBased on the video transcript, here would be a comprehensive article with expert-level writing."
  const TwitterDemoBody := "\n\n1/5 This is a demo Twitter thread. Add your Gemini API key for viral-worthy content.\n\n2/5 Real threads will have engaging hooks and valuable insights..."
  const LinkedinDemoBody := "\n\nThis is a demo LinkedIn post. Configure Gemini API for thought-leadership content.\n\nReal posts will position you as an expert.\n\n#Demo #AI"
  const TiktokDemoBody := "\n\n[HOOK] This is a demo TikTok script.\n\nAdd Gemini API key for viral TikTok scripts with hooks, transitions and CTAs!\n\n[CTA] Follow for more!"
  const InstagramDemoBody := "\n\nThis is a demo caption. Configure your Gemini API for scroll-stopping captions!\n\n#demo #ai"
  const SummaryDemoBody := "\n\nThis is a demo summary. Real summaries will make people want to watch the full video."
  const DemoNote := "Configure GOOGLE_GEMINI_API_KEY for premium AI-generated content"

  /** The fixed parts of the demo results: the body of each format and the note. */
  datatype DemoTexts = DemoTexts(blog: string, twitter: string, linkedin: string, tiktok: string,
                                 instagram: string, summary: string, note: string)

  const Demo: DemoTexts := DemoTexts(BlogDemoBody, TwitterDemoBody, LinkedinDemoBody, TiktokDemoBody,
                                     InstagramDemoBody, SummaryDemoBody, DemoNote)

  /** The service object: its model and the demo texts it falls back to
      (`Demo` in the service). */
  datatype Service = Service(model: Model, demo: DemoTexts)

  /** The demo text for a `type` value, with `"Demo content"` for an unknown one. */
  function DemoText(d: DemoTexts, contentType: string, title: string): (r: string)
    ensures contentType != "blog_post" && contentType != "twitter_thread" && contentType != "linkedin_post"
            && contentType != "tiktok" && contentType != "instagram_caption" && contentType != "summary"
            ==> r == "Demo content"
  {
    if contentType == "blog_post" then "# " + title + d.blog
    else if contentType == "twitter_thread" then "\U{1F9F5} " + title + d.twitter
    else if contentType == "linkedin_post" then "\U{1F4E2} " + title + d.linkedin
    else if contentType == "tiktok" then "\U{1F3AC} TikTok Script: " + title + d.tiktok
    else if contentType == "instagram_caption" then "\U{2728} " + title + d.instagram
    else if contentType == "summary" then "Summary: " + title + d.summary
    else "Demo content"
  }

  /** `_generate_demo_content`: a demo result of the requested type. */
  function DemoContent(d: DemoTexts, contentType: string, title: string): (r: Piece)
    ensures r.kind == contentType && r.status == "demo" && r.service == "demo" && r.quality == "demo"
    ensures r.content == DemoText(d, contentType, title) && r.counter.None? && r.note == Some(d.note)
  {
    Piece(contentType, DemoText(d, contentType, title), None, "demo", "demo", "demo",
          Some(d.note))
  }

  /** The demo result a generator of `kind` falls back to:
      `_generate_demo_content` of its own type. */
  function DemoOf(d: DemoTexts, kind: Kind, title: string): (r: Piece)
    ensures r.kind == kind.Name() && r.status == "demo" && r.counter.None?
  {
    DemoContent(d, kind.Name(), title)
  }

  /** One generator (`generate_blog_post`, ..., `generate_video_summary`).
      The reply becomes a generated result with the format's counter; with no
      model, or when the call raises, the result is the demo of the same type. */
  function Generate(g: Service, kind: Kind, transcript: string, title: string): (r: Piece)
    ensures r.kind == kind.Name()
    ensures r.status == "generated" <==> g.model.GenModel? && g.model.reply(kind, title, Take(transcript, kind.Limit())).Some?
    ensures r.status == "generated" ==>
              && r.content == g.model.reply(kind, title, Take(transcript, kind.Limit())).value
              && r.counter == Some(CounterFor(kind, r.content))
              && r.service == "gemini" && r.quality == "premium"
    ensures r.status != "generated" ==> r == DemoOf(g.demo, kind, title)
  {
    match g.model
    case NoModel => DemoOf(g.demo, kind, title)
    case GenModel(reply) =>
      match reply(kind, title, Take(transcript, kind.Limit()))
      case None => DemoOf(g.demo, kind, title)
      case Some(content) =>
        Piece(kind.Name(), content, Some(CounterFor(kind, content)), "generated", "gemini", "premium", None)
  }

  /** Only the first `Limit()` characters of the transcript influence a
      generator: transcripts that agree on that prefix give the same result. */
  lemma OnlyPrefixMatters(g: Service, kind: Kind, t1: string, t2: string, title: string)
    requires Take(t1, kind.Limit()) == Take(t2, kind.Limit())
    ensures Generate(g, kind, t1, title) == Generate(g, kind, t2, title)
  {
  }

  /** A transcript at most `Limit()` long reaches the model whole; a longer
      one is cut to exactly `Limit()` characters. */
  lemma PromptPrefix(kind: Kind, transcript: string)
    ensures |transcript| <= kind.Limit() ==> Take(transcript, kind.Limit()) == transcript
    ensures |transcript| > kind.Limit() ==> |Take(transcript, kind.Limit())| == kind.Limit()
    ensures Take(transcript, kind.Limit()) == transcript[..|Take(transcript, kind.Limit())|]
  {
  }

  /** `generate_all_content`: the six generators in order.  Each one handles
      its own failure, so the list always has all six results. */
  method GenerateAllContent(g: Service, transcript: string, title: string) returns (pieces: seq<Piece>)
    ensures |pieces| == |AllKinds| == 6
    ensures forall i :: 0 <= i < 6 ==> pieces[i] == Generate(g, AllKinds[i], transcript, title)
  {
    pieces := [];
    var blogPost := Generate(g, BlogPostK, transcript, title);
    pieces := pieces + [blogPost];
    var twitterThread := Generate(g, TwitterThreadK, transcript, title);
    pieces := pieces + [twitterThread];
    assert pieces == [blogPost, twitterThread];
    var linkedinPost := Generate(g, LinkedinPostK, transcript, title);
    pieces := pieces + [linkedinPost];
    var tiktok := Generate(g, TiktokK, transcript, title);
    pieces := pieces + [tiktok];
    assert pieces == [blogPost, twitterThread, linkedinPost, tiktok];
    var instagramCaption := Generate(g, InstagramCaptionK, transcript, title);
    pieces := pieces + [instagramCaption];
    var summary := Generate(g, SummaryK, transcript, title);
    pieces := pieces + [summary];
    assert pieces == [blogPost, twitterThread, linkedinPost, tiktok, instagramCaption, summary];
    assert AllKinds == [BlogPostK, TwitterThreadK, LinkedinPostK, TiktokK, InstagramCaptionK, SummaryK];
  }
}
