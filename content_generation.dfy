/** The marketing-content generator (backend/app/services/content_generation_service.py):
    four assets (blog post, Twitter thread, LinkedIn post, newsletter) written
    either by the OpenAI chat model or, without an API key or when the
    client cannot be set up, by fixed templates filled from the transcript. */
module ContentGeneration {
  import opened Wrappers
  import opened Strs

  /** The video metadata dictionary: its `title` and `youtube_url` entries,
      `None` when the key is absent. */
  datatype VideoInfo = VideoInfo(title: Option<string>, youtubeUrl: Option<string>)

  /** An asset dictionary: `type`, `content` and `status`. */
  datatype ContentAsset = ContentAsset(kind: string, content: string, status: string)

  const GeneratedStatus := "GENERATED"

  /** The asset types, in the order both paths produce them. */
  const AssetKinds: seq<string> := ["BLOG_POST", "TWITTER_THREAD", "LINKEDIN_POST", "NEWSLETTER"]

  function Url(info: VideoInfo): string { info.youtubeUrl.GetOr("") }

  /** `xs[:n]` for a non-negative `n`. */
  function Prefix<T>(xs: seq<T>, n: nat): (r: seq<T>)
    ensures |r| == if n <= |xs| then n else |xs|
    ensures r == xs[..|r|]
  {
    if n <= |xs| then xs[..n] else xs
  }

  /** An f-string, seen as the concatenation of its literal and substituted parts. */
  lemma {:induction false} ConcatOccurs(parts: seq<string>, i: nat)
    requires i < |parts|
    ensures OccursAt(Concat(parts), parts[i], |Concat(parts[..i])|)
    decreases i
  {
    var whole := Concat(parts);
    assert whole == parts[0] + Concat(parts[1..]);
    if i == 0 {
      assert parts[..0] == [];
      assert whole[..|parts[0]|] == parts[0];
    } else {
      ConcatOccurs(parts[1..], i - 1);
      var k := |Concat(parts[1..][..i - 1])|;
      assert parts[..i][1..] == parts[1..][..i - 1];
      assert Concat(parts[..i]) == parts[0] + Concat(parts[1..][..i - 1]);
      var rest := Concat(parts[1..]);
      assert rest[k..k + |parts[i]|] == parts[i];
      assert whole[|parts[0]| + k..|parts[0]| + k + |parts[i]|] == rest[k..k + |parts[i]|];
    }
  }

  /** Every part of an f-string occurs in it. */
  lemma ContainsPart(parts: seq<string>, i: nat)
    requires i < |parts|
    ensures Contains(Concat(parts), parts[i])
  {
    ConcatOccurs(parts, i);
    assert |Concat(parts[..i])| <= |Concat(parts)|;
  }

  // ---------------------------------------------------------------------
  // Template path

  /** The first (at most) three `". "`-pieces of the transcript. */
  function SummarySentences(t: string): (r: seq<string>)
    ensures 1 <= |r| <= 3
  {
    Prefix(Split(t, ". "), 3)
  }

  const DefaultSummary := "This video contains valuable insights."

  /** The summary: those pieces rejoined with `". "` and a final `.`.  The
      split never yields an empty list, so the default never applies. */
  function Summary(t: string): string
  {
    var sentences := SummarySentences(t);
    if |sentences| > 0 then Join(sentences, ". ") + "." else DefaultSummary
  }

  /** Joining a prefix of the pieces gives a prefix of joining them all. */
  lemma {:induction false} JoinPrefix(xs: seq<string>, sep: string, k: nat)
    requires 1 <= k <= |xs|
    ensures StartsWith(Join(xs, sep), Join(xs[..k], sep))
    decreases k
  {
    if k == 1 {
      assert xs[..1] == [xs[0]];
    } else {
      JoinPrefix(xs[1..], sep, k - 1);
      assert xs[..k][1..] == xs[1..][..k - 1];
      var tail := Join(xs[1..][..k - 1], sep);
      var whole := Join(xs[1..], sep);
      assert whole[..|tail|] == tail;
      assert Join(xs[..k], sep) == xs[0] + sep + tail;
      assert Join(xs, sep) == xs[0] + sep + whole;
      assert (xs[0] + sep + whole)[..|xs[0] + sep + tail|] == xs[0] + sep + tail;
    }
  }

  /** The summary ends with `.`, and what precedes that `.` is the opening
      of the transcript, up to the third `". "` if there is one. */
  lemma SummaryIsOpening(t: string)
    ensures var s := Summary(t);
      && |s| > 0 && s[|s| - 1] == '.'
      && StartsWith(t, s[..|s| - 1])
      && (|Split(t, ". ")| <= 3 ==> s == t + ".")
  {
    var pieces := Split(t, ". ");
    var sentences := SummarySentences(t);
    var body := Join(sentences, ". ");
    JoinSplit(t, ". ");
    JoinPrefix(pieces, ". ", |sentences|);
    assert (body + ".")[..|body|] == body;
    if |pieces| <= 3 {
      assert sentences == pieces;
    }
  }

  /** The words that `str.lower()` would never change again. */
  predicate NoUpper(s: string) {
    forall i :: 0 <= i < |s| ==> !('A' <= s[i] <= 'Z')
  }

  lemma LowerHasNoUpper(s: string)
    ensures NoUpper(Lower(s))
  {
  }

  /** The tokens of a string without upper-case letters have none either. */
  lemma {:induction false} SplitWsNoUpper(s: string)
    requires NoUpper(s)
    ensures forall w :: w in SplitWs(s) ==> NoUpper(w)
    decreases |s|
  {
    if |s| == 0 {
    } else if IsSpace(s[0]) {
      SplitWsNoUpper(s[1..]);
    } else {
      var k := RunLen(s);
      SplitWsNoUpper(s[k..]);
      assert SplitWs(s) == [s[..k]] + SplitWs(s[k..]);
    }
  }

  /** The 22 words never used as keywords. */
  const CommonWords: set<string> := {"the", "and", "or", "but", "in", "on", "at", "to", "for", "of", "with",
                                     "by", "a", "an", "is", "are", "was", "were", "this", "that", "these", "those"}

  /** A candidate keyword: longer than four characters and not a common word. */
  predicate KeepWord(w: string) {
    |w| > 4 && w !in CommonWords
  }

  /** The candidate keywords of `words`, in order. */
  function KeptWords(words: seq<string>): (r: seq<string>)
    ensures |r| <= |words|
    ensures forall w :: w in r <==> w in words && KeepWord(w)
  {
    if |words| == 0 then []
    else (if KeepWord(words[0]) then [words[0]] else []) + KeptWords(words[1..])
  }

  /** The first five candidate keywords of the lower-cased transcript. */
  function Keywords(t: string): seq<string>
  {
    Prefix(KeptWords(SplitWs(Lower(t))), 5)
  }

  /** Keywords are at most five lower-case tokens of the transcript, each
      longer than four characters and not a common word; when there are
      fewer than five, every such token is among them. */
  lemma KeywordsSpec(t: string)
    ensures var ks := Keywords(t); var words := SplitWs(Lower(t));
      && |ks| <= 5
      && (forall w :: w in ks ==> w in words && |w| > 4 && w !in CommonWords && NoUpper(w))
      && (|ks| < 5 ==> forall w :: w in words && KeepWord(w) ==> w in ks)
  {
    var words := SplitWs(Lower(t));
    LowerHasNoUpper(t);
    SplitWsNoUpper(Lower(t));
    var kept := KeptWords(words);
    forall w | w in Keywords(t) ensures w in kept {
      var i :| 0 <= i < |Keywords(t)| && Keywords(t)[i] == w;
      assert kept[i] == w;
    }
    if |Keywords(t)| < 5 {
      assert Keywords(t) == kept;
    }
  }

  /** `f"#{word.capitalize()}"` for each word. */
  function Tags(words: seq<string>): (r: seq<string>)
    ensures |r| == |words|
    ensures forall i :: 0 <= i < |r| ==> r[i] == "#" + Capitalize(words[i])
  {
    seq(|words|, i requires 0 <= i < |words| => "#" + Capitalize(words[i]))
  }

  /** The hashtag line: the first three keywords as tags, space-separated. */
  function Hashtags(keywords: seq<string>): string
  {
    Join(Tags(Prefix(keywords, 3)), " ")
  }

  /** Splitting a join on a separator character that no part contains gives the parts back. */
  lemma {:induction false} SplitJoin(parts: seq<string>, c: char)
    requires |parts| > 0
    requires forall i :: 0 <= i < |parts| ==> c !in parts[i]
    ensures Split(Join(parts, [c]), [c]) == parts
    decreases |parts|
  {
    if |parts| == 1 {
      var s := parts[0];
      forall i: nat | i < |s| ensures !OccursAt(s, [c], i) {
        assert s[i] in s;
      }
      assert IndexOf(s, [c], 0) == None;
    } else {
      var rest := Join(parts[1..], [c]);
      SplitJoin(parts[1..], c);
      SplitOnceRest(parts[0], c, rest);
      assert Join(parts, [c]) == parts[0] + [c] + rest;
      assert parts == [parts[0]] + parts[1..];
    }
  }

  lemma SplitOnceRest(a: string, c: char, b: string)
    requires c !in a
    ensures Split(a + [c] + b, [c]) == [a] + Split(b, [c])
  {
    var s := a + [c] + b;
    assert IndexOf(s, [c], 0) == Some(|a|) by {
      assert OccursAt(s, [c], |a|) by { assert s[|a|..|a| + 1] == [c]; }
      forall i: nat | i < |a| ensures !OccursAt(s, [c], i) {
        assert s[i] == a[i];
      }
    }
    assert s[|a| + 1..] == b && s[..|a|] == a;
  }

  /** Capitalising keeps a string free of spaces. */
  lemma CapitalizeNoSpace(w: string)
    requires forall i :: 0 <= i < |w| ==> !IsSpace(w[i])
    ensures ' ' !in "#" + Capitalize(w)
  {
    var r := "#" + Capitalize(w);
    forall i | 0 <= i < |r| ensures r[i] != ' ' {
      if i > 1 {
        assert r[i] == Lower(w[1..])[i - 2];
      }
    }
  }

  /** The hashtag line of tokens free of whitespace (as `split()` yields
      them) splits back on spaces into at most three tags, the `i`-th being
      `#` and the capitalised `i`-th keyword. */
  lemma HashtagsRoundTrip(keywords: seq<string>)
    requires |keywords| > 0
    requires forall w :: w in keywords ==> forall i :: 0 <= i < |w| ==> !IsSpace(w[i])
    ensures var tags := Split(Hashtags(keywords), " ");
      && |tags| == (if |keywords| < 3 then |keywords| else 3)
      && forall i :: 0 <= i < |tags| ==> tags[i] == "#" + Capitalize(keywords[i])
  {
    var first := Prefix(keywords, 3);
    var tags := Tags(first);
    forall i | 0 <= i < |tags| ensures ' ' !in tags[i] {
      assert first[i] in keywords;
      CapitalizeNoSpace(first[i]);
    }
    SplitJoin(tags, ' ');
  }

  const BulletMark := "\U{E2}\U{20AC}\U{A2} "
  const DefaultBullets := "\U{E2}\U{20AC}\U{A2} Key insights from the video content"

  /** The stripped `.`-pieces longer than 20 characters, in order. */
  function LongSentences(pieces: seq<string>): (r: seq<string>)
    ensures |r| <= |pieces|
    ensures forall i :: 0 <= i < |r| ==> |r[i]| > 20
    ensures forall p :: p in pieces && |Strip(p)| > 20 ==> Strip(p) in r
    ensures forall s :: s in r ==> exists p :: p in pieces && s == Strip(p)
  {
    if |pieces| == 0 then []
    else
      var rest := LongSentences(pieces[1..]);
      assert forall p :: p in pieces[1..] ==> p in pieces;
      if |Strip(pieces[0])| > 20 then [Strip(pieces[0])] + rest else rest
  }

  /** The sentences the bullets are made of: at most five. */
  function BulletSentences(t: string): (r: seq<string>)
    ensures |r| <= 5
    ensures forall i :: 0 <= i < |r| ==> |r[i]| > 20
  {
    Prefix(LongSentences(Split(t, ".")), 5)
  }

  /** One bullet line per sentence. */
  function BulletLines(sentences: seq<string>): (r: seq<string>)
    ensures |r| == |sentences|
    ensures forall i :: 0 <= i < |r| ==> r[i] == BulletMark + sentences[i]
  {
    if |sentences| == 0 then []
    else BulletLines(sentences[..|sentences| - 1]) + [BulletMark + sentences[|sentences| - 1]]
  }

  /** What `_create_bullet_points_from_transcript` returns. */
  function BulletsText(t: string): string
  {
    var lines := BulletLines(BulletSentences(t));
    if |lines| > 0 then Join(lines, "\n") else DefaultBullets
  }

  /** The bullets are at most five lines, one per stripped `.`-piece
      longer than 20 characters, in order; with none, the single default
      bullet. */
  lemma BulletsSpec(t: string)
    ensures var ss := BulletSentences(t);
      && (|ss| == 0 ==> BulletsText(t) == DefaultBullets)
      && (|ss| > 0 ==> BulletsText(t) == Join(BulletLines(ss), "\n"))
      && |BulletLines(ss)| <= 5
      && (forall i :: 0 <= i < |ss| ==> |ss[i]| > 20 && exists p :: p in Split(t, ".") && ss[i] == Strip(p))
      && (|ss| < 5 ==> forall p :: p in Split(t, ".") && |Strip(p)| > 20 ==> Strip(p) in ss)
  {
    var ss := BulletSentences(t);
    var all := LongSentences(Split(t, "."));
    forall i | 0 <= i < |ss| ensures exists p :: p in Split(t, ".") && ss[i] == Strip(p) {
      assert ss[i] == all[i] && all[i] in all;
    }
    if |ss| < 5 {
      assert ss == all;
    }
  }

  /** `_create_bullet_points_from_transcript`. */
  method CreateBulletPoints(t: string) returns (text: string)
    ensures text == BulletsText(t)
  {
    var sentences := BulletSentences(t);
    var bullets: seq<string> := [];
    for i := 0 to |sentences|
      invariant bullets == BulletLines(sentences[..i])
    {
      var sentence := sentences[i];
      assert sentences[..i + 1][..i] == sentences[..i] && sentences[..i + 1][i] == sentence;
      if |sentence| > 0 {
        bullets := bullets + [BulletMark + sentence];
      }
    }
    assert sentences[..|sentences|] == sentences;
    if |bullets| > 0 {
      text := Join(bullets, "\n");
    } else {
      text := DefaultBullets;
    }
  }

  /** The fixed text of the four templates, between their substituted
      parts; the emoji are kept as the source file spells them. */
  datatype TemplateTexts = TemplateTexts(
    film: string, target: string, mail: string,
    blogIntro: string, blogInsights: string, blogConclusion: string, blogSignature: string,
    threadOpening: string, threadTakeaways: string, threadWatch: string, threadTags: string,
    linkedinOpening: string, linkedinCommunity: string, linkedinTags: string, linkedinWatch: string,
    newsletterSubject: string, newsletterGreeting: string, newsletterVideo: string, newsletterSummary: string,
    newsletterTopics: string, newsletterWatch: string, newsletterSignature: string)

  const Film := "\U{F0}\U{178}\U{17D}\U{AC}"
  const Mail := "\U{F0}\U{178}\U{201C}\U{A7}"

  const Templates: TemplateTexts := TemplateTexts(
    Film, "\U{F0}\U{178}\U{17D}\U{AF}", Mail,
    "\n\n## Introduction\n",
    "\n\n## Key Insights from the Video\nBased on the transcript analysis, here are the main points covered:\n\n",
    "\n\n## Conclusion\nThis video provides valuable insights that can be applied in various contexts. The content demonstrates expertise and offers practical takeaways for viewers.\n\n---\n*This blog post was generated from the video: ",
    "*\n*Generated by CreatorOS AI Content Generation*",
    " Just watched an insightful video: \"",
    "\"\n\nKey takeaways: \n",
    "...\n\nWorth watching! ",
    " #Video #Content",
    " Sharing insights from: \"",
    "\n\nThis video covers important topics that are relevant to our professional community. The insights shared can help us improve our understanding and approach.\n\n",
    " #Professional #Learning #Video\n\n",
    " Watch here: ",
    " Newsletter Content\n\nSubject: New Video Analysis - ",
    "\n\nDear Subscriber,\n\nWe've analyzed a new video that contains valuable insights:\n\n",
    " Video: ",
    "\n\nKey Summary:\n",
    "\n\nMain Topics Covered:\n",
    "\n\nThis content was carefully analyzed to bring you the most relevant insights.\n\nWatch the full video: ",
    "\n\nBest regards,\nThe CreatorOS Team\n\n---\nPowered by CreatorOS AI Content Generation")

  /** The template blog post's parts. */
  function BlogParts(x: TemplateTexts, title: string, summary: string, bullets: string, url: string): seq<string>
  {
    ["# ", title, x.blogIntro, summary, x.blogInsights, bullets, x.blogConclusion, url, x.blogSignature]
  }

  /** The template Twitter thread's parts. */
  function ThreadParts(x: TemplateTexts, title: string, summary: string, hashtags: string, url: string): seq<string>
  {
    [x.film, x.threadOpening, title, x.threadTakeaways, Take(summary, 200), x.threadWatch, url, "\n\n", hashtags, x.threadTags]
  }

  /** The template LinkedIn post's parts. */
  function LinkedinParts(x: TemplateTexts, title: string, summary: string, hashtags: string, url: string): seq<string>
  {
    [x.target, x.linkedinOpening, title, "\"\n\n", summary, x.linkedinCommunity, hashtags, x.linkedinTags, x.film, x.linkedinWatch, url]
  }

  /** The template newsletter's parts. */
  function NewsletterParts(x: TemplateTexts, title: string, summary: string, bullets: string, url: string): seq<string>
  {
    [x.mail, x.newsletterSubject, title, x.newsletterGreeting, x.film, x.newsletterVideo, title, x.newsletterSummary, summary,
     x.newsletterTopics, bullets, x.newsletterWatch, url, x.newsletterSignature]
  }

  /** The four template assets, given the summary, hashtags and bullets. */
  function TemplateAssetsFrom(x: TemplateTexts, info: VideoInfo, summary: string, hashtags: string, bullets: string): seq<ContentAsset>
  {
    var url := Url(info);
    [ContentAsset(AssetKinds[0], Concat(BlogParts(x, info.title.GetOr("Video Analysis"), summary, bullets, url)), GeneratedStatus),
     ContentAsset(AssetKinds[1], Concat(ThreadParts(x, info.title.GetOr("Amazing Video"), summary, hashtags, url)), GeneratedStatus),
     ContentAsset(AssetKinds[2], Concat(LinkedinParts(x, info.title.GetOr("Professional Video"), summary, hashtags, url)), GeneratedStatus),
     ContentAsset(AssetKinds[3], Concat(NewsletterParts(x, info.title.GetOr("Featured Video"), summary, bullets, url)), GeneratedStatus)]
  }

  /** What `_generate_with_templates` returns for a transcript, over the
      template texts `x`. */
  function TemplateAssets(x: TemplateTexts, t: string, info: VideoInfo): seq<ContentAsset>
  {
    TemplateAssetsFrom(x, info, Summary(t), Hashtags(Keywords(t)), BulletsText(t))
  }

  /** The templates give exactly four GENERATED assets, typed BLOG_POST,
      TWITTER_THREAD, LINKEDIN_POST and NEWSLETTER in that order. */
  lemma TemplateAssetsKinds(x: TemplateTexts, info: VideoInfo, summary: string, hashtags: string, bullets: string)
    ensures var r := TemplateAssetsFrom(x, info, summary, hashtags, bullets);
      |r| == 4 && forall i :: 0 <= i < 4 ==> r[i].kind == AssetKinds[i] && r[i].status == GeneratedStatus
  {
  }

  /** The template blog post shows its title, the summary and the bullets. */
  lemma BlogCarries(x: TemplateTexts, title: string, summary: string, bullets: string, url: string)
    ensures var c := Concat(BlogParts(x, title, summary, bullets, url));
      Contains(c, title) && Contains(c, summary) && Contains(c, bullets)
  {
    var parts := BlogParts(x, title, summary, bullets, url);
    ContainsPart(parts, 1);
    ContainsPart(parts, 3);
    ContainsPart(parts, 5);
  }

  /** The template thread shows its title, the first 200 characters of the
      summary and the hashtags. */
  lemma ThreadCarries(x: TemplateTexts, title: string, summary: string, hashtags: string, url: string)
    ensures var c := Concat(ThreadParts(x, title, summary, hashtags, url));
      Contains(c, title) && Contains(c, Take(summary, 200)) && Contains(c, hashtags)
  {
    var parts := ThreadParts(x, title, summary, hashtags, url);
    ContainsPart(parts, 2);
    ContainsPart(parts, 4);
    ContainsPart(parts, 8);
  }

  /** The template LinkedIn post shows its title, the summary and the hashtags. */
  lemma LinkedinCarries(x: TemplateTexts, title: string, summary: string, hashtags: string, url: string)
    ensures var c := Concat(LinkedinParts(x, title, summary, hashtags, url));
      Contains(c, title) && Contains(c, summary) && Contains(c, hashtags)
  {
    var parts := LinkedinParts(x, title, summary, hashtags, url);
    ContainsPart(parts, 2);
    ContainsPart(parts, 4);
    ContainsPart(parts, 6);
  }

  /** The template newsletter shows its title, the summary and the bullets. */
  lemma NewsletterCarries(x: TemplateTexts, title: string, summary: string, bullets: string, url: string)
    ensures var c := Concat(NewsletterParts(x, title, summary, bullets, url));
      Contains(c, title) && Contains(c, summary) && Contains(c, bullets)
  {
    var parts := NewsletterParts(x, title, summary, bullets, url);
    ContainsPart(parts, 2);
    ContainsPart(parts, 8);
    ContainsPart(parts, 10);
  }

  /** The blog post and the newsletter carry the summary and the bullets,
      the LinkedIn post the summary and the hashtags, the thread the first
      200 characters of the summary and the hashtags, and each the title or
      its default. */
  lemma TemplateAssetsContent(x: TemplateTexts, info: VideoInfo, summary: string, hashtags: string, bullets: string)
    ensures var r := TemplateAssetsFrom(x, info, summary, hashtags, bullets);
      && Contains(r[0].content, summary) && Contains(r[0].content, bullets)
      && Contains(r[0].content, info.title.GetOr("Video Analysis"))
      && Contains(r[1].content, Take(summary, 200)) && Contains(r[1].content, hashtags)
      && Contains(r[1].content, info.title.GetOr("Amazing Video"))
      && Contains(r[2].content, summary) && Contains(r[2].content, hashtags)
      && Contains(r[2].content, info.title.GetOr("Professional Video"))
      && Contains(r[3].content, summary) && Contains(r[3].content, bullets)
      && Contains(r[3].content, info.title.GetOr("Featured Video"))
  {
    var url := Url(info);
    BlogCarries(x, info.title.GetOr("Video Analysis"), summary, bullets, url);
    ThreadCarries(x, info.title.GetOr("Amazing Video"), summary, hashtags, url);
    LinkedinCarries(x, info.title.GetOr("Professional Video"), summary, hashtags, url);
    NewsletterCarries(x, info.title.GetOr("Featured Video"), summary, bullets, url);
  }

  /** `_generate_with_templates`; the bullets are built twice, once for the
      blog post and once for the newsletter. */
  method GenerateWithTemplates(x: TemplateTexts, t: string, info: VideoInfo) returns (assets: seq<ContentAsset>)
    ensures assets == TemplateAssets(x, t, info)
  {
    var summary := Summary(t);
    var keywords := Keywords(t);
    var hashtags := Hashtags(keywords);
    var url := Url(info);
    var blogBullets := CreateBulletPoints(t);
    var newsletterBullets := CreateBulletPoints(t);
    assets := [
      ContentAsset(AssetKinds[0], Concat(BlogParts(x, info.title.GetOr("Video Analysis"), summary, blogBullets, url)), GeneratedStatus),
      ContentAsset(AssetKinds[1], Concat(ThreadParts(x, info.title.GetOr("Amazing Video"), summary, hashtags, url)), GeneratedStatus),
      ContentAsset(AssetKinds[2], Concat(LinkedinParts(x, info.title.GetOr("Professional Video"), summary, hashtags, url)), GeneratedStatus),
      ContentAsset(AssetKinds[3], Concat(NewsletterParts(x, info.title.GetOr("Featured Video"), summary, newsletterBullets, url)), GeneratedStatus)
    ];
  }

  // ---------------------------------------------------------------------
  // OpenAI path

  /** The five chat requests. */
  datatype Purpose = KeyPointsP | BlogPostP | TwitterThreadP | LinkedinPostP | NewsletterP {
    /** How many transcript characters reach the request. */
    function Limit(): nat {
      match this
      case KeyPointsP => 3000
      case BlogPostP => 2000
      case _ => 1500
    }
  }

  /** What a request carries besides its fixed instructions: the title and
      URL entries it names, the key points, and the transcript excerpt. */
  datatype Prompt = Prompt(purpose: Purpose, title: string, url: string, keyPoints: seq<string>, excerpt: string)

  /** The chat model: the reply text, or `None` when the call raises. */
  type Chat = Prompt -> Option<string>

  const FallbackKeyPoints: seq<string> := ["Key insights from the video", "Important takeaways", "Actionable advice"]

  /** A reply line that makes a key point: not blank and, once stripped,
      not a `#` heading. */
  predicate IsKeyPointLine(line: string) {
    Strip(line) != "" && !StartsWith(Strip(line), "#")
  }

  /** The stripped key-point lines, in order. */
  function KeyPointLines(lines: seq<string>): (r: seq<string>)
    ensures |r| <= |lines|
    ensures forall l :: l in lines && IsKeyPointLine(l) ==> Strip(l) in r
    ensures forall p :: p in r ==> exists l :: l in lines && IsKeyPointLine(l) && p == Strip(l)
  {
    if |lines| == 0 then []
    else
      var rest := KeyPointLines(lines[1..]);
      assert forall l :: l in lines[1..] ==> l in lines;
      if IsKeyPointLine(lines[0]) then [Strip(lines[0])] + rest else rest
  }

  /** The key points parsed from a reply: the first seven such lines. */
  function ParseKeyPoints(reply: string): seq<string>
  {
    Prefix(KeyPointLines(Split(reply, "\n")), 7)
  }

  /** `_extract_key_points_openai`. */
  function KeyPoints(chat: Chat, t: string): seq<string>
  {
    match chat(Prompt(KeyPointsP, "", "", [], Take(t, KeyPointsP.Limit())))
    case None => FallbackKeyPoints
    case Some(reply) => ParseKeyPoints(reply)
  }

  /** Parsed key points are at most seven stripped, non-empty lines of the
      reply that do not start with `#`; fewer than seven means every such
      line was taken. */
  lemma ParseKeyPointsSpec(reply: string)
    ensures var kp := ParseKeyPoints(reply);
      && |kp| <= 7
      && (forall i :: 0 <= i < |kp| ==>
            && kp[i] != "" && !StartsWith(kp[i], "#")
            && !IsSpace(kp[i][0]) && !IsSpace(kp[i][|kp[i]| - 1])
            && exists l :: l in Split(reply, "\n") && kp[i] == Strip(l))
      && (|kp| < 7 ==> forall l :: l in Split(reply, "\n") && IsKeyPointLine(l) ==> Strip(l) in kp)
  {
    var kp := ParseKeyPoints(reply);
    var all := KeyPointLines(Split(reply, "\n"));
    forall i | 0 <= i < |kp|
      ensures && kp[i] != "" && !StartsWith(kp[i], "#")
              && !IsSpace(kp[i][0]) && !IsSpace(kp[i][|kp[i]| - 1])
              && exists l :: l in Split(reply, "\n") && kp[i] == Strip(l)
    {
      assert kp[i] == all[i] && all[i] in all;
      var l :| l in Split(reply, "\n") && IsKeyPointLine(l) && all[i] == Strip(l);
      StripSpec(l);
    }
    if |kp| < 7 {
      assert kp == all;
    }
  }

  /** The key points of a transcript: those parsed from the reply to its
      first 3000 characters, or the three fixed points when the request fails. */
  lemma KeyPointsSpec(chat: Chat, t: string)
    ensures var kp := KeyPoints(chat, t); var reply := chat(Prompt(KeyPointsP, "", "", [], Take(t, 3000)));
      && (reply.None? ==> kp == FallbackKeyPoints && |kp| == 3)
      && (reply.Some? ==> kp == ParseKeyPoints(reply.value) && |kp| <= 7)
  {
    var reply := chat(Prompt(KeyPointsP, "", "", [], Take(t, 3000)));
    if reply.Some? {
      ParseKeyPointsSpec(reply.value);
    }
  }

  /** The texts of the OpenAI path that do not come from the model. */
  datatype AiTexts = AiTexts(blogSignature: string, blogFailure: string, threadFallback: string,
                             linkedinVideo: string, linkedinFallback: string, newsletterFallback: string)

  const AiFixed: AiTexts := AiTexts(
    "\n\n---\n*This blog post was generated from the video: ",
    "\n\nContent generation failed. Please try again.",
    "\U{F0}\U{178}\U{A7}\U{B5} Thread about this amazing video! Check it out for valuable insights. #Content #Video",
    "\n\n" + Film + " Video: ",
    "Excited to share insights from this video: ",
    Mail + " Newsletter: New Video Content Available\n\nSubject: ")

  /** The request of `_generate_blog_post_openai`. */
  function BlogPrompt(t: string, info: VideoInfo, keyPoints: seq<string>): Prompt {
    Prompt(BlogPostP, info.title.GetOr("Video"), Url(info), keyPoints, Take(t, BlogPostP.Limit()))
  }

  /** The request of the thread, LinkedIn and newsletter generators. */
  function ExcerptPrompt(purpose: Purpose, t: string, info: VideoInfo, keyPoints: seq<string>): Prompt {
    Prompt(purpose, info.title.GetOr(""), "", keyPoints, Take(t, purpose.Limit()))
  }

  /** `_generate_blog_post_openai`, given the reply (`None` when the call raises). */
  function BlogPostText(y: AiTexts, reply: Option<string>, info: VideoInfo): string
  {
    match reply
    case Some(content) =>
      Concat(["# ", info.title.GetOr("Video Blog Post"), "\n\n", content, y.blogSignature, Url(info),
              "*\n*Generated by CreatorOS AI Content Generation*"])
    case None => "# Blog Post: " + info.title.GetOr("Video") + y.blogFailure
  }

  /** `_generate_twitter_thread_openai`, given the reply. */
  function ThreadText(y: AiTexts, reply: Option<string>): string
  {
    match reply
    case Some(content) => content
    case None => y.threadFallback
  }

  /** `_generate_linkedin_post_openai`, given the reply. */
  function LinkedinText(y: AiTexts, reply: Option<string>, info: VideoInfo): string
  {
    match reply
    case Some(content) => content + y.linkedinVideo + Url(info)
    case None => y.linkedinFallback + info.title.GetOr("") + " " + Film
  }

  /** `_generate_newsletter_openai`, given the reply. */
  function NewsletterText(y: AiTexts, reply: Option<string>, info: VideoInfo): string
  {
    match reply
    case Some(content) => content
    case None => y.newsletterFallback + info.title.GetOr("New Video")
  }

  /** The four assets of the OpenAI path. */
  function AiAssets(y: AiTexts, chat: Chat, t: string, info: VideoInfo): seq<ContentAsset>
  {
    var kp := KeyPoints(chat, t);
    [ContentAsset(AssetKinds[0], BlogPostText(y, chat(BlogPrompt(t, info, kp)), info), GeneratedStatus),
     ContentAsset(AssetKinds[1], ThreadText(y, chat(ExcerptPrompt(TwitterThreadP, t, info, kp))), GeneratedStatus),
     ContentAsset(AssetKinds[2], LinkedinText(y, chat(ExcerptPrompt(LinkedinPostP, t, info, kp)), info), GeneratedStatus),
     ContentAsset(AssetKinds[3], NewsletterText(y, chat(ExcerptPrompt(NewsletterP, t, info, kp)), info), GeneratedStatus)]
  }

  /** The OpenAI path gives four GENERATED assets, typed in the fixed order. */
  lemma AiAssetsKinds(y: AiTexts, chat: Chat, t: string, info: VideoInfo)
    ensures var r := AiAssets(y, chat, t, info);
      |r| == 4 && forall i :: 0 <= i < 4 ==> r[i].kind == AssetKinds[i] && r[i].status == GeneratedStatus
  {
  }

  /** A generated reply is kept whole in its asset. */
  lemma AiKeepsReplies(y: AiTexts, chat: Chat, t: string, info: VideoInfo)
    ensures var r := AiAssets(y, chat, t, info); var kp := KeyPoints(chat, t);
      && (chat(BlogPrompt(t, info, kp)).Some? ==> Contains(r[0].content, chat(BlogPrompt(t, info, kp)).value))
      && (chat(ExcerptPrompt(TwitterThreadP, t, info, kp)).Some? ==> r[1].content == chat(ExcerptPrompt(TwitterThreadP, t, info, kp)).value)
      && (chat(ExcerptPrompt(LinkedinPostP, t, info, kp)).Some? ==>
            StartsWith(r[2].content, chat(ExcerptPrompt(LinkedinPostP, t, info, kp)).value))
      && (chat(ExcerptPrompt(NewsletterP, t, info, kp)).Some? ==> r[3].content == chat(ExcerptPrompt(NewsletterP, t, info, kp)).value)
  {
    var kp := KeyPoints(chat, t);
    var blog := chat(BlogPrompt(t, info, kp));
    if blog.Some? {
      ContainsPart(["# ", info.title.GetOr("Video Blog Post"), "\n\n", blog.value, y.blogSignature, Url(info),
                    "*\n*Generated by CreatorOS AI Content Generation*"], 3);
    }
    var linkedin := chat(ExcerptPrompt(LinkedinPostP, t, info, kp));
    if linkedin.Some? {
      var c := linkedin.value + y.linkedinVideo + Url(info);
      assert c[..|linkedin.value|] == linkedin.value;
    }
  }

  /** Every request of the OpenAI path sees only a prefix of the
      transcript: transcripts that agree on their first 3000 characters get
      the same assets. */
  lemma AiSeesOnlyPrefix(y: AiTexts, chat: Chat, t1: string, t2: string, info: VideoInfo)
    requires Take(t1, 3000) == Take(t2, 3000)
    ensures AiAssets(y, chat, t1, info) == AiAssets(y, chat, t2, info)
  {
    TakeOfTake(t1, 3000, 2000);
    TakeOfTake(t2, 3000, 2000);
    TakeOfTake(t1, 3000, 1500);
    TakeOfTake(t2, 3000, 1500);
    assert KeyPoints(chat, t1) == KeyPoints(chat, t2);
  }

  lemma TakeOfTake(s: string, n: nat, m: nat)
    requires m <= n
    ensures Take(s, m) == Take(Take(s, n), m)
  {
  }

  /** Each generator of the OpenAI path handles its own failure: when every
      request raises, the key points are the fixed three and the four assets
      carry the fixed fallback texts. */
  lemma AiAllRequestsFail(y: AiTexts, chat: Chat, t: string, info: VideoInfo)
    requires forall p :: chat(p).None?
    ensures KeyPoints(chat, t) == FallbackKeyPoints
    ensures var r := AiAssets(y, chat, t, info);
      && r[0].content == "# Blog Post: " + info.title.GetOr("Video") + y.blogFailure
      && r[1].content == y.threadFallback
      && r[2].content == y.linkedinFallback + info.title.GetOr("") + " " + Film
      && r[3].content == y.newsletterFallback + info.title.GetOr("New Video")
  {
    var kp := KeyPoints(chat, t);
    assert chat(BlogPrompt(t, info, kp)).None?;
    assert chat(ExcerptPrompt(TwitterThreadP, t, info, kp)).None?;
    assert chat(ExcerptPrompt(LinkedinPostP, t, info, kp)).None?;
    assert chat(ExcerptPrompt(NewsletterP, t, info, kp)).None?;
  }

  /** `_generate_with_openai`: `clientReady` says whether importing the
      client library and building the client succeed; if not, the
      templates are used. */
  method GenerateWithOpenAi(tx: Texts, chat: Chat, clientReady: bool, t: string, info: VideoInfo) returns (assets: seq<ContentAsset>)
    ensures assets == if clientReady then AiAssets(tx.ai, chat, t, info) else TemplateAssets(tx.templates, t, info)
  {
    if !clientReady {
      assets := GenerateWithTemplates(tx.templates, t, info);
      return;
    }
    var y := tx.ai;
    var keyPoints := KeyPoints(chat, t);
    assets := [];
    var blogPost := BlogPostText(y, chat(BlogPrompt(t, info, keyPoints)), info);
    assets := assets + [ContentAsset(AssetKinds[0], blogPost, GeneratedStatus)];
    var twitterThread := ThreadText(y, chat(ExcerptPrompt(TwitterThreadP, t, info, keyPoints)));
    assets := assets + [ContentAsset(AssetKinds[1], twitterThread, GeneratedStatus)];
    var linkedinPost := LinkedinText(y, chat(ExcerptPrompt(LinkedinPostP, t, info, keyPoints)), info);
    assets := assets + [ContentAsset(AssetKinds[2], linkedinPost, GeneratedStatus)];
    var newsletter := NewsletterText(y, chat(ExcerptPrompt(NewsletterP, t, info, keyPoints)), info);
    assets := assets + [ContentAsset(AssetKinds[3], newsletter, GeneratedStatus)];
  }

  /** The fixed texts of both paths; the service uses `Fixed`. */
  datatype Texts = Texts(templates: TemplateTexts, ai: AiTexts)

  const Fixed: Texts := Texts(Templates, AiFixed)

  /** What `generate_content_from_transcript` returns: the OpenAI path when
      an API key is set and the client can be built, the templates otherwise. */
  function ContentOf(tx: Texts, openaiKey: Option<string>, chat: Chat, clientReady: bool, t: string, info: VideoInfo): seq<ContentAsset>
  {
    if openaiKey.Some? && clientReady then AiAssets(tx.ai, chat, t, info) else TemplateAssets(tx.templates, t, info)
  }

  /** Whatever path is taken, the result is four GENERATED assets typed
      BLOG_POST, TWITTER_THREAD, LINKEDIN_POST, NEWSLETTER. */
  lemma ContentShape(tx: Texts, openaiKey: Option<string>, chat: Chat, clientReady: bool, t: string, info: VideoInfo)
    ensures var r := ContentOf(tx, openaiKey, chat, clientReady, t, info);
      |r| == 4 && forall i :: 0 <= i < 4 ==> r[i].kind == AssetKinds[i] && r[i].status == GeneratedStatus
  {
    if openaiKey.Some? && clientReady {
      AiAssetsKinds(tx.ai, chat, t, info);
    } else {
      TemplateAssetsKinds(tx.templates, info, Summary(t), Hashtags(Keywords(t)), BulletsText(t));
    }
  }

  /** `generate_content_from_transcript`. */
  method GenerateContentFromTranscript(tx: Texts, openaiKey: Option<string>, chat: Chat, clientReady: bool, t: string, info: VideoInfo)
    returns (assets: seq<ContentAsset>)
    ensures assets == ContentOf(tx, openaiKey, chat, clientReady, t, info)
  {
    if openaiKey.Some? {
      assets := GenerateWithOpenAi(tx, chat, clientReady, t, info);
    } else {
      assets := GenerateWithTemplates(tx.templates, t, info);
    }
  }
}
