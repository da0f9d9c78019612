/** The spoken tech-news briefing: error and empty-feed replies, priority selection
    of articles about AI and technology, and one bullet line per chosen headline. */
module NewsProcessor {
  import opened Options
  import opened Text

  datatype Article = Article(title: string)

  /** The `articles` entry of a feed: no such key, a key holding `None`, or a list. */
  datatype ArticlesEntry = NoArticlesKey | NullArticles | ArticleList(list: seq<Article>)

  /** The feed as handed over: something other than a dictionary (including nothing
      at all), or a dictionary whose `status` and `message` keys may be missing. */
  datatype NewsData =
    | NotADict
    | NewsDict(status: Option<string>, message: Option<string>, articles: ArticlesEntry)

  const BriefingHeader := "Here's your tech news briefing for today:\n\n"
  const FetchErrorPrefix := "I'm sorry, I couldn't fetch the latest tech news. Error: "
  const NoNewsData := "I'm sorry, I couldn't fetch any tech news at the moment."
  const NoArticles := "I couldn't find any recent tech news articles at the moment."

  /** The bullet as it appears in the output: the UTF-8 bytes of U+2022 read back as
      Windows-1252 ("â", "€", "¢"), then a space. */
  const Bullet := "\U{E2}\U{20AC}\U{A2} "

  /** Separator between a headline and the name of its source. */
  const SourceSeparator := " - "

  /** The most headlines a briefing reads out. */
  const MaxStories: nat := 3

  // ---------------------------------------------------------------------------
  // Headlines
  // ---------------------------------------------------------------------------

  /** The headline up to the first " - " (`title.split(' - ')[0]`): the longest
      prefix free of the separator, cut exactly where the separator begins. */
  function TitleHead(title: string): (r: string)
    ensures StartsWith(title, r)
    ensures forall i | 0 <= i < |r| :: !OccursAt(title, SourceSeparator, i)
    ensures |r| < |title| ==> OccursAt(title, SourceSeparator, |r|)
    decreases |title|
  {
    if |title| < |SourceSeparator| then title
    else if title[..|SourceSeparator|] == SourceSeparator then ""
    else
      var rest := TitleHead(title[1..]);
      assert forall i | 1 <= i <= |title| - 3 :: OccursAt(title, SourceSeparator, i) == OccursAt(title[1..], SourceSeparator, i - 1);
      assert title[..1 + |rest|] == [title[0]] + rest;
      [title[0]] + rest
  }

  /** The three properties above pin the head down: any prefix that has them is it. */
  lemma TitleHeadUnique(title: string, head: string)
    requires StartsWith(title, head)
    requires forall i | 0 <= i < |head| :: !OccursAt(title, SourceSeparator, i)
    requires |head| == |title| || OccursAt(title, SourceSeparator, |head|)
    ensures TitleHead(title) == head
  {
    var r := TitleHead(title);
    assert |r| == |head|;
    assert r == title[..|r|] == head;
  }

  /** A headline without a source suffix is read out whole. */
  lemma TitleWithoutSourceKept(title: string)
    requires !Contains(title, SourceSeparator)
    ensures TitleHead(title) == title
  {
    var r := TitleHead(title);
    if |r| < |title| {
      ContainsAt(title, SourceSeparator, |r|);
    }
    assert title[..|title|] == title;
  }

  // ---------------------------------------------------------------------------
  // Article selection
  // ---------------------------------------------------------------------------

  const PriorityKeywords: seq<string> := ["ai", "artificial intelligence", "tech", "technology"]

  /** The lower-cased title contains one of the priority keywords as a substring. */
  predicate IsPriority(a: Article) {
    MentionsAny(Lower(a.title), PriorityKeywords)
  }

  /** The priority articles, in feed order. */
  function PriorityArticles(articles: seq<Article>): (r: seq<Article>)
    ensures |r| <= |articles|
    ensures forall k | 0 <= k < |r| :: IsPriority(r[k]) && r[k] in articles
    ensures forall k | 0 <= k < |articles| :: IsPriority(articles[k]) ==> articles[k] in r
    decreases |articles|
  {
    if |articles| == 0 then []
    else
      var rest := PriorityArticles(articles[1..]);
      assert forall k | 1 <= k < |articles| :: articles[k] == articles[1..][k - 1];
      (if IsPriority(articles[0]) then [articles[0]] else []) + rest
  }

  /** Filtering distributes over concatenation, so the feed order is kept. */
  lemma {:induction false} PriorityArticlesAppend(a: seq<Article>, b: seq<Article>)
    ensures PriorityArticles(a + b) == PriorityArticles(a) + PriorityArticles(b)
    decreases |a|
  {
    if |a| == 0 {
      assert a + b == b;
    } else {
      assert (a + b)[1..] == a[1..] + b;
      PriorityArticlesAppend(a[1..], b);
    }
  }

  /** Filtering a second time changes nothing. */
  lemma {:induction false} PriorityArticlesIdempotent(articles: seq<Article>)
    ensures PriorityArticles(PriorityArticles(articles)) == PriorityArticles(articles)
    decreases |articles|
  {
    if |articles| > 0 {
      var head := if IsPriority(articles[0]) then [articles[0]] else [];
      PriorityArticlesIdempotent(articles[1..]);
      PriorityArticlesAppend(head, PriorityArticles(articles[1..]));
      if IsPriority(articles[0]) {
        assert [articles[0]][1..] == [];
      }
    }
  }

  /** Some article has priority exactly when the filtered list is non-empty. */
  lemma PriorityArticlesEmptyIff(articles: seq<Article>)
    ensures |PriorityArticles(articles)| == 0 <==> forall k | 0 <= k < |articles| :: !IsPriority(articles[k])
  {
    if |PriorityArticles(articles)| > 0 {
      assert PriorityArticles(articles)[0] in articles;
    }
  }

  /** The stories read out: the first three priority articles, or the first three
      articles when none has priority. */
  function TopStories(articles: seq<Article>): (r: seq<Article>)
    ensures |r| <= MaxStories && |r| <= |articles|
    ensures |articles| > 0 ==> |r| > 0
    ensures forall k | 0 <= k < |r| :: r[k] in articles
    ensures |PriorityArticles(articles)| > 0 ==> forall k | 0 <= k < |r| :: IsPriority(r[k])
    ensures (|PriorityArticles(articles)| > 0)
              ==> r == PriorityArticles(articles)[..Min(MaxStories, |PriorityArticles(articles)|)]
    ensures |PriorityArticles(articles)| == 0 ==> r == articles[..Min(MaxStories, |articles|)]
  {
    var priority := PriorityArticles(articles);
    var chosen := if |priority| > 0 then priority else articles;
    chosen[..Min(MaxStories, |chosen|)]
  }

  // ---------------------------------------------------------------------------
  // The briefing
  // ---------------------------------------------------------------------------

  /** One bullet line: the headline without its source. */
  function StoryLine(a: Article): string {
    Bullet + TitleHead(a.title) + "\n"
  }

  predicate IsErrorReply(data: NewsData) {
    data.NewsDict? && data.status == Some("error")
  }

  /** A feed that carries at least one article and no error status. */
  predicate HasArticles(data: NewsData) {
    && !IsErrorReply(data)
    && data.NewsDict? && data.articles.ArticleList? && |data.articles.list| > 0
  }

  function CreateBriefing(data: NewsData): (r: string)
    ensures IsErrorReply(data) ==> r == FetchErrorPrefix + data.message.GetOr("Unknown error")
    ensures (!IsErrorReply(data) && (data.NotADict? || data.articles.NoArticlesKey?)) ==> r == NoNewsData
    ensures (!IsErrorReply(data) && data.NewsDict? && data.articles in {NullArticles, ArticleList([])})
              ==> r == NoArticles
    ensures HasArticles(data) ==>
              r == BriefingHeader + Concat(RenderEach(TopStories(data.articles.list), StoryLine))
  {
    if data.NewsDict? && data.status == Some("error") then
      FetchErrorPrefix + data.message.GetOr("Unknown error")
    else if data.NotADict? || data.articles.NoArticlesKey? then NoNewsData
    else if data.articles.NullArticles? || |data.articles.list| == 0 then NoArticles
    else
      var stories := TopStories(data.articles.list);
      AppendEachIsConcat(BriefingHeader, stories, StoryLine);
      AppendEach(BriefingHeader, stories, StoryLine)
  }

  /** A briefing opens with the header and carries a bullet line for every chosen story. */
  lemma BriefingListsStories(data: NewsData)
    requires HasArticles(data)
    ensures var r := CreateBriefing(data);
      var stories := TopStories(data.articles.list);
      && StartsWith(r, BriefingHeader)
      && forall k | 0 <= k < |stories| :: Contains(r, StoryLine(stories[k]))
  {
    var r := CreateBriefing(data);
    var stories := TopStories(data.articles.list);
    var body := Concat(RenderEach(stories, StoryLine));
    assert r[..|BriefingHeader|] == BriefingHeader;
    forall k | 0 <= k < |stories|
      ensures Contains(r, StoryLine(stories[k]))
    {
      ContainsPart(RenderEach(stories, StoryLine), k);
      ContainsInContext(BriefingHeader, body, "", StoryLine(stories[k]));
      assert BriefingHeader + body + "" == r;
    }
  }

  /** Articles without priority never change a briefing once some article has it:
      the feed reduced to its priority articles gives the same text. */
  lemma BriefingIgnoresOtherArticles(status: Option<string>, message: Option<string>, articles: seq<Article>)
    requires |PriorityArticles(articles)| > 0
    ensures CreateBriefing(NewsDict(status, message, ArticleList(articles)))
              == CreateBriefing(NewsDict(status, message, ArticleList(PriorityArticles(articles))))
  {
    PriorityArticlesIdempotent(articles);
  }

  /** An error status wins over whatever articles the feed also carries. */
  lemma ErrorStatusWins(message: Option<string>, articles: ArticlesEntry)
    ensures CreateBriefing(NewsDict(Some("error"), message, articles))
              == FetchErrorPrefix + message.GetOr("Unknown error")
    ensures message.None? ==>
              CreateBriefing(NewsDict(Some("error"), message, articles))
                == "I'm sorry, I couldn't fetch the latest tech news. Error: Unknown error"
  {
  }
}
