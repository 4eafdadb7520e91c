/** The news tools: `get_news_summary` (general headlines from an article
    query) and `get_factual_news` (archived articles about a query). */
module News {
  import opened Calls
  import opened Text

  /** Both tools report at most this many articles. */
  const MaxArticles := 3

  const NewsUnavailableText := "Unable to fetch news at the moment."
  const NoNewsText := "No news found."
  // (written in two parts only so that the verifier can look inside the literal)
  const FactualUnavailableText := "Sorry, I couldn\U{2019}t " + "retrieve factual data right now."

  function Min(a: nat, b: nat): nat
  {
    if a < b then a else b
  }

  // ---------------------------------------------------------------------------
  // get_news_summary
  // ---------------------------------------------------------------------------

  /** A headline article; its `title` key may be absent. */
  datatype Article = Article(title: Option<string>)

  /** The lazy article query as the loop sees it: it yields `items` in order,
      then either stops or raises `failure`. A failure while setting up the
      client or the query is a query with no items and a failure. */
  datatype ArticleQuery = ArticleQuery(items: seq<Article>, failure: Option<Error>)

  /** `art.get('title', 'No title')`. */
  function TitleOf(a: Article): string
  {
    GetOr(a.title, "No title")
  }

  /** The titles of `items`, in order, with the default for missing ones. */
  function Titles(items: seq<Article>): (titles: seq<string>)
    ensures |titles| == |items|
    ensures forall k :: 0 <= k < |items| ==> titles[k] == TitleOf(items[k])
  {
    if |items| == 0 then [] else [TitleOf(items[0])] + Titles(items[1..])
  }

  /** The loop stops after the third title, so the query raises only when it
      runs out before yielding three articles. */
  predicate FailureSeen(q: ArticleQuery)
  {
    q.failure.Some? && |q.items| < MaxArticles
  }

  /** The titles the loop collects: the first three, in order. */
  function CollectedTitles(q: ArticleQuery): (titles: seq<string>)
    ensures |titles| == Min(|q.items|, MaxArticles)
    ensures forall k :: 0 <= k < |titles| ==> titles[k] == TitleOf(q.items[k])
  {
    Titles(q.items[..Min(|q.items|, MaxArticles)])
  }

  /** The reply of `get_news_summary`. A summary leads with the first
      headline and ends with the last one collected. */
  function NewsSummary(q: ArticleQuery): (reply: string)
    ensures FailureSeen(q) ==> reply == NewsUnavailableText
    ensures !FailureSeen(q) && |q.items| == 0 ==> reply == NoNewsText
    ensures !FailureSeen(q) && |q.items| > 0 ==>
              var first := "Recent news: " + TitleOf(q.items[0]);
              var last := TitleOf(q.items[Min(|q.items|, MaxArticles) - 1]);
              && |first| <= |reply| && reply[..|first|] == first
              && |last| <= |reply| && reply[|reply| - |last|..] == last
  {
    if FailureSeen(q) then NewsUnavailableText
    else
      var titles := CollectedTitles(q);
      if |titles| == 0 then NoNewsText
      else
        PrefixedJoin("Recent news: ", titles, ". ");
        "Recent news: " + Join(titles, ". ")
  }

  /** `get_news_summary`: collects titles until it has three, then builds the reply. */
  method GetNewsSummary(query: ArticleQuery) returns (reply: string)
    ensures reply == NewsSummary(query)
  {
    var articles: seq<string> := [];
    var stopped := false;
    var i := 0;
    while i < |query.items|
      invariant 0 <= i <= |query.items| && i <= MaxArticles
      invariant articles == Titles(query.items[..i])
      invariant stopped <==> i == MaxArticles
    {
      var title := TitleOf(query.items[i]);
      articles := articles + [title];
      i := i + 1;
      assert query.items[..i] == query.items[..i - 1] + [query.items[i - 1]];
      if |articles| >= MaxArticles {
        stopped := true;
        break;
      }
    }
    if !stopped && query.failure.Some? {
      reply := NewsUnavailableText;
      return;
    }
    assert articles == CollectedTitles(query);
    if |articles| > 0 {
      reply := "Recent news: " + Join(articles, ". ");
    } else {
      reply := NoNewsText;
    }
  }

  /** Only the first three articles are read: what follows them, a failure
      included, never changes the reply. */
  lemma NewsSummaryReadsThree(q1: ArticleQuery, q2: ArticleQuery)
    requires |q1.items| >= MaxArticles && |q2.items| >= MaxArticles
    requires q1.items[..MaxArticles] == q2.items[..MaxArticles]
    ensures NewsSummary(q1) == NewsSummary(q2)
  {
  }

  /** The reply tells the three cases apart: the fallback exactly when the query
      failed before three articles, "No news found." exactly when it yielded
      nothing, and a "Recent news: " summary exactly when it yielded something. */
  lemma {:induction false} NewsSummaryCases(q: ArticleQuery)
    ensures NewsSummary(q) == NewsUnavailableText <==> FailureSeen(q)
    ensures NewsSummary(q) == NoNewsText <==> !FailureSeen(q) && |q.items| == 0
    ensures StartsWith(NewsSummary(q), "Recent news: ") <==> !FailureSeen(q) && |q.items| > 0
  {
    var r := NewsSummary(q);
    var p := "Recent news: ";
    if FailureSeen(q) {
      assert r[0] == 'U' && |r| >= |p| && r[..|p|][0] != p[0];
    } else if |q.items| == 0 {
      assert r[0] == 'N' && |r| >= |p| && r[..|p|][0] != p[0];
    } else {
      assert r[..|p|] == p;
      assert r[0] == 'R';
    }
  }

  predicate StartsWith(s: string, prefix: string)
  {
    |prefix| <= |s| && s[..|prefix|] == prefix
  }

  // ---------------------------------------------------------------------------
  // get_factual_news
  // ---------------------------------------------------------------------------

  /** An archived article; its `title` and `source_id` keys may be absent. */
  datatype ArchiveArticle = ArchiveArticle(title: Option<string>, sourceId: Option<string>)

  /** The archive response: falsy (no response), or a record whose `results`
      key may be absent. */
  datatype ArchiveResponse = NoResponse | ArchivePayload(results: Option<seq<ArchiveArticle>>)

  /** `f"{title} ({source})"` with the two defaults. */
  function ItemText(a: ArchiveArticle): string
  {
    GetOr(a.title, "No title") + " (" + GetOr(a.sourceId, "Unknown source") + ")"
  }

  function ItemTexts(results: seq<ArchiveArticle>): (items: seq<string>)
    ensures |items| == |results|
    ensures forall k :: 0 <= k < |results| ==> items[k] == ItemText(results[k])
  {
    if |results| == 0 then [] else [ItemText(results[0])] + ItemTexts(results[1..])
  }

  /** The items `get_factual_news` collects: those of the first three results. */
  function FactualItems(response: ArchiveResponse): (items: seq<string>)
    ensures response.NoResponse? || response.results.None? ==> items == []
    ensures response.ArchivePayload? && response.results.Some? ==>
              |items| == Min(|response.results.value|, MaxArticles) &&
              forall k :: 0 <= k < |items| ==> items[k] == ItemText(response.results.value[k])
  {
    match response
    case NoResponse => []
    case ArchivePayload(results) =>
      match results
      case None => []
      case Some(rs) => ItemTexts(rs[..Min(|rs|, MaxArticles)])
  }

  /** The reply of `get_factual_news`. A summary leads with the first result's
      item and ends with the item of the last result used. */
  function FactualNews(query: string, response: Fetch<ArchiveResponse>): (reply: string)
    ensures response.Raised? ==> reply == FactualUnavailableText
    ensures response.Fetched? && FactualItems(response.value) == [] ==>
              reply == "No factual data found about " + query + "."
    ensures response.Fetched? && FactualItems(response.value) != [] ==>
              var rs := response.value.results.value;
              var first := "Factual data: " + ItemText(rs[0]);
              var last := ItemText(rs[Min(|rs|, MaxArticles) - 1]);
              && |first| <= |reply| && reply[..|first|] == first
              && |last| <= |reply| && reply[|reply| - |last|..] == last
  {
    match response
    case Raised(_) => FactualUnavailableText
    case Fetched(r) =>
      var items := FactualItems(r);
      if |items| == 0 then "No factual data found about " + query + "."
      else
        assert r.ArchivePayload? && r.results.Some?;
        assert items[|items| - 1] == ItemText(r.results.value[Min(|r.results.value|, MaxArticles) - 1]);
        PrefixedJoin("Factual data: ", items, ". ");
        "Factual data: " + Join(items, ". ")
  }

  /** `get_factual_news`: formats the first three results, then builds the reply. */
  method GetFactualNews(query: string, response: Fetch<ArchiveResponse>) returns (reply: string)
    ensures reply == FactualNews(query, response)
  {
    if response.Raised? {
      reply := FactualUnavailableText;
      return;
    }
    var r := response.value;
    var articles: seq<string> := [];
    if r.ArchivePayload? && r.results.Some? {
      var firstResults := r.results.value[..Min(|r.results.value|, MaxArticles)];
      for i := 0 to |firstResults|
        invariant articles == ItemTexts(firstResults[..i])
      {
        var article := firstResults[i];
        var title := GetOr(article.title, "No title");
        var source := GetOr(article.sourceId, "Unknown source");
        articles := articles + [title + " (" + source + ")"];
        assert firstResults[..i + 1] == firstResults[..i] + [article];
      }
      assert firstResults[..|firstResults|] == firstResults;
    }
    if |articles| > 0 {
      reply := "Factual data: " + Join(articles, ". ");
    } else {
      reply := "No factual data found about " + query + ".";
    }
  }

  /** Results after the third never change the reply. */
  lemma FactualNewsReadsThree(query: string, rs1: seq<ArchiveArticle>, rs2: seq<ArchiveArticle>)
    requires |rs1| >= MaxArticles && |rs2| >= MaxArticles
    requires rs1[..MaxArticles] == rs2[..MaxArticles]
    ensures FactualNews(query, Fetched(ArchivePayload(Some(rs1))))
         == FactualNews(query, Fetched(ArchivePayload(Some(rs2))))
  {
  }

  /** The reply tells the three cases apart: the apology exactly when the call
      raised, "No factual data found about ..." exactly when the response had no
      usable results, and a "Factual data: " summary exactly when it had some. */
  lemma {:induction false} FactualNewsCases(query: string, response: Fetch<ArchiveResponse>)
    ensures FactualNews(query, response) == FactualUnavailableText <==> response.Raised?
    ensures FactualNews(query, response) == "No factual data found about " + query + "." <==>
              response.Fetched? && FactualItems(response.value) == []
    ensures StartsWith(FactualNews(query, response), "Factual data: ") <==>
              response.Fetched? && FactualItems(response.value) != []
  {
    var r := FactualNews(query, response);
    var p := "Factual data: ";
    var none := "No factual data found about " + query + ".";
    assert none[0] == 'N';
    assert FactualUnavailableText[0] == 'S';
    if response.Raised? {
      assert r == FactualUnavailableText;
      assert |r| >= |p| && r[..|p|][0] != p[0];
    } else if FactualItems(response.value) == [] {
      assert r[0] == 'N' && |r| >= |p| && r[..|p|][0] != p[0];
    } else {
      assert r[..|p|] == p;
      assert r[0] == 'F';
    }
  }
}
