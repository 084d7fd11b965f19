/**
 * The similar-articles resolver of `APILogic`: from an article URL to the other
 * articles of its cluster, each turned into an `ArticleApiData` record.
 */
module ApiLogic {
  import opened Outcomes
  import opened Entities
  import opened ApiObjects

  /** The collaborators `APILogic` consults, as data. */
  datatype Stores = Stores(
    // get_article_by_url, for the URLs the store answers for
    articleByUrl: map<string, Article>,
    // the URLs for which get_article_by_url raises
    urlLookupFaults: set<string>,
    // get_cluster; an id missing here fails, whether by raising or by returning nothing
    clusters: map<Key, Cluster>,
    // get_articles, the bulk fetch of a cluster's members
    fetchArticles: seq<Key> -> Fallible<seq<Article>>,
    // get_google_article_icon_url, keyed by media name
    iconUrl: string -> Fallible<Option<string>>)

  /** The ways `get_similar_articles_data` ends without a result. */
  datatype LogicError =
    | ArticleNotFound      // no article has the URL
    | NoSimilarArticles    // the article is not classified yet
    | GetSimilarArticles   // cluster lookup, member fetch or conversion failed
    | LookupRaised         // the URL lookup itself raised; it is not wrapped

  datatype Result<+T> = Success(value: T) | Failure(error: LogicError)

  /** The pair `(similar_articles, title)` returned on success. */
  datatype SimilarArticles = SimilarArticles(articles: seq<ArticleApiData>, title: string)

  /** `__get_convert_article_api_data`: copy four fields, resolve the icon from the media name. */
  function Convert(article: Article, iconUrl: string -> Fallible<Option<string>>): (r: Fallible<ArticleApiData>)
    ensures r.Raised? <==> iconUrl(article.media).Raised?
    ensures r.Returned? ==>
      && r.value.title == article.title
      && r.value.media == article.media
      && r.value.url == article.url
      && r.value.publishingTime == article.publishingTime
      && r.value.iconUrl == iconUrl(article.media).value
  {
    match iconUrl(article.media)
    case Raised => Raised
    case Returned(icon) =>
      Returned(ArticleApiData(article.title, article.media, article.url, icon, article.publishingTime))
  }

  /** The members whose URL differs from `url`, in their original order. */
  function Siblings(members: seq<Article>, url: string): seq<Article>
  {
    if members == [] then []
    else
      var last := members[|members| - 1];
      Siblings(members[..|members| - 1], url) + (if last.url == url then [] else [last])
  }

  /** The URLs of a sequence of articles, position by position. */
  function Urls(members: seq<Article>): seq<string>
  {
    seq(|members|, i requires 0 <= i < |members| => members[i].url)
  }

  /** Converts every article, left to right; one raising conversion fails the whole batch. */
  function ConvertAll(articles: seq<Article>, iconUrl: string -> Fallible<Option<string>>): (r: Fallible<seq<ArticleApiData>>)
    ensures r.Returned? <==> forall i :: 0 <= i < |articles| ==> Convert(articles[i], iconUrl).Returned?
    ensures r.Returned? ==>
      && |r.value| == |articles|
      && forall i :: 0 <= i < |articles| ==> r.value[i] == Convert(articles[i], iconUrl).value
  {
    if articles == [] then Returned([])
    else
      var init := articles[..|articles| - 1];
      match ConvertAll(init, iconUrl)
      case Raised => Raised
      case Returned(done) =>
        match Convert(articles[|articles| - 1], iconUrl)
        case Raised => Raised
        case Returned(record) => Returned(done + [record])
  }

  /** What `get_similar_articles_data(url)` returns or raises, over the given stores. */
  function SimilarArticlesData(st: Stores, url: string): Result<SimilarArticles>
  {
    if url in st.urlLookupFaults then Failure(LookupRaised)
    else if url !in st.articleByUrl then Failure(ArticleNotFound)
    else
      var article := st.articleByUrl[url];
      if !Truthy(article.clusterId) then Failure(NoSimilarArticles)
      else if article.clusterId.value !in st.clusters then Failure(GetSimilarArticles)
      else
        match st.fetchArticles(st.clusters[article.clusterId.value].articlesId)
        case Raised => Failure(GetSimilarArticles)
        case Returned(members) =>
          match ConvertAll(Siblings(members, url), st.iconUrl)
          case Raised => Failure(GetSimilarArticles)
          case Returned(records) => Success(SimilarArticles(records, article.title))
  }

  /**
   * `APILogic.get_similar_articles_data`: look the article up, check its cluster,
   * fetch the members and convert every one whose URL is not the input URL.
   */
  method GetSimilarArticlesData(st: Stores, articleUrl: string) returns (r: Result<SimilarArticles>)
    ensures r == SimilarArticlesData(st, articleUrl)
  {
    if articleUrl in st.urlLookupFaults {
      return Failure(LookupRaised);
    }
    if articleUrl !in st.articleByUrl {
      return Failure(ArticleNotFound);
    }
    var articleObject := st.articleByUrl[articleUrl];
    var title := articleObject.title;
    if !Truthy(articleObject.clusterId) {
      return Failure(NoSimilarArticles);
    }
    var clusterId := articleObject.clusterId.value;
    if clusterId !in st.clusters {
      return Failure(GetSimilarArticles);
    }
    var fetched := st.fetchArticles(st.clusters[clusterId].articlesId);
    if fetched.Raised? {
      return Failure(GetSimilarArticles);
    }
    var articles := fetched.value;
    var similar: seq<ArticleApiData> := [];
    for i := 0 to |articles|
      invariant ConvertAll(Siblings(articles[..i], articleUrl), st.iconUrl) == Returned(similar)
    {
      var article := articles[i];
      assert articles[..i + 1][..i] == articles[..i];
      assert articles[..i + 1][i] == article;
      if article.url == articleUrl {
        assert Siblings(articles[..i + 1], articleUrl) == Siblings(articles[..i], articleUrl);
        continue;
      }
      var converted := Convert(article, st.iconUrl);
      if converted.Raised? {
        SiblingsMembers(articles, articleUrl);
        return Failure(GetSimilarArticles);
      }
      ghost var done := Siblings(articles[..i], articleUrl);
      assert Siblings(articles[..i + 1], articleUrl) == done + [article];
      assert (done + [article])[..|done|] == done;
      similar := similar + [converted.value];
    }
    assert articles[..|articles|] == articles;
    return Success(SimilarArticles(similar, title));
  }

  /** An article survives the filter exactly when it is a member with another URL. */
  lemma {:induction false} SiblingsMembers(members: seq<Article>, url: string)
    ensures forall a :: a in Siblings(members, url) <==> a in members && a.url != url
  {
    if members != [] {
      var init := members[..|members| - 1];
      SiblingsMembers(init, url);
      assert members == init + [members[|members| - 1]];
    }
  }

  /** Filtering distributes over concatenation: the order of the members is kept. */
  lemma {:induction false} SiblingsConcat(front: seq<Article>, back: seq<Article>, url: string)
    ensures Siblings(front + back, url) == Siblings(front, url) + Siblings(back, url)
  {
    if back == [] {
      assert front + back == front;
    } else {
      var init := back[..|back| - 1];
      SiblingsConcat(front, init, url);
      assert (front + back)[..|front + back| - 1] == front + init;
    }
  }

  /** Exactly the members carrying the URL are dropped; nothing is deduplicated. */
  lemma {:induction false} SiblingsLength(members: seq<Article>, url: string)
    ensures |Siblings(members, url)| == |members| - multiset(Urls(members))[url]
  {
    if members != [] {
      var init := members[..|members| - 1];
      SiblingsLength(init, url);
      assert Urls(members) == Urls(init) + [members[|members| - 1].url];
    }
  }

  /** A missing article ends as `ArticleNotFound` whatever the cluster store and the bulk fetch hold. */
  lemma NotFoundLooksNoFurther(st: Stores, url: string, clusters: map<Key, Cluster>, fetch: seq<Key> -> Fallible<seq<Article>>)
    requires url !in st.urlLookupFaults && url !in st.articleByUrl
    ensures SimilarArticlesData(st, url) == Failure(ArticleNotFound)
    ensures SimilarArticlesData(st.(clusters := clusters, fetchArticles := fetch), url) == Failure(ArticleNotFound)
  {
  }

  /** An article whose cluster id is falsy (`None`, `0`, `""`) ends as `NoSimilarArticles`. */
  lemma UnclassifiedHasNoSimilar(st: Stores, url: string, clusters: map<Key, Cluster>, fetch: seq<Key> -> Fallible<seq<Article>>)
    requires url !in st.urlLookupFaults && url in st.articleByUrl
    requires st.articleByUrl[url].clusterId in {None, Some(Num(0)), Some(Text(""))}
    ensures SimilarArticlesData(st, url) == Failure(NoSimilarArticles)
    ensures SimilarArticlesData(st.(clusters := clusters, fetchArticles := fetch), url) == Failure(NoSimilarArticles)
  {
  }

  /**
   * On success: the title is the looked-up article's, the records are the fetched
   * members without the input URL, converted one by one in the fetched order, and
   * there are as many as members minus those carrying the input URL.
   */
  lemma {:induction false} SuccessShape(st: Stores, url: string)
    requires SimilarArticlesData(st, url).Success?
    ensures url in st.articleByUrl && Truthy(st.articleByUrl[url].clusterId)
    ensures SimilarArticlesData(st, url).value.title == st.articleByUrl[url].title
    ensures var cluster := st.clusters[st.articleByUrl[url].clusterId.value];
            var members := st.fetchArticles(cluster.articlesId).value;
            var records := SimilarArticlesData(st, url).value.articles;
            && |records| == |members| - multiset(Urls(members))[url]
            && |records| == |Siblings(members, url)|
            && (forall i :: 0 <= i < |records| ==> records[i] == Convert(Siblings(members, url)[i], st.iconUrl).value)
            && (forall i :: 0 <= i < |records| ==> records[i].url != url)
  {
    var cluster := st.clusters[st.articleByUrl[url].clusterId.value];
    var members := st.fetchArticles(cluster.articlesId).value;
    var siblings := Siblings(members, url);
    SiblingsLength(members, url);
    SiblingsMembers(members, url);
    forall i | 0 <= i < |siblings|
      ensures siblings[i].url != url
    {
      assert siblings[i] in siblings;
    }
  }

  /**
   * The failures raised before the `try`: a raising URL lookup passes through
   * unwrapped, a missing article is `ArticleNotFound`, a found but unclassified
   * one is `NoSimilarArticles`, and nothing else leads to these three.
   */
  lemma ExpectedFailureCases(st: Stores, url: string)
    ensures SimilarArticlesData(st, url) == Failure(LookupRaised) <==> url in st.urlLookupFaults
    ensures SimilarArticlesData(st, url) == Failure(ArticleNotFound) <==>
      url !in st.urlLookupFaults && url !in st.articleByUrl
    ensures SimilarArticlesData(st, url) == Failure(NoSimilarArticles) <==>
      url !in st.urlLookupFaults && url in st.articleByUrl && !Truthy(st.articleByUrl[url].clusterId)
  {
  }

  /**
   * No returned record carries the input URL: the membership form of the last
   * clause of `SuccessShape`, as the handler states it of its response.
   */
  lemma SelfExcluded(st: Stores, url: string)
    requires SimilarArticlesData(st, url).Success?
    ensures forall rec :: rec in SimilarArticlesData(st, url).value.articles ==> rec.url != url
  {
    SuccessShape(st, url);
  }

  /**
   * `GetSimilarArticles` is reported exactly when the article is found and classified
   * and then the cluster lookup fails, the member fetch raises, or the icon lookup of
   * some member with another URL raises.
   */
  lemma {:induction false} LookupFailureCases(st: Stores, url: string)
    ensures SimilarArticlesData(st, url) == Failure(GetSimilarArticles) <==>
      && url !in st.urlLookupFaults
      && url in st.articleByUrl
      && Truthy(st.articleByUrl[url].clusterId)
      && var id := st.articleByUrl[url].clusterId.value;
         || id !in st.clusters
         || st.fetchArticles(st.clusters[id].articlesId).Raised?
         || exists a :: a in st.fetchArticles(st.clusters[id].articlesId).value && a.url != url && st.iconUrl(a.media).Raised?
  {
    if url !in st.urlLookupFaults && url in st.articleByUrl && Truthy(st.articleByUrl[url].clusterId) {
      var id := st.articleByUrl[url].clusterId.value;
      if id in st.clusters && st.fetchArticles(st.clusters[id].articlesId).Returned? {
        var members := st.fetchArticles(st.clusters[id].articlesId).value;
        var siblings := Siblings(members, url);
        SiblingsMembers(members, url);
        if exists a :: a in members && a.url != url && st.iconUrl(a.media).Raised? {
          var a :| a in members && a.url != url && st.iconUrl(a.media).Raised?;
          var i :| 0 <= i < |siblings| && siblings[i] == a;
          assert Convert(siblings[i], st.iconUrl).Raised?;
        } else {
          forall i | 0 <= i < |siblings|
            ensures Convert(siblings[i], st.iconUrl).Returned?
          {
            assert siblings[i] in siblings;
          }
        }
      }
    }
  }

  /**
   * Two classified articles of cluster 7 and one unclassified article: the first
   * gets the second as its only similar article, the unclassified one gets
   * `NoSimilarArticles`, an unknown URL gets `ArticleNotFound`.
   */
  lemma ThreeArticleScenario(st: Stores, a1: Article, a2: Article, b1: Article)
    requires a1 == Article(Num(1), "first", "a.com", "A", "a.com/1", None, Some(Num(7)))
    requires a2 == Article(Num(2), "second", "a.com", "A", "a.com/2", None, Some(Num(7)))
    requires b1 == Article(Num(3), "third", "b.com", "B", "b.com/1", None, None)
    requires st.articleByUrl == map["a.com/1" := a1, "a.com/2" := a2, "b.com/1" := b1]
    requires st.urlLookupFaults == {}
    requires st.clusters == map[Num(7) := Cluster(Num(7), "trend", "", "", {"a.com"}, [Num(1), Num(2)])]
    requires st.fetchArticles([Num(1), Num(2)]) == Returned([a1, a2])
    requires st.iconUrl("A") == Returned(None)
    ensures SimilarArticlesData(st, "a.com/1")
            == Success(SimilarArticles([ArticleApiData("second", "A", "a.com/2", None, None)], "first"))
    ensures SimilarArticlesData(st, "b.com/1") == Failure(NoSimilarArticles)
    ensures SimilarArticlesData(st, "missing") == Failure(ArticleNotFound)
  {
    assert [a1, a2][..1] == [a1] && [a1][..0] == [] && [a2][..0] == [];
    assert Siblings([a1], "a.com/1") == [];
    assert Siblings([a1, a2], "a.com/1") == [a2];
    assert Convert(a2, st.iconUrl) == Returned(ArticleApiData("second", "A", "a.com/2", None, None));
    var converted := ConvertAll([a2], st.iconUrl);
    assert Convert([a2][0], st.iconUrl).Returned?;
    assert converted.Returned? && converted.value[0] == ArticleApiData("second", "A", "a.com/2", None, None);
    assert converted.value == [ArticleApiData("second", "A", "a.com/2", None, None)];
    assert st.articleByUrl["a.com/1"] == a1;
  }
}
