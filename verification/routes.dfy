/**
 * The response records of the HTTP handlers. Each handler starts from a record of
 * defaults and overwrites fields as the branch taken and the exception caught decide.
 * The request is reduced to its optional `url` argument; the logic calls of the
 * handlers other than `/get_similar_articles` are opaque outcomes.
 */
module Routes {
  import opened Outcomes
  import opened ApiObjects
  import ApiLogic

  /** `error_msg`: empty, or one of the fixed server messages. */
  datatype Message =
    | NoMessage
    | MsgUrlRequired
    | MsgArticleNotFound
    | MsgNoSimilarArticlesFound
    | MsgGettingSimilarArticles

  /** The record returned by `/get_similar_articles`. */
  datatype SimilarArticlesResponse = SimilarArticlesResponse(
    articlesData: seq<ArticleApiData>,
    errorMsg: Message,
    succeeded: bool,
    title: string)

  /** The handler's `except` chain: the message each failure of the logic leaves behind. */
  function MessageFor(e: ApiLogic.LogicError): (m: Message)
    ensures m != MsgUrlRequired
    ensures m == NoMessage <==> e == ApiLogic.LookupRaised
  {
    match e
    case ArticleNotFound => MsgArticleNotFound
    case NoSimilarArticles => MsgNoSimilarArticlesFound
    case GetSimilarArticles => MsgGettingSimilarArticles
    case LookupRaised => NoMessage
  }

  /** The named failure kinds get pairwise different messages. */
  lemma MessagesDistinguishErrors(e1: ApiLogic.LogicError, e2: ApiLogic.LogicError)
    requires MessageFor(e1) == MessageFor(e2)
    ensures e1 == e2
  {
  }

  /** `get_similar_articles`; `urlArg` is `request.args.get('url')`. */
  method GetSimilarArticles(urlArg: Option<string>, st: ApiLogic.Stores) returns (resp: SimilarArticlesResponse)
    ensures urlArg.None? ==> resp == SimilarArticlesResponse([], MsgUrlRequired, false, "")
    ensures urlArg.Some? ==>
      match ApiLogic.SimilarArticlesData(st, urlArg.value)
      case Success(data) => resp == SimilarArticlesResponse(data.articles, NoMessage, true, data.title)
      case Failure(e) => resp == SimilarArticlesResponse([], MessageFor(e), false, "")
    ensures resp.succeeded ==> forall rec :: rec in resp.articlesData ==> rec.url != urlArg.value
  {
    resp := SimilarArticlesResponse([], NoMessage, false, "");
    if urlArg.None? {
      resp := resp.(errorMsg := MsgUrlRequired);
    } else {
      var articleUrl := urlArg.value;
      var result := ApiLogic.GetSimilarArticlesData(st, articleUrl);
      match result {
        case Success(data) =>
          ApiLogic.SelfExcluded(st, articleUrl);
          resp := resp.(articlesData := data.articles);
          resp := resp.(title := data.title);
          resp := resp.(succeeded := true);
        case Failure(ArticleNotFound) =>
          resp := resp.(errorMsg := MsgArticleNotFound);
        case Failure(NoSimilarArticles) =>
          resp := resp.(errorMsg := MsgNoSimilarArticlesFound);
        case Failure(GetSimilarArticles) =>
          resp := resp.(errorMsg := MsgGettingSimilarArticles);
        case Failure(LookupRaised) =>
          // any other exception is only logged: the defaults stay
      }
    }
  }

  /** The record returned by `/get_clusters_for_ui`; `clusters` is absent until the build succeeds. */
  datatype ClustersResponse<N, E, C> = ClustersResponse(
    nodes: seq<N>,
    edges: seq<E>,
    clusters: Option<seq<C>>,
    succeeded: bool)

  /** `get_clusters_for_ui`; `built` is what `build_clusters_for_ui` returns or raises. */
  method GetClustersForUi<N, E, C>(built: Fallible<(seq<N>, seq<E>, seq<C>)>) returns (resp: ClustersResponse<N, E, C>)
    ensures resp.succeeded <==> built.Returned?
    ensures built.Returned? ==>
      resp.nodes == built.value.0 && resp.edges == built.value.1 && resp.clusters == Some(built.value.2)
    ensures built.Raised? ==> resp.nodes == [] && resp.edges == [] && resp.clusters == None
  {
    resp := ClustersResponse([], [], None, false);
    match built {
      case Returned((nodes, edges, clusters)) =>
        resp := resp.(nodes := nodes);
        resp := resp.(edges := edges);
        resp := resp.(clusters := Some(clusters));
        resp := resp.(succeeded := true);
      case Raised =>
    }
  }

  /** The record returned by `/get_websites_stats`. */
  datatype WebsitesStatsResponse<V> = WebsitesStatsResponse(values: seq<V>, labels: seq<string>, succeeded: bool)

  /** `get_websites_stats`; `stats` is what the logic's `get_websites_stats` returns or raises. */
  method GetWebsitesStats<V>(stats: Fallible<(seq<V>, seq<string>)>) returns (resp: WebsitesStatsResponse<V>)
    ensures resp.succeeded <==> stats.Returned?
    ensures stats.Returned? ==> resp.values == stats.value.0 && resp.labels == stats.value.1
    ensures stats.Raised? ==> resp.values == [] && resp.labels == []
  {
    resp := WebsitesStatsResponse([], [], false);
    match stats {
      case Returned((values, labels)) =>
        resp := resp.(values := values);
        resp := resp.(labels := labels);
        resp := resp.(succeeded := true);
      case Raised =>
    }
  }

  /** The record returned by `/get_db_stats`. */
  datatype DbStatsResponse = DbStatsResponse(data: map<string, int>, succeeded: bool)

  /** `get_db_stats`; `stats` is what the logic's `get_db_stats` returns or raises. */
  method GetDbStats(stats: Fallible<map<string, int>>) returns (resp: DbStatsResponse)
    ensures resp.succeeded <==> stats.Returned?
    ensures stats.Returned? ==> resp.data == stats.value
    ensures stats.Raised? ==> resp.data == map[]
  {
    resp := DbStatsResponse(map[], false);
    match stats {
      case Returned(data) =>
        resp := resp.(data := data);
        resp := resp.(succeeded := true);
      case Raised =>
    }
  }
}
