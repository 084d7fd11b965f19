# Similar-articles API, modelled in Dafny

This project models the API layer of a news aggregator. The layer sits over an
article store and a cluster store. Articles are grouped into topical clusters by
an external classifier. Given the URL of an article, the API returns the other
articles of that article's cluster, each as an `ArticleApiData` record
(title, media, url, icon URL, publishing time), together with the article's own
title. The HTTP handlers wrap that result, and the results of three other logic
calls, into fixed response records.

Files:

- `outcomes.dfy`: `Option` (Python `Optional`) and `Fallible` (a collaborator call that returns or raises).
- `entities.dfy`: `Article`, `Cluster`, identifier keys, and Python truthiness of an optional cluster id.
- `article_api_data.dfy`: the `ArticleApiData` record.
- `api_logic.dfy`: the resolver. The function `SimilarArticlesData` says what
  `get_similar_articles_data` returns or raises. The method `GetSimilarArticlesData`
  builds the list with a loop, as the source does, and is proved equal to it. The
  lemmas state what the result means.
- `routes.dfy`: the four handlers' response records, built by overwriting a record of defaults.

Collaborators are data, bundled in `ApiLogic.Stores`:

- The URL lookup is a map. A separate set lists the URLs whose lookup raises. That
  exception is raised before the `try`, so it is not wrapped. It surfaces as the
  error kind `LookupRaised`, which the handler's generic `except Exception` absorbs.
- The cluster store is a map. A missing id stands for both a raising `get_cluster`
  and one that returns nothing, because either ends as `GetSimilarArticles`.
- The bulk member fetch and the icon resolver are functions that may raise.

A cluster id is `None`, a number or a string. As in Python, `None`, `0` and `""` are falsy.

Three behaviours of the code the model keeps as written:

- The clusters response gains its `clusters` key only on success.
- A failing URL lookup is not wrapped as a lookup failure.
- An empty `url` argument is not rejected. Only a missing one is.

## Model

| member | source | states |
|---|---|---|
| `ApiLogic.GetSimilarArticlesData` | server_api/api_logic.py:21-67 | the loop over the fetched members, skipping the input URL and appending converted records, yields exactly the outcome `SimilarArticlesData` describes, errors included |
| `ApiLogic.Convert` | server_api/api_logic.py:69-78 | a record copies title, media, url and publishing time verbatim and takes the icon URL the resolver gives for the article's media; conversion raises exactly when the icon lookup raises |
| `ApiLogic.ConvertAll` | server_api/api_logic.py:54-66 | the batch succeeds iff every single conversion succeeds; on success it has one record per article, position by position, so a failure never leaves a partial list |
| `ApiLogic.SiblingsMembers` | server_api/api_logic.py:54-58 | an article is kept iff it is a fetched member and its URL differs from the input URL (exclusion by URL, not by id) |
| `ApiLogic.SiblingsConcat` | server_api/api_logic.py:54-62 | filtering distributes over concatenation, so the kept members stay in the fetched order with no re-sorting |
| `ApiLogic.SiblingsLength` | server_api/api_logic.py:54-58 | the number kept is the member count minus the number of members whose URL is the input URL; duplicates are not removed |
| `ApiLogic.NotFoundLooksNoFurther` | server_api/api_logic.py:29-34 | an absent article gives `ArticleNotFound`, and the result is the same whatever the cluster store and bulk fetch contain |
| `ApiLogic.UnclassifiedHasNoSimilar` | server_api/api_logic.py:39-42 | an article whose cluster id is `None`, `0` or `""` gives `NoSimilarArticles`, independently of the cluster store and bulk fetch |
| `ApiLogic.ExpectedFailureCases` | server_api/api_logic.py:29-42 | `LookupRaised`, `ArticleNotFound` and `NoSimilarArticles` each occur exactly in their own pre-`try` case, in both directions |
| `ApiLogic.LookupFailureCases` | server_api/api_logic.py:48-66 | `GetSimilarArticles` occurs iff the article is found and classified and then the cluster lookup fails, the member fetch raises, or the icon lookup raises for some member with another URL |
| `ApiLogic.SuccessShape` | server_api/api_logic.py:37-67 | on success the title is the looked-up article's title; the records are the kept members converted in order; their count is members minus self-URL members; none has the input URL |
| `ApiLogic.SelfExcluded` | server_api/api_logic.py:56-58 | on success no returned record has the input URL |
| `ApiLogic.ThreeArticleScenario` | server_api/api_logic.py:21-67 | two articles of cluster 7 and one unclassified: the first gets exactly the second as its similar article; the unclassified gets `NoSimilarArticles`; an unknown URL gets `ArticleNotFound` |
| `Routes.MessageFor` | server_api/routes.py:33-40 | the except chain never yields the url-required message, and it leaves the message empty exactly for the unwrapped exception |
| `Routes.MessagesDistinguishErrors` | server_api/routes.py:33-38 | different error kinds get different messages |
| `Routes.GetSimilarArticles` | server_api/routes.py:16-43 | no `url` argument gives `succeeded = false`, the url-required message and an empty payload, regardless of the stores; success carries exactly the logic's list and title with `succeeded = true`; each failure keeps the empty payload with its message; a successful response never lists the input URL |
| `Routes.GetClustersForUi` | server_api/routes.py:46-62 | `succeeded` holds iff the build returned; then nodes, edges and clusters are what it returned; otherwise nodes and edges stay empty and there is no `clusters` key |
| `Routes.GetWebsitesStats` | server_api/routes.py:65-80 | `succeeded` holds iff the stats call returned; then values and labels are its result, otherwise both stay empty |
| `Routes.GetDbStats` | server_api/routes.py:83-97 | `succeeded` holds iff the stats call returned; then data is its result, otherwise it stays the empty mapping |

## Left out

- Flask application setup, its random secret key, CORS and the `index` template route: framework plumbing.
- Logging: diagnostic side effects only.
- The stores and the icon resolver themselves: these are the article, cluster and media utilities, which are not part of this model. They appear only as the data in `Stores`.
- `build_clusters_for_ui`, `get_websites_stats` and `get_db_stats` of the logic: their bodies are not part of this model. The handlers take their outcome as a parameter, with opaque payload types.
- `ArticleApiData.convert_to_dict`: a field-for-field dictionary dump of the record.
- The text of the server messages: they are distinct constants of the `Message` datatype.
- A failure while constructing `APILogic()` inside a handler: it would take the same generic-exception path as an unwrapped URL-lookup failure, and the model has no input for it.
- Consistency between successive store calls under concurrent updates: each store is a fixed value during one call.
- The exception classes of the similar-articles logic: the model takes it that none of `ArticleNotFoundException`, `NoSimilarArticlesException` and `GetSimilarArticlesException` subclasses another, so each is caught by its own `except` clause; the module defining them is not part of this model.
- The truthiness of a returned article object: a found article is taken to be truthy, and only a missing one takes the not-found path.
