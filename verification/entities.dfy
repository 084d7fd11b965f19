/** The stored entities the API layer reads: articles and clusters. */
module Entities {
  import opened Outcomes

  /** An identifier as the database hands it out: a number or a string. */
  datatype Key = Num(n: int) | Text(s: string)

  /**
   * Python truthiness of an optional identifier: `None`, `0` and `""` are falsy,
   * everything else is truthy.
   */
  predicate Truthy(k: Option<Key>)
  {
    match k
    case None => false
    case Some(Num(n)) => n != 0
    case Some(Text(s)) => s != ""
  }

  /** An article; `clusterId` stays absent until the classifier assigns one. */
  datatype Article = Article(
    id: Key,
    title: string,
    domain: string,
    media: string,
    url: string,
    publishingTime: Option<string>,
    clusterId: Option<Key>)

  /** A cluster of topically similar articles; `articlesId` lists its members. */
  datatype Cluster = Cluster(
    id: Key,
    trend: string,
    creationTime: string,
    lastUpdated: string,
    domains: set<string>,
    articlesId: seq<Key>)
}
