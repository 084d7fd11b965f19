/** The record the API returns for one similar article. */
module ApiObjects {
  import opened Outcomes

  datatype ArticleApiData = ArticleApiData(
    title: string,
    media: string,
    url: string,
    iconUrl: Option<string>,
    publishingTime: Option<string>)
}
