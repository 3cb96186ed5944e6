/** The search result shapes of lib/types.ts. */
module Types {
  import opened Common

  /** One news article; its identity is the `url` string, compared exactly. */
  datatype NewsResult = NewsResult(
    title: string,
    url: string,
    source: string,
    age: Option<string>,
    description: Option<string>,
    thumbnail: Option<string>)

  /** The search capability's reply body. */
  datatype SearchResponse = SearchResponse(results: seq<NewsResult>)
}
