/** Board search results (src/api/search/mod.rs); scraping them is not part of the model. */
module Search {
  /** `SearchResult`: a board found by a search. */
  datatype SearchResult = SearchResult(id: string, name: string, platform: string)
}
