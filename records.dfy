/**
 * The records the reading feed passes around: articles as the store returns
 * them, concepts, and articles "hydrated" with their concept list.
 */
module Records {
  import opened Wrappers

  /** A concept row: `id, name, info`. */
  datatype Concept = Concept(id: int, name: string, info: string)

  /** An article row: `id, title, quick_summary, content, image_url, published_at`. */
  datatype Article = Article(
    id: int,
    title: string,
    quickSummary: string,
    content: string,
    imageUrl: string,
    publishedAt: string)

  /**
   * An article together with its optional `concepts` field: `None` while the
   * field is undefined, `Some([])` once fetched with no concept, and
   * `Some(cs)` with `cs != []` once populated.
   */
  datatype HydratedArticle = HydratedArticle(article: Article, concepts: Option<seq<Concept>>)
}
