# Article feed: pagination, concept hydration and card state

This project models the logic of a swipeable article reader. The article
cards come from a managed database. Each card can show learning "concepts".
The model covers four parts:

- **`HomePage`** (`app/page.tsx`). The server-rendered home page asks for the
  first page of articles: rows 0 to 9, newest first. A query error renders a
  failure message. Otherwise each article gets a `concepts` list, built from its
  association rows by `map(item => item.concepts).filter(Boolean).flat()`.
  `Normalize` models that chain stage by stage: `Project`, `KeepTruthy`, `Flat`.
- **`NewsCarousel`** (`components/NewsCarousel.tsx`). The client feed is a class
  `Feed` with fields `articles`, `loading`, `isFetchingMore` and `hasMore`.
  - `InitialLoad` is the initial client load.
  - `SlideChange` is the slide-change guard.
  - `fetchMoreArticles` is split at its first `await` (the request) into
    `StartFetchMore` and `FinishFetchMore`. A slide change that arrives while a
    fetch is in flight is therefore modelled, and it is dropped.
    `FinishFetchMore` takes the rest of the function, including its later
    awaits, as one step.
  - Each network answer is an argument. An article reply is an array or a
    failure. A concept reply is an array, another JSON value, or a thrown error.
  - `Hydrate` is the per-article concept fallback map.
  - Two ghost logs, `requests` and `batches`, record the pagination history.
    The invariant `Valid` says that at most one request is in flight, and that
    every request's offset is the number of articles held once the earlier
    requests completed.
- **`ArticleSlide`** (`components/ArticleSlide.tsx`). It covers the trim test
  for a summary and the one-way `showFullContent` flag. `Render` decides the
  body (summary or full) and the concepts section: a grid, the "No concepts
  found" note, or nothing.
- **`ConceptCard`** (`components/ConceptCard.tsx`). It covers the
  controlled/uncontrolled `isOpen` derivation, the click handler and the
  `aria-*` attributes.

Some behaviour of the code is worth stating outright:

- Concepts are **not** de-duplicated. `DuplicatesKept` shows that a concept
  embedded by two rows appears twice.
- After a client-side initial load, `hasMore` stays false. So a feed that starts
  without server-rendered articles never paginates (see `InitialLoad` and the
  clause `hasMore ==> |initialArticles| == ArticlesPerPage` of `Feed.Valid`).
- Nothing bounds a reply's length by the requested limit. The articles endpoint
  ignores `limit` and `offset`.

## Model

| member | source | states |
|---|---|---|
| HomePage.OnlyFirstPageQueried | app/page.tsx:7-11 | The page consults the store for one query only: two stores that agree on it give the same page. That query starts at row 0, spans ten rows and orders by `published_at` descending. |
| HomePage.KeepTruthyAppend | app/page.tsx:32 | `filter(Boolean)` keeps order: filtering a concatenation is concatenating the filtered parts. |
| HomePage.FlatAppend | app/page.tsx:33 | `flat()` of a concatenation of null-free lists is the concatenation of their flattenings. |
| HomePage.NormalizeAppend | app/page.tsx:30-33 | Row order is kept and nothing is merged: the concepts of `a + b` are those of `a` followed by those of `b`. |
| HomePage.NormalizeRow | app/page.tsx:30-33 | One row contributes nothing if its concepts are null, the object itself if it is one concept, and the elements if it is an array. |
| HomePage.NormalizeCons | app/page.tsx:30-33 | The list is the first row's contribution followed by the normalisation of the remaining rows. |
| HomePage.NormalizeMember | app/page.tsx:30-33 | A concept is in the result if and only if some row contributes it. |
| HomePage.NormalizeSkipsAbsent | app/page.tsx:31-32 | Rows whose concepts are null are dropped: rows that are all null give the empty list. |
| HomePage.NormalizeDropsNullRow | app/page.tsx:31-32 | A row whose concepts are null, wherever it stands, can be removed without changing the result. |
| HomePage.DuplicatesKept | app/page.tsx:30-33 | Duplicates survive: `[c, null, c]` normalises to `[c, c]`. |
| HomePage.AttachConcepts | app/page.tsx:23-35 | Same length and order as the fetched articles. Each article is kept and gains the normalised concepts of its own rows. |
| HomePage.Home | app/page.tsx:7-36 | An error on the first-page query, and only that, gives the failure view. Otherwise the carousel gets every article of that query's result in order, a null result giving none. Each article carries the normalised concepts of its own association rows, `[]` when its concept data is null. |
| NewsCarousel.Hydrate | components/NewsCarousel.tsx:89-102 | The output has the input's length and order. Each output is the input article with a defined `concepts` field. |
| NewsCarousel.HydrateAt | components/NewsCarousel.tsx:91-98 | The i-th output carries exactly the concepts of the i-th reply: the array, or `[]` for a non-array or thrown reply. |
| NewsCarousel.Degrade | components/NewsCarousel.tsx:92-98 | A failed concept request gives `[]` for its own article and leaves every other article as it would otherwise be. |
| NewsCarousel.HydrateAppend | components/NewsCarousel.tsx:89-102 | Hydration is a per-article map: hydrating `a + b` is hydrating `a` and then `b`. |
| NewsCarousel.FetchWindow | components/NewsCarousel.tsx:155-161 | With more to load and nothing in flight, the guard fires exactly past slide 0 when fewer than a batch of articles lie beyond the active one, and always on the last slide. |
| NewsCarousel.GuardBlocks | components/NewsCarousel.tsx:155-161 | The guard never fires on slide 0, while a fetch is in flight, or once `hasMore` is false. |
| NewsCarousel.Feed.constructor | components/NewsCarousel.tsx:41-51 | `articles` is the initial list. `loading` holds iff that list is empty, `hasMore` iff it has 10 items, and `isFetchingMore` starts false. |
| NewsCarousel.Feed.InitialLoad | components/NewsCarousel.tsx:108-124 | Runs only without initial articles, asking for limit 10 at offset 0. On success `articles` becomes the hydrated reply, on failure it is unchanged. `loading` ends false and `hasMore` stays false. |
| NewsCarousel.Feed.StartFetchMore | components/NewsCarousel.tsx:130-134 | Does nothing when a fetch is in flight or `hasMore` is false. Otherwise it sets `isFetchingMore` and requests limit 5 at offset `articles.length`. |
| NewsCarousel.Feed.SlideChange | components/NewsCarousel.tsx:151-165 | Sends a request iff the guard holds on the current state. The request is limit 5 at the current length, and nothing else changes. |
| NewsCarousel.Feed.FinishFetchMore | components/NewsCarousel.tsx:135-144 | On success the hydrated batch is appended after the unchanged old list, and a batch shorter than 5 clears `hasMore`. On failure the list is kept and `hasMore` is cleared. `isFetchingMore` ends false and `hasMore` never returns to true. The batch log gains exactly the appended articles. |
| NewsCarousel.Feed.NextOffset | components/NewsCarousel.tsx:134-139 | Pagination is gap-free: each request's offset is the previous one's plus the number of articles that request appended. |
| NewsCarousel.SingleFlight | components/NewsCarousel.tsx:151-165 | Two slide changes in a row on a full first page send exactly one request, for limit 5 at offset 10. |
| NewsCarousel.ShortBatchExhausts | components/NewsCarousel.tsx:136-139 | After a full first page and a short batch, the feed holds both in order, and a later slide change sends nothing. |
| ArticleSlide.TrimStart | components/ArticleSlide.tsx:26 | The result is a suffix: every dropped character is white space, and the result is empty or starts with a non-white-space character. |
| ArticleSlide.TrimEnd | components/ArticleSlide.tsx:26 | The result is a prefix: every dropped character is white space, and the result is empty or ends with a non-white-space character. |
| ArticleSlide.HasSummaryIff | components/ArticleSlide.tsx:26 | `hasSummary` holds iff `quick_summary` contains a character that is not white space. |
| ArticleSlide.Render | components/ArticleSlide.tsx:36-117 | The image shows iff `image_url` is non-empty, and the summary view shows iff `hasSummary && !showFullContent`. The grid (with exactly the article's concepts) shows iff the view is full and concepts are defined and non-empty. "No concepts found" shows iff the view is full and concepts are `[]`. Undefined concepts show neither. |
| ArticleSlide.NoSummaryShowsFull | components/ArticleSlide.tsx:67 | When `quick_summary` is empty or only white space, the flag is irrelevant and the full content shows at once. |
| ArticleSlide.FullStaysFull | components/ArticleSlide.tsx:67-78 | Once the flag is set, the full content shows for every article. |
| ArticleSlide.Slide.constructor | components/ArticleSlide.tsx:25 | The flag starts false, so a card opens on its summary iff it has one. |
| ArticleSlide.Slide.ReadMore | components/ArticleSlide.tsx:78 | The only transition sets the flag to true, after which the card shows the full view. |
| ConceptCard.ToggleTwice | components/ConceptCard.tsx:23 | Two clicks restore the local state. |
| ConceptCard.ControlledIgnoresLocal | components/ConceptCard.tsx:22 | A boolean `open` alone decides `isOpen`, whatever the local state. |
| ConceptCard.UncontrolledClickFlips | components/ConceptCard.tsx:22-23 | Without `open` and `onToggle`, each click flips `isOpen`. |
| ConceptCard.Card.constructor | components/ConceptCard.tsx:20-22 | Local state starts collapsed, so an uncontrolled card starts closed. |
| ConceptCard.ClickFlipsAria | components/ConceptCard.tsx:20-41 | On an uncontrolled card without `onToggle`, a click flips both `aria-expanded` and `aria-hidden`. |
| ConceptCard.ControlledAriaFixed | components/ConceptCard.tsx:22-41 | On a controlled card the attributes are `open` and `!open`, and a click never changes them. |
| ConceptCard.Card.Click | components/ConceptCard.tsx:20-41 | With `onToggle`, a click calls it and leaves the local state and the attributes alone. Without it, a click flips the local state, and on an uncontrolled card the attributes become those of the opposite of the old `isOpen`. On a controlled card the attributes never change. |
| ConceptCard.ClickTwice | components/ConceptCard.tsx:20-23 | A fresh uncontrolled card is open after one click and closed after two. |

## Left out

- Network and database access are not modelled: the Supabase queries, `fetch`, `res.json()` and the HTTP route handlers. Every answer is an argument of the operation that receives it. The page's per-article concept data is a function from article id to the (possibly null) `data`.
- A query error on the concept association is ignored by the page, so it reads as null data. The model does not represent that error separately.
- The concepts endpoint (`app/api/concepts/route.ts`) is not part of this model. Its array replies may contain null elements, which the model's `JsonArray` of concepts does not represent.
- Asynchrony and React's stale closures are not modelled. Events run one at a time and each sees the latest state. `Promise.all` completion order is not represented, since only the input order of the hydrated batch is observable.
- The side effects of `handleSlideChange` (`window.scrollTo(0, 0)` and `console.log`, `components/NewsCarousel.tsx:152-153` and `:162`) and the `console.error` of the initial load (`:117`) are not modelled: they change no feed state.
- NewsCarousel.Feed.FinishFetchMore: runs `components/NewsCarousel.tsx:135-144` as one step, although the code suspends again at `res.json()` (`:135`) and at the concept hydration (`:138`). After a short batch the code clears `hasMore` at `:136` while `isFetchingMore` stays true until `:143`, and a render can happen in between. The model does not capture that window, and the clause `isFetchingMore ==> hasMore` of `Feed.Valid` holds only in the model. No modelled event can observe the difference, because the slide-change guard blocks while either flag says so.
- Rendering is not modelled: Swiper, markdown, images, CSS, the loader slide, the "No articles found" message and the date formatting of `published_at`.
- Theme handling is not modelled: the DOM and local-storage effects in `components/NewsCarousel.tsx:54-86` and the theme components.
- The superseded carousel and page versions, layouts, navigation and header components are not part of this model.
- `fetchMoreArticles` is modelled as two steps, `StartFetchMore` and `FinishFetchMore`. The second requires a fetch in flight, because a completion exists only for a request that was sent.
- The trim test follows the white space and line terminator set of `String.prototype.trim`. Characters outside the Basic Multilingual Plane are whole `char`s, not UTF-16 surrogate pairs; none of them is white space, so the result is the same.
