/**
 * The article feed of the carousel: the list of loaded articles with their
 * concepts, the `loading`, `isFetchingMore` and `hasMore` flags, the
 * slide-change guard that asks for the next batch one batch early, the
 * single-flight "fetch more" step and the per-article concept hydration.
 *
 * Every network answer is an argument. `fetchMoreArticles` suspends at its
 * first `await` (the request), so it is split in two: `StartFetchMore` (the
 * guard, the flag and the request it sends) and `FinishFetchMore` (everything
 * after the answers arrive, its later awaits on the body and on the concepts
 * taken as one step). Slide changes that arrive in between see the flag set.
 */
module NewsCarousel {
  import opened Wrappers
  import opened Records

  /** Size of the server-rendered first page, and the limit of the client's initial load. */
  const ArticlesPerPage := 10
  /** Size of each client-side batch, and the look-ahead of the slide-change guard. */
  const FetchBatchSize := 5

  /** The `limit` and `offset` query parameters of a request to the articles endpoint. */
  datatype PageRequest = PageRequest(limit: nat, offset: nat)

  /**
   * The outcome of `fetch` + `res.json()` on the articles endpoint: a JSON
   * array of articles, or a failure (the fetch threw, or the body was not an
   * array, which makes the following `map` throw).
   */
  datatype ArticlesReply = ArticleArray(items: seq<Article>) | ArticlesFailed

  /**
   * The outcome of the concept request for one article: a JSON array, any
   * other JSON value (such as an error object), or a thrown error.
   */
  datatype ConceptsReply = JsonArray(items: seq<Concept>) | JsonOther | Threw

  /** `Array.isArray(data) ? data : []`, with a thrown error also giving `[]`. */
  function ConceptsOf(reply: ConceptsReply): seq<Concept>
  {
    match reply
    case JsonArray(cs) => cs
    case _ => []
  }

  // ---------------------------------------------------------------------------
  // Hydration (fetchConceptsForArticles)

  /**
   * Each article of the batch, in order, with the concepts its own reply
   * gave; `replies[i]` is the answer to the request made for `batch[i]`.
   */
  function Hydrate(batch: seq<Article>, replies: seq<ConceptsReply>): (r: seq<HydratedArticle>)
    requires |replies| == |batch|
    ensures |r| == |batch|
    ensures forall i :: 0 <= i < |r| ==> r[i].article == batch[i] && r[i].concepts.Some?
  {
    if batch == [] then []
    else [HydratedArticle(batch[0], Some(ConceptsOf(replies[0])))] + Hydrate(batch[1..], replies[1..])
  }

  /** The `i`-th hydrated article carries exactly the concepts of the `i`-th reply. */
  lemma {:induction false} HydrateAt(batch: seq<Article>, replies: seq<ConceptsReply>, i: nat)
    requires |replies| == |batch| && i < |batch|
    ensures Hydrate(batch, replies)[i] == HydratedArticle(batch[i], Some(ConceptsOf(replies[i])))
  {
    if i > 0 {
      HydrateAt(batch[1..], replies[1..], i - 1);
    }
  }

  /**
   * A failed concept request degrades only its own article: that article gets
   * `concepts = []`, and every other article is what it would have been had
   * the request succeeded.
   */
  lemma Degrade(batch: seq<Article>, replies: seq<ConceptsReply>, j: nat, ok: seq<Concept>)
    requires |replies| == |batch| && j < |batch| && !replies[j].JsonArray?
    ensures Hydrate(batch, replies)[j].concepts == Some([])
    ensures forall i :: 0 <= i < |batch| && i != j ==>
      Hydrate(batch, replies)[i] == Hydrate(batch, replies[j := JsonArray(ok)])[i]
  {
    HydrateAt(batch, replies, j);
    forall i | 0 <= i < |batch| && i != j
      ensures Hydrate(batch, replies)[i] == Hydrate(batch, replies[j := JsonArray(ok)])[i]
    {
      HydrateAt(batch, replies, i);
      HydrateAt(batch, replies[j := JsonArray(ok)], i);
    }
  }

  /** Hydrating two batches one after the other is hydrating their concatenation. */
  lemma {:induction false} HydrateAppend(a: seq<Article>, ra: seq<ConceptsReply>, b: seq<Article>, rb: seq<ConceptsReply>)
    requires |ra| == |a| && |rb| == |b|
    ensures Hydrate(a + b, ra + rb) == Hydrate(a, ra) + Hydrate(b, rb)
  {
    if a == [] {
      assert a + b == b && ra + rb == rb;
    } else {
      assert (a + b)[1..] == a[1..] + b;
      assert (ra + rb)[1..] == ra[1..] + rb;
      HydrateAppend(a[1..], ra[1..], b, rb);
    }
  }

  // ---------------------------------------------------------------------------
  // The slide-change guard (handleSlideChange)

  /** Whether a slide change to `activeIndex` fires `fetchMoreArticles`. */
  predicate ShouldFetchMore(activeIndex: nat, hasMore: bool, isFetchingMore: bool, loaded: nat)
  {
    activeIndex > 0 && hasMore && !isFetchingMore && loaded <= activeIndex + FetchBatchSize
  }

  /**
   * With more to load and nothing in flight, the guard fires exactly when the
   * user is past the first slide and fewer than a batch of loaded articles
   * lie beyond the active one; in particular it fires on the last slide.
   */
  lemma FetchWindow(activeIndex: nat, loaded: nat)
    ensures ShouldFetchMore(activeIndex, true, false, loaded)
        <==> activeIndex > 0 && loaded - 1 - activeIndex < FetchBatchSize
    ensures loaded >= 2 ==> ShouldFetchMore(loaded - 1, true, false, loaded)
  {
  }

  /** The guard never fires on the first slide, while a fetch is in flight, or once exhausted. */
  lemma GuardBlocks(activeIndex: nat, hasMore: bool, isFetchingMore: bool, loaded: nat)
    requires activeIndex == 0 || isFetchingMore || !hasMore
    ensures !ShouldFetchMore(activeIndex, hasMore, isFetchingMore, loaded)
  {
  }

  // ---------------------------------------------------------------------------
  // The feed state

  /** The batches appended so far, flattened in order. */
  ghost function Concat(batches: seq<seq<HydratedArticle>>): seq<HydratedArticle>
  {
    if batches == [] then [] else Concat(batches[..|batches| - 1]) + batches[|batches| - 1]
  }

  lemma ConcatSnoc(batches: seq<seq<HydratedArticle>>, b: seq<HydratedArticle>)
    ensures Concat(batches + [b]) == Concat(batches) + b
  {
    assert (batches + [b])[..|batches|] == batches;
  }

  /** Appending a batch to the list and to the log keeps the list equal to the first page plus the log. */
  lemma AppendLogged(initial: seq<HydratedArticle>, articles: seq<HydratedArticle>,
                     batches: seq<seq<HydratedArticle>>, added: seq<HydratedArticle>)
    requires articles == initial + Concat(batches)
    ensures articles + added == initial + Concat(batches + [added])
    ensures (articles + added)[|articles|..] == added
  {
    ConcatSnoc(batches, added);
  }

  /** Offsets computed from the batch log stay the same when one more batch is logged. */
  lemma OffsetsKept(requests: seq<PageRequest>, batches: seq<seq<HydratedArticle>>,
                    added: seq<HydratedArticle>, base: nat)
    requires |requests| <= |batches| + 1
    requires forall k :: 0 <= k < |requests| ==>
      requests[k] == PageRequest(FetchBatchSize, base + |Concat(batches[..k])|)
    ensures forall k :: 0 <= k < |requests| ==>
      requests[k] == PageRequest(FetchBatchSize, base + |Concat((batches + [added])[..k])|)
  {
    forall k | 0 <= k < |requests|
      ensures requests[k] == PageRequest(FetchBatchSize, base + |Concat((batches + [added])[..k])|)
    {
      assert (batches + [added])[..k] == batches[..k];
    }
  }

  class Feed {
    /** The `initialArticles` prop (the server-rendered first page, possibly empty). */
    const initialArticles: seq<HydratedArticle>
    var articles: seq<HydratedArticle>
    var loading: bool
    var isFetchingMore: bool
    var hasMore: bool
    /** Every pagination request sent, in order. */
    ghost var requests: seq<PageRequest>
    /** The hydrated batch each completed request appended (empty for a failed one). */
    ghost var batches: seq<seq<HydratedArticle>>

    /**
     * Pagination happens only after a full first page; at most one request
     * is in flight; the list is the first page followed by the appended
     * batches; and the `k`-th request asked for a batch at the offset equal
     * to the number of articles held once the previous requests completed.
     */
    ghost predicate Valid()
      reads this
    {
      && (hasMore ==> |initialArticles| == ArticlesPerPage)
      && (isFetchingMore ==> hasMore)
      && (|initialArticles| > 0 ==> !loading && articles == initialArticles + Concat(batches))
      && (|initialArticles| == 0 ==> batches == [])
      && |requests| == |batches| + (if isFetchingMore then 1 else 0)
      && (forall k :: 0 <= k < |requests| ==>
            requests[k] == PageRequest(FetchBatchSize, |initialArticles| + |Concat(batches[..k])|))
    }

    /** The state initialised from the `initialArticles` prop. */
    constructor (initial: seq<HydratedArticle>)
      ensures initialArticles == initial && articles == initial
      ensures loading <==> |initial| == 0
      ensures hasMore <==> |initial| == ArticlesPerPage
      ensures !isFetchingMore
      ensures requests == [] && batches == []
      ensures Valid()
    {
      initialArticles := initial;
      articles := initial;
      loading := |initial| == 0;
      isFetchingMore := false;
      hasMore := |initial| == ArticlesPerPage;
      requests := [];
      batches := [];
    }

    /**
     * The initial client load effect: it runs only without initial articles,
     * asks for 10 articles at offset 0, replaces the list with the hydrated
     * answer on success, keeps it on failure, and always clears `loading`.
     * It never touches `hasMore`, which therefore stays false on this path.
     */
    method InitialLoad(reply: ArticlesReply, conceptReplies: seq<ConceptsReply>)
      returns (request: Option<PageRequest>)
      requires Valid()
      requires reply.ArticleArray? ==> |conceptReplies| == |reply.items|
      modifies this
      ensures Valid()
      ensures request == if |initialArticles| == 0 then Some(PageRequest(ArticlesPerPage, 0)) else None
      ensures |initialArticles| > 0 ==> articles == old(articles) && loading == old(loading)
      ensures |initialArticles| == 0 ==> !loading && !hasMore
      ensures |initialArticles| == 0 && reply.ArticleArray? ==> articles == Hydrate(reply.items, conceptReplies)
      ensures |initialArticles| == 0 && reply.ArticlesFailed? ==> articles == old(articles)
      ensures hasMore == old(hasMore) && isFetchingMore == old(isFetchingMore)
      ensures requests == old(requests) && batches == old(batches)
    {
      if |initialArticles| != 0 {
        return None;
      }
      request := Some(PageRequest(ArticlesPerPage, 0));
      if reply.ArticleArray? {
        articles := Hydrate(reply.items, conceptReplies);
      }
      loading := false;
    }

    /**
     * `fetchMoreArticles` up to its first `await`: unless a fetch is already
     * in flight or the feed is exhausted, it sets `isFetchingMore` and sends
     * a request for one batch at the offset equal to the current length.
     */
    method StartFetchMore() returns (request: Option<PageRequest>)
      requires Valid()
      modifies this
      ensures Valid()
      ensures request.Some? <==> !old(isFetchingMore) && old(hasMore)
      ensures request.Some? ==> request.value == PageRequest(FetchBatchSize, |articles|)
      ensures request.Some? ==> isFetchingMore && requests == old(requests) + [request.value]
      ensures request.None? ==> isFetchingMore == old(isFetchingMore) && requests == old(requests)
      ensures articles == old(articles) && hasMore == old(hasMore) && loading == old(loading)
      ensures batches == old(batches)
    {
      if isFetchingMore || !hasMore {
        return None;
      }
      isFetchingMore := true;
      request := Some(PageRequest(FetchBatchSize, |articles|));
      requests := requests + [request.value];
      assert batches[..|batches|] == batches;
    }

    /**
     * `handleSlideChange`: fires the fetch only when the guard holds, so a
     * slide change while a fetch is in flight is dropped, not queued.
     */
    method SlideChange(activeIndex: nat) returns (request: Option<PageRequest>)
      requires Valid()
      modifies this
      ensures Valid()
      ensures request.Some? <==> ShouldFetchMore(activeIndex, old(hasMore), old(isFetchingMore), |old(articles)|)
      ensures request.Some? ==> request.value == PageRequest(FetchBatchSize, |articles|)
      ensures request.Some? ==> isFetchingMore && requests == old(requests) + [request.value]
      ensures request.None? ==> isFetchingMore == old(isFetchingMore) && requests == old(requests)
      ensures articles == old(articles) && hasMore == old(hasMore) && loading == old(loading)
      ensures batches == old(batches)
    {
      if ShouldFetchMore(activeIndex, hasMore, isFetchingMore, |articles|) {
        request := StartFetchMore();
      } else {
        request := None;
      }
    }

    /**
     * `fetchMoreArticles` after its first `await`: on success the hydrated batch is
     * appended after the existing articles and a batch shorter than
     * `FetchBatchSize` ends pagination; on failure the list is kept and
     * pagination ends. Either way `isFetchingMore` is cleared, and `hasMore`
     * is never set back to true.
     */
    method FinishFetchMore(reply: ArticlesReply, conceptReplies: seq<ConceptsReply>)
      requires Valid() && isFetchingMore
      requires reply.ArticleArray? ==> |conceptReplies| == |reply.items|
      modifies this
      ensures Valid()
      ensures !isFetchingMore
      ensures hasMore ==> old(hasMore)
      ensures reply.ArticleArray? ==> articles == old(articles) + Hydrate(reply.items, conceptReplies)
      ensures reply.ArticleArray? ==> (hasMore <==> |reply.items| >= FetchBatchSize)
      ensures reply.ArticlesFailed? ==> articles == old(articles) && !hasMore
      ensures loading == old(loading) && requests == old(requests)
      ensures batches == old(batches) + [articles[|old(articles)|..]]
    {
      var added: seq<HydratedArticle> := [];
      var more := hasMore;
      if reply.ArticleArray? {
        if |reply.items| < FetchBatchSize {
          more := false;
        }
        added := Hydrate(reply.items, conceptReplies);
      } else {
        more := false;
      }
      ghost var logged := batches + [added];
      AppendLogged(initialArticles, articles, batches, added);
      OffsetsKept(requests, batches, added, |initialArticles|);
      articles, hasMore, isFetchingMore := articles + added, more, false;
      batches := logged;
    }

    /**
     * Pagination is gap-free: each request's offset is the previous request's
     * offset plus the number of articles that request appended.
     */
    lemma NextOffset(k: nat)
      requires Valid() && k + 1 < |requests|
      ensures requests[k + 1].offset == requests[k].offset + |batches[k]|
    {
      assert batches[..k + 1] == batches[..k] + [batches[k]];
      ConcatSnoc(batches[..k], batches[k]);
    }
  }

  /**
   * Two slide changes in immediate succession past the look-ahead point, on
   * a feed built from a full first page, send exactly one request: a batch
   * at offset 10.
   */
  method SingleFlight(initial: seq<HydratedArticle>, first: nat, second: nat)
    returns (r1: Option<PageRequest>, r2: Option<PageRequest>)
    requires |initial| == ArticlesPerPage && first >= ArticlesPerPage - FetchBatchSize
    ensures r1 == Some(PageRequest(FetchBatchSize, ArticlesPerPage))
    ensures r2 == None
  {
    var feed := new Feed(initial);
    r1 := feed.SlideChange(first);
    r2 := feed.SlideChange(second);
  }

  /**
   * A full first page followed by a short batch: the feed ends up holding
   * both, in order, and no later slide change sends anything.
   */
  method ShortBatchExhausts(initial: seq<HydratedArticle>, at: nat,
                            extra: seq<Article>, replies: seq<ConceptsReply>, later: nat)
    returns (loaded: seq<HydratedArticle>, next: Option<PageRequest>)
    requires |initial| == ArticlesPerPage && at >= ArticlesPerPage - FetchBatchSize
    requires |extra| < FetchBatchSize && |replies| == |extra|
    ensures loaded == initial + Hydrate(extra, replies)
    ensures |loaded| == ArticlesPerPage + |extra|
    ensures next == None
  {
    var feed := new Feed(initial);
    var r := feed.SlideChange(at);
    feed.FinishFetchMore(ArticleArray(extra), replies);
    loaded := feed.articles;
    next := feed.SlideChange(later);
  }
}
