/**
 * The server-rendered home page: it asks the article store for the first page
 * of articles, and for each article asks the association table for its
 * concepts, normalising the embedded `concepts` column with
 * `map(item => item.concepts).filter(Boolean).flat()`.
 */
module HomePage {
  import opened Wrappers
  import opened Records

  /**
   * The embedded `concepts` value of one association row: null (or any other
   * falsy value), a single concept object, or an array of concept objects.
   */
  datatype Embedded = Absent | One(concept: Concept) | Many(concepts: seq<Concept>)

  /** One row of `articles_concepts` selected as `concepts(id, name, info)`. */
  datatype AssociationRow = AssociationRow(concepts: Embedded)

  /** The part of an article query that decides which rows come back. */
  datatype ArticlesQuery = ArticlesQuery(orderColumn: string, ascending: bool, first: nat, last: nat)

  /** The result of the article query: rows (possibly null) or an error. */
  datatype ArticlesResult = Rows(data: Option<seq<Article>>) | QueryError

  /** What the page renders: the failure message, or the carousel with its initial articles. */
  datatype HomeView = LoadFailed | Carousel(initialArticles: seq<HydratedArticle>)

  /** The only article query the page issues: newest first, rows 0 through 9 inclusive. */
  const FirstPage := ArticlesQuery("published_at", false, 0, 9)

  /** Number of rows a range query `range(first, last)` can return (both ends inclusive). */
  function RangeSize(q: ArticlesQuery): nat
  {
    if q.last < q.first then 0 else q.last - q.first + 1
  }

  /** `(xs || [])`: a null result reads as the empty list. */
  function OrEmpty<T>(xs: Option<seq<T>>): (r: seq<T>)
    ensures xs.None? ==> r == []
    ensures xs.Some? ==> r == xs.value
  {
    match xs
    case None => []
    case Some(v) => v
  }

  // ---------------------------------------------------------------------------
  // The three stages of the normalisation chain

  /** `map(item => item.concepts)` */
  function Project(rows: seq<AssociationRow>): seq<Embedded>
  {
    seq(|rows|, i requires 0 <= i < |rows| => rows[i].concepts)
  }

  /** No element is null/falsy, as `filter(Boolean)` guarantees. */
  predicate AllTruthy(xs: seq<Embedded>)
  {
    forall i :: 0 <= i < |xs| ==> !xs[i].Absent?
  }

  /** `filter(Boolean)`: drops the falsy elements and keeps the rest in order. */
  function KeepTruthy(xs: seq<Embedded>): (r: seq<Embedded>)
    ensures AllTruthy(r)
    ensures |r| <= |xs|
  {
    if xs == [] then []
    else if xs[0].Absent? then KeepTruthy(xs[1..])
    else [xs[0]] + KeepTruthy(xs[1..])
  }

  /** What one element contributes to `flat()`: an array its elements, an object itself. */
  function Spread(e: Embedded): seq<Concept>
    requires !e.Absent?
  {
    match e
    case One(c) => [c]
    case Many(cs) => cs
  }

  /** `flat()` (depth one) of a list that holds no null. */
  function Flat(xs: seq<Embedded>): seq<Concept>
    requires AllTruthy(xs)
  {
    if xs == [] then [] else Spread(xs[0]) + Flat(xs[1..])
  }

  /** The concept list of one article, built from its association rows. */
  function Normalize(rows: seq<AssociationRow>): seq<Concept>
  {
    Flat(KeepTruthy(Project(rows)))
  }

  /** What a single association row contributes to the normalised list. */
  function Contribution(e: Embedded): seq<Concept>
  {
    match e
    case Absent => []
    case One(c) => [c]
    case Many(cs) => cs
  }

  // ---------------------------------------------------------------------------
  // Properties of the normalisation

  lemma {:induction false} KeepTruthyAppend(a: seq<Embedded>, b: seq<Embedded>)
    ensures KeepTruthy(a + b) == KeepTruthy(a) + KeepTruthy(b)
  {
    if a == [] {
      assert a + b == b;
    } else {
      assert (a + b)[1..] == a[1..] + b;
      KeepTruthyAppend(a[1..], b);
    }
  }

  lemma {:induction false} FlatAppend(a: seq<Embedded>, b: seq<Embedded>)
    requires AllTruthy(a) && AllTruthy(b)
    ensures AllTruthy(a + b)
    ensures Flat(a + b) == Flat(a) + Flat(b)
  {
    assert AllTruthy(a + b) by {
      forall i | 0 <= i < |a + b| ensures !(a + b)[i].Absent? {
        if i < |a| { assert (a + b)[i] == a[i]; } else { assert (a + b)[i] == b[i - |a|]; }
      }
    }
    if a == [] {
      assert a + b == b;
    } else {
      assert (a + b)[1..] == a[1..] + b;
      FlatAppend(a[1..], b);
    }
  }

  lemma ProjectAppend(a: seq<AssociationRow>, b: seq<AssociationRow>)
    ensures Project(a + b) == Project(a) + Project(b)
  {
  }

  /**
   * Row order is preserved and nothing is merged: the concepts of two groups
   * of rows are the concepts of the first group followed by those of the second.
   */
  lemma NormalizeAppend(a: seq<AssociationRow>, b: seq<AssociationRow>)
    ensures Normalize(a + b) == Normalize(a) + Normalize(b)
  {
    ProjectAppend(a, b);
    KeepTruthyAppend(Project(a), Project(b));
    FlatAppend(KeepTruthy(Project(a)), KeepTruthy(Project(b)));
  }

  /**
   * A single row contributes nothing when its concepts are null, the concept
   * itself when it is one object, and the array's elements when it is an array.
   */
  lemma NormalizeRow(r: AssociationRow)
    ensures Normalize([r]) == Contribution(r.concepts)
  {
    assert Project([r]) == [r.concepts];
    assert KeepTruthy([r.concepts])
        == (if r.concepts.Absent? then [] else [r.concepts]) + KeepTruthy([]);
    if !r.concepts.Absent? {
      assert Flat([r.concepts]) == Spread(r.concepts) + Flat([]);
    }
  }

  /**
   * The normalised list is the in-order concatenation of the rows'
   * contributions: the first row's, then the normalisation of the rest.
   */
  lemma NormalizeCons(r: AssociationRow, rest: seq<AssociationRow>)
    ensures Normalize([r] + rest) == Contribution(r.concepts) + Normalize(rest)
  {
    NormalizeAppend([r], rest);
    NormalizeRow(r);
  }

  /** A concept occurs in the normalised list exactly when some row contributes it. */
  lemma {:induction false} NormalizeMember(rows: seq<AssociationRow>, c: Concept)
    ensures c in Normalize(rows) <==> exists i :: 0 <= i < |rows| && c in Contribution(rows[i].concepts)
  {
    if rows == [] {
      assert Normalize(rows) == [];
    } else {
      assert rows == [rows[0]] + rows[1..];
      NormalizeCons(rows[0], rows[1..]);
      NormalizeMember(rows[1..], c);
      if c in Normalize(rows[1..]) {
        var j :| 0 <= j < |rows[1..]| && c in Contribution(rows[1..][j].concepts);
        assert c in Contribution(rows[j + 1].concepts);
      }
      if exists i :: 0 <= i < |rows| && c in Contribution(rows[i].concepts) {
        var i :| 0 <= i < |rows| && c in Contribution(rows[i].concepts);
        if i > 0 {
          assert c in Contribution(rows[1..][i - 1].concepts);
        }
      }
    }
  }

  /** Rows whose concepts are all null normalise to the empty list. */
  lemma {:induction false} NormalizeSkipsAbsent(rows: seq<AssociationRow>)
    requires forall i :: 0 <= i < |rows| ==> rows[i].concepts.Absent?
    ensures Normalize(rows) == []
  {
    if rows != [] {
      assert rows == [rows[0]] + rows[1..];
      NormalizeCons(rows[0], rows[1..]);
      NormalizeSkipsAbsent(rows[1..]);
    }
  }

  /** A row whose concepts are null contributes nothing: removing it changes nothing. */
  lemma NormalizeDropsNullRow(a: seq<AssociationRow>, b: seq<AssociationRow>)
    ensures Normalize(a + [AssociationRow(Absent)] + b) == Normalize(a) + Normalize(b)
  {
    NormalizeAppend(a + [AssociationRow(Absent)], b);
    NormalizeAppend(a, [AssociationRow(Absent)]);
    NormalizeRow(AssociationRow(Absent));
  }

  /**
   * Duplicates are not removed: two rows that embed the same concept, with a
   * null row between them, give that concept twice.
   */
  lemma DuplicatesKept(c: Concept)
    ensures Normalize([AssociationRow(One(c)), AssociationRow(Absent), AssociationRow(One(c))]) == [c, c]
  {
    var r, n := AssociationRow(One(c)), AssociationRow(Absent);
    assert [r, n, r] == [r] + ([n] + [r]);
    NormalizeCons(r, [n] + [r]);
    NormalizeCons(n, [r]);
    NormalizeRow(r);
  }

  // ---------------------------------------------------------------------------
  // The page

  /** Each fetched article with its normalised concepts attached (`Promise.all` over a `map`). */
  function AttachConcepts(articles: seq<Article>, conceptsData: int -> Option<seq<AssociationRow>>)
    : (r: seq<HydratedArticle>)
    ensures |r| == |articles|
    ensures forall i :: 0 <= i < |r| ==>
      r[i].article == articles[i] && r[i].concepts == Some(Normalize(OrEmpty(conceptsData(articles[i].id))))
  {
    seq(|articles|, i requires 0 <= i < |articles| =>
      HydratedArticle(articles[i], Some(Normalize(OrEmpty(conceptsData(articles[i].id))))))
  }

  /**
   * The home page, given the article store as a function from query to
   * result and, for each article id, the `data` of its association query
   * (`None` when null, which is also what a failed association query gives).
   */
  function Home(fetchArticles: ArticlesQuery -> ArticlesResult,
                conceptsData: int -> Option<seq<AssociationRow>>): (v: HomeView)
    ensures v.LoadFailed? <==> fetchArticles(FirstPage).QueryError?
    ensures fetchArticles(FirstPage).Rows? ==>
      v.initialArticles == AttachConcepts(OrEmpty(fetchArticles(FirstPage).data), conceptsData)
    ensures fetchArticles(FirstPage).Rows? ==>
      |v.initialArticles| == |OrEmpty(fetchArticles(FirstPage).data)|
    ensures fetchArticles(FirstPage).Rows? ==> forall i :: 0 <= i < |v.initialArticles| ==>
      v.initialArticles[i].article == OrEmpty(fetchArticles(FirstPage).data)[i]
      && v.initialArticles[i].concepts.Some?
    ensures fetchArticles(FirstPage).Rows? ==> forall i :: 0 <= i < |v.initialArticles| ==>
      conceptsData(v.initialArticles[i].article.id).None? ==> v.initialArticles[i].concepts == Some([])
  {
    match fetchArticles(FirstPage)
    case QueryError => LoadFailed
    case Rows(data) => Carousel(AttachConcepts(OrEmpty(data), conceptsData))
  }

  /**
   * The page asks the store for one query only: rows 0 through 9, newest
   * first. Two stores that agree on that query give the same page.
   */
  lemma OnlyFirstPageQueried(f: ArticlesQuery -> ArticlesResult, g: ArticlesQuery -> ArticlesResult,
                             conceptsData: int -> Option<seq<AssociationRow>>)
    requires f(FirstPage) == g(FirstPage)
    ensures Home(f, conceptsData) == Home(g, conceptsData)
    ensures FirstPage.first == 0 && RangeSize(FirstPage) == 10
    ensures FirstPage.orderColumn == "published_at" && !FirstPage.ascending
  {
  }
}
