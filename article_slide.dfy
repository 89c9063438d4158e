/**
 * One article card: whether it has a summary, the one-way "Read More" flag,
 * and which body and concepts section it shows.
 */
module ArticleSlide {
  import opened Wrappers
  import opened Records

  /**
   * The characters `String.prototype.trim` strips: the white space characters
   * (tab, vertical tab, form feed, space, no-break space, byte order mark and
   * the space separators) and the line terminators.
   */
  predicate IsTrimmed(c: char)
  {
    c == '\t' || c == '\n' || c == '\U{B}' || c == '\U{C}' || c == '\r' || c == ' '
    || c == '\U{A0}' || c == '\U{1680}' || ('\U{2000}' <= c <= '\U{200A}')
    || c == '\U{2028}' || c == '\U{2029}' || c == '\U{202F}' || c == '\U{205F}'
    || c == '\U{3000}' || c == '\U{FEFF}'
  }

  /** The string without its leading trimmable characters. */
  function TrimStart(s: string): (r: string)
    ensures |r| <= |s| && r == s[|s| - |r|..]
    ensures forall i :: 0 <= i < |s| - |r| ==> IsTrimmed(s[i])
    ensures r == [] || !IsTrimmed(r[0])
  {
    if s != [] && IsTrimmed(s[0]) then TrimStart(s[1..]) else s
  }

  /** The string without its trailing trimmable characters. */
  function TrimEnd(s: string): (r: string)
    ensures |r| <= |s| && r == s[..|r|]
    ensures forall i :: |r| <= i < |s| ==> IsTrimmed(s[i])
    ensures r == [] || !IsTrimmed(r[|r| - 1])
  {
    if s != [] && IsTrimmed(s[|s| - 1]) then TrimEnd(s[..|s| - 1]) else s
  }

  /** `s.trim()` */
  function Trim(s: string): string
  {
    TrimEnd(TrimStart(s))
  }

  /** `article.quick_summary.trim().length > 0` */
  predicate HasSummary(summary: string)
  {
    |Trim(summary)| > 0
  }

  /** A summary counts as present exactly when it holds a character that is not white space. */
  lemma HasSummaryIff(summary: string)
    ensures HasSummary(summary) <==> exists i :: 0 <= i < |summary| && !IsTrimmed(summary[i])
  {
    var t := TrimStart(summary);
    if i :| 0 <= i < |summary| && !IsTrimmed(summary[i]) {
      assert t != [] && !IsTrimmed(t[0]);
    }
    if HasSummary(summary) {
      var j := |summary| - |t|;
      assert t[0] == summary[j];
    }
  }

  /** The main body of the card: the summary with its "Read More" button, or the full content. */
  datatype Body = SummaryView | FullView

  /** Below the full content: the concept grid, the "No concepts found" note, or nothing. */
  datatype ConceptsSection = ConceptGrid(concepts: seq<Concept>) | NoConceptsFound | NoSection

  /** What a card shows. */
  datatype SlideView = SlideView(showsImage: bool, body: Body, section: ConceptsSection)

  /** The card for `a` in the given state of its `showFullContent` flag. */
  function Render(a: HydratedArticle, showFullContent: bool): (v: SlideView)
    ensures v.showsImage <==> a.article.imageUrl != []
    ensures v.body == SummaryView <==> HasSummary(a.article.quickSummary) && !showFullContent
    ensures v.section.ConceptGrid? <==> v.body == FullView && a.concepts.Some? && a.concepts.value != []
    ensures v.section.ConceptGrid? ==> v.section.concepts == a.concepts.value
    ensures v.section == NoConceptsFound <==> v.body == FullView && a.concepts == Some([])
    ensures a.concepts.None? ==> v.section == NoSection
  {
    var body := if HasSummary(a.article.quickSummary) && !showFullContent then SummaryView else FullView;
    var section :=
      if body == SummaryView then NoSection
      else match a.concepts
        case None => NoSection
        case Some(cs) => if |cs| > 0 then ConceptGrid(cs) else NoConceptsFound;
    SlideView(a.article.imageUrl != [], body, section)
  }

  /**
   * With a summary made only of white space the flag makes no difference:
   * the full content and its concepts section show at once.
   */
  lemma NoSummaryShowsFull(a: HydratedArticle)
    requires forall i :: 0 <= i < |a.article.quickSummary| ==> IsTrimmed(a.article.quickSummary[i])
    ensures Render(a, false) == Render(a, true)
    ensures Render(a, false).body == FullView
  {
    HasSummaryIff(a.article.quickSummary);
  }

  /** Once the flag is set the card shows the full content, whatever the article. */
  lemma FullStaysFull(a: HydratedArticle)
    ensures Render(a, true).body == FullView
  {
  }

  /** The card state of one article: `showFullContent` starts false and can only become true. */
  class Slide {
    const article: HydratedArticle
    var showFullContent: bool

    constructor (a: HydratedArticle)
      ensures article == a && !showFullContent
      ensures View().body == SummaryView <==> HasSummary(a.article.quickSummary)
    {
      article := a;
      showFullContent := false;
    }

    /** What the card shows now. */
    function View(): SlideView
      reads this
    {
      Render(article, showFullContent)
    }

    /** The "Read More" button: sets the flag, so the card shows the full content from now on. */
    method ReadMore()
      modifies this
      ensures showFullContent
      ensures View() == Render(article, true) && View().body == FullView
    {
      showFullContent := true;
    }
  }
}
