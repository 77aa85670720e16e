/** The large featured card of the home-page hero grid. */
module FeaturedLarge {
  import opened Wrappers
  import opened Utils
  import opened Stories
  import JsText

  const TitleLimit: int := 100
  const SummaryLimit: int := 100

  /** The separator of this card's meta line, the two characters "Â·" as the file spells it. */
  const MetaSeparator: string := "\U{00C2}\U{00B7}"

  datatype Align = Stretch | Center

  /** The rendered fields of the card. */
  datatype LargeCard = LargeCard(align: Align, title: Slot, summary: Slot, meta: Slot, image: ImageView)

  /** A non-empty image string is truthy; an absent or empty one is not. */
  predicate HasImage(story: Story) {
    story.image.Some? && story.image.value != ""
  }

  /** getAlignArticleProp: 'stretch' while loading or without an image, else 'center'. */
  function AlignArticle(story: Option<Story>, loading: bool): Result<Align, TypeError> {
    if loading then Success(Stretch)
    else match story
      case None => Failure(CannotReadPropertyOfNull("image"))
      case Some(s) => Success(if HasImage(s) then Center else Stretch)
  }

  function RenderTitle(story: Option<Story>, loading: bool): Result<Slot, TypeError> {
    if loading then Success(Loader)
    else match story
      case None => Failure(CannotReadPropertyOfNull("title"))
      case Some(s) => Success(Text(TruncateString(s.title, TitleLimit)))
  }

  function RenderSummary(story: Option<Story>, loading: bool): Result<Slot, TypeError> {
    if loading then Success(Loader)
    else match story
      case None => Failure(CannotReadPropertyOfNull("summary"))
      case Some(s) => Success(Text(TruncateString(s.summary, SummaryLimit)))
  }

  function RenderMeta(story: Option<Story>, loading: bool): Result<Slot, TypeError> {
    if loading then Success(Loader)
    else match story
      case None => Failure(CannotReadPropertyOfNull("author"))
      case Some(s) => Success(Text(ReadTimeMeta(AuthorName(s), MetaSeparator, s.readTime)))
  }

  /** No image while loading; otherwise a link to the story's path. */
  function RenderImage(story: Option<Story>, loading: bool): Result<ImageView, TypeError> {
    if loading then Success(NoImage)
    else match story
      case None => Failure(CannotReadPropertyOfNull("isUnderPublication"))
      case Some(s) =>
        var path :- LinkPath(s);
        Success(ImageLink(path))
  }

  /**
   * The card: title, summary, meta and image are built in that order, and the
   * article's alignment when the styled article renders; the first TypeError
   * aborts the card.
   */
  function Render(story: Option<Story>, loading: bool): Result<LargeCard, TypeError> {
    var title :- RenderTitle(story, loading);
    var summary :- RenderSummary(story, loading);
    var meta :- RenderMeta(story, loading);
    var image :- RenderImage(story, loading);
    var align :- AlignArticle(story, loading);
    Success(LargeCard(align, title, summary, meta, image))
  }

  /** Alignment is 'center' exactly for a loaded story with an image, and 'stretch' whenever loading, whatever the story. */
  lemma AlignRule(story: Option<Story>, loading: bool)
    ensures loading ==> AlignArticle(story, loading) == Success(Stretch)
    ensures AlignArticle(story, loading) == Success(Center) <==> !loading && story.Some? && HasImage(story.value)
    ensures AlignArticle(story, loading) == Success(Stretch) <==> loading || (story.Some? && !HasImage(story.value))
  {
  }

  /** While loading, every text field is a placeholder and no image link is produced; the story is never inspected. */
  lemma RenderWhileLoading(story: Option<Story>)
    ensures Render(story, true) == Success(LargeCard(Stretch, Loader, Loader, Loader, NoImage))
  {
  }

  /** A loaded card needs a story: rendering a null story raises a TypeError. */
  lemma RenderNullStoryFails()
    ensures Render(None, false).Failure?
  {
  }

  /**
   * A loaded story renders exactly when its link can be built, i.e. unless it
   * is flagged as under a publication that is null. The card then holds the
   * title and summary truncated to 100 characters (so at most 103), the meta
   * line "<author> Â· <readTime> min read", from which author and read time
   * read back, an image linking to the story, and the alignment its image
   * decides.
   */
  lemma RenderLoaded(s: Story)
    ensures Render(Some(s), false).Success? <==> !(s.isUnderPublication && s.publication.None?)
    ensures Render(Some(s), false).Success? ==>
      var meta := AuthorName(s) + " \U{00C2}\U{00B7} " + JsText.NumText(s.readTime) + " min read";
      && Render(Some(s), false).value == LargeCard(
           if HasImage(s) then Center else Stretch,
           Text(TruncateString(s.title, 100)),
           Text(TruncateString(s.summary, 100)),
           Text(meta),
           ImageLink(LinkPath(s).value))
      && ParseReadTimeMeta(meta, MetaSeparator) == Some((AuthorName(s), s.readTime))
      && |TruncateString(s.title, 100)| <= 103 && |TruncateString(s.summary, 100)| <= 103
  {
    var meta := ReadTimeMeta(AuthorName(s), MetaSeparator, s.readTime);
    assert meta == AuthorName(s) + " \U{00C2}\U{00B7} " + JsText.NumText(s.readTime) + " min read";
    ReadTimeMetaRoundTrip(AuthorName(s), MetaSeparator, s.readTime);
    TruncateLengthBound(s.title, 100);
    TruncateLengthBound(s.summary, 100);
  }
}
