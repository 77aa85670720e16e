/** The medium featured card of the home-page hero grid. */
module FeaturedMedium {
  import opened Wrappers
  import opened Stories

  /** The separator of this card's meta line, a middle dot. */
  const MetaSeparator: string := "\U{00B7}"

  datatype MediumCard = MediumCard(title: Slot, meta: Slot, image: ImageView)

  /** The title, not truncated. */
  function RenderTitle(story: Option<Story>, loading: bool): Result<Slot, TypeError> {
    if loading then Success(Loader)
    else match story
      case None => Failure(CannotReadPropertyOfNull("title"))
      case Some(s) => Success(Text(s.title))
  }

  function RenderMeta(story: Option<Story>, loading: bool): Result<Slot, TypeError> {
    if loading then Success(Loader)
    else match story
      case None => Failure(CannotReadPropertyOfNull("author"))
      case Some(s) => Success(Text(ReadTimeMeta(AuthorName(s), MetaSeparator, s.readTime)))
  }

  function RenderImage(loading: bool): ImageView {
    if loading then PlaceholderBlock else ImageLink("/")
  }

  function Render(story: Option<Story>, loading: bool): Result<MediumCard, TypeError> {
    var title :- RenderTitle(story, loading);
    var meta :- RenderMeta(story, loading);
    Success(MediumCard(title, meta, RenderImage(loading)))
  }

  /** While loading, title and meta are placeholders and the image a placeholder block, whatever the story. */
  lemma RenderWhileLoading(story: Option<Story>)
    ensures Render(story, true) == Success(MediumCard(Loader, Loader, PlaceholderBlock))
  {
  }

  /** Not loading: a null story raises a TypeError, any other renders. */
  lemma RenderLoadedIff(story: Option<Story>)
    ensures Render(story, false).Success? <==> story.Some?
  {
  }

  /**
   * A loaded story shows its whole title, the meta line
   * "<author> · <readTime> min read", from which author and read time read
   * back, and an image linking to "/".
   */
  lemma RenderLoaded(s: Story)
    ensures var meta := AuthorName(s) + " \U{00B7} " + JsText.NumText(s.readTime) + " min read";
      && Render(Some(s), false) == Success(MediumCard(Text(s.title), Text(meta), ImageLink("/")))
      && ParseReadTimeMeta(meta, MetaSeparator) == Some((AuthorName(s), s.readTime))
  {
    var meta := ReadTimeMeta(AuthorName(s), MetaSeparator, s.readTime);
    assert meta == AuthorName(s) + " \U{00B7} " + JsText.NumText(s.readTime) + " min read";
    ReadTimeMetaRoundTrip(AuthorName(s), MetaSeparator, s.readTime);
  }
}
