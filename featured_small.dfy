/** The small featured cards of the home-page hero grid. */
module FeaturedSmall {
  import opened Wrappers
  import opened Utils
  import opened Stories

  const TitleLimit: int := 50
  const SummaryLimit: int := 60

  datatype SmallCard = SmallCard(title: Slot, summary: Slot, meta: Slot, image: ImageView)

  function RenderTitle(story: Option<Story>, loading: bool): Result<Slot, TypeError> {
    if loading then Success(Loader)
    else match story
      case None => Failure(CannotReadPropertyOfNull("title"))
      case Some(s) => Success(Text(TruncateString(s.title, TitleLimit)))
  }

  function RenderSummary(story: Option<Story>, loading: bool): Result<Slot, TypeError> {
    if loading then Success(Loader)
    else match story
      case None => Failure(CannotReadPropertyOfNull("summary"))
      case Some(s) => Success(Text(TruncateString(s.summary, SummaryLimit)))
  }

  /** The meta line is the author name alone. */
  function RenderMeta(story: Option<Story>, loading: bool): Result<Slot, TypeError> {
    if loading then Success(Loader)
    else match story
      case None => Failure(CannotReadPropertyOfNull("author"))
      case Some(s) => Success(Text(AuthorName(s)))
  }

  /** A placeholder block while loading, else an image linking to "/" (the random image source is not modelled). */
  function RenderImage(loading: bool): ImageView {
    if loading then PlaceholderBlock else ImageLink("/")
  }

  function Render(story: Option<Story>, loading: bool): Result<SmallCard, TypeError> {
    var title :- RenderTitle(story, loading);
    var summary :- RenderSummary(story, loading);
    var meta :- RenderMeta(story, loading);
    Success(SmallCard(title, summary, meta, RenderImage(loading)))
  }

  /** While loading, the card is all placeholders, and the story (null by default) is not read at all. */
  lemma RenderWhileLoading(story: Option<Story>)
    ensures Render(story, true) == Success(SmallCard(Loader, Loader, Loader, PlaceholderBlock))
  {
  }

  /** Not loading: a null story raises a TypeError, any other renders. */
  lemma RenderLoadedIff(story: Option<Story>)
    ensures Render(story, false).Success? <==> story.Some?
  {
  }

  /**
   * A loaded story shows its title cut to 50 and its summary cut to 60
   * characters (each at most 3 longer), the author name with no read time, and
   * an image linking to "/".
   */
  lemma RenderLoaded(s: Story)
    ensures Render(Some(s), false) == Success(SmallCard(
      Text(TruncateString(s.title, 50)), Text(TruncateString(s.summary, 60)), Text(AuthorName(s)), ImageLink("/")))
    ensures |TruncateString(s.title, 50)| <= 53 && |TruncateString(s.summary, 60)| <= 63
  {
    TruncateLengthBound(s.title, 50);
    TruncateLengthBound(s.summary, 60);
  }
}
