/** The hero grid of the home page: which featured story goes to which card. */
module HeroGrid {
  import opened Wrappers
  import opened Stories
  import FeaturedLarge
  import FeaturedMedium
  import FeaturedSmall
  import FeaturedCompact

  /** The featured feed query asks for the first 8 stories. */
  const FeaturedFeed: FeedQuery := FeedQuery(8)

  /** The text of the link below the grid, which points to "/". */
  const AllFeaturedText: string := "See all featured >"

  /** stories[i], or undefined (null by the card's default) past the end. */
  function At(stories: seq<Story>, i: nat): Option<Story> {
    if i < |stories| then Some(stories[i]) else None
  }

  /** The start of stories.slice(-3). */
  function CompactStart(n: nat): nat {
    if n < 3 then 0 else n - 3
  }

  datatype Slots = Slots(large: Option<Story>, medium: Option<Story>, small: seq<Option<Story>>, compact: seq<Story>)

  function AssignSlots(stories: seq<Story>): Slots {
    Slots(At(stories, 0), At(stories, 1), [At(stories, 2), At(stories, 3), At(stories, 4)],
          stories[CompactStart(|stories|)..])
  }

  /** Index i of n stories feeds one of the five fixed cards. */
  predicate InFixedSlot(n: nat, i: nat) {
    i < n && i < 5
  }

  /** Index i of n stories is among those the compact list receives. */
  predicate InCompact(n: nat, i: nat) {
    CompactStart(n) <= i < n
  }

  /**
   * Story 0 goes to the large card, 1 to the medium one, 2, 3 and 4 to the
   * small cards at positions 1, 2 and 3, and the compact list receives the
   * last min(3, n) stories in order: story i, for CompactStart(n) <= i < n,
   * at position i - CompactStart(n).
   */
  lemma SlotAssignment(stories: seq<Story>)
    ensures var sl := AssignSlots(stories);
      && sl.large == At(stories, 0) && sl.medium == At(stories, 1)
      && |sl.small| == 3 && (forall p :: 0 <= p < 3 ==> sl.small[p] == At(stories, p + 2))
      && |sl.compact| == (if |stories| < 3 then |stories| else 3)
      && forall i: nat :: InCompact(|stories|, i) ==> sl.compact[i - CompactStart(|stories|)] == stories[i]
  {
    CompactSlot(stories);
  }

  /** The compact list is the stories from CompactStart(n) on: min(3, n) of them, in order. */
  lemma CompactSlot(stories: seq<Story>)
    ensures |AssignSlots(stories).compact| == (if |stories| < 3 then |stories| else 3)
    ensures forall i: nat :: InCompact(|stories|, i) ==>
      AssignSlots(stories).compact[i - CompactStart(|stories|)] == stories[i]
  {
    var k := CompactStart(|stories|);
    var c := AssignSlots(stories).compact;
    assert c == stories[k..];
    forall i: nat | InCompact(|stories|, i)
      ensures c[i - k] == stories[i]
    {
      assert stories[k..][i - k] == stories[i];
    }
  }

  /** The compact list repeats none of the fixed cards' stories exactly when there are none or at least 8. */
  lemma CompactDisjointIff(n: nat)
    ensures (forall i: nat :: !(InFixedSlot(n, i) && InCompact(n, i))) <==> (n == 0 || n >= 8)
  {
    if 0 < n < 8 {
      var i: nat := if n <= 5 then n - 1 else 4;
      assert InFixedSlot(n, i) && InCompact(n, i);
    }
  }

  /** Every story is assigned to a card or to the compact list exactly when there are at most 8. */
  lemma AllPlacedIff(n: nat)
    ensures (forall i: nat :: i < n ==> InFixedSlot(n, i) || InCompact(n, i)) <==> n <= 8
  {
    if n > 8 {
      assert !(InFixedSlot(n, 5) || InCompact(n, 5));
    }
  }

  /** With the 8 stories the query asks for, the compact list gets stories 5..7 and each story is shown exactly once. */
  lemma FullFeedPlacement(stories: seq<Story>)
    requires |stories| == FeaturedFeed.first
    ensures AssignSlots(stories).compact == stories[5..8]
    ensures forall i: nat :: i < 8 ==> (InFixedSlot(8, i) <==> !InCompact(8, i))
  {
  }

  /** The link below the cards: its target and its text. */
  datatype MoreLink = MoreLink(to: string, text: string)

  datatype GridView = GridView(
    large: FeaturedLarge.LargeCard,
    medium: FeaturedMedium.MediumCard,
    small: seq<FeaturedSmall.SmallCard>,
    compact: seq<FeaturedCompact.Node>,
    more: MoreLink)

  /** HeroGrid: the cards in document order; the first card to raise a TypeError aborts the grid. */
  function RenderGrid(stories: seq<Story>, loading: bool): Result<GridView, TypeError> {
    var sl := AssignSlots(stories);
    var large :- FeaturedLarge.Render(sl.large, loading);
    var medium :- FeaturedMedium.Render(sl.medium, loading);
    var small1 :- FeaturedSmall.Render(sl.small[0], loading);
    var small2 :- FeaturedSmall.Render(sl.small[1], loading);
    var small3 :- FeaturedSmall.Render(sl.small[2], loading);
    var compact := FeaturedCompact.RenderNodes(FeaturedCompact.RenderStories(sl.compact, loading));
    Success(GridView(large, medium, [small1, small2, small3], compact, MoreLink("/", AllFeaturedText)))
  }

  /** While loading, the grid renders, and the same way whatever stories it was given. */
  lemma RenderWhileLoading(a: seq<Story>, b: seq<Story>)
    ensures RenderGrid(a, true).Success?
    ensures RenderGrid(a, true) == RenderGrid(b, true)
  {
    FeaturedLarge.RenderWhileLoading(AssignSlots(a).large);
    FeaturedLarge.RenderWhileLoading(AssignSlots(b).large);
  }

  /**
   * Once loaded, the grid renders exactly when there are at least five
   * stories and the first can be linked (it is not flagged as under a null
   * publication); fewer stories leave a card with a null story.
   */
  lemma RenderLoadedIff(stories: seq<Story>)
    ensures RenderGrid(stories, false).Success? <==>
      |stories| >= 5 && !(stories[0].isUnderPublication && stories[0].publication.None?)
  {
    var sl := AssignSlots(stories);
    if |stories| > 0 {
      FeaturedLarge.RenderLoaded(stories[0]);
    }
    FeaturedMedium.RenderLoadedIff(sl.medium);
    FeaturedSmall.RenderLoadedIff(sl.small[0]);
    FeaturedSmall.RenderLoadedIff(sl.small[1]);
    FeaturedSmall.RenderLoadedIff(sl.small[2]);
  }

  /**
   * A rendered grid has three small cards, a compact list that alternates
   * articles and separators (six nodes while loading, two per compact story
   * once loaded), and the "See all featured >" link to "/".
   */
  lemma GridLayout(stories: seq<Story>, loading: bool)
    ensures RenderGrid(stories, loading).Success? ==>
      var g := RenderGrid(stories, loading).value;
      var entries := FeaturedCompact.RenderStories(AssignSlots(stories).compact, loading);
      && |g.small| == 3
      && |g.compact| == 2 * |entries|
      && (loading ==> |g.compact| == 6)
      && (!loading ==> |g.compact| == 2 * |AssignSlots(stories).compact|)
      && (forall i :: 0 <= i < |entries| ==>
            g.compact[2 * i] == FeaturedCompact.Article(entries[i].title, entries[i].meta)
            && g.compact[2 * i + 1] == FeaturedCompact.Separator)
      && g.more == MoreLink("/", "See all featured >")
  {
    var entries := FeaturedCompact.RenderStories(AssignSlots(stories).compact, loading);
    FeaturedCompact.NodesAlternate(entries);
    if loading {
      FeaturedCompact.RenderWhileLoading(AssignSlots(stories).compact);
    } else {
      FeaturedCompact.RenderLoaded(AssignSlots(stories).compact);
    }
  }

  /**
   * The query child hands the grid the normalised stories and the loading
   * flag unless the caller passes props of those names; a query error
   * renders 'error' instead of the grid.
   */
  lemma EnhancedHeroGridFeedsGrid(result: QueryResult, callerProps: map<string, PropValue>)
    requires "stories" !in callerProps && "loading" !in callerProps
    ensures var r := RenderQueryChild(result, callerProps);
      && (result.error.Some? ==> r == ErrorText("error"))
      && (result.error.None? ==>
            r.Element? && r.props["stories"] == StoriesProp(GetStories(result.data))
            && r.props["loading"] == BoolProp(result.loading))
  {
  }

  /**
   * What EnhancedHeroGrid shows: the query child's text, or the grid built
   * from the props it passes. A caller prop that replaces `stories` or
   * `loading` with a value of another kind is outside the model.
   */
  datatype Page = PageText(text: string) | GridPage(grid: Result<GridView, TypeError>) | IllTypedProps

  function EnhancedHeroGrid(result: QueryResult, callerProps: map<string, PropValue>): Page {
    match RenderQueryChild(result, callerProps)
    case ErrorText(t) => PageText(t)
    case Element(props) =>
      if "stories" in props && "loading" in props && props["stories"].StoriesProp? && props["loading"].BoolProp?
      then GridPage(RenderGrid(props["stories"].stories, props["loading"].b))
      else IllTypedProps
  }

  /**
   * The page is 'error' exactly on a query error. Otherwise it is the grid of
   * the query's normalised stories and loading flag, or of the caller's own
   * stories when the caller passes them.
   */
  lemma EnhancedHeroGridShows(result: QueryResult, callerProps: map<string, PropValue>)
    ensures EnhancedHeroGrid(result, callerProps) == PageText("error") <==> result.error.Some?
    ensures result.error.None? && "stories" !in callerProps && "loading" !in callerProps ==>
      EnhancedHeroGrid(result, callerProps) == GridPage(RenderGrid(GetStories(result.data), result.loading))
    ensures (result.error.None? && "loading" !in callerProps
             && "stories" in callerProps && callerProps["stories"].StoriesProp?) ==>
      EnhancedHeroGrid(result, callerProps) == GridPage(RenderGrid(callerProps["stories"].stories, result.loading))
  {
  }
}
