/** A home-page feed: its query and the callback that feeds the Feed component. */
module Feed {
  import opened Stories

  /** The feed query asks for the first 5 stories. */
  const FeedQueryFirst: FeedQuery := FeedQuery(5)

  /** The Feed component itself renders a fixed placeholder, whatever its props. */
  function RenderFeed(props: map<string, PropValue>): string {
    "feed"
  }

  /** The text FeedEnhancer shows: the query child's 'error', or what Feed renders from its props. */
  function FeedEnhancer(result: QueryResult, callerProps: map<string, PropValue>): string {
    match RenderQueryChild(result, callerProps)
    case ErrorText(t) => t
    case Element(props) => RenderFeed(props)
  }

  /** The page shows 'error' exactly on a query error and 'feed' otherwise, whatever the data and props. */
  lemma FeedEnhancerText(result: QueryResult, callerProps: map<string, PropValue>)
    ensures FeedEnhancer(result, callerProps) == "error" <==> result.error.Some?
    ensures FeedEnhancer(result, callerProps) == "feed" <==> result.error.None?
  {
  }

  /** A full page of the query, five edges, hands Feed its five nodes in order. */
  lemma FullPageStories(result: QueryResult, callerProps: map<string, PropValue>)
    requires result.error.None? && "stories" !in callerProps
    requires result.data.Some? && |result.data.value.feed.edges| == FeedQueryFirst.first
    ensures var r := RenderQueryChild(result, callerProps);
      && r.Element? && r.props["stories"].StoriesProp?
      && |r.props["stories"].stories| == 5
      && forall i :: 0 <= i < 5 ==> r.props["stories"].stories[i] == result.data.value.feed.edges[i].node
  {
  }

  /**
   * FeedEnhancer: 'error' on a query error; otherwise Feed receives story i
   * as the node of edge i (none without data), the query's loading flag, and
   * every caller prop unchanged.
   */
  lemma FeedEnhancerPassThrough(result: QueryResult, callerProps: map<string, PropValue>)
    requires "stories" !in callerProps && "loading" !in callerProps
    ensures var r := RenderQueryChild(result, callerProps);
      && (result.error.Some? ==> r == ErrorText("error"))
      && (result.error.None? ==>
            && r.Element?
            && r.props["loading"] == BoolProp(result.loading)
            && (forall k :: k in callerProps ==> r.props[k] == callerProps[k])
            && r.props["stories"].StoriesProp?
            && var st := r.props["stories"].stories;
               && (result.data.None? ==> st == [])
               && (result.data.Some? ==>
                     |st| == |result.data.value.feed.edges|
                     && forall i :: 0 <= i < |st| ==> st[i] == result.data.value.feed.edges[i].node))
  {
  }
}
