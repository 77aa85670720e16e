/**
 * The topic bar under the main bar: a list of topic links and a bottom
 * shadow shown while the bar is stuck to the top of the viewport, which is
 * when the sentinel placed before it is not intersecting the viewport.
 */
module TopicBarView {

  datatype Topic = Topic(path: string, topic: string)

  /** The links the bar shows: Home, Technology and Culture, all to "/". */
  const Topics: seq<Topic> := [Topic("/", "Home"), Topic("/", "Technology"), Topic("/", "Culture")]

  /** A rendered list item: a link to `linkTo` showing `caption`. */
  datatype TopicItem = TopicItem(linkTo: string, caption: string)

  /** renderTopics: one item per topic, in order. */
  function RenderTopics(topicList: seq<Topic>): (r: seq<TopicItem>)
    ensures |r| == |topicList|
    ensures forall i :: 0 <= i < |r| ==> r[i] == TopicItem(topicList[i].path, topicList[i].topic)
  {
    if topicList == [] then [] else [TopicItem(topicList[0].path, topicList[0].topic)] + RenderTopics(topicList[1..])
  }

  /** The three topic items, in order, each linking to "/". */
  lemma TopicItems()
    ensures RenderTopics(Topics) == [TopicItem("/", "Home"), TopicItem("/", "Technology"), TopicItem("/", "Culture")]
  {
    var r := RenderTopics(Topics);
    assert r[0] == TopicItem("/", "Home") && r[1] == TopicItem("/", "Technology") && r[2] == TopicItem("/", "Culture");
  }

  /** The nav's box-shadow value. */
  function BoxShadow(bottomShadow: bool): (r: string)
    ensures r == "var(--bottom-shadow)" <==> bottomShadow
    ensures r == "none" <==> !bottomShadow
  {
    if bottomShadow then "var(--bottom-shadow)" else "none"
  }

  /** The state an intersection change leaves, whatever the state before it. */
  function AfterIntersectionChange(isIntersecting: bool): bool {
    !isIntersecting
  }

  /** The state after a sequence of intersection changes, starting from `initial`. */
  function Replay(initial: bool, events: seq<bool>): bool
    decreases |events|
  {
    if events == [] then initial else Replay(AfterIntersectionChange(events[0]), events[1..])
  }

  /** The state depends only on the latest event. */
  lemma {:induction false} ReplayLatest(initial: bool, events: seq<bool>)
    requires events != []
    ensures Replay(initial, events) == !events[|events| - 1]
    decreases |events|
  {
    if |events| > 1 {
      ReplayLatest(AfterIntersectionChange(events[0]), events[1..]);
    }
  }

  /** Repeating the latest event changes nothing. */
  lemma ReplayRepeatIsNoOp(initial: bool, events: seq<bool>, e: bool)
    ensures Replay(initial, events + [e, e]) == Replay(initial, events + [e])
  {
    ReplayLatest(initial, events + [e, e]);
    ReplayLatest(initial, events + [e]);
  }

  datatype NavView = NavView(boxShadow: string, items: seq<TopicItem>)

  class TopicBar {
    var bottomShadow: bool

    /** No shadow until the observer reports. */
    constructor ()
      ensures !bottomShadow
    {
      bottomShadow := false;
    }

    /** handleIntersectionChange: the shadow shows exactly while the sentinel is not intersecting. */
    method HandleIntersectionChange(isIntersecting: bool)
      modifies this
      ensures bottomShadow == AfterIntersectionChange(isIntersecting)
      ensures bottomShadow == Replay(old(bottomShadow), [isIntersecting])
    {
      bottomShadow := !isIntersecting;
    }

    /** render: the nav's shadow follows the state, and its list shows the topics. */
    method Render() returns (nav: NavView)
      ensures nav.boxShadow == (if bottomShadow then "var(--bottom-shadow)" else "none")
      ensures nav.items == [TopicItem("/", "Home"), TopicItem("/", "Technology"), TopicItem("/", "Culture")]
    {
      TopicItems();
      nav := NavView(BoxShadow(bottomShadow), RenderTopics(Topics));
    }
  }
}
