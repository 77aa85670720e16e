/** The compact list of featured stories in the home-page hero grid. */
module FeaturedCompact {
  import opened Stories

  /** The number of placeholder entries shown while loading. */
  const LoadingCount: nat := 3

  /** The React key of an entry: its position while loading, the story's id otherwise. */
  datatype Key = IndexKey(index: nat) | IdKey(id: Wrappers.Option<string>)

  /** One entry: a keyed fragment holding an article with title and meta. */
  datatype Entry = Entry(key: Key, title: Slot, meta: Slot)

  /** What the list renders, in document order. */
  datatype Node = Article(title: Slot, meta: Slot) | Separator

  function LoadingEntries(n: nat, from: nat): (r: seq<Entry>)
    ensures |r| == n
    ensures forall i :: 0 <= i < n ==> r[i] == Entry(IndexKey(from + i), Loader, Loader)
    decreases n
  {
    if n == 0 then [] else [Entry(IndexKey(from), Loader, Loader)] + LoadingEntries(n - 1, from + 1)
  }

  function StoryEntries(stories: seq<Story>): (r: seq<Entry>)
    ensures |r| == |stories|
    ensures forall i :: 0 <= i < |r| ==>
      r[i] == Entry(IdKey(stories[i].id), Text(stories[i].title), Text(AuthorName(stories[i])))
  {
    if stories == [] then []
    else [Entry(IdKey(stories[0].id), Text(stories[0].title), Text(AuthorName(stories[0])))] + StoryEntries(stories[1..])
  }

  /** renderStories: three placeholder entries while loading, else one entry per story in order. */
  function RenderStories(stories: seq<Story>, loading: bool): seq<Entry> {
    if loading then LoadingEntries(LoadingCount, 0) else StoryEntries(stories)
  }

  /** The rendered node list: each entry's article followed by a separator. */
  function RenderNodes(entries: seq<Entry>): seq<Node> {
    if entries == [] then [] else [Article(entries[0].title, entries[0].meta), Separator] + RenderNodes(entries[1..])
  }

  /** While loading, exactly three entries keyed 0, 1, 2, whatever the stories. */
  lemma RenderWhileLoading(stories: seq<Story>)
    ensures var r := RenderStories(stories, true);
      && |r| == 3
      && forall i :: 0 <= i < 3 ==> r[i] == Entry(IndexKey(i), Loader, Loader)
  {
  }

  /**
   * Loaded: entry i is story i, keyed by its id, showing its whole title and
   * the author name; the default empty list gives no entries.
   */
  lemma RenderLoaded(stories: seq<Story>)
    ensures var r := RenderStories(stories, false);
      && |r| == |stories|
      && (forall i :: 0 <= i < |r| ==> r[i].key == IdKey(stories[i].id) && r[i].title == Text(stories[i].title))
      && (forall i :: 0 <= i < |r| ==> r[i].meta == Text(AuthorName(stories[i])))
      && (stories == [] ==> r == [])
  {
  }

  /** n entries give 2n nodes: entry i's article at 2i and a separator right after it. */
  lemma {:induction false} NodesAlternate(entries: seq<Entry>)
    ensures |RenderNodes(entries)| == 2 * |entries|
    ensures forall i :: 0 <= i < |entries| ==>
      RenderNodes(entries)[2 * i] == Article(entries[i].title, entries[i].meta) && RenderNodes(entries)[2 * i + 1] == Separator
  {
    if entries != [] {
      NodesAlternate(entries[1..]);
      var rest := RenderNodes(entries[1..]);
      assert RenderNodes(entries) == [Article(entries[0].title, entries[0].meta), Separator] + rest;
      forall i | 1 <= i < |entries|
        ensures RenderNodes(entries)[2 * i] == Article(entries[i].title, entries[i].meta)
        ensures RenderNodes(entries)[2 * i + 1] == Separator
      {
        assert RenderNodes(entries)[2 * i] == rest[2 * (i - 1)];
        assert RenderNodes(entries)[2 * i + 1] == rest[2 * (i - 1) + 1];
      }
    }
  }
}
