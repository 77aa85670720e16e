/**
 * The story records the home page's feed queries return, and the display
 * rules the hero-grid cards share: the author name, the read-time meta line,
 * the story link path, and the normalisation of a feed query's edges.
 */
module Stories {
  import opened Wrappers
  import opened JsText

  datatype Author = Author(firstName: string, lastName: string, username: string)

  datatype Publication = Publication(displayName: string, name: string)

  /**
   * A feed node. `publication` is null for a story outside any publication;
   * `id` and `image` are not selected by the home-page queries, so in the
   * running application they are undefined.
   */
  datatype Story = Story(
    id: Option<string>,
    title: string,
    summary: string,
    author: Author,
    publication: Option<Publication>,
    slug: string,
    readTime: int,
    isUnderPublication: bool,
    image: Option<string>)

  /** One rendered text field of a card: a content-loader placeholder or the text shown. */
  datatype Slot = Loader | Text(text: string)

  /** The image area of a card: nothing, a placeholder block, or a link carrying the image. */
  datatype ImageView = NoImage | PlaceholderBlock | ImageLink(to: string)

  /** The JavaScript TypeError raised by reading a property of null. */
  datatype TypeError = CannotReadPropertyOfNull(property: string)

  /** The publication's display name when the story has a publication, else "first last". */
  function AuthorName(story: Story): (r: string)
    ensures story.publication.Some? ==> r == story.publication.value.displayName
    ensures story.publication.None? ==> r == story.author.firstName + " " + story.author.lastName
  {
    match story.publication
    case Some(p) => p.displayName
    case None => story.author.firstName + " " + story.author.lastName
  }

  // ---------------------------------------------------------------------
  // The meta line "<author> <separator> <readTime> min read".

  const MinRead: string := " min read"

  function ReadTimeMeta(name: string, separator: string, readTime: int): string {
    name + " " + separator + " " + NumText(readTime) + MinRead
  }

  predicate IsNumChar(c: char) {
    IsDigit(c) || c == '-'
  }

  /** The index where the longest run of digits and minus signs that ends s begins. */
  function NumRunStart(s: string): (k: nat)
    ensures k <= |s|
    ensures forall m :: k <= m < |s| ==> IsNumChar(s[m])
    ensures k > 0 ==> !IsNumChar(s[k - 1])
  {
    if s != [] && IsNumChar(s[|s| - 1]) then NumRunStart(s[..|s| - 1]) else |s|
  }

  /**
   * Reads a meta line back into the author name and read time, taking the
   * read time as the number right before " min read" and the author name as
   * everything before the separator that precedes it.
   */
  function ParseReadTimeMeta(line: string, separator: string): Option<(string, int)> {
    var tail := " " + separator + " ";
    if |line| < |MinRead| || line[|line| - |MinRead|..] != MinRead then None
    else
      var body := line[..|line| - |MinRead|];
      var k := NumRunStart(body);
      var rest := body[..k];
      match ParseNum(body[k..])
      case None => None
      case Some(t) =>
        if |rest| < |tail| || rest[|rest| - |tail|..] != tail then None
        else Some((rest[..|rest| - |tail|], t))
  }

  lemma {:induction false} NumRunStartAfter(a: string, b: string)
    requires a != [] && !IsNumChar(a[|a| - 1])
    requires forall m :: 0 <= m < |b| ==> IsNumChar(b[m])
    ensures NumRunStart(a + b) == |a|
    decreases |b|
  {
    if b == [] {
      assert a + b == a;
    } else {
      var b' := b[..|b| - 1];
      assert (a + b)[..|a + b| - 1] == a + b';
      NumRunStartAfter(a, b');
    }
  }

  /**
   * The meta line loses nothing: author name and read time are recovered
   * from it, whatever the name contains, because the separator is followed
   * by a space and the read time is an integer.
   */
  lemma ReadTimeMetaRoundTrip(name: string, separator: string, readTime: int)
    ensures ParseReadTimeMeta(ReadTimeMeta(name, separator, readTime), separator) == Some((name, readTime))
  {
    var tail := " " + separator + " ";
    var num := NumText(readTime);
    var line := ReadTimeMeta(name, separator, readTime);
    assert line == (name + tail) + num + MinRead;
    assert line[|line| - |MinRead|..] == MinRead;
    var body := line[..|line| - |MinRead|];
    assert body == (name + tail) + num;
    NumTextChars(readTime);
    NumRunStartAfter(name + tail, num);
    assert body[|name + tail|..] == num;
    NumTextRoundTrip(readTime);
    assert body[..|name + tail|] == name + tail;
    assert (name + tail)[|name + tail| - |tail|..] == tail;
    assert (name + tail)[..|name + tail| - |tail|] == name;
  }

  // ---------------------------------------------------------------------
  // The story link "/<owner>/<slug>".

  /**
   * The owner segment of a story link: the publication's name when the story
   * is flagged as under a publication, else "@" and the author's username.
   * The flag, not the presence of a publication, decides; a flagged story
   * without a publication raises a TypeError.
   */
  function LinkOwner(story: Story): (r: Result<string, TypeError>)
    ensures story.isUnderPublication && story.publication.Some? ==> r == Success(story.publication.value.name)
    ensures story.isUnderPublication && story.publication.None? ==> r == Failure(CannotReadPropertyOfNull("name"))
    ensures !story.isUnderPublication ==> r == Success("@" + story.author.username)
  {
    if story.isUnderPublication then
      match story.publication
      case Some(p) => Success(p.name)
      case None => Failure(CannotReadPropertyOfNull("name"))
    else
      Success("@" + story.author.username)
  }

  function LinkPath(story: Story): Result<string, TypeError> {
    var owner :- LinkOwner(story);
    Success("/" + owner + "/" + story.slug)
  }

  /**
   * A story link starts with "/" and ends with "/" and the slug; the link
   * of a story outside a publication starts with "/@" and the author's
   * username.
   */
  lemma LinkPathShape(story: Story)
    requires LinkPath(story).Success?
    ensures var p := LinkPath(story).value;
      && |p| >= 2 + |story.slug| && p[0] == '/'
      && p[|p| - |story.slug| - 1..] == "/" + story.slug
      && (!story.isUnderPublication ==> p[..2 + |story.author.username|] == "/@" + story.author.username)
  {
    var owner := LinkOwner(story).value;
    var p := LinkPath(story).value;
    assert p == ("/" + owner) + ("/" + story.slug);
    if !story.isUnderPublication {
      assert p == ("/@" + story.author.username) + ("/" + story.slug);
    }
  }

  /**
   * The author name and the link owner key on different fields: a story that
   * has a publication but is not flagged as under it shows the publication's
   * display name yet links under the author's username.
   */
  lemma NameAndOwnerKeyOnDifferentFields(story: Story)
    requires story.publication.Some? && !story.isUnderPublication
    ensures AuthorName(story) == story.publication.value.displayName
    ensures LinkPath(story) == Success("/@" + story.author.username + "/" + story.slug)
  {
    assert "/" + ("@" + story.author.username) == "/@" + story.author.username;
  }

  // ---------------------------------------------------------------------
  // Feed query results.

  datatype Edge = Edge(node: Story)

  datatype Connection = Connection(edges: seq<Edge>)

  datatype QueryData = QueryData(feed: Connection)

  /** What a feed query hands its render callback: data (absent while loading), the loading flag and an error, if any. */
  datatype QueryResult = QueryResult(data: Option<QueryData>, loading: bool, error: Option<string>)

  /** A query's requested page size: feed(first: n). */
  datatype FeedQuery = FeedQuery(first: nat)

  function Nodes(edges: seq<Edge>): (r: seq<Story>)
    ensures |r| == |edges|
    ensures forall i :: 0 <= i < |r| ==> r[i] == edges[i].node
  {
    if edges == [] then [] else [edges[0].node] + Nodes(edges[1..])
  }

  /** getStories: no data gives no stories; otherwise the nodes of the edges, in order. */
  function GetStories(data: Option<QueryData>): (r: seq<Story>)
    ensures data.None? ==> r == []
    ensures data.Some? ==> |r| == |data.value.feed.edges|
    ensures data.Some? ==> forall i :: 0 <= i < |r| ==> r[i] == data.value.feed.edges[i].node
  {
    match data
    case None => []
    case Some(d) => Nodes(d.feed.edges)
  }

  /** A prop value handed to a React element. */
  datatype PropValue = StoriesProp(stories: seq<Story>) | BoolProp(b: bool) | TextProp(text: string)

  /** The outcome of a query's render callback: the text 'error', or an element with its props. */
  datatype Rendered = ErrorText(text: string) | Element(props: map<string, PropValue>)

  /**
   * The render callback both feed queries use: 'error' on a query error,
   * otherwise the component with stories and loading, then the caller's own
   * props spread over them (so a caller prop of the same name wins).
   */
  function RenderQueryChild(result: QueryResult, callerProps: map<string, PropValue>): (r: Rendered)
    ensures r.ErrorText? <==> result.error.Some?
    ensures r.ErrorText? ==> r.text == "error"
    ensures r.Element? ==> r.props.Keys == callerProps.Keys + {"stories", "loading"}
    ensures r.Element? ==> forall k :: k in callerProps ==> r.props[k] == callerProps[k]
    ensures r.Element? && "stories" !in callerProps ==>
      r.props["stories"].StoriesProp? && r.props["stories"].stories == GetStories(result.data)
    ensures r.Element? && "loading" !in callerProps ==> r.props["loading"] == BoolProp(result.loading)
  {
    if result.error.Some? then ErrorText("error")
    else Element(map["stories" := StoriesProp(GetStories(result.data)), "loading" := BoolProp(result.loading)] + callerProps)
  }
}
