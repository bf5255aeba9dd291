/**
 * The comments insights loader: interprets the store's fetch response and turns a
 * comments model into a title, a two-tab block (authors, posts and pages) and a
 * "view more" link whose click publishes a navigation target.
 *
 * The locale-aware number formatter is a collaborator whose body is not part of
 * this model; every builder takes it as the parameter `format`.
 */
module Comments {
  import opened BlockList

  /** Number of rows a tab shows at most. */
  const PAGE_SIZE: nat := 6

  function Min(a: nat, b: nat): nat {
    if a <= b then a else b
  }

  /** The first `n` elements of `s`, or all of `s` when it is shorter. */
  function Take<T>(s: seq<T>, n: nat): (r: seq<T>)
    ensures |r| == Min(n, |s|)
    ensures r <= s
  {
    if |s| <= n then s else s[..n]
  }

  /** Applies `f` to every element of `s` together with its 0-based index, in order. */
  function MapIndexed<T, U>(s: seq<T>, f: (nat, T) -> U): (r: seq<U>)
    ensures |r| == |s|
    ensures forall i :: 0 <= i < |s| ==> r[i] == f(i, s[i])
  {
    if |s| == 0 then []
    else MapIndexed(s[..|s| - 1], f) + [f(|s| - 1, s[|s| - 1])]
  }

  /**
   * The authors tab. An empty list shows the `Empty` sentinel; otherwise a column
   * header followed by the first PAGE_SIZE authors, each with a divider unless it
   * is the last author of the whole, untruncated list.
   */
  function BuildAuthorsTab(authors: seq<Author>, format: int -> string): (tab: Tab)
    ensures tab.title == StatsCommentsAuthors
    ensures |authors| == 0 <==> tab.items == [Empty]
    ensures |authors| > 0 ==>
      && |tab.items| == 1 + Min(|authors|, PAGE_SIZE)
      && tab.items[0] == Label(StatsCommentsAuthorLabel, StatsCommentsLabel)
      && Empty !in tab.items
      && forall i :: 0 <= i < Min(|authors|, PAGE_SIZE) ==>
           tab.items[i + 1] == UserItem(authors[i].gravatar, authors[i].name,
                                        format(authors[i].comments), i < |authors| - 1)
  {
    if |authors| > 0 then
      var rows := MapIndexed(Take(authors, PAGE_SIZE),
        (index: nat, author: Author) =>
          UserItem(author.gravatar, author.name, format(author.comments), index < |authors| - 1));
      Tab(StatsCommentsAuthors, [Label(StatsCommentsAuthorLabel, StatsCommentsLabel)] + rows)
    else
      Tab(StatsCommentsAuthors, [Empty])
  }

  /**
   * The posts and pages tab: the same policy as the authors tab, with one
   * `ListItem` per post.
   */
  function BuildPostsTab(posts: seq<Post>, format: int -> string): (tab: Tab)
    ensures tab.title == StatsCommentsPostsAndPages
    ensures |posts| == 0 <==> tab.items == [Empty]
    ensures |posts| > 0 ==>
      && |tab.items| == 1 + Min(|posts|, PAGE_SIZE)
      && tab.items[0] == Label(StatsCommentsTitleLabel, StatsCommentsLabel)
      && Empty !in tab.items
      && forall i :: 0 <= i < Min(|posts|, PAGE_SIZE) ==>
           tab.items[i + 1] == ListItem(posts[i].name, format(posts[i].comments), i < |posts| - 1)
  {
    if |posts| > 0 then
      var rows := MapIndexed(Take(posts, PAGE_SIZE),
        (index: nat, post: Post) =>
          ListItem(post.name, format(post.comments), index < |posts| - 1));
      Tab(StatsCommentsPostsAndPages, [Label(StatsCommentsTitleLabel, StatsCommentsLabel)] + rows)
    else
      Tab(StatsCommentsPostsAndPages, [Empty])
  }

  /**
   * The block shown for a successfully fetched model: title, the two tabs (authors
   * first, each built from its own list only) and the "view more" link, which
   * targets the followers stats of this site.
   */
  function BuildList(site: Site, model: CommentsModel, format: int -> string): (item: InsightsItem)
    ensures item.ListInsightItem? && |item.items| == 3
    ensures item.items[0] == Title(StatsViewComments)
    ensures item.items[1].TabsItem? && |item.items[1].tabs| == 2
    ensures item.items[1].tabs[0] == BuildAuthorsTab(model.authors, format)
    ensures item.items[1].tabs[1] == BuildPostsTab(model.posts, format)
    ensures item.items[2] == Link(StatsInsightsViewMore, ViewFollowersStats(site.siteId))
  {
    ListInsightItem([
      Title(StatsViewComments),
      TabsItem([BuildAuthorsTab(model.authors, format), BuildPostsTab(model.posts, format)]),
      Link(StatsInsightsViewMore, ViewFollowersStats(site.siteId))])
  }

  /**
   * Interprets the store's response. An error wins, even when a model is present,
   * and becomes a `Failed` item whose text is the error message, or the error
   * type's name when there is no message. Otherwise a model becomes the list
   * block. A response with neither throws.
   */
  function LoadComments(site: Site, response: FetchResponse, format: int -> string): (r: Outcome<InsightsItem>)
    ensures response.error.Some? && response.error.value.message.Some? ==>
      r == Returned(Failed(StatsViewComments, response.error.value.message.value))
    ensures response.error.Some? && response.error.value.message.None? ==>
      r == Returned(Failed(StatsViewComments, response.error.value.errorType.name))
    ensures response.error.None? && response.model.Some? ==>
      r == Returned(BuildList(site, response.model.value, format))
    ensures r.Threw? <==> response.error.None? && response.model.None?
    ensures r.Threw? ==> r.exception == IllegalArgumentException("Unexpected empty body")
  {
    match (response.error, response.model)
    case (Some(error), _) =>
      Returned(Failed(StatsViewComments, match error.message
                                         case Some(message) => message
                                         case None => error.errorType.name))
    case (None, Some(model)) => Returned(BuildList(site, model, format))
    case (None, None) => Threw(IllegalArgumentException("Unexpected empty body"))
  }

  /**
   * Consequences of measuring the divider against the untruncated list: a
   * truncated page shows a divider on every row, and a page that shows the whole
   * list omits it on its last row only.
   */
  lemma AuthorsTabDividers(authors: seq<Author>, format: int -> string)
    ensures var rows := BuildAuthorsTab(authors, format).items[1..];
      && (forall k :: 0 <= k < |rows| ==> rows[k].UserItem?)
      && (|authors| > PAGE_SIZE ==> forall k :: 0 <= k < |rows| ==> rows[k].showDivider)
      && (|authors| <= PAGE_SIZE ==> forall k :: 0 <= k < |rows| ==> (rows[k].showDivider <==> k < |rows| - 1))
  {
  }

  lemma PostsTabDividers(posts: seq<Post>, format: int -> string)
    ensures var rows := BuildPostsTab(posts, format).items[1..];
      && (forall k :: 0 <= k < |rows| ==> rows[k].ListItem?)
      && (|posts| > PAGE_SIZE ==> forall k :: 0 <= k < |rows| ==> rows[k].showDivider)
      && (|posts| <= PAGE_SIZE ==> forall k :: 0 <= k < |rows| ==> (rows[k].showDivider <==> k < |rows| - 1))
  {
  }

  /**
   * Eight authors with 1..8 comments and no posts: the authors tab shows a header
   * and the first six authors, all with a divider; the posts tab is `[Empty]`.
   */
  lemma EightAuthorsNoPosts(site: Site, format: int -> string)
    ensures var authors := seq(8, i => Author("", "", i + 1));
      var r := LoadComments(site, FetchResponse(Some(CommentsModel(authors, [])), None), format);
      && r.Returned? && r.value.ListInsightItem?
      && var tabs := r.value.items[1].tabs;
      && |tabs[0].items| == 7
      && tabs[0].items[0] == Label(StatsCommentsAuthorLabel, StatsCommentsLabel)
      && (forall k :: 1 <= k < 7 ==> tabs[0].items[k] == UserItem("", "", format(k), true))
      && tabs[1].items == [Empty]
  {
  }

  /**
   * Three posts with 10, 20 and 30 comments: a header and three rows, where only
   * the row for 30 has no divider.
   */
  lemma ThreePosts(format: int -> string)
    ensures BuildPostsTab([Post("a", 10), Post("b", 20), Post("c", 30)], format).items ==
      [Label(StatsCommentsTitleLabel, StatsCommentsLabel),
       ListItem("a", format(10), true), ListItem("b", format(20), true), ListItem("c", format(30), false)]
  {
  }

  /** The use case's state: the single-slot navigation-target channel. */
  class CommentsUseCase {
    var navigationTarget: Option<NavigationTarget>

    constructor ()
      ensures navigationTarget == None
    {
      navigationTarget := None;
    }

    /**
     * Runs a link's click handler: publishes its target, overwriting whatever was
     * there before.
     */
    method OnLinkClick(link: BlockListItem)
      requires link.Link?
      modifies this`navigationTarget
      ensures navigationTarget == Some(link.navigateTo)
    {
      navigationTarget := Some(link.navigateTo);
    }

    /**
     * Loads the block for two sites and clicks each block's "view more" link in
     * turn: the slot ends up holding the second site's followers-stats target.
     */
    method ViewMoreTwice(first: Site, firstModel: CommentsModel,
                         second: Site, secondModel: CommentsModel, format: int -> string)
      modifies this`navigationTarget
      ensures navigationTarget == Some(ViewFollowersStats(second.siteId))
    {
      var firstBlock := BuildList(first, firstModel, format);
      OnLinkClick(firstBlock.items[2]);
      assert navigationTarget == Some(ViewFollowersStats(first.siteId));
      var secondBlock := BuildList(second, secondModel, format);
      OnLinkClick(secondBlock.items[2]);
    }
  }
}
