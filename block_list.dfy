/**
 * Value types exchanged by the comments insights loader: the fetch response it
 * receives from the insights store, and the typed presentation items it hands to
 * the stats list renderer.
 */
module BlockList {

  datatype Option<+T> = None | Some(value: T)

  /** Android string resources used by the loader, as opaque distinct identifiers. */
  datatype StringRes =
    | StatsViewComments
    | StatsInsightsViewMore
    | StatsCommentsAuthorLabel
    | StatsCommentsTitleLabel
    | StatsCommentsLabel
    | StatsCommentsAuthors
    | StatsCommentsPostsAndPages

  /** The site the insights belong to; only its identifier matters here. */
  datatype Site = Site(siteId: int)

  /** One commenter: avatar URL, display name and number of comments. */
  datatype Author = Author(gravatar: string, name: string, comments: int)

  /** One post or page and the number of comments it received. */
  datatype Post = Post(name: string, comments: int)

  datatype CommentsModel = CommentsModel(authors: seq<Author>, posts: seq<Post>)

  /** An enum constant of the store's error type, identified by its `name`. */
  datatype StatsErrorType = StatsErrorType(name: string)

  datatype StatsError = StatsError(errorType: StatsErrorType, message: Option<string>)

  /** What the store returns: a nullable model and a nullable error. */
  datatype FetchResponse = FetchResponse(model: Option<CommentsModel>, error: Option<StatsError>)

  /** Destinations published on the navigation-target channel. */
  datatype NavigationTarget = ViewFollowersStats(siteId: int)

  /**
   * The presentation rows of a stats block. A `Link` carries the navigation
   * target its click handler publishes.
   */
  datatype BlockListItem =
    | Title(titleText: StringRes)
    | TabsItem(tabs: seq<Tab>)
    | Label(leftLabel: StringRes, rightLabel: StringRes)
    | UserItem(avatarUrl: string, text: string, value: string, showDivider: bool)
    | ListItem(text: string, value: string, showDivider: bool)
    | Empty
    | Link(linkText: StringRes, navigateTo: NavigationTarget)

  datatype Tab = Tab(title: StringRes, items: seq<BlockListItem>)

  /** What a use case hands to the insights screen. */
  datatype InsightsItem =
    | Failed(failedType: StringRes, errorMessage: string)
    | ListInsightItem(items: seq<BlockListItem>)

  datatype Exception = IllegalArgumentException(message: string)

  /** A call that either returns a value or throws. */
  datatype Outcome<+T> = Returned(value: T) | Threw(exception: Exception)
}
