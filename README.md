# Comments insights loader

A Dafny model of `CommentsUseCase`, the WordPress Android stats component that
turns the result of a comments-stats fetch into the "Comments" insights block.
The block is a title, then two tabs, then a "view more" link. The first tab lists
comment authors and the second lists posts and pages.

- `block_list.dfy` (module `BlockList`) holds the value types. The input side is
  the store's response, with a nullable model and a nullable error, plus authors
  and posts. The output side is the `BlockListItem` rows, `Tab`, and the
  `InsightsItem` results (`Failed`, `ListInsightItem`). The module also has a
  `Threw` outcome for the exception the loader raises.
- `comments_use_case.dfy` (module `Comments`) holds the loader. `LoadComments`
  interprets the response. `BuildList` assembles the three-item block.
  `BuildAuthorsTab` and `BuildPostsTab` build the tabs with `PAGE_SIZE` = 6. The
  class `CommentsUseCase` holds the single-slot navigation target, which
  `OnLinkClick` writes.

Modelling choices:
- The locale-aware formatter `toFormattedString()` is the parameter
  `format: int -> string`. Nothing is assumed about it.
- Android string resources are the distinct constants of `StringRes`.
- The store's error type enum is represented by its constant's `name`.
- The "view more" click handler is a closure in the source. Here, the `Link` row
  carries the `NavigationTarget` that the handler publishes.
  `CommentsUseCase.OnLinkClick` runs the handler by writing that target into the
  slot.
- The `IllegalArgumentException` thrown for an empty body is the outcome
  `Threw(IllegalArgumentException("Unexpected empty body"))`.

## Model

| member | source | states |
|---|---|---|
| Comments.LoadComments | WordPress/src/main/java/org/wordpress/android/ui/stats/refresh/CommentsUseCase.kt:30-40 | An error wins, even when a model is also present. It gives `Failed(stats_view_comments, msg)`, where msg is the error's message, or the error type's name when there is no message. With no error, a model gives the list block. The outcome is a throw exactly when both are absent, and the exception is `IllegalArgumentException("Unexpected empty body")` |
| Comments.BuildList | WordPress/src/main/java/org/wordpress/android/ui/stats/refresh/CommentsUseCase.kt:42-50 | The result is a `ListInsightItem` of exactly three items, in this order: `Title(stats_view_comments)`, a `TabsItem` of exactly two tabs, and `Link(stats_insights_view_more)`. The authors tab is built from the authors alone and comes first. The posts tab is built from the posts alone and comes second. The link targets `ViewFollowersStats(site.siteId)` |
| Comments.BuildAuthorsTab | WordPress/src/main/java/org/wordpress/android/ui/stats/refresh/CommentsUseCase.kt:52-68 | The title is `stats_comments_authors`. The items are `[Empty]` exactly when the list is empty. Otherwise the items are the author/comments `Label` followed by min(L, 6) rows, and none of them is `Empty`. Row i is `UserItem(gravatar, name, format(comments), i < L - 1)` of author i, where L is the untruncated length |
| Comments.BuildPostsTab | WordPress/src/main/java/org/wordpress/android/ui/stats/refresh/CommentsUseCase.kt:70-85 | The title is `stats_comments_posts_and_pages`. The items are `[Empty]` exactly when the list is empty. Otherwise the items are the title/comments `Label` followed by min(L, 6) rows, and none of them is `Empty`. Row i is `ListItem(name, format(comments), i < L - 1)` of post i |
| Comments.Take | WordPress/src/main/java/org/wordpress/android/ui/stats/refresh/CommentsUseCase.kt:56 | `take(n)` gives a prefix of the list of length min(n, size) |
| Comments.MapIndexed | WordPress/src/main/java/org/wordpress/android/ui/stats/refresh/CommentsUseCase.kt:56-63 | `mapIndexed` keeps the length, and element i is the mapping applied to index i and element i |
| Comments.AuthorsTabDividers | WordPress/src/main/java/org/wordpress/android/ui/stats/refresh/CommentsUseCase.kt:56-61 | For any list of authors, including the empty one, every displayed author row is a `UserItem`. With more than 6 authors, every displayed row has a divider. With at most 6, exactly the last row has none |
| Comments.PostsTabDividers | WordPress/src/main/java/org/wordpress/android/ui/stats/refresh/CommentsUseCase.kt:74-78 | For any list of posts, including the empty one, every displayed post row is a `ListItem`. With more than 6 posts, every displayed row has a divider. With at most 6, exactly the last row has none |
| Comments.EightAuthorsNoPosts | WordPress/src/main/java/org/wordpress/android/ui/stats/refresh/CommentsUseCase.kt:37-67 | Take 8 authors with 1..8 comments and no posts. The authors tab is a header plus authors 1 to 6, all with a divider. The posts tab is `[Empty]` |
| Comments.ThreePosts | WordPress/src/main/java/org/wordpress/android/ui/stats/refresh/CommentsUseCase.kt:70-85 | Posts with 10, 20 and 30 comments give a header and three rows in order. Only the row for 30 has no divider |
| Comments.CommentsUseCase.constructor | WordPress/src/main/java/org/wordpress/android/ui/stats/refresh/CommentsUseCase.kt:27 | The navigation-target slot starts empty |
| Comments.CommentsUseCase.ViewMoreTwice | WordPress/src/main/java/org/wordpress/android/ui/stats/refresh/CommentsUseCase.kt:42-49 | After the blocks of two sites are built and the "view more" link of each is clicked in turn, the slot holds `ViewFollowersStats` of the second site |
| Comments.CommentsUseCase.OnLinkClick | WordPress/src/main/java/org/wordpress/android/ui/stats/refresh/CommentsUseCase.kt:46-47 | Clicking a link sets the slot to that link's target, whatever it held before, so the last write wins. Nothing else in the use case changes. Together with `BuildList`, the "view more" link sets `ViewFollowersStats(site.siteId)` |

## Left out

- `insightsStore.fetchComments(site, forced)` and the coroutine suspension around it are not modelled. The store's response is an input of `LoadComments`, so the `forced` flag, which only goes to the store, does not appear.
- The `LiveData` observer semantics of the navigation target are not modelled. It is kept as a single overwritable slot.
- The locale-aware number formatting of `toFormattedString()` is not modelled. It is the uninterpreted parameter `format`.
- Resolving string resources to text is not modelled, and neither is dependency injection or rendering the rows.
- Comment counts and the site identifier are unbounded integers. The source's `Int`/`Long` widths play no role in this logic.
