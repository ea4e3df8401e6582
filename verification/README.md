# Pulse — navigation, profile and post views

A model of the browsing page of a small influencer-content viewer. The page
(`src/pages/Index.tsx`) has four views (home, user list, profile, post) and
four state cells: the active view, the text typed in the search box, the
selected user and the selected post. Its click handlers move between the views,
setting or clearing the selections. Two lookups feed the views: the posts of
one user, and the user's position in the user list. The profile view
(`src/components/UserProfile.tsx`) splits a user's posts into a Videos section
and a Posts section. When the user has no posts, it shows an empty state,
optionally with a crawl button. The post view (`src/components/PostDetail.tsx`)
chooses an image or a video block from the post's media and splits the body
into paragraphs on blank lines.

Modules:

- `Wrappers`: `Option`, for JavaScript's `null`, `undefined` and absent fields.
- `Sequences`: `Array.prototype.filter` on sequences, with lemmas on order, concatenation and partition.
- `JsNumbers`: JavaScript's remainder `%`, which truncates toward zero. Also an array read at a remainder, which yields nothing for a negative index.
- `Data`: the `User`, `Post` and `Media` records, and the `Catalog` of all users and posts.
- `UserProfile`, `PostDetail`: the two views as pure functions from their props to what they show.
- `Navigation`: the page. `State` and `Step` give each handler's effect as a value. The class `IndexPage` holds the four state cells as fields; its handler methods update them in place and are proved against `Step`. `Render` says which view the guarded blocks show. `Offers` says which handlers the rendered screen makes reachable. `Consistent` is the invariant of every state reachable through `Offers`.
- `Fixtures`: the five users and seventeen posts the page ships with, and concrete facts about the lookups on them.

What these files do, and do not, contain:

- The page starts on `home`. Submitting the search box only opens the user list, and the list always shows every user whatever was typed.
- There is no pagination, no crawl trigger and no remote call in them. The posts are a fixed list filtered by owner. The page never passes `onCrawl`, so the crawl button is never shown.
- `handleBackToUsers` clears the user but not the post. `Consistent` shows that this never leaves a stale post behind: whenever that Back button is on screen, no post is selected.

The `Post` record in `src/data/posts.ts` has no `media` field, yet both views read
`post.media?.type`, `.url` and `.thumbnail`. The model gives `Post` an optional
`Media` of type image or video, with an address and an optional thumbnail.

## Model

| member | source | states |
|---|---|---|
| `Navigation.IndexPage.constructor` | src/pages/Index.tsx:15-18 | The page starts on the home view with an empty search text and no selected user or post. |
| `Navigation.IndexPage.HandleSearch` | src/pages/Index.tsx:20-23 | Submitting the search opens the user list and changes no other cell. |
| `Navigation.IndexPage.SetUsername` | src/pages/Index.tsx:93-94 | Typing in the search box replaces the search text and nothing else. |
| `Navigation.IndexPage.HandleUserClick` | src/pages/Index.tsx:25-28 | Clicking a user selects that user and opens the profile, keeping the search text and the selected post. A click offered by the screen keeps the invariant. |
| `Navigation.IndexPage.HandlePostClick` | src/pages/Index.tsx:30-33 | Clicking a post selects it and opens the post view, keeping the selected user. A click offered by the screen keeps the invariant. |
| `Navigation.IndexPage.HandleBackToUsers` | src/pages/Index.tsx:35-38 | Back from the profile clears the user and opens the user list. The selected post is left as it was. |
| `Navigation.IndexPage.HandleBackToProfile` | src/pages/Index.tsx:40-43 | Back from a post clears the post and opens the profile, keeping the selected user. |
| `Navigation.IndexPage.HandleBackToHome` | src/pages/Index.tsx:45-50 | The logo restores exactly the initial state from any state, and that state satisfies the invariant. |
| `Navigation.GetUserPosts` | src/pages/Index.tsx:52-54 | The result holds exactly the catalog posts owned by the given id, and no more posts than the catalog has. |
| `Navigation.GetUserPostsKeepsOrder` | src/pages/Index.tsx:52-54 | The lookup keeps catalog order: looking up in a concatenation gives the results for each part, in order. |
| `Navigation.GetUserIndex` | src/pages/Index.tsx:56-58 | The result is the first position whose user has the id, or -1 exactly when no user has it. |
| `Navigation.Render` | src/pages/Index.tsx:75-165 | Each view's block renders exactly when that view is active and its guard's selections are present. |
| `Navigation.InitialConsistent` | src/pages/Index.tsx:15-18 | The initial state satisfies the invariant. |
| `Navigation.StepKeepsConsistent` | src/pages/Index.tsx:20-50 | Every handler the rendered screen offers keeps the invariant. The invariant: a user is selected exactly on the profile and post views, a post exactly on the post view, the user is a listed user, and the post is one of that user's posts. |
| `Navigation.RunKeepsConsistent` | src/pages/Index.tsx:20-50 | Any sequence of offered handler calls keeps the invariant. |
| `Navigation.WalkIsNavigable` | src/pages/Index.tsx:133-161 | Every post of every listed user can be reached from the start, and left again with Back, using only what the screens offer. |
| `Navigation.ConsistentShowsActiveView` | src/pages/Index.tsx:146-164 | In a consistent state the active view is never hidden by its guard. The avatar always gets a gradient, because the selected user is found in the list. The post shown belongs to the author shown. |
| `Navigation.ReachableShowsActiveView` | src/pages/Index.tsx:146-164 | Every state reached from the start by offered handler calls is consistent and renders its view. |
| `Navigation.UnofferedClickHidesView` | src/pages/Index.tsx:157 | The offer rule is needed: a post click from the home view, which that view does not offer, leads to a post view that renders nothing. |
| `Navigation.UserListIgnoresQuery` | src/pages/Index.tsx:123-141 | The user list always shows the whole list, whatever was typed. |
| `Navigation.BackToHomeIdempotent` | src/pages/Index.tsx:45-50 | Going home yields the initial state, so pressing the logo twice equals pressing it once. |
| `Navigation.NoCrawlButton` | src/pages/Index.tsx:147-153 | The page passes no `onCrawl`, so an empty profile never shows the crawl button. |
| `Navigation.DetailVideoIffProfileVideo` | src/components/PostDetail.tsx:73-92 | The post view plays a video for exactly the posts the profile lists under Videos. |
| `UserProfile.VideoPosts` | src/components/UserProfile.tsx:74 | The Videos list holds exactly the posts whose media is a video, and never more posts than the input. |
| `UserProfile.OtherPosts` | src/components/UserProfile.tsx:75 | The Posts list holds exactly the posts without media or with image media, and never more posts than the input. |
| `UserProfile.View` | src/components/UserProfile.tsx:57-158 | The Videos section shows iff some post is a video. The Posts section shows iff some post is not a video. The empty state shows iff there are no posts, which is exactly when both sections are hidden. The crawl button shows in the empty state iff `onCrawl` is given, and it is disabled iff `isCrawling` is true. The bio shows iff it is non-empty. A non-negative index always gets a gradient. |
| `UserProfile.PostsPartition` | src/components/UserProfile.tsx:74-75 | The two lists hold every post exactly as many times as the input does. Their lengths add up to the number of posts. Each post is in exactly one of them. |
| `UserProfile.TextOnlyPostIsOther` | src/components/UserProfile.tsx:75 | A post without media is listed under Posts and never under Videos. |
| `UserProfile.CardPlacement` | src/components/UserProfile.tsx:87-113 | The post at position i appears in its own section at the position given by the number of same-kind posts before it. That position, not i, is the index its card is given. |
| `UserProfile.SectionsKeepOrder` | src/components/UserProfile.tsx:74-75 | Within a section, cards follow the order of the input posts. |
| `UserProfile.ShowsExactlyThePosts` | src/components/UserProfile.tsx:80-117 | The profile shows a card for a post iff the post is one of its posts. |
| `JsNumbers.Rem` | src/components/UserProfile.tsx:57 | The JavaScript remainder: the dividend equals the divisor times the truncated quotient plus the result. The result is smaller than the divisor and has the dividend's sign. |
| `JsNumbers.RemOfNonNegative` | src/components/UserProfile.tsx:57 | For a non-negative index, the JavaScript remainder equals Dafny's. |
| `JsNumbers.RemOfSmallNegative` | src/components/UserProfile.tsx:57 | A negative index smaller in size than the divisor is its own remainder, so `-1 % 5` is -1. |
| `JsNumbers.AtRem` | src/components/UserProfile.tsx:57 | `gradients[index % gradients.length]` is the gradient at `index mod 5` for a non-negative index and nothing for an index in -4..-1. |
| `PostDetail.IndexOf` | src/components/PostDetail.tsx:98 | The first position of the separator, or -1 exactly when the text does not contain it. |
| `PostDetail.Split` | src/components/PostDetail.tsx:98 | The pieces between the non-overlapping, left-to-right matches of the separator. There is always at least one piece. |
| `PostDetail.JoinSplit` | src/components/PostDetail.tsx:98 | Joining the pieces of `split(sep)` with `sep` gives back the text exactly. |
| `PostDetail.SplitCount` | src/components/PostDetail.tsx:98 | The number of pieces is one more than the number of non-overlapping, left-to-right occurrences of the separator. |
| `PostDetail.SplitPartsLackSeparator` | src/components/PostDetail.tsx:98 | No piece contains the separator. |
| `PostDetail.SplitWithoutSeparator` | src/components/PostDetail.tsx:98 | A text without the separator, including the empty text, splits into itself alone. |
| `PostDetail.Paragraphs` | src/components/PostDetail.tsx:98-102 | The paragraphs of a body join back to it on blank lines, count one more than its blank lines, and contain no blank line. |
| `PostDetail.ThreeParagraphs` | src/components/PostDetail.tsx:98 | `"a\n\nb\n\nc"` has the paragraphs `a`, `b` and `c`. |
| `PostDetail.TripleNewline` | src/components/PostDetail.tsx:98 | Matches do not overlap: `"x\n\n\ny"` has the paragraphs `x` and `"\ny"`. |
| `PostDetail.MediaFor` | src/components/PostDetail.tsx:73-92 | No media block without media. An image block, with the post's address and title, exactly for image media. Otherwise a video block whose poster is the optional thumbnail. |
| `PostDetail.View` | src/components/PostDetail.tsx:33-104 | The paragraphs shown join back to the body, number one more than its blank lines, and contain no blank line. There is no media block without media. An image block with the post's address and title is shown exactly for image media. Otherwise a video block with the post's address and the thumbnail as poster. A non-negative author index always gets a gradient. |
| `Fixtures.UserIndexOfThree` | src/pages/Index.tsx:56-58 | In the shipped user list, id "3" is at position 2. |
| `Fixtures.UserIndexOfUnknown` | src/pages/Index.tsx:56-58 | In the shipped user list, an unknown id gives -1. |
| `Fixtures.PostsOfTwo` | src/pages/Index.tsx:52-54 | In the shipped posts, user "2" owns exactly p4 to p7, in that order. |
| `Fixtures.ElenaWalkIsNavigable` | src/pages/Index.tsx:20-43 | With the shipped data, searching, opening user "2", opening post p4 and going back twice is a walk the screens offer. |

## Left out

- The fetch of `src/services/api.ts` and the types of `src/types/api.ts`: network I/O and type declarations. No adapter, pagination or crawl logic appears in the modelled files, so none is modelled.
- `formatDate` in `src/components/PostDetail.tsx` and `src/components/PostCard.tsx`: it depends on the host's date library and locale. The post view's date line is not modelled.
- `formatNumber` in `src/components/UserCard.tsx`: floating-point formatting whose only use is commented out. The user card is represented only by its user and index.
- Markup, CSS classes, icons, animation delays and React's rendering mechanics. Only the decisions are modelled: which view, section and media block is shown, and with which data.
- The `preventDefault` call in the search handler: it acts on the browser event, not on the page state.
- `Data.MediaType` has two values, image and video. A media type string other than `"image"` and `"video"` cannot be expressed. The source would list such a post under Posts in the profile view but play it as a video in the post view.
- `PostDetail.Split` models `String.prototype.split` only for a non-empty separator string, which is the only form the page uses.
- `Fixtures`: no fixture post carries media, as in `src/data/posts.ts`.
