/** The profile view of one user (src/components/UserProfile.tsx): which
    gradient the avatar gets, how the user's posts are split into a Videos
    section and a Posts section, and when the empty state and its crawl
    button appear. Markup and styling are not modelled; only the decisions. */
module UserProfile {
  import opened Wrappers
  import opened Data
  import JsNumbers
  import Sequences

  /** The avatar backgrounds, picked by the user's position in the user list. */
  const Gradients: seq<string> := [
    "from-violet-500 to-purple-600",
    "from-pink-500 to-rose-600",
    "from-cyan-500 to-blue-600",
    "from-emerald-500 to-teal-600",
    "from-amber-500 to-orange-600"
  ]

  /** The post carries media and that media is a video. */
  predicate IsVideo(p: Post)
  {
    p.media.Some? && p.media.value.mediaType == Video
  }

  /** The post carries no video: either no media at all, or an image. */
  predicate IsOther(p: Post)
  {
    p.media.None? || p.media.value.mediaType != Video
  }

  /** The posts listed under Videos: exactly the video posts, in order. */
  function VideoPosts(posts: seq<Post>): (r: seq<Post>)
    ensures |r| <= |posts|
    ensures forall p :: p in r <==> p in posts && IsVideo(p)
  {
    Sequences.Filter(posts, IsVideo)
  }

  /** The posts listed under Posts: exactly the non-video posts, in order. */
  function OtherPosts(posts: seq<Post>): (r: seq<Post>)
    ensures |r| <= |posts|
    ensures forall p :: p in r <==> p in posts && IsOther(p)
  {
    Sequences.Filter(posts, IsOther)
  }

  /** A post card; `index` only staggers its fade-in animation. */
  datatype Card = Card(post: Post, index: nat)

  /** A titled list of cards; its header shows the number of cards. */
  datatype Section = Section(cards: seq<Card>)

  datatype CrawlLabel = FetchLatest | Fetching

  datatype CrawlButton = CrawlButton(disabled: bool, caption: CrawlLabel)

  /** The "No posts yet" panel, with the crawl button when one is offered. */
  datatype EmptyState = EmptyState(crawl: Option<CrawlButton>)

  /** What the profile view shows: `None` for a part that is not rendered. */
  datatype ProfileLayout = ProfileLayout(
    avatarGradient: Option<string>,
    bio: Option<string>,
    videos: Option<Section>,
    others: Option<Section>,
    empty: Option<EmptyState>)

  /** One card per post of a section, in order, each carrying its position
      within that section. */
  function Cards(list: seq<Post>): (cards: seq<Card>)
    ensures |cards| == |list|
    ensures forall k :: 0 <= k < |cards| ==> cards[k].post == list[k] && cards[k].index == k
  {
    seq(|list|, k requires 0 <= k < |list| => Card(list[k], k))
  }

  function AvatarGradient(userIndex: int): Option<string>
  {
    JsNumbers.AtRem(Gradients, userIndex)
  }

  /** The profile view for `user` with its `posts`. `hasCrawl` says whether
      the optional `onCrawl` callback was passed; `isCrawling` is the optional
      busy flag (absent reads as false). */
  function View(user: User, posts: seq<Post>, userIndex: int, hasCrawl: bool, isCrawling: Option<bool>): (r: ProfileLayout)
    ensures r.videos.Some? <==> exists i :: 0 <= i < |posts| && IsVideo(posts[i])
    ensures r.others.Some? <==> exists i :: 0 <= i < |posts| && IsOther(posts[i])
    ensures r.empty.Some? <==> |posts| == 0
    ensures r.empty.Some? <==> r.videos.None? && r.others.None?
    ensures r.empty.Some? ==> (r.empty.value.crawl.Some? <==> hasCrawl)
    ensures r.empty.Some? && r.empty.value.crawl.Some? ==>
              (r.empty.value.crawl.value.disabled <==> isCrawling == Some(true))
    ensures r.bio.Some? <==> user.bio != ""
    ensures userIndex >= 0 ==> r.avatarGradient.Some?
  {
    var videoPosts := VideoPosts(posts);
    var otherPosts := OtherPosts(posts);
    Sequences.FilterPartition(posts, IsVideo, IsOther);
    assert |videoPosts| > 0 ==> videoPosts[0] in videoPosts;
    assert |otherPosts| > 0 ==> otherPosts[0] in otherPosts;
    var crawling := isCrawling == Some(true);
    ProfileLayout(
      AvatarGradient(userIndex),
      if user.bio != "" then Some(user.bio) else None,
      if |videoPosts| > 0 then Some(Section(Cards(videoPosts))) else None,
      if |otherPosts| > 0 then Some(Section(Cards(otherPosts))) else None,
      if |posts| == 0 then
        Some(EmptyState(if hasCrawl then Some(CrawlButton(crawling, if crawling then Fetching else FetchLatest)) else None))
      else None)
  }

  /** Every post goes to exactly one of the two lists, which together hold
      as many posts as there are. */
  lemma PostsPartition(posts: seq<Post>)
    ensures multiset(VideoPosts(posts)) + multiset(OtherPosts(posts)) == multiset(posts)
    ensures |VideoPosts(posts)| + |OtherPosts(posts)| == |posts|
    ensures forall p :: p in posts ==> (p in VideoPosts(posts) <==> p !in OtherPosts(posts))
  {
    Sequences.FilterPartition(posts, IsVideo, IsOther);
  }

  /** A text-only post is listed under Posts and never under Videos. */
  lemma TextOnlyPostIsOther(posts: seq<Post>, p: Post)
    requires p in posts && p.media.None?
    ensures p in OtherPosts(posts) && p !in VideoPosts(posts)
  {
  }

  /** The post at position `i` is shown in its own section at the position
      given by how many posts of the same kind come before it, and that
      position is the card's `index`, not `i`. */
  lemma CardPlacement(user: User, posts: seq<Post>, userIndex: int, hasCrawl: bool, isCrawling: Option<bool>, i: nat)
    requires i < |posts|
    ensures var r := View(user, posts, userIndex, hasCrawl, isCrawling);
      if IsVideo(posts[i]) then
        var k := |VideoPosts(posts[..i])|;
        r.videos.Some? && k < |r.videos.value.cards| && r.videos.value.cards[k] == Card(posts[i], k)
      else
        var k := |OtherPosts(posts[..i])|;
        r.others.Some? && k < |r.others.value.cards| && r.others.value.cards[k] == Card(posts[i], k)
  {
    if IsVideo(posts[i]) {
      Sequences.FilterPosition(posts, IsVideo, i);
    } else {
      Sequences.FilterPosition(posts, IsOther, i);
    }
  }

  /** Within a section, cards follow the order of `posts`. */
  lemma SectionsKeepOrder(posts: seq<Post>, i: nat, j: nat)
    requires i < j < |posts|
    ensures IsVideo(posts[i]) && IsVideo(posts[j]) ==> |VideoPosts(posts[..i])| < |VideoPosts(posts[..j])|
    ensures IsOther(posts[i]) && IsOther(posts[j]) ==> |OtherPosts(posts[..i])| < |OtherPosts(posts[..j])|
  {
    if IsVideo(posts[i]) && IsVideo(posts[j]) {
      Sequences.FilterKeepsOrder(posts, IsVideo, i, j);
    }
    if IsOther(posts[i]) && IsOther(posts[j]) {
      Sequences.FilterKeepsOrder(posts, IsOther, i, j);
    }
  }

  /** The view shows a card for a post exactly when the post is in `posts`. */
  ghost predicate ShowsPost(r: ProfileLayout, p: Post)
  {
    || (r.videos.Some? && exists c :: c in r.videos.value.cards && c.post == p)
    || (r.others.Some? && exists c :: c in r.others.value.cards && c.post == p)
  }

  lemma ShowsExactlyThePosts(user: User, posts: seq<Post>, userIndex: int, hasCrawl: bool, isCrawling: Option<bool>, p: Post)
    ensures ShowsPost(View(user, posts, userIndex, hasCrawl, isCrawling), p) <==> p in posts
  {
    var r := View(user, posts, userIndex, hasCrawl, isCrawling);
    if p in posts {
      ListedPostIsShown(user, posts, userIndex, hasCrawl, isCrawling, p);
    }
    if ShowsPost(r, p) {
      ShownPostIsListed(user, posts, userIndex, hasCrawl, isCrawling, p);
    }
  }

  lemma ListedPostIsShown(user: User, posts: seq<Post>, userIndex: int, hasCrawl: bool, isCrawling: Option<bool>, p: Post)
    requires p in posts
    ensures ShowsPost(View(user, posts, userIndex, hasCrawl, isCrawling), p)
  {
    var r := View(user, posts, userIndex, hasCrawl, isCrawling);
    var i :| 0 <= i < |posts| && posts[i] == p;
    CardPlacement(user, posts, userIndex, hasCrawl, isCrawling, i);
    if IsVideo(p) {
      assert r.videos.value.cards[|VideoPosts(posts[..i])|] in r.videos.value.cards;
    } else {
      assert r.others.value.cards[|OtherPosts(posts[..i])|] in r.others.value.cards;
    }
  }

  lemma ShownPostIsListed(user: User, posts: seq<Post>, userIndex: int, hasCrawl: bool, isCrawling: Option<bool>, p: Post)
    requires ShowsPost(View(user, posts, userIndex, hasCrawl, isCrawling), p)
    ensures p in posts
  {
    var r := View(user, posts, userIndex, hasCrawl, isCrawling);
    if r.videos.Some? && exists c :: c in r.videos.value.cards && c.post == p {
      var cards := r.videos.value.cards;
      assert cards == Cards(VideoPosts(posts));
      var c :| c in cards && c.post == p;
      var k :| 0 <= k < |cards| && cards[k] == c;
      assert p == VideoPosts(posts)[k];
    } else {
      var cards := r.others.value.cards;
      assert cards == Cards(OtherPosts(posts));
      var c :| c in cards && c.post == p;
      var k :| 0 <= k < |cards| && cards[k] == c;
      assert p == OtherPosts(posts)[k];
    }
  }
}
