/** The page (src/pages/Index.tsx): four state cells, six click handlers and
    the input's change handler, the two lookups the views are fed from, and
    which view the page renders. `State` and `Step` give the page's state and
    each handler's effect as values; the class `IndexPage` keeps the four
    cells as fields and updates them as the handlers do. */
module Navigation {
  import opened Wrappers
  import opened Data
  import Sequences
  import UserProfile
  import PostDetail

  /** The four views of the page. */
  datatype View = HomeView | UsersView | ProfileView | PostView

  /** The four state cells. */
  datatype State = State(
    view: View,
    username: string,
    selectedUser: Option<User>,
    selectedPost: Option<Post>)

  /** The state the page starts in. */
  const Initial: State := State(HomeView, "", None, None)

  /** What the user can do: submit the search form, type in it, click a
      user card or a post card, press one of the Back buttons, or press the
      logo in the header. */
  datatype Intent =
    | Search
    | TypeUsername(text: string)
    | ClickUser(user: User)
    | ClickPost(post: Post)
    | BackToUsers
    | BackToProfile
    | BackToHome

  /** The effect of each handler on the state cells. */
  function Step(s: State, intent: Intent): State
  {
    match intent
    case Search => s.(view := UsersView)
    case TypeUsername(text) => s.(username := text)
    case ClickUser(u) => s.(selectedUser := Some(u), view := ProfileView)
    case ClickPost(p) => s.(selectedPost := Some(p), view := PostView)
    case BackToUsers => s.(selectedUser := None, view := UsersView)
    case BackToProfile => s.(selectedPost := None, view := ProfileView)
    case BackToHome => Initial
  }

  /** The test "this post is owned by the user with this id". */
  function OwnedBy(userId: string): Post -> bool
  {
    (p: Post) => p.userId == userId
  }

  /** The posts owned by the user with this id, in catalog order. */
  function GetUserPosts(posts: seq<Post>, userId: string): (r: seq<Post>)
    ensures |r| <= |posts|
    ensures forall p :: p in r <==> p in posts && p.userId == userId
    ensures forall k :: 0 <= k < |r| ==> r[k].userId == userId
  {
    Sequences.Filter(posts, OwnedBy(userId))
  }

  /** The first position in the user list holding this id, or -1 when no
      user has it. */
  function GetUserIndex(users: seq<User>, userId: string): (r: int)
    ensures -1 <= r < |users|
    ensures r == -1 <==> forall k :: 0 <= k < |users| ==> users[k].id != userId
    ensures r >= 0 ==> users[r].id == userId && forall k :: 0 <= k < r ==> users[k].id != userId
  {
    if |users| == 0 then -1
    else if users[0].id == userId then 0
    else
      var r := GetUserIndex(users[1..], userId);
      if r == -1 then -1 else r + 1
  }

  /** The per-user lookup keeps the catalog's order: the posts of one user
      found in the first part of the catalog come before those found in the
      rest. */
  lemma GetUserPostsKeepsOrder(a: seq<Post>, b: seq<Post>, userId: string)
    ensures GetUserPosts(a + b, userId) == GetUserPosts(a, userId) + GetUserPosts(b, userId)
  {
    Sequences.FilterAppend(a, b, OwnedBy(userId));
  }

  /** A card in the user list; `index` only staggers its animation. */
  datatype UserCard = UserCard(user: User, index: nat)

  /** One card per user, in list order, each carrying its position. */
  function UserCards(users: seq<User>): seq<UserCard>
  {
    seq(|users|, k requires 0 <= k < |users| => UserCard(users[k], k))
  }

  /** What the main area of the page shows. `Blank` is what is left when the
      active view's guard fails. */
  datatype Screen =
    | HomeScreen(query: string)
    | UsersScreen(cards: seq<UserCard>)
    | ProfileScreen(profile: UserProfile.ProfileLayout)
    | DetailScreen(detail: PostDetail.DetailLayout)
    | Blank

  /** The four guarded blocks of the page. The profile is rendered without
      `onCrawl` and `isCrawling`. */
  function Render(cat: Catalog, s: State): (r: Screen)
    ensures r.HomeScreen? <==> s.view == HomeView
    ensures r.UsersScreen? <==> s.view == UsersView
    ensures r.ProfileScreen? <==> s.view == ProfileView && s.selectedUser.Some?
    ensures r.DetailScreen? <==> s.view == PostView && s.selectedUser.Some? && s.selectedPost.Some?
  {
    match s.view
    case HomeView => HomeScreen(s.username)
    case UsersView => UsersScreen(UserCards(cat.users))
    case ProfileView =>
      if s.selectedUser.Some? then
        var u := s.selectedUser.value;
        ProfileScreen(UserProfile.View(u, GetUserPosts(cat.posts, u.id), GetUserIndex(cat.users, u.id), false, None))
      else Blank
    case PostView =>
      if s.selectedPost.Some? && s.selectedUser.Some? then
        var u := s.selectedUser.value;
        DetailScreen(PostDetail.View(s.selectedPost.value, u, GetUserIndex(cat.users, u.id)))
      else Blank
  }

  /** Whether the rendered screen offers `intent`: the search form only on
      the home view, user cards only on the user list, post cards and Back
      only on a rendered profile, Back only on a rendered post; the header
      logo is always there. */
  ghost predicate Offers(cat: Catalog, s: State, intent: Intent)
  {
    var screen := Render(cat, s);
    match intent
    case Search => screen.HomeScreen?
    case TypeUsername(_) => screen.HomeScreen?
    case ClickUser(u) => screen.UsersScreen? && exists c :: c in screen.cards && c.user == u
    case ClickPost(p) => screen.ProfileScreen? && UserProfile.ShowsPost(screen.profile, p)
    case BackToUsers => screen.ProfileScreen?
    case BackToProfile => screen.DetailScreen?
    case BackToHome => true
  }

  /** The invariant of every state the page can reach: a user is selected
      exactly on the profile and post views, a post exactly on the post
      view, the selected user is one of the listed users and the selected
      post is one of that user's posts. */
  ghost predicate Consistent(cat: Catalog, s: State)
  {
    && (s.selectedUser.Some? <==> s.view == ProfileView || s.view == PostView)
    && (s.selectedPost.Some? <==> s.view == PostView)
    && (s.selectedUser.Some? ==> s.selectedUser.value in cat.users)
    && (s.selectedUser.Some? && s.selectedPost.Some? ==>
          s.selectedPost.value in GetUserPosts(cat.posts, s.selectedUser.value.id))
  }

  lemma InitialConsistent(cat: Catalog)
    ensures Consistent(cat, Initial)
  {
  }

  /** Every offered intent keeps the invariant. */
  lemma StepKeepsConsistent(cat: Catalog, s: State, intent: Intent)
    requires Consistent(cat, s) && Offers(cat, s, intent)
    ensures Consistent(cat, Step(s, intent))
  {
    match intent
    case ClickUser(u) =>
      var c :| c in UserCards(cat.users) && c.user == u;
    case ClickPost(p) =>
      var u := s.selectedUser.value;
      var posts := GetUserPosts(cat.posts, u.id);
      UserProfile.ShowsExactlyThePosts(u, posts, GetUserIndex(cat.users, u.id), false, None, p);
    case _ =>
  }

  /** The state after the intents, applied in order. */
  function Run(s: State, intents: seq<Intent>): State
    decreases |intents|
  {
    if |intents| == 0 then s else Run(Step(s, intents[0]), intents[1..])
  }

  /** Each intent is offered by the screen the previous ones led to. */
  ghost predicate Navigable(cat: Catalog, s: State, intents: seq<Intent>)
    decreases |intents|
  {
    |intents| == 0 || (Offers(cat, s, intents[0]) && Navigable(cat, Step(s, intents[0]), intents[1..]))
  }

  lemma {:induction false} RunKeepsConsistent(cat: Catalog, s: State, intents: seq<Intent>)
    requires Consistent(cat, s) && Navigable(cat, s, intents)
    ensures Consistent(cat, Run(s, intents))
    decreases |intents|
  {
    if |intents| > 0 {
      StepKeepsConsistent(cat, s, intents[0]);
      RunKeepsConsistent(cat, Step(s, intents[0]), intents[1..]);
    }
  }

  /** Search, open a user, open one of the user's posts, then go back twice. */
  function Walk(u: User, p: Post): seq<Intent>
  {
    [Search, ClickUser(u), ClickPost(p), BackToProfile, BackToUsers]
  }

  /** Every post of every listed user can be reached from the start and left
      again through the screens alone. */
  lemma WalkIsNavigable(cat: Catalog, u: User, p: Post)
    requires u in cat.users && p in cat.posts && p.userId == u.id
    ensures Navigable(cat, Initial, Walk(u, p))
  {
    var s1 := Step(Initial, Search);
    var s2 := Step(s1, ClickUser(u));
    var s3 := Step(s2, ClickPost(p));
    var s4 := Step(s3, BackToProfile);
    var k :| 0 <= k < |cat.users| && cat.users[k] == u;
    assert UserCards(cat.users)[k] in UserCards(cat.users);
    UserProfile.ShowsExactlyThePosts(u, GetUserPosts(cat.posts, u.id), GetUserIndex(cat.users, u.id), false, None, p);
    var w := Walk(u, p);
    assert w[1..][1..][1..][1..] == [BackToUsers];
    assert Navigable(cat, s4, [BackToUsers]);
    assert w[1..][1..][1..] == [BackToProfile, BackToUsers];
    assert Navigable(cat, s3, [BackToProfile, BackToUsers]);
    assert w[1..][1..] == [ClickPost(p), BackToProfile, BackToUsers];
    assert Offers(cat, s2, ClickPost(p));
    assert Navigable(cat, s2, w[1..][1..]);
    assert w[1..] == [ClickUser(u), ClickPost(p), BackToProfile, BackToUsers];
    assert Offers(cat, s1, ClickUser(u));
    assert Navigable(cat, s1, w[1..]);
  }

  /** In a consistent state the active view is always rendered, never hidden
      by its guard; the avatar always gets a gradient, since the selected
      user is found in the list; and the post shown belongs to the author
      shown beside it. */
  lemma ConsistentShowsActiveView(cat: Catalog, s: State)
    requires Consistent(cat, s)
    ensures !Render(cat, s).Blank?
    ensures Render(cat, s).ProfileScreen? ==> Render(cat, s).profile.avatarGradient.Some?
    ensures Render(cat, s).DetailScreen? ==> Render(cat, s).detail.avatarGradient.Some?
    ensures s.view == PostView ==> s.selectedPost.value.userId == s.selectedUser.value.id
  {
    if s.selectedUser.Some? {
      var u := s.selectedUser.value;
      assert GetUserIndex(cat.users, u.id) >= 0;
    }
  }

  /** Every state reached from the start by offered intents shows its view. */
  lemma ReachableShowsActiveView(cat: Catalog, intents: seq<Intent>)
    requires Navigable(cat, Initial, intents)
    ensures Consistent(cat, Run(Initial, intents))
    ensures !Render(cat, Run(Initial, intents)).Blank?
  {
    RunKeepsConsistent(cat, Initial, intents);
    ConsistentShowsActiveView(cat, Run(Initial, intents));
  }

  /** The guards do matter: a post click from the home view, which the home
      view does not offer, would select a post without a user, and the post
      view would then render nothing. */
  lemma UnofferedClickHidesView(cat: Catalog, p: Post)
    ensures !Offers(cat, Initial, ClickPost(p))
    ensures Render(cat, Step(Initial, ClickPost(p))) == Blank
  {
  }

  /** The typed name filters nothing: the user list is the whole list. */
  lemma UserListIgnoresQuery(cat: Catalog, s: State)
    requires s.view == UsersView
    ensures Render(cat, s) == UsersScreen(UserCards(cat.users))
    ensures forall q :: Render(cat, s.(username := q)) == Render(cat, s)
  {
  }

  /** The logo restores the initial state from anywhere, so pressing it
      twice is pressing it once. */
  lemma BackToHomeIdempotent(s: State)
    ensures Step(s, BackToHome) == Initial
    ensures Step(Step(s, BackToHome), BackToHome) == Step(s, BackToHome)
  {
  }

  /** The page never offers the crawl button: an empty profile shows the
      empty state without it. */
  lemma NoCrawlButton(cat: Catalog, s: State)
    requires Render(cat, s).ProfileScreen?
    ensures var l := Render(cat, s).profile; l.empty.Some? ==> l.empty.value.crawl.None?
  {
  }

  /** The detail view plays a video for exactly the posts the profile lists
      under Videos. */
  lemma DetailVideoIffProfileVideo(p: Post)
    ensures PostDetail.MediaFor(p).VideoBlock? <==> UserProfile.IsVideo(p)
  {
  }

  /** The page's state cells, updated in place by its handlers. */
  class IndexPage {
    const catalog: Catalog
    var view: View
    var username: string
    var selectedUser: Option<User>
    var selectedPost: Option<Post>

    function Snapshot(): State
      reads this
    {
      State(view, username, selectedUser, selectedPost)
    }

    constructor (catalog: Catalog)
      ensures this.catalog == catalog
      ensures view == HomeView && username == "" && selectedUser == None && selectedPost == None
      ensures Snapshot() == Initial
    {
      this.catalog := catalog;
      view := HomeView;
      username := "";
      selectedUser := None;
      selectedPost := None;
    }

    /** The search form's submit: opens the user list. */
    method HandleSearch()
      modifies this
      ensures view == UsersView
      ensures username == old(username) && selectedUser == old(selectedUser) && selectedPost == old(selectedPost)
      ensures Snapshot() == Step(old(Snapshot()), Search)
      ensures Consistent(catalog, old(Snapshot())) && Offers(catalog, old(Snapshot()), Search) ==>
                Consistent(catalog, Snapshot())
    {
      view := UsersView;
    }

    /** The search input's change handler. */
    method SetUsername(text: string)
      modifies this
      ensures username == text
      ensures view == old(view) && selectedUser == old(selectedUser) && selectedPost == old(selectedPost)
      ensures Snapshot() == Step(old(Snapshot()), TypeUsername(text))
      ensures Consistent(catalog, old(Snapshot())) ==> Consistent(catalog, Snapshot())
    {
      username := text;
    }

    method HandleUserClick(user: User)
      modifies this
      ensures selectedUser == Some(user) && view == ProfileView
      ensures username == old(username) && selectedPost == old(selectedPost)
      ensures Snapshot() == Step(old(Snapshot()), ClickUser(user))
      ensures Consistent(catalog, old(Snapshot())) && Offers(catalog, old(Snapshot()), ClickUser(user)) ==>
                Consistent(catalog, Snapshot())
    {
      ghost var before := Snapshot();
      selectedUser := Some(user);
      view := ProfileView;
      if Consistent(catalog, before) && Offers(catalog, before, ClickUser(user)) {
        StepKeepsConsistent(catalog, before, ClickUser(user));
      }
    }

    method HandlePostClick(post: Post)
      modifies this
      ensures selectedPost == Some(post) && view == PostView
      ensures username == old(username) && selectedUser == old(selectedUser)
      ensures Snapshot() == Step(old(Snapshot()), ClickPost(post))
      ensures Consistent(catalog, old(Snapshot())) && Offers(catalog, old(Snapshot()), ClickPost(post)) ==>
                Consistent(catalog, Snapshot())
    {
      ghost var before := Snapshot();
      selectedPost := Some(post);
      view := PostView;
      if Consistent(catalog, before) && Offers(catalog, before, ClickPost(post)) {
        StepKeepsConsistent(catalog, before, ClickPost(post));
      }
    }

    /** The profile's Back button. The selected post is left as it is. */
    method HandleBackToUsers()
      modifies this
      ensures selectedUser == None && view == UsersView
      ensures username == old(username) && selectedPost == old(selectedPost)
      ensures Snapshot() == Step(old(Snapshot()), BackToUsers)
      ensures Consistent(catalog, old(Snapshot())) && Offers(catalog, old(Snapshot()), BackToUsers) ==>
                Consistent(catalog, Snapshot())
    {
      selectedUser := None;
      view := UsersView;
    }

    /** The post's Back button. The selected user is kept. */
    method HandleBackToProfile()
      modifies this
      ensures selectedPost == None && view == ProfileView
      ensures username == old(username) && selectedUser == old(selectedUser)
      ensures Snapshot() == Step(old(Snapshot()), BackToProfile)
      ensures Consistent(catalog, old(Snapshot())) && Offers(catalog, old(Snapshot()), BackToProfile) ==>
                Consistent(catalog, Snapshot())
    {
      selectedPost := None;
      view := ProfileView;
    }

    /** The header logo: back to the initial state. */
    method HandleBackToHome()
      modifies this
      ensures view == HomeView && username == "" && selectedUser == None && selectedPost == None
      ensures Snapshot() == Step(old(Snapshot()), BackToHome) == Initial
      ensures Consistent(catalog, Snapshot())
    {
      view := HomeView;
      username := "";
      selectedUser := None;
      selectedPost := None;
    }
  }
}
