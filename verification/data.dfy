/** The records the views display: users (src/data/users.ts) and posts
    (src/data/posts.ts), with the optional media descriptor the profile and
    post views read from a post. */
module Data {
  import opened Wrappers

  /** An influencer. `avatar` holds initials or an image address. */
  datatype User = User(
    id: string,
    name: string,
    username: string,
    bio: string,
    avatar: string,
    followers: nat,
    following: nat)

  datatype MediaType = Image | Video

  /** The media attached to a post: an image or a video, its address, and
      for a video an optional poster frame. */
  datatype Media = Media(mediaType: MediaType, url: string, thumbnail: Option<string>)

  /** A post, owned by the user whose id is `userId`. A post without media
      is a text-only post. */
  datatype Post = Post(
    id: string,
    userId: string,
    title: string,
    excerpt: string,
    content: string,
    createdAt: string,
    media: Option<Media>)

  /** The two lists the page reads from: every user and every post. */
  datatype Catalog = Catalog(users: seq<User>, posts: seq<Post>)
}
