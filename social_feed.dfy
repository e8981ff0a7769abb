/** The community feed (pages/SocialFeed.tsx): the posts shown on mount, seeded
    when nothing is stored, and the like button, which rebuilds the list and
    stores it whole. */
module SocialFeed {
  import opened Types
  import opened Storage

  /** The two posts a first visit starts with. */
  const SeedPosts: seq<Post> := [
    Post("1", "alex_travels", "https://i.pravatar.cc/150?u=alex", "https://picsum.photos/800/800?random=1",
         "Kyoto, Japan",
         "Found this hidden gem of a shrine in Kyoto today. The silence here is magical. \U{26E9}\U{FE0F} #Japan #SoloTravel",
         245, "2h ago"),
    Post("2", "sarah_nomad", "https://i.pravatar.cc/150?u=sarah", "https://picsum.photos/800/800?random=2",
         "Bali, Indonesia",
         "Workspace for the day! \U{1F334} Digital nomad life is treating me well. Smoothie bowls + coding = \U{2764}\U{FE0F}",
         189, "5h ago")
  ]

  /** What the screen shows and what local storage then holds. */
  datatype Feed = Feed(posts: seq<Post>, local: Store)

  /** The mount effect. Nothing stored: the seed is shown and stored. A stored
      list is shown as it is. Anything else makes `JSON.parse` throw inside the
      effect, so the list stays empty and nothing is written. */
  function InitFeed(local: Store): (f: Feed)
    ensures PostsKey !in local ==> f == Feed(SeedPosts, local[PostsKey := PostsValue(SeedPosts)])
    ensures PostsKey in local && local[PostsKey].PostsValue? ==> f == Feed(local[PostsKey].posts, local)
    ensures PostsKey in local && !local[PostsKey].PostsValue? ==> f == Feed([], local)
    ensures forall k :: k in local && k != PostsKey ==> k in f.local && f.local[k] == local[k]
    ensures f.local.Keys == local.Keys + {PostsKey} || f.local == local
  {
    match Lookup(local, PostsKey)
    case None => Feed(SeedPosts, local[PostsKey := PostsValue(SeedPosts)])
    case Some(PostsValue(ps)) => Feed(ps, local)
    case Some(_) => Feed([], local)
  }

  /** Mounting again shows what the first mount left: the feed is stable once
      something is stored. */
  lemma InitFeedStable(local: Store)
    requires PostsKey !in local || local[PostsKey].PostsValue?
    ensures InitFeed(InitFeed(local).local) == InitFeed(local)
  {
  }

  /** The map callback of `handleLike` for one post. */
  function LikeOne(p: Post, id: string): Post {
    if p.id == id then p.(likes := p.likes + 1) else p
  }

  /** `posts.map(...)`: each post with the given id gets one more like, every
      other field and every other post kept, in the same order. */
  function Like(posts: seq<Post>, id: string): (r: seq<Post>)
    ensures |r| == |posts|
    ensures forall i :: 0 <= i < |posts| && posts[i].id == id ==> r[i] == posts[i].(likes := posts[i].likes + 1)
    ensures forall i :: 0 <= i < |posts| && posts[i].id != id ==> r[i] == posts[i]
  {
    if posts == [] then [] else [LikeOne(posts[0], id)] + Like(posts[1..], id)
  }

  /** An id no post carries leaves the list as it was. */
  lemma LikeUnknownId(posts: seq<Post>, id: string)
    requires forall i :: 0 <= i < |posts| ==> posts[i].id != id
    ensures Like(posts, id) == posts
  {
  }

  /** The likes of a list added up. */
  function TotalLikes(posts: seq<Post>): int {
    if posts == [] then 0 else posts[0].likes + TotalLikes(posts[1..])
  }

  /** How many posts carry the id. */
  function CountId(posts: seq<Post>, id: string): (n: nat)
    ensures n <= |posts|
  {
    if posts == [] then 0 else (if posts[0].id == id then 1 else 0) + CountId(posts[1..], id)
  }

  /** One tap adds one like per post with that id, so with unique ids the
      total grows by one for a shown post and by nothing for an unknown id. */
  lemma {:induction false} LikeAddsCount(posts: seq<Post>, id: string)
    ensures TotalLikes(Like(posts, id)) == TotalLikes(posts) + CountId(posts, id)
  {
    if posts != [] {
      LikeAddsCount(posts[1..], id);
      assert Like(posts, id)[1..] == Like(posts[1..], id);
    }
  }

  /** Likes on two posts may be given in either order. */
  lemma LikesCommute(posts: seq<Post>, a: string, b: string)
    ensures Like(Like(posts, a), b) == Like(Like(posts, b), a)
  {
    var x, y := Like(Like(posts, a), b), Like(Like(posts, b), a);
    assert forall i :: 0 <= i < |posts| ==> x[i] == y[i];
  }

  /** `handleLike`: the new list is shown and the same list is stored. */
  function HandleLike(f: Feed, id: string): (g: Feed)
    ensures g.posts == Like(f.posts, id)
    ensures PostsKey in g.local && g.local[PostsKey] == PostsValue(g.posts)
    ensures forall k :: k in f.local && k != PostsKey ==> k in g.local && g.local[k] == f.local[k]
    ensures g.local.Keys == f.local.Keys + {PostsKey}
  {
    var updated := Like(f.posts, id);
    Feed(updated, f.local[PostsKey := PostsValue(updated)])
  }

  /** After a like, a remount shows exactly the list the like produced. */
  lemma LikeSurvivesReload(f: Feed, id: string)
    ensures InitFeed(HandleLike(f, id).local).posts == Like(f.posts, id)
  {
  }
}
