/** The new-post screen (pages/CreatePost.tsx): the post a submit builds and the
    list it is put in front of. */
module CreatePost {
  import opened Types
  import opened Storage
  import Text

  const OwnName := "you"
  const OwnAvatar := "https://i.pravatar.cc/150?u=me"
  const NoLocation := "Unknown Location"

  /** The post built at clock time `now`: id and image number taken from the
      clock, the caption exactly as typed, no likes yet. The source reads the
      clock twice, once for the id and once for the image; both readings are
      taken to be `now`. */
  function NewPost(caption: string, location: string, now: nat): (p: Post)
    ensures p.username == OwnName && p.userAvatar == OwnAvatar
    ensures p.likes == 0 && p.timeAgo == "Just now" && p.caption == caption
    ensures p.location == (if location == "" then NoLocation else location)
    ensures p.location != ""
    ensures |p.id| >= 1 && Text.AllDigits(p.id) && Text.ParseDecimal(p.id) == now
    ensures p.image == "https://picsum.photos/800/800?random=" + p.id
  {
    Text.DecimalRoundTrip(now);
    var stamp := Text.DecimalString(now);
    Post(stamp, OwnName, OwnAvatar, "https://picsum.photos/800/800?random=" + stamp,
         if location == "" then NoLocation else location, caption, 0, "Just now")
  }

  /** Posts made at different moments have different ids. */
  lemma NewPostIdsDiffer(c1: string, l1: string, t1: nat, c2: string, l2: string, t2: nat)
    requires t1 != t2
    ensures NewPost(c1, l1, t1).id != NewPost(c2, l2, t2).id
  {
    Text.DecimalRoundTrip(t1);
    Text.DecimalRoundTrip(t2);
  }

  /** What a press of Share does. */
  datatype Outcome =
    | Ignored                              // blank caption: nothing happens
    | Stuck                                // the stored list does not parse: the save throws
    | Posted(post: Post, local: Store)     // saved, and the feed opens

  /** The posts a reader of the feed would find stored, none when absent or
      unreadable. */
  function StoredPosts(local: Store): seq<Post> {
    if PostsKey in local && local[PostsKey].PostsValue? then local[PostsKey].posts else []
  }

  /** The save: `post` in front of the stored list, a missing list counting as
      empty; a stored value that is not a list makes `JSON.parse` throw and
      nothing is written. */
  function SavedPosts(local: Store, post: Post): (r: Option<Store>)
    ensures r.None? <==> PostsKey in local && !local[PostsKey].PostsValue?
    ensures r.Some? ==> r.value == local[PostsKey := PostsValue([post] + StoredPosts(local))]
  {
    match Lookup(local, PostsKey)
    case None =>
      assert [post] + StoredPosts(local) == [post];
      Some(local[PostsKey := PostsValue([post])])
    case Some(PostsValue(ps)) => Some(local[PostsKey := PostsValue([post] + ps)])
    case Some(_) => None
  }

  /** `handleSubmit`. A caption that trims to nothing does nothing; otherwise
      the new post is saved and the feed opens. */
  function Submit(local: Store, caption: string, location: string, now: nat): (o: Outcome)
    ensures o == Ignored <==> Text.Blank(caption)
    ensures o == Stuck <==> !Text.Blank(caption) && PostsKey in local && !local[PostsKey].PostsValue?
    ensures o.Posted? ==>
              && o.post == NewPost(caption, location, now)
              && o.local == local[PostsKey := PostsValue([o.post] + StoredPosts(local))]
  {
    Text.TrimEmptyIffBlank(caption);
    if Text.Trim(caption) == [] then Ignored
    else
      var post := NewPost(caption, location, now);
      var saved := SavedPosts(local, post);
      if saved.None? then Stuck else Posted(post, saved.value)
  }

  /** Posting keeps every earlier post, in order, behind the new one. */
  lemma PostKeepsEarlier(local: Store, caption: string, location: string, now: nat)
    requires !Text.Blank(caption)
    requires PostsKey !in local || local[PostsKey].PostsValue?
    ensures Submit(local, caption, location, now).Posted?
    ensures var ps := StoredPosts(Submit(local, caption, location, now).local);
            && |ps| == |StoredPosts(local)| + 1
            && ps[0] == NewPost(caption, location, now)
            && ps[1..] == StoredPosts(local)
            && ps == [NewPost(caption, location, now)] + StoredPosts(local)
  {
  }

  /** Two posts in a row: the later one is shown first, the earlier one second. */
  lemma TwoPostsNewestFirst(local: Store, c1: string, l1: string, t1: nat, c2: string, l2: string, t2: nat)
    requires !Text.Blank(c1) && !Text.Blank(c2)
    requires PostsKey !in local || local[PostsKey].PostsValue?
    ensures Submit(local, c1, l1, t1).Posted?
    ensures Submit(Submit(local, c1, l1, t1).local, c2, l2, t2).Posted?
    ensures StoredPosts(Submit(Submit(local, c1, l1, t1).local, c2, l2, t2).local)
            == [NewPost(c2, l2, t2), NewPost(c1, l1, t1)] + StoredPosts(local)
  {
    var o1 := Submit(local, c1, l1, t1);
    PostKeepsEarlier(local, c1, l1, t1);
    PostKeepsEarlier(o1.local, c2, l2, t2);
    Prepend2(NewPost(c2, l2, t2), NewPost(c1, l1, t1), StoredPosts(local));
  }

  lemma Prepend2(a: Post, b: Post, s: seq<Post>)
    ensures [a] + ([b] + s) == [a, b] + s
  {
  }
}
