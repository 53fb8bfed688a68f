/** The post model shared by the feed and the profile page, with the like toggle
    both pages apply to their lists. */
module Posts {
  import opened Wrappers

  datatype Author = Author(id: int, name: string, roleLabel: string)

  datatype Comment = Comment(id: int, content: string, author: Author, createdAt: string)

  datatype Reactions = Reactions(like: int, love: int, laugh: int, angry: int)

  const NoReactions := Reactions(0, 0, 0, 0)

  /** A post; `None` stands for a field the object lacks. */
  datatype Post = Post(
    id: int, content: string, location: string, author: Author,
    likesCount: int, commentsCount: Option<int>, sharesCount: int,
    createdAt: string, isLiked: bool,
    comments: Option<seq<Comment>>, reactions: Option<Reactions>,
    userReaction: Option<string>, images: seq<string>)

  /** A post liked or unliked: the flag flips and the count follows it. */
  function ToggleLikeOf(p: Post): (q: Post)
    ensures q.isLiked == !p.isLiked
    ensures q.likesCount == if p.isLiked then p.likesCount - 1 else p.likesCount + 1
    ensures q.(isLiked := p.isLiked, likesCount := p.likesCount) == p
  {
    p.(isLiked := !p.isLiked, likesCount := if p.isLiked then p.likesCount - 1 else p.likesCount + 1)
  }

  /** `toggleLike(postId)`'s `map` over the list. */
  function ToggleLikeIn(posts: seq<Post>, postId: int): (r: seq<Post>)
    ensures |r| == |posts|
    ensures forall i :: 0 <= i < |posts| ==> r[i] == if posts[i].id == postId then ToggleLikeOf(posts[i]) else posts[i]
  {
    if posts == [] then []
    else [if posts[0].id == postId then ToggleLikeOf(posts[0]) else posts[0]] + ToggleLikeIn(posts[1..], postId)
  }

  /** Liking twice restores every post. */
  lemma ToggleLikeTwice(posts: seq<Post>, postId: int)
    ensures ToggleLikeIn(ToggleLikeIn(posts, postId), postId) == posts
  {
    var once := ToggleLikeIn(posts, postId);
    var twice := ToggleLikeIn(once, postId);
    forall i | 0 <= i < |posts|
      ensures twice[i] == posts[i]
    {
      if posts[i].id == postId {
        assert once[i] == ToggleLikeOf(posts[i]);
      }
    }
  }

  /** The `map` applying `update` to the post(s) with `postId`. */
  function UpdatePost(posts: seq<Post>, postId: int, update: Post -> Post): (r: seq<Post>)
    ensures |r| == |posts|
    ensures forall i :: 0 <= i < |posts| ==> r[i] == if posts[i].id == postId then update(posts[i]) else posts[i]
  {
    if posts == [] then []
    else [if posts[0].id == postId then update(posts[0]) else posts[0]] + UpdatePost(posts[1..], postId, update)
  }
}
