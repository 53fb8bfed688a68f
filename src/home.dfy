/** The feed page: posting, liking, commenting, the normalisation of posts read
    from the backend and the notification badge. Backend calls only log their
    failures and are left out; clock readings and the chosen file's object URL
    are parameters. */
module Home {
  import opened Wrappers
  import opened Text
  import opened Posts
  import Lists

  datatype FeedNotification = FeedNotification(id: int, kind: string, message: string, time: string, read: bool)

  /** `unreadCount`: the notifications not read. */
  function UnreadCount(l: seq<FeedNotification>): (n: nat)
    ensures n <= |l|
  {
    Lists.Count(l, (x: FeedNotification) => !x.read)
  }

  /** Marking every notification read empties the badge; the badge counts exactly
      the notifications a `filter(n => !n.read)` keeps. */
  lemma UnreadCountMeaning(l: seq<FeedNotification>)
    ensures UnreadCount(l) == |Lists.Filter(l, (x: FeedNotification) => !x.read)|
    ensures (forall x :: x in l ==> x.read) ==> UnreadCount(l) == 0
  {
    Lists.CountIsFilterLength(l, (x: FeedNotification) => !x.read);
    var unread := Lists.Filter(l, (x: FeedNotification) => !x.read);
    if |unread| > 0 {
      assert unread[0] in unread;
    }
  }

  /** A post as read from the backend: missing comments become `[]`, missing
      reactions all zero, and a missing or empty reaction `null`. */
  function NormalizePost(p: Post): (q: Post)
    ensures q.comments == Some(p.comments.GetOr([]))
    ensures q.reactions == Some(p.reactions.GetOr(NoReactions))
    ensures q.userReaction == if p.userReaction == Some("") then None else p.userReaction
    ensures q.(comments := p.comments, reactions := p.reactions, userReaction := p.userReaction) == p
  {
    p.(comments := Some(p.comments.GetOr([])),
       reactions := Some(p.reactions.GetOr(NoReactions)),
       userReaction := if p.userReaction.Some? && p.userReaction.value != "" then p.userReaction else None)
  }

  /** Normalising twice is normalising once. */
  lemma NormalizePostIdempotent(p: Post)
    ensures NormalizePost(NormalizePost(p)) == NormalizePost(p)
  {
  }

  function NormalizePosts(l: seq<Post>): (r: seq<Post>)
    ensures |r| == |l|
  {
    Lists.Map(l, NormalizePost)
  }

  /** The post `createPost` puts first: no likes, comments or shares yet. */
  function LocalPost(id: int, content: string, location: string, author: Author, createdAt: string, image: Option<string>): Post {
    Post(id, content, location, author, 0, Some(0), 0, createdAt, false, Some([]), Some(NoReactions), None,
      if image.Some? then [image.value] else [])
  }

  /** The comment count shown agrees with the comments held. */
  predicate CommentsConsistent(p: Post) {
    p.commentsCount.GetOr(0) == |p.comments.GetOr([])|
  }

  /** The feed's comment update: append, and count one more (a missing count as 0). */
  function AddFeedComment(p: Post, c: Comment): (q: Post)
    ensures q.comments == Some(p.comments.GetOr([]) + [c])
    ensures q.commentsCount == Some(p.commentsCount.GetOr(0) + 1)
    ensures q.(comments := p.comments, commentsCount := p.commentsCount) == p
  {
    p.(comments := Some(p.comments.GetOr([]) + [c]), commentsCount := Some(p.commentsCount.GetOr(0) + 1))
  }

  /** New posts are consistent, and adding a comment keeps a post consistent. */
  lemma CommentCountsStayConsistent(p: Post, c: Comment, id: int, content: string, location: string,
                                    author: Author, createdAt: string, image: Option<string>)
    ensures CommentsConsistent(LocalPost(id, content, location, author, createdAt, image))
    ensures CommentsConsistent(p) ==> CommentsConsistent(AddFeedComment(p, c))
  {
  }

  /** The draft typed under a post; no entry reads as nothing typed. */
  function Draft(drafts: map<int, string>, postId: int): string {
    if postId in drafts then drafts[postId] else ""
  }

  class Feed {
    var posts: seq<Post>
    var newPost: string
    var location: string
    var selectedFile: Option<string>
    var newComment: map<int, string>
    var notifications: seq<FeedNotification>

    constructor (initialPosts: seq<Post>, initialNotifications: seq<FeedNotification>)
      ensures posts == initialPosts && notifications == initialNotifications
      ensures newPost == "" && location == "" && selectedFile == None && newComment == map[]
    {
      posts := initialPosts;
      notifications := initialNotifications;
      newPost := "";
      location := "";
      selectedFile := None;
      newComment := map[];
    }

    /** Posts loaded from the backend replace the list, normalised. */
    method LoadPosts(loaded: seq<Post>)
      modifies this
      ensures posts == NormalizePosts(loaded)
      ensures newPost == old(newPost) && location == old(location) && selectedFile == old(selectedFile)
      ensures newComment == old(newComment) && notifications == old(notifications)
    {
      posts := NormalizePosts(loaded);
    }

    /** `createPost`: nothing happens for blank text without a file; otherwise the
        new post goes first and the text, location and file are cleared. */
    method CreatePost(author: Author, now: int, createdAt: string) returns (created: Option<Post>)
      modifies this
      ensures newComment == old(newComment) && notifications == old(notifications)
      ensures IsBlank(old(newPost)) && old(selectedFile).None? ==>
        created == None && posts == old(posts) && newPost == old(newPost)
        && location == old(location) && selectedFile == old(selectedFile)
      ensures !(IsBlank(old(newPost)) && old(selectedFile).None?) ==>
        created == Some(LocalPost(now, old(newPost), old(location), author, createdAt, old(selectedFile)))
        && posts == [created.value] + old(posts)
        && newPost == "" && location == "" && selectedFile == None
    {
      if IsBlank(newPost) && selectedFile.None? {
        return None;
      }
      var p := LocalPost(now, newPost, location, author, createdAt, selectedFile);
      posts := [p] + posts;
      newPost := "";
      location := "";
      selectedFile := None;
      created := Some(p);
    }

    /** `toggleLike(postId)`. */
    method ToggleLike(postId: int)
      modifies this
      ensures posts == ToggleLikeIn(old(posts), postId)
      ensures newPost == old(newPost) && location == old(location) && selectedFile == old(selectedFile)
      ensures newComment == old(newComment) && notifications == old(notifications)
    {
      posts := ToggleLikeIn(posts, postId);
    }

    /** `addComment(postId)`: a blank or missing draft does nothing; otherwise the
        comment is added to the post and that post's draft is cleared. */
    method AddComment(postId: int, commentId: int, author: Author, createdAt: string) returns (added: Option<Comment>)
      modifies this
      ensures newPost == old(newPost) && location == old(location) && selectedFile == old(selectedFile)
      ensures notifications == old(notifications)
      ensures IsBlank(Draft(old(newComment), postId)) ==>
        added == None && posts == old(posts) && newComment == old(newComment)
      ensures !IsBlank(Draft(old(newComment), postId)) ==>
        added == Some(Comment(commentId, old(newComment)[postId], author, createdAt))
        && posts == UpdatePost(old(posts), postId, (p: Post) => AddFeedComment(p, added.value))
        && newComment == old(newComment)[postId := ""]
    {
      var draft := Draft(newComment, postId);
      if IsBlank(draft) {
        return None;
      }
      var c := Comment(commentId, draft, author, createdAt);
      posts := UpdatePost(posts, postId, (p: Post) => AddFeedComment(p, c));
      newComment := newComment[postId := ""];
      added := Some(c);
    }
  }

  /** A freshly created post liked twice is back to its created state, and one
      like leaves it liked with one like. */
  lemma LikeNewPost(p: Post, rest: seq<Post>)
    requires p.likesCount == 0 && !p.isLiked
    requires forall q :: q in rest ==> q.id != p.id
    ensures ToggleLikeIn([p] + rest, p.id)[0].isLiked
    ensures ToggleLikeIn([p] + rest, p.id)[0].likesCount == 1
    ensures ToggleLikeIn([p] + rest, p.id)[1..] == rest
  {
    var r := ToggleLikeIn([p] + rest, p.id);
    forall i | 0 <= i < |rest|
      ensures r[1..][i] == rest[i]
    {
      assert ([p] + rest)[i + 1] == rest[i];
      assert rest[i] in rest;
    }
  }
}
