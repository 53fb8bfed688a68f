/** The profile page: editing the profile, following, liking, commenting,
    showing comments and the list of posts shown. Backend calls only log their
    failures and are left out. */
module Profile {
  import opened Wrappers
  import opened Text
  import opened Posts
  import Lists

  datatype SocialAccount = SocialAccount(bio: string, location: string, website: string, storeName: string, others: map<string, string>)

  /** The profile shown; `followersCount` is the text the backend sent. */
  datatype ProfileUser = ProfileUser(id: int, name: string, email: string, phoneNumber: string,
                                     socialAccount: SocialAccount, followersCount: string)

  datatype EditForm = EditForm(name: string, email: string, phoneNumber: string,
                               bio: string, location: string, website: string, storeName: string)

  /** `handleEditProfile`'s new user: the edited fields overwrite, everything else stays. */
  function ApplyEdit(u: ProfileUser, e: EditForm): (v: ProfileUser)
    ensures v.name == e.name && v.email == e.email && v.phoneNumber == e.phoneNumber
    ensures v.socialAccount.bio == e.bio && v.socialAccount.location == e.location
    ensures v.socialAccount.website == e.website && v.socialAccount.storeName == e.storeName
    ensures v.socialAccount.others == u.socialAccount.others
    ensures v.id == u.id && v.followersCount == u.followersCount
  {
    u.(name := e.name, email := e.email, phoneNumber := e.phoneNumber,
       socialAccount := u.socialAccount.(bio := e.bio, location := e.location, website := e.website, storeName := e.storeName))
  }

  /** Saving the same edit twice is saving it once. */
  lemma ApplyEditIdempotent(u: ProfileUser, e: EditForm)
    ensures ApplyEdit(ApplyEdit(u, e), e) == ApplyEdit(u, e)
  {
  }

  /** `(parseInt(count) + delta).toString()`; an unparsable count shows "NaN". */
  function StepFollowers(count: string, delta: int): (r: string)
    ensures ParseInt(count).Some? ==> ParseInt(r) == Some(ParseInt(count).value + delta)
    ensures ParseInt(count).None? ==> r == "NaN"
  {
    match ParseInt(count)
    case None => "NaN"
    case Some(n) =>
      ParseIntOfIntToString(n + delta);
      IntToString(n + delta)
  }

  /** Following then unfollowing restores a count written as a plain number. */
  lemma FollowTwiceRestores(n: int)
    ensures StepFollowers(StepFollowers(IntToString(n), 1), -1) == IntToString(n)
    ensures StepFollowers(StepFollowers(IntToString(n), -1), 1) == IntToString(n)
  {
    ParseIntOfIntToString(n);
    ParseIntOfIntToString(n + 1);
    ParseIntOfIntToString(n - 1);
  }

  /** The profile page's comment update: append; the count goes up by one, and a
      missing count stays unusable (`undefined + 1` is `NaN`). */
  function AddProfileComment(p: Post, c: Comment): (q: Post)
    ensures q.comments == Some(p.comments.GetOr([]) + [c])
    ensures p.commentsCount.Some? ==> q.commentsCount == Some(p.commentsCount.value + 1)
    ensures p.commentsCount.None? ==> q.commentsCount == None
    ensures q.(comments := p.comments, commentsCount := p.commentsCount) == p
  {
    p.(comments := Some(p.comments.GetOr([]) + [c]),
       commentsCount := if p.commentsCount.Some? then Some(p.commentsCount.value + 1) else None)
  }

  /** `safePosts`: posts with a (truthy) id, in order. */
  function SafePosts(posts: seq<Post>): (r: seq<Post>)
    ensures forall p :: p in r <==> p in posts && p.id != 0
    ensures Lists.Subsequence(r, posts)
  {
    Lists.FilterSubsequence(posts, (p: Post) => p.id != 0);
    Lists.Filter(posts, (p: Post) => p.id != 0)
  }

  function Shown(flags: map<int, bool>, postId: int): bool {
    postId in flags && flags[postId]
  }

  class ProfilePage {
    var user: ProfileUser
    var isFollowing: bool
    var posts: seq<Post>
    var newComment: map<int, string>
    var showComments: map<int, bool>
    var showEditModal: bool

    constructor (u: ProfileUser, following: bool, initialPosts: seq<Post>)
      ensures user == u && isFollowing == following && posts == initialPosts
      ensures newComment == map[] && showComments == map[] && !showEditModal
    {
      user := u;
      isFollowing := following;
      posts := initialPosts;
      newComment := map[];
      showComments := map[];
      showEditModal := false;
    }

    /** `handleEditProfile()`: the edit is applied and the modal closed. */
    method HandleEditProfile(e: EditForm)
      modifies this
      ensures user == ApplyEdit(old(user), e) && !showEditModal
      ensures isFollowing == old(isFollowing) && posts == old(posts)
      ensures newComment == old(newComment) && showComments == old(showComments)
    {
      user := ApplyEdit(user, e);
      showEditModal := false;
    }

    /** `toggleFollow()`: the flag flips and the followers count moves one step in the new direction. */
    method ToggleFollow()
      modifies this
      ensures isFollowing == !old(isFollowing)
      ensures user == old(user).(followersCount := StepFollowers(old(user).followersCount, if isFollowing then 1 else -1))
      ensures posts == old(posts) && newComment == old(newComment)
      ensures showComments == old(showComments) && showEditModal == old(showEditModal)
    {
      var next := StepFollowers(user.followersCount, if isFollowing then -1 else 1);
      isFollowing := !isFollowing;
      user := user.(followersCount := next);
    }

    /** `toggleLike(postId)`. */
    method ToggleLike(postId: int)
      modifies this
      ensures posts == ToggleLikeIn(old(posts), postId)
      ensures user == old(user) && isFollowing == old(isFollowing) && newComment == old(newComment)
      ensures showComments == old(showComments) && showEditModal == old(showEditModal)
    {
      posts := ToggleLikeIn(posts, postId);
    }

    /** `addComment(postId)`: a blank or missing draft does nothing; otherwise the
        comment is added and that draft cleared. */
    method AddComment(postId: int, commentId: int, author: Author, createdAt: string) returns (added: Option<Comment>)
      modifies this
      ensures user == old(user) && isFollowing == old(isFollowing)
      ensures showComments == old(showComments) && showEditModal == old(showEditModal)
      ensures (postId !in old(newComment) || IsBlank(old(newComment)[postId])) ==>
        added == None && posts == old(posts) && newComment == old(newComment)
      ensures postId in old(newComment) && !IsBlank(old(newComment)[postId]) ==>
        added == Some(Comment(commentId, old(newComment)[postId], author, createdAt))
        && posts == UpdatePost(old(posts), postId, (p: Post) => AddProfileComment(p, added.value))
        && newComment == old(newComment)[postId := ""]
    {
      if postId !in newComment || IsBlank(newComment[postId]) {
        return None;
      }
      var c := Comment(commentId, newComment[postId], author, createdAt);
      posts := UpdatePost(posts, postId, (p: Post) => AddProfileComment(p, c));
      newComment := newComment[postId := ""];
      added := Some(c);
    }

    /** `toggleComments(postId)`: only that post's flag flips. */
    method ToggleComments(postId: int)
      modifies this
      ensures Shown(showComments, postId) == !Shown(old(showComments), postId)
      ensures forall id :: id != postId ==> Shown(showComments, id) == Shown(old(showComments), id)
      ensures user == old(user) && isFollowing == old(isFollowing) && posts == old(posts)
      ensures newComment == old(newComment) && showEditModal == old(showEditModal)
    {
      showComments := showComments[postId := !Shown(showComments, postId)];
    }
  }
}
