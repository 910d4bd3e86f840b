/** The board serializers: the merge a post update performs, the choice
    validators, the authentication gates on creating posts and saving
    comments, the like summary of a post, and the per-item views the open
    profile lists (post list items, commented posts, liked posts with their
    counts). */
module BoardsSerializers {
  import opened Wrappers
  import opened Tables
  import opened AccountsSerializers

  /** The writable columns of a `Post` row; its key and `author` are the row's. */
  datatype PostData = PostData(
    title: string, contents: string, thumbnailImage: Option<string>,
    postClassification: string, category: string)

  type Post = Row<PostData>

  /** A `Comment` row's columns besides key and `author`: the post it is on and its text. */
  datatype CommentData = CommentData(post: nat, contents: string)

  type Comment = Row<CommentData>

  /** A `Like` row's columns besides key and `author`: the liked post. */
  datatype LikeData = LikeData(post: nat)

  type Like = Row<LikeData>

  /** The errors these serializers raise: `serializers.ValidationError(message)`,
      and the `Post.DoesNotExist` that `Post.objects.get` lets through. */
  datatype BoardError = ValidationError(message: string) | PostDoesNotExist

  // ------------------------------------------------------------- counting

  /** `Comment.objects.filter(post=...)` and `post.posted_comments`. */
  function CommentsOn(comments: seq<Comment>, postId: nat): (r: seq<Comment>)
    ensures forall c :: c in r <==> c in comments && c.data.post == postId
  {
    Filter(comments, (c: Comment) => c.data.post == postId)
  }

  /** `post.likes`: the likes of one post, by anyone. */
  function LikesOn(likes: seq<Like>, postId: nat): (r: seq<Like>)
    ensures forall l :: l in r <==> l in likes && l.data.post == postId
  {
    Filter(likes, (l: Like) => l.data.post == postId)
  }

  /** Saving a comment adds one to the comment count of its own post and
      leaves the count of every other post as it was. */
  lemma CommentCountAfterCreate(comments: seq<Comment>, c: Comment, postId: nat)
    ensures |CommentsOn(comments + [c], postId)|
            == |CommentsOn(comments, postId)| + (if c.data.post == postId then 1 else 0)
  {
    FilterAppend(comments, [c], (x: Comment) => x.data.post == postId);
    assert [c][1..] == [];
  }

  // ------------------------------------------------------------- get_likes

  /** `PostDetailSerializer.get_likes` output. */
  datatype LikeSummary = LikeSummary(count: nat, isLiked: bool)

  /** The like summary of `post` for `viewer`: the count of all its likes, and
      whether the viewer (never an anonymous one) is among the likers. */
  function GetLikes(post: Post, viewer: Viewer, likes: seq<Like>): (s: LikeSummary)
    ensures s.count == |LikesOn(likes, post.id)|
    ensures s.isLiked <==>
              viewer.Authenticated? && exists l :: l in likes && l.data.post == post.id && l.owner == viewer.id
    ensures s.isLiked ==> s.count >= 1
  {
    if viewer.Authenticated? then
      var own := Filter(likes, (l: Like) => l.data.post == post.id && l.owner == viewer.id);
      assert own != [] ==> own[0] in own;
      LikeSummary(|LikesOn(likes, post.id)|, own != [])
    else
      LikeSummary(|LikesOn(likes, post.id)|, false)
  }

  // ----------------------------------------------------------- post update

  /** `validated_data` of `PostUpdateSerializer`: each of the five fields may be
      missing; a given `thumbnail_image` may be null. */
  datatype PostPatch = PostPatch(
    title: Option<string>, contents: Option<string>, thumbnailImage: Option<Option<string>>,
    postClassification: Option<string>, category: Option<string>)

  function GetOr<T>(o: Option<T>, default: T): T
  {
    match o case Some(v) => v case None => default
  }

  /** `validated_data.get(field, instance.field)` for each of the five fields. */
  function MergePost(d: PostData, patch: PostPatch): (d': PostData)
    ensures patch.title.Some? ==> d'.title == patch.title.value
    ensures patch.title.None? ==> d'.title == d.title
    ensures patch.contents.Some? ==> d'.contents == patch.contents.value
    ensures patch.contents.None? ==> d'.contents == d.contents
    ensures patch.thumbnailImage.Some? ==> d'.thumbnailImage == patch.thumbnailImage.value
    ensures patch.thumbnailImage.None? ==> d'.thumbnailImage == d.thumbnailImage
    ensures patch.postClassification.Some? ==> d'.postClassification == patch.postClassification.value
    ensures patch.postClassification.None? ==> d'.postClassification == d.postClassification
    ensures patch.category.Some? ==> d'.category == patch.category.value
    ensures patch.category.None? ==> d'.category == d.category
  {
    PostData(GetOr(patch.title, d.title), GetOr(patch.contents, d.contents),
             GetOr(patch.thumbnailImage, d.thumbnailImage),
             GetOr(patch.postClassification, d.postClassification),
             GetOr(patch.category, d.category))
  }

  /** Applying the same update body twice gives the same post as applying it once,
      and an empty body changes nothing. */
  lemma MergePostIdempotent(d: PostData, patch: PostPatch)
    ensures MergePost(MergePost(d, patch), patch) == MergePost(d, patch)
    ensures MergePost(d, PostPatch(None, None, None, None, None)) == d
  {
  }

  /** A loaded `Post` model instance: key and author fixed, five mutable columns. */
  class PostInstance {
    const id: nat
    const author: UserId
    var title: string
    var contents: string
    var thumbnailImage: Option<string>
    var postClassification: string
    var category: string

    /** The row this instance holds. */
    function AsRow(): Post
      reads this
    {
      Row(id, author, PostData(title, contents, thumbnailImage, postClassification, category))
    }

    constructor (row: Post)
      ensures AsRow() == row
    {
      id, author := row.id, row.owner;
      title, contents := row.data.title, row.data.contents;
      thumbnailImage := row.data.thumbnailImage;
      postClassification, category := row.data.postClassification, row.data.category;
    }
  }

  /** `PostUpdateSerializer.update`: assigns the five fields one by one, then saves.
      Key and author are untouched; the columns become `MergePost` of the old ones. */
  method UpdatePost(instance: PostInstance, validated: PostPatch) returns (updated: PostInstance)
    modifies instance
    ensures updated == instance
    ensures instance.AsRow() == old(instance.AsRow()).(data := MergePost(old(instance.AsRow()).data, validated))
  {
    instance.title := GetOr(validated.title, instance.title);
    instance.contents := GetOr(validated.contents, instance.contents);
    instance.thumbnailImage := GetOr(validated.thumbnailImage, instance.thumbnailImage);
    instance.postClassification := GetOr(validated.postClassification, instance.postClassification);
    instance.category := GetOr(validated.category, instance.category);
    updated := instance;
  }

  // ------------------------------------------------------------ validators

  /** `[choice[0] for choice in CHOICES]`. */
  function ChoiceKeys(choices: seq<(string, string)>): (keys: seq<string>)
    ensures |keys| == |choices|
    ensures forall i :: 0 <= i < |choices| ==> keys[i] == choices[i].0
  {
    seq(|choices|, i requires 0 <= i < |choices| => choices[i].0)
  }

  /** Whether `value` is the key of one of the choices. */
  lemma InChoiceKeys(value: string, choices: seq<(string, string)>)
    ensures value in ChoiceKeys(choices) <==> exists i :: 0 <= i < |choices| && choices[i].0 == value
  {
    var keys := ChoiceKeys(choices);
    if value in keys {
      var i :| 0 <= i < |keys| && keys[i] == value;
      assert choices[i].0 == value;
    }
  }

  /** `validate_post_classification` against `CLASSIFICATION_CHOICES`: accepts
      exactly the choice keys and returns an accepted value unchanged. */
  function ValidatePostClassification(value: string, choices: seq<(string, string)>)
    : (r: Result<string, BoardError>)
    ensures r.Ok? <==> exists i :: 0 <= i < |choices| && choices[i].0 == value
    ensures r.Ok? ==> r.value == value
    ensures r.Err? ==> r.error == ValidationError("Invalid post classification.")
  {
    InChoiceKeys(value, choices);
    if value !in ChoiceKeys(choices) then Err(ValidationError("Invalid post classification."))
    else Ok(value)
  }

  /** `validate_category` against `CATEGORY_CHOICES`: accepts exactly the choice
      keys and returns an accepted value unchanged. */
  function ValidateCategory(value: string, choices: seq<(string, string)>)
    : (r: Result<string, BoardError>)
    ensures r.Ok? <==> exists i :: 0 <= i < |choices| && choices[i].0 == value
    ensures r.Ok? ==> r.value == value
    ensures r.Err? ==> r.error == ValidationError("Invalid category.")
  {
    InChoiceKeys(value, choices);
    if value !in ChoiceKeys(choices) then Err(ValidationError("Invalid category."))
    else Ok(value)
  }

  // ------------------------------------------------- create post, save comment

  const PostLoginMessage := "User must be authenticated to create a post."
  const CommentLoginMessage := "로그인이 필요합니다."

  /** The `Post` and `Comment` tables the board serializers write. */
  class Board {
    var posts: seq<Post>
    var comments: seq<Comment>
    var nextPostId: nat
    var nextCommentId: nat

    ghost predicate Valid()
      reads this
    {
      DistinctIds(posts) && IdsBelow(posts, nextPostId) &&
      DistinctIds(comments) && IdsBelow(comments, nextCommentId)
    }

    constructor ()
      ensures Valid() && posts == [] && comments == []
    {
      posts, comments := [], [];
      nextPostId, nextCommentId := 0, 0;
    }

    /** `PostCreateSerializer.create`: an anonymous request raises and creates
        nothing; otherwise one post is added, authored by the requester. */
    method CreatePost(viewer: Viewer, validated: PostData) returns (r: Result<nat, BoardError>)
      requires Valid()
      modifies this`posts, this`nextPostId
      ensures Valid()
      ensures viewer.Anonymous? ==>
                r == Err(ValidationError(PostLoginMessage)) &&
                posts == old(posts) && nextPostId == old(nextPostId)
      ensures viewer.Authenticated? ==>
                r == Ok(old(nextPostId)) && nextPostId == old(nextPostId) + 1 &&
                posts == old(posts) + [Row(old(nextPostId), viewer.id, validated)]
    {
      if viewer.Authenticated? {
        AppendFresh(posts, nextPostId, Row(nextPostId, viewer.id, validated));
        posts := posts + [Row(nextPostId, viewer.id, validated)];
        r := Ok(nextPostId);
        nextPostId := nextPostId + 1;
      } else {
        r := Err(ValidationError(PostLoginMessage));
      }
    }

    /** `CommentSerializer.save` (the second definition). An anonymous request
        raises; a `post_id` with no post lets `Post.DoesNotExist` through; both
        change nothing. Otherwise the comment is saved with the requester as
        author and the URL's post as post: a new row when `instance` is None,
        else the row at `instance`, whose author and post are overwritten. */
    method SaveComment(viewer: Viewer, postId: nat, contents: Option<string>, instance: Option<nat>)
      returns (r: Result<nat, BoardError>)
      requires Valid()
      requires instance.Some? ==> instance.value < |comments|
      requires instance.None? ==> contents.Some?
      modifies this`comments, this`nextCommentId
      ensures Valid()
      ensures (viewer.Anonymous? || FindById(posts, postId).None?) ==>
                comments == old(comments) && nextCommentId == old(nextCommentId)
      ensures viewer.Anonymous? ==> r == Err(ValidationError(CommentLoginMessage))
      ensures viewer.Authenticated? && FindById(posts, postId).None? ==> r == Err(PostDoesNotExist)
      ensures viewer.Authenticated? && FindById(posts, postId).Some? && instance.None? ==>
                r == Ok(old(nextCommentId)) && nextCommentId == old(nextCommentId) + 1 &&
                comments == old(comments) + [Row(old(nextCommentId), viewer.id, CommentData(postId, contents.value))]
      ensures viewer.Authenticated? && FindById(posts, postId).Some? && instance.Some? ==>
                var before := old(comments)[instance.value];
                r == Ok(before.id) && nextCommentId == old(nextCommentId) &&
                comments == old(comments)[instance.value :=
                  Row(before.id, viewer.id, CommentData(postId, GetOr(contents, before.data.contents)))]
    {
      if viewer.Anonymous? {
        return Err(ValidationError(CommentLoginMessage));
      }
      if FindById(posts, postId).None? {
        return Err(PostDoesNotExist);
      }
      match instance {
        case None =>
          var row := Row(nextCommentId, viewer.id, CommentData(postId, contents.value));
          AppendFresh(comments, nextCommentId, row);
          comments := comments + [row];
          r := Ok(nextCommentId);
          nextCommentId := nextCommentId + 1;
        case Some(i) =>
          var before := comments[i];
          comments := comments[i := Row(before.id, viewer.id, CommentData(postId, GetOr(contents, before.data.contents)))];
          r := Ok(before.id);
      }
    }
  }

  // ------------------------------------------------------- per-item views

  /** Every post's author, every comment's post and every like's post exist:
      the foreign keys the views follow. */
  ghost predicate ForeignKeysHold(users: map<UserId, User>, posts: seq<Post>,
                                  comments: seq<Comment>, likes: seq<Like>)
  {
    (forall p :: p in posts ==> p.owner in users) &&
    (forall c :: c in comments ==> FindById(posts, c.data.post).Some?) &&
    (forall l :: l in likes ==> FindById(posts, l.data.post).Some?)
  }

  /** The post a foreign key names. */
  function PostAt(posts: seq<Post>, postId: nat): (p: Post)
    requires FindById(posts, postId).Some?
    ensures p in posts && p.id == postId
  {
    posts[FindById(posts, postId).value]
  }

  /** `PostListSerializer` output (images as stored paths; timestamps and view
      count are not part of this model). */
  datatype PostListView = PostListView(
    id: nat, authorId: UserId, authorNickname: string, title: string,
    thumbnailImage: Option<string>, postClassification: string, category: string,
    commentCount: nat)

  function ViewPostListItem(p: Post, users: map<UserId, User>, comments: seq<Comment>): (v: PostListView)
    requires p.owner in users
    ensures v.id == p.id && v.authorId == p.owner && v.title == p.data.title
    ensures v.commentCount == |CommentsOn(comments, p.id)|
  {
    PostListView(p.id, p.owner, users[p.owner].nickname, p.data.title, p.data.thumbnailImage,
                 p.data.postClassification, p.data.category, |CommentsOn(comments, p.id)|)
  }

  /** `ProfileCommentSerializer` output: the commented post's id, title and
      author nickname, and the comment text. */
  datatype ProfileCommentView = ProfileCommentView(
    postId: nat, postTitle: string, postAuthor: string, comment: string)

  function ViewProfileComment(c: Comment, users: map<UserId, User>, posts: seq<Post>): (v: ProfileCommentView)
    requires FindById(posts, c.data.post).Some? && PostAt(posts, c.data.post).owner in users
    ensures v.postId == c.data.post && v.comment == c.data.contents
  {
    var p := PostAt(posts, c.data.post);
    ProfileCommentView(p.id, p.data.title, users[p.owner].nickname, c.data.contents)
  }

  /** `ProfileLikedPostSerializer` output for one `Like` row. */
  datatype LikedPostView = LikedPostView(
    postId: nat, title: string, author: string, commentCount: nat, likeCount: nat)

  /** The liked-post view of `l`: the counts are those of the liked post, so a
      like that is itself in the table is counted in its own `like_count`. */
  function ViewLikedPost(l: Like, users: map<UserId, User>, posts: seq<Post>,
                         comments: seq<Comment>, likes: seq<Like>): (v: LikedPostView)
    requires FindById(posts, l.data.post).Some? && PostAt(posts, l.data.post).owner in users
    ensures v.postId == l.data.post
    ensures v.commentCount == |CommentsOn(comments, l.data.post)|
    ensures v.likeCount == |LikesOn(likes, l.data.post)|
    ensures l in likes ==> v.likeCount >= 1
  {
    var p := PostAt(posts, l.data.post);
    assert l in likes ==> l in LikesOn(likes, l.data.post);
    LikedPostView(p.id, p.data.title, users[p.owner].nickname,
                  |CommentsOn(comments, p.id)|, |LikesOn(likes, p.id)|)
  }
}
