/**
 * The shared data model of the client (src/types/index.ts): the records the
 * server sends and the request bodies the client builds. Optional and
 * nullable TypeScript fields are `Option`s; `undefined` and `null` are both
 * `None`, since no code in the modelled core tells them apart.
 */
module Types {

  datatype Option<+T> = None | Some(value: T) {
    function GetOr(default: T): T {
      match this
      case Some(v) => v
      case None => default
    }
  }

  datatype Result<+R, +E> = Ok(value: R) | Err(error: E)

  datatype User = User(
    id: string,
    username: string,
    email: string,
    firstName: Option<string>,
    lastName: Option<string>,
    followerCount: int,
    followingCount: int,
    createdAt: string,
    updatedAt: string,
    avatar: Option<string>,
    postCount: Option<int>)

  /** `userVote` is `null`/absent for no vote, 1 for an upvote, -1 for a downvote;
      the type admits any number, so the model keeps an arbitrary `int`. */
  datatype Post = Post(
    id: string,
    content: string,
    score: int,
    commentCount: int,
    createdAt: string,
    timeAgo: string,
    user: User,
    userVote: Option<int>)

  datatype FeedResponse = FeedResponse(
    posts: Option<seq<Post>>,
    totalCount: int,
    page: int,
    pageSize: int,
    hasMore: bool)

  /** A comment carries its replies, pre-nested by the server. */
  datatype Comment = Comment(
    id: string,
    content: string,
    createdAt: string,
    timeAgo: string,
    user: User,
    postId: string,
    parentCommentId: Option<string>,
    replies: Replies)

  /** The optional `replies` array of a comment. It is spelled out rather
      than written `Option<seq<Comment>>` so that a reply is seen to be
      smaller than the comment holding it. */
  datatype Replies = NoReplies | Replies(list: seq<Comment>)

  datatype AuthState = AuthState(
    user: Option<User>,
    token: Option<string>,
    isAuthenticated: bool,
    isLoading: bool,
    error: Option<string>)

  datatype LoginRequest = LoginRequest(email: string, password: string)

  datatype RegisterRequest = RegisterRequest(
    username: string,
    email: string,
    password: string,
    firstName: string,
    lastName: string)

  datatype OAuthLoginRequest = OAuthLoginRequest(provider: string, accessToken: string)

  datatype CreatePostRequest = CreatePostRequest(content: string)

  datatype CreateCommentRequest = CreateCommentRequest(
    content: string,
    postId: string,
    parentCommentId: Option<string>)

  datatype VoteRequest = VoteRequest(postId: string, voteType: int)

  datatype FollowRequest = FollowRequest(userId: string)

  /** The error object a failed `unwrap()` throws: an optional structured
      body (`error.data`) and an optional transport message (`error.message`). */
  datatype ErrorItem = ErrorItem(description: Option<string>)

  datatype ErrorData = ErrorData(
    message: Option<string>,
    error: Option<string>,
    errors: Option<seq<ErrorItem>>,
    title: Option<string>)

  datatype ApiError = ApiError(data: Option<ErrorData>, message: Option<string>)
}
