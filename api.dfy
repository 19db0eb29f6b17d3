/**
 * The API slice (src/services/api.ts): the base address, the bearer header,
 * the request each endpoint sends with its parameter defaults, and the
 * declared cache tags each mutation invalidates and each query provides.
 */
module Api {
  import opened Types
  import opened JsText

  const DefaultBaseUrl := "http://localhost:5159/api"

  /** `process.env.REACT_APP_API_BASE_URL || 'http://localhost:5159/api'`. */
  function BaseUrl(env: Option<string>): (url: string)
    ensures Truthy(env) ==> url == env.value
    ensures !Truthy(env) ==> url == DefaultBaseUrl
    ensures url != ""
  {
    if Truthy(env) then env.value else DefaultBaseUrl
  }

  const BearerPrefix := "Bearer "

  /** The value `prepareHeaders` gives the `authorization` header, if it sets
      one: only a non-empty token is sent. */
  function Authorization(token: Option<string>): (r: Option<string>)
    ensures r.Some? <==> Truthy(token)
    ensures r.Some? ==> |r.value| >= |BearerPrefix| && r.value[..|BearerPrefix|] == BearerPrefix && r.value[|BearerPrefix|..] == token.value
  {
    if Truthy(token) then Some(BearerPrefix + token.value) else None
  }

  /** The headers object `prepareHeaders` receives and returns. */
  class Headers {
    var entries: map<string, string>

    constructor (entries: map<string, string>)
      ensures this.entries == entries
    {
      this.entries := entries;
    }
  }

  /** `prepareHeaders`: the same object comes back; with a token its
      `authorization` entry is set, otherwise nothing changes. */
  method PrepareHeaders(headers: Headers, token: Option<string>) returns (result: Headers)
    modifies headers
    ensures result == headers
    ensures Authorization(token).Some? ==>
      headers.entries == old(headers.entries)["authorization" := Authorization(token).value]
    ensures Authorization(token).None? ==> headers.entries == old(headers.entries)
  {
    if Truthy(token) {
      headers.entries := headers.entries["authorization" := BearerPrefix + token.value];
    }
    return headers;
  }

  /** The five declared tag types. */
  datatype TagType = UserTag | PostTag | CommentTag | AuthTag | FollowTag

  /** A tag is a bare type such as `'Post'`, or a type with an id such as
      `{ type: 'Comment', id: postId }`. */
  datatype Tag = Type(t: TagType) | Id(t: TagType, id: string)

  datatype Mutation =
    | Login(credentials: LoginRequest)
    | Register(userData: RegisterRequest)
    | OAuthLogin(oauthData: OAuthLoginRequest)
    | CreatePost(postData: CreatePostRequest)
    | CreateComment(comment: CreateCommentRequest)
    | Vote(voteData: VoteRequest)
    | Follow(followData: FollowRequest)
    | Logout

  /** Query arguments. An absent page or page size is `undefined`. */
  datatype Query =
    | GetFeed(page: Option<int>, pageSize: Option<int>)
    | GetComments(postId: string)
    | GetUser(userId: string)
    | GetUserPosts(userId: string, page: Option<int>, pageSize: Option<int>)
    | GetFollowStatus(userId: string)

  /** What is sent as the JSON body of a request. */
  datatype Body =
    | NoBody
    | Credentials(credentials: LoginRequest)
    | UserData(userData: RegisterRequest)
    | OAuthData(oauthData: OAuthLoginRequest)
    | PostData(postData: CreatePostRequest)
    | CommentBody(content: string, postId: string, parentCommentId: Option<string>)
    | VoteData(voteData: VoteRequest)
    | FollowData(followData: FollowRequest)

  /** A request relative to the base address. */
  datatype Request = Request(httpMethod: string, path: string, params: seq<(string, int)>, body: Body)

  /** `value || fallback` on a number: an absent value and zero both give
      the fallback. NaN is not modelled. */
  function OrNumber(value: Option<int>, fallback: int): (r: int)
    ensures value.Some? && value.value != 0 ==> r == value.value
    ensures value.None? || value.value == 0 ==> r == fallback
  {
    if value.Some? && value.value != 0 then value.value else fallback
  }

  /** A destructuring default `value = fallback`: only an absent value
      gives the fallback. */
  function DefaultNumber(value: Option<int>, fallback: int): (r: int)
    ensures value.Some? ==> r == value.value
    ensures value.None? ==> r == fallback
  {
    if value.Some? then value.value else fallback
  }

  const DefaultPage := 1
  const DefaultPageSize := 20

  /** Every mutation is a POST of its argument to its path. */
  function MutationRequest(m: Mutation): (r: Request)
    ensures r.httpMethod == "POST" && r.params == []
    ensures m.CreateComment? ==>
      r.path == "/comment/" + m.comment.postId
      && r.body == CommentBody(m.comment.content, m.comment.postId, m.comment.parentCommentId)
    ensures r.body == NoBody <==> m.Logout?
  {
    match m
    case Login(c) => Request("POST", "/login", [], Credentials(c))
    case Register(u) => Request("POST", "/signup", [], UserData(u))
    case OAuthLogin(o) => Request("POST", "/oauth/login", [], OAuthData(o))
    case CreatePost(p) => Request("POST", "/post", [], PostData(p))
    case CreateComment(c) =>
      Request("POST", "/comment/" + c.postId, [], CommentBody(c.content, c.postId, c.parentCommentId))
    case Vote(v) => Request("POST", "/vote", [], VoteData(v))
    case Follow(f) => Request("POST", "/follow", [], FollowData(f))
    case Logout => Request("POST", "/logout", [], NoBody)
  }

  /** Every query is a GET without a body; the two paged ones send a page
      and a page size, defaulted differently. */
  function QueryRequest(q: Query): (r: Request)
    ensures r.httpMethod == "GET" && r.body == NoBody
    ensures q.GetFeed? ==> r.path == "/feed"
    ensures q.GetFeed? ==>
      r.params == [("page", OrNumber(q.page, DefaultPage)), ("pageSize", OrNumber(q.pageSize, DefaultPageSize))]
    ensures q.GetUserPosts? ==> r.path == "/posts/user/" + q.userId
    ensures q.GetUserPosts? ==>
      r.params == [("page", DefaultNumber(q.page, DefaultPage)), ("pageSize", DefaultNumber(q.pageSize, DefaultPageSize))]
    ensures !q.GetFeed? && !q.GetUserPosts? ==> r.params == []
  {
    match q
    case GetFeed(page, pageSize) =>
      Request("GET", "/feed", [("page", OrNumber(page, DefaultPage)), ("pageSize", OrNumber(pageSize, DefaultPageSize))], NoBody)
    case GetComments(postId) => Request("GET", "/comment/" + postId, [], NoBody)
    case GetUser(userId) => Request("GET", "/users/" + userId, [], NoBody)
    case GetUserPosts(userId, page, pageSize) =>
      Request("GET", "/posts/user/" + userId,
        [("page", DefaultNumber(page, DefaultPage)), ("pageSize", DefaultNumber(pageSize, DefaultPageSize))], NoBody)
    case GetFollowStatus(userId) => Request("GET", "/follow/status/" + userId, [], NoBody)
  }

  /** A page of 0 falls back to the default in the feed but is sent as it
      is for a user's posts. */
  lemma ZeroPageDiffers(userId: string)
    ensures QueryRequest(GetFeed(Some(0), Some(0))).params == [("page", 1), ("pageSize", 20)]
    ensures QueryRequest(GetUserPosts(userId, Some(0), Some(0))).params == [("page", 0), ("pageSize", 0)]
  {
  }

  /** `invalidatesTags` of each mutation. */
  function Invalidates(m: Mutation): seq<Tag> {
    match m
    case Login(_) => [Type(AuthTag)]
    case Register(_) => [Type(AuthTag)]
    case OAuthLogin(_) => [Type(AuthTag)]
    case CreatePost(_) => [Type(PostTag)]
    case CreateComment(c) => [Id(CommentTag, c.postId), Type(PostTag)]
    case Vote(_) => [Type(PostTag), Type(CommentTag)]
    case Follow(_) => [Type(UserTag), Type(FollowTag)]
    case Logout => [Type(AuthTag)]
  }

  /** `providesTags` of each query. */
  function Provides(q: Query): seq<Tag> {
    match q
    case GetFeed(_, _) => [Type(PostTag)]
    case GetComments(postId) => [Id(CommentTag, postId), Type(CommentTag)]
    case GetUser(userId) => [Id(UserTag, userId)]
    case GetUserPosts(userId, _, _) => [Id(PostTag, "user-" + userId), Type(PostTag)]
    case GetFollowStatus(userId) => [Id(FollowTag, userId)]
  }

  /** No query provides an `Auth` tag. */
  lemma NoQueryProvidesAuth(q: Query)
    ensures forall i :: 0 <= i < |Provides(q)| ==> Provides(q)[i].t != AuthTag
  {
  }

  /** The sign-in, sign-up, Google sign-in and logout mutations invalidate
      the `Auth` type and nothing else. */
  predicate IsAuthMutation(m: Mutation) {
    m.Login? || m.Register? || m.OAuthLogin? || m.Logout?
  }

  lemma AuthMutationsInvalidateOnlyAuth(m: Mutation)
    ensures IsAuthMutation(m) <==> Invalidates(m) == [Type(AuthTag)]
  {
  }

  /** The matching rule assumed of the caching library, which is not part
      of this model: an invalidated bare type matches every provided tag of
      that type, and an invalidated tag with an id matches only the same tag
      with the same id. */
  predicate Matches(invalidated: Tag, provided: Tag) {
    if invalidated.Type? then provided.t == invalidated.t else provided == invalidated
  }

  /** Under that rule, a mutation refetches a query when some invalidated
      tag matches some provided tag. */
  predicate Refetches(m: Mutation, q: Query) {
    exists i, j :: 0 <= i < |Invalidates(m)| && 0 <= j < |Provides(q)| && Matches(Invalidates(m)[i], Provides(q)[j])
  }

  /** An independent statement of which queries each mutation refetches. */
  predicate Expected(m: Mutation, q: Query) {
    match m
    case CreatePost(_) => q.GetFeed? || q.GetUserPosts?
    case CreateComment(c) => q.GetFeed? || q.GetUserPosts? || q == GetComments(c.postId)
    case Vote(_) => q.GetFeed? || q.GetUserPosts? || q.GetComments?
    case Follow(_) => q.GetUser? || q.GetFollowStatus?
    case _ => false
  }

  /** The tag tables refetch exactly the expected queries. In particular a
      new comment refetches the comments of its own post and of no other,
      and the session mutations refetch nothing. */
  lemma RefetchesExactly(m: Mutation, q: Query)
    ensures Refetches(m, q) <==> Expected(m, q)
  {
    if Expected(m, q) {
      match m
      case CreatePost(_) => assert Matches(Invalidates(m)[0], Provides(q)[|Provides(q)| - 1]);
      case CreateComment(c) =>
        if q == GetComments(c.postId) {
          assert Matches(Invalidates(m)[0], Provides(q)[0]);
        } else {
          assert Matches(Invalidates(m)[1], Provides(q)[|Provides(q)| - 1]);
        }
      case Vote(_) =>
        if q.GetComments? {
          assert Matches(Invalidates(m)[1], Provides(q)[1]);
        } else {
          assert Matches(Invalidates(m)[0], Provides(q)[|Provides(q)| - 1]);
        }
      case Follow(_) =>
        if q.GetUser? {
          assert Matches(Invalidates(m)[0], Provides(q)[0]);
        } else {
          assert Matches(Invalidates(m)[1], Provides(q)[0]);
        }
    }
  }

  /** A new comment on one post does not refetch another post's comments. */
  lemma CommentRefetchesOwnPost(c: CreateCommentRequest, postId: string)
    ensures Refetches(CreateComment(c), GetComments(postId)) <==> postId == c.postId
  {
    RefetchesExactly(CreateComment(c), GetComments(postId));
  }
}
