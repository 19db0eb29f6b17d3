/**
 * A user's profile page (src/pages/Profile.tsx): whose profile is shown, the
 * accumulation of that user's posts ten at a time with a "has more" flag, the
 * reset when the profile changes, and the post count shown.
 */
module Profile {
  import opened Types
  import opened JsText
  import Home

  /** The page size the profile asks for. */
  const PageSize := 10

  /** `currentUser?.id`. */
  function CurrentId(currentUser: Option<User>): Option<string> {
    if currentUser.Some? then Some(currentUser.value.id) else None
  }

  /** `userId || currentUser?.id`: the route parameter when it is truthy,
      else the id of the signed-in user, if any. */
  function TargetUserId(routeUserId: Option<string>, currentUser: Option<User>): (t: Option<string>)
    ensures Truthy(routeUserId) ==> t == routeUserId
    ensures !Truthy(routeUserId) ==> t == CurrentId(currentUser)
  {
    Or(routeUserId, CurrentId(currentUser))
  }

  /** `targetUserId === currentUser?.id`. */
  predicate IsOwnProfile(routeUserId: Option<string>, currentUser: Option<User>) {
    TargetUserId(routeUserId, currentUser) == CurrentId(currentUser)
  }

  /** Without a route parameter the profile is one's own, even when nobody
      is signed in; a route parameter makes it one's own iff it is one's id. */
  lemma OwnProfileCases(routeUserId: Option<string>, currentUser: Option<User>)
    ensures !Truthy(routeUserId) ==> IsOwnProfile(routeUserId, currentUser)
    ensures Truthy(routeUserId) ==>
      (IsOwnProfile(routeUserId, currentUser) <==> currentUser.Some? && routeUserId.value == currentUser.value.id)
  {
  }

  /** The Load More button: `hasMorePosts && allPosts.length > 0 && !isFetchingPosts`. */
  predicate LoadMoreVisible(hasMorePosts: bool, count: nat, isFetchingPosts: bool) {
    hasMorePosts && count > 0 && !isFetchingPosts
  }

  /** The end message: `!hasMorePosts && allPosts.length > 0 && !isFetchingPosts`. */
  predicate EndMessageVisible(hasMorePosts: bool, count: nat, isFetchingPosts: bool) {
    !hasMorePosts && count > 0 && !isFetchingPosts
  }

  /** The button and the end message are never shown together; a
      non-empty list that is not fetching shows exactly one of them, and
      while a page is fetched neither is shown (unlike the home feed, whose
      end message stays during a fetch). */
  lemma FooterExclusive(hasMorePosts: bool, count: nat, isFetchingPosts: bool)
    ensures !(LoadMoreVisible(hasMorePosts, count, isFetchingPosts) && EndMessageVisible(hasMorePosts, count, isFetchingPosts))
    ensures count > 0 && !isFetchingPosts ==>
      LoadMoreVisible(hasMorePosts, count, isFetchingPosts) || EndMessageVisible(hasMorePosts, count, isFetchingPosts)
    ensures isFetchingPosts || count == 0 ==>
      !LoadMoreVisible(hasMorePosts, count, isFetchingPosts) && !EndMessageVisible(hasMorePosts, count, isFetchingPosts)
  {
  }

  /** During a fetch the profile hides its end message where the home feed
      keeps it. */
  lemma EndMessageDiffersFromHome(count: nat)
    requires count > 0
    ensures !EndMessageVisible(false, count, true) && Home.EndMessageVisible(false, count)
  {
  }

  datatype CountText = Number(n: int) | Ellipsis

  /** The posts count: the user's `postCount` when defined, else "..." while
      page 1 loads, else the number of accumulated posts. */
  function PostCountDisplay(postCount: Option<int>, isLoadingPosts: bool, page: int, count: nat): (c: CountText)
    ensures postCount.Some? ==> c == Number(postCount.value)
    ensures c == Ellipsis <==> postCount.None? && isLoadingPosts && page == 1
    ensures postCount.None? && c.Number? ==> c.n == count
  {
    if postCount.Some? then Number(postCount.value)
    else if isLoadingPosts && page == 1 then Ellipsis
    else Number(count)
  }

  /** The component's state for the posts list. */
  class Posts {
    var page: int
    var allPosts: seq<Post>
    var hasMorePosts: bool

    ghost predicate Valid()
      reads this
    {
      page >= 1
    }

    constructor ()
      ensures Valid() && page == 1 && allPosts == [] && hasMorePosts
    {
      page, allPosts, hasMorePosts := 1, [], true;
    }

    /** The accumulation effect, run when a response arrives. A non-empty
        page replaces (page 1) or extends (later pages) the list, and one
        shorter than ten ends the list; an empty page only ends the list. */
    method OnPostsData(postsData: Option<seq<Post>>)
      requires Valid()
      modifies this`allPosts, this`hasMorePosts
      ensures Valid()
      ensures postsData.None? ==> allPosts == old(allPosts) && hasMorePosts == old(hasMorePosts)
      ensures postsData.Some? && |postsData.value| > 0 ==>
        allPosts == (if page == 1 then postsData.value else Home.AppendUnseen(old(allPosts), postsData.value)) &&
        hasMorePosts == (old(hasMorePosts) && |postsData.value| >= PageSize)
      ensures postsData == Some([]) ==> allPosts == old(allPosts) && !hasMorePosts
      ensures hasMorePosts ==> old(hasMorePosts)
    {
      if postsData.Some? && |postsData.value| > 0 {
        var posts := postsData.value;
        if page == 1 {
          allPosts := posts;
        } else {
          var existingIds := Home.Ids(allPosts);
          var newPosts := Home.Unseen(existingIds, posts);
          allPosts := allPosts + newPosts;
        }
        if |posts| < PageSize {
          hasMorePosts := false;
        }
      } else if postsData.Some? && |postsData.value| == 0 && page > 1 {
        hasMorePosts := false;
      } else if page == 1 && postsData.Some? && |postsData.value| == 0 {
        hasMorePosts := false;
      }
    }

    /** The effect on a change of the profile shown: back to page 1, an
        empty list, and more posts expected. The only place the flag is set. */
    method ResetForTarget()
      modifies this
      ensures Valid() && page == 1 && allPosts == [] && hasMorePosts
    {
      page := 1;
      allPosts := [];
      hasMorePosts := true;
    }

    /** `handleLoadMore`: the next page, unless a fetch is running. */
    method LoadMore(isFetchingPosts: bool)
      requires Valid()
      modifies this`page
      ensures Valid()
      ensures page == if isFetchingPosts then old(page) else old(page) + 1
    {
      if !isFetchingPosts {
        page := page + 1;
      }
    }
  }
}
