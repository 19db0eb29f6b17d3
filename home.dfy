/**
 * The home feed (src/pages/Home.tsx): pages of posts from the server are
 * accumulated into one list. Page 1 replaces the list; a later page adds,
 * in server order, the posts whose ids the list does not hold yet.
 */
module Home {
  import opened Types

  /** `new Set(prev.map(p => p.id))`. */
  function Ids(posts: seq<Post>): set<string> {
    set i | 0 <= i < |posts| :: posts[i].id
  }

  /** `incoming.filter(p => !existingIds.has(p.id))`. */
  function Unseen(existing: set<string>, incoming: seq<Post>): (r: seq<Post>)
    ensures |r| <= |incoming|
    ensures forall i :: 0 <= i < |r| ==> r[i].id !in existing
    decreases |incoming|
  {
    if incoming == [] then []
    else if incoming[0].id in existing then Unseen(existing, incoming[1..])
    else [incoming[0]] + Unseen(existing, incoming[1..])
  }

  /** `[...prev, ...newPosts]`: the merge of a page after the first. */
  function AppendUnseen(prev: seq<Post>, incoming: seq<Post>): seq<Post> {
    prev + Unseen(Ids(prev), incoming)
  }

  /** `s` is `t` with some elements left out, the rest kept in order. */
  predicate IsSubsequence(s: seq<Post>, t: seq<Post>)
    decreases |t|
  {
    if s == [] then true
    else if t == [] then false
    else if s[0] == t[0] then IsSubsequence(s[1..], t[1..])
    else IsSubsequence(s, t[1..])
  }

  /** The filter keeps exactly the posts whose id is new, in server order. */
  lemma {:induction false} UnseenIsFilter(existing: set<string>, incoming: seq<Post>)
    ensures IsSubsequence(Unseen(existing, incoming), incoming)
    ensures forall p :: p in incoming && p.id !in existing ==> p in Unseen(existing, incoming)
    ensures forall p :: p in Unseen(existing, incoming) ==> p in incoming && p.id !in existing
    decreases |incoming|
  {
    if incoming != [] {
      UnseenIsFilter(existing, incoming[1..]);
      assert forall p :: p in incoming ==> p == incoming[0] || p in incoming[1..];
    }
  }

  /** The old list is kept as a prefix and the tail is the filtered page. */
  lemma AppendUnseenPrefix(prev: seq<Post>, incoming: seq<Post>)
    ensures |AppendUnseen(prev, incoming)| >= |prev|
    ensures AppendUnseen(prev, incoming)[..|prev|] == prev
    ensures AppendUnseen(prev, incoming)[|prev|..] == Unseen(Ids(prev), incoming)
  {
  }

  /** Every id of the page is present after the merge. */
  lemma {:induction false} AppendUnseenCovers(prev: seq<Post>, incoming: seq<Post>)
    ensures forall i :: 0 <= i < |incoming| ==> incoming[i].id in Ids(AppendUnseen(prev, incoming))
  {
    var r := AppendUnseen(prev, incoming);
    UnseenIsFilter(Ids(prev), incoming);
    forall i | 0 <= i < |incoming| ensures incoming[i].id in Ids(r) {
      var p := incoming[i];
      if p.id in Ids(prev) {
        var k :| 0 <= k < |prev| && prev[k].id == p.id;
        assert r[k] == prev[k];
      } else {
        assert p in Unseen(Ids(prev), incoming);
        var k :| 0 <= k < |Unseen(Ids(prev), incoming)| && Unseen(Ids(prev), incoming)[k] == p;
        assert r[|prev| + k] == p;
      }
    }
  }

  /** Unseen against a set that holds every id of the page is empty. */
  lemma {:induction false} UnseenAllSeen(existing: set<string>, incoming: seq<Post>)
    requires forall i :: 0 <= i < |incoming| ==> incoming[i].id in existing
    ensures Unseen(existing, incoming) == []
    decreases |incoming|
  {
    if incoming != [] {
      UnseenAllSeen(existing, incoming[1..]);
    }
  }

  /** Delivering the same later page twice gives the list of one delivery. */
  lemma AppendUnseenIdempotent(prev: seq<Post>, incoming: seq<Post>)
    ensures AppendUnseen(AppendUnseen(prev, incoming), incoming) == AppendUnseen(prev, incoming)
  {
    AppendUnseenCovers(prev, incoming);
    UnseenAllSeen(Ids(AppendUnseen(prev, incoming)), incoming);
  }

  /** No two posts of the list share an id. */
  predicate DistinctIds(s: seq<Post>) {
    forall i, j :: 0 <= i < j < |s| ==> s[i].id != s[j].id
  }

  lemma {:induction false} UnseenDistinct(existing: set<string>, incoming: seq<Post>)
    requires DistinctIds(incoming)
    ensures DistinctIds(Unseen(existing, incoming))
    decreases |incoming|
  {
    if incoming != [] {
      UnseenDistinct(existing, incoming[1..]);
      UnseenIsFilter(existing, incoming[1..]);
      var rest := Unseen(existing, incoming[1..]);
      assert forall p :: p in rest ==> p in incoming[1..];
      assert forall k :: 0 <= k < |incoming[1..]| ==> incoming[1..][k].id != incoming[0].id;
    }
  }

  /** A merge of distinct-id lists has distinct ids. */
  lemma AppendUnseenDistinct(prev: seq<Post>, incoming: seq<Post>)
    requires DistinctIds(prev) && DistinctIds(incoming)
    ensures DistinctIds(AppendUnseen(prev, incoming))
  {
    var tail := Unseen(Ids(prev), incoming);
    UnseenDistinct(Ids(prev), incoming);
    var r := prev + tail;
    forall i, j | 0 <= i < j < |r| ensures r[i].id != r[j].id {
      if j >= |prev| && i < |prev| {
        assert r[j] == tail[j - |prev|];
        assert prev[i].id in Ids(prev);
      } else if i >= |prev| {
        assert r[i] == tail[i - |prev|] && r[j] == tail[j - |prev|];
      }
    }
  }

  /** Duplicates inside one page are not removed. */
  lemma DuplicatesInPageKept(p: Post)
    ensures AppendUnseen([], [p, p]) == [p, p]
  {
    var empty: seq<Post> := [];
    assert Ids(empty) == {};
    assert [p, p][1..] == [p];
    assert Unseen({}, [p]) == [p];
  }

  /** `feedData?.hasMore || false`. */
  function HasMore(feedData: Option<FeedResponse>): (b: bool)
    ensures b ==> feedData.Some?
    ensures feedData.Some? ==> b == feedData.value.hasMore
  {
    feedData.Some? && feedData.value.hasMore
  }

  /** The Load More button: `hasMore && !isFetching && allPosts.length > 0`. */
  predicate LoadMoreVisible(hasMore: bool, isFetching: bool, count: nat) {
    hasMore && !isFetching && count > 0
  }

  /** The end-of-feed message: `!hasMore && allPosts.length > 0`. */
  predicate EndMessageVisible(hasMore: bool, count: nat) {
    !hasMore && count > 0
  }

  /** The button and the end message are never shown together, and a
      non-empty feed that is not fetching shows exactly one of them. */
  lemma FooterExclusive(hasMore: bool, isFetching: bool, count: nat)
    ensures !(LoadMoreVisible(hasMore, isFetching, count) && EndMessageVisible(hasMore, count))
    ensures count > 0 && !isFetching ==> LoadMoreVisible(hasMore, isFetching, count) || EndMessageVisible(hasMore, count)
    ensures count == 0 ==> !LoadMoreVisible(hasMore, isFetching, count) && !EndMessageVisible(hasMore, count)
  {
  }

  /** `greeting()` for the hour of the day, passed in. */
  function Greeting(hour: int): (g: string)
    ensures g == "Good morning" || g == "Good afternoon" || g == "Good evening"
  {
    if hour < 12 then "Good morning"
    else if hour < 18 then "Good afternoon"
    else "Good evening"
  }

  /** The three greetings split the hours at 12 and 18. */
  lemma GreetingPeriods(hour: int)
    ensures Greeting(hour) == "Good morning" <==> hour < 12
    ensures Greeting(hour) == "Good afternoon" <==> 12 <= hour < 18
    ensures Greeting(hour) == "Good evening" <==> hour >= 18
  {
  }

  /** The component's state: the page asked for, the accumulated posts and
      whether the create-post form is open. */
  class Feed {
    var page: int
    var allPosts: seq<Post>
    var showCreatePost: bool

    constructor ()
      ensures page == 1 && allPosts == [] && !showCreatePost
    {
      page, allPosts, showCreatePost := 1, [], false;
    }

    /** The accumulation effect, run when a response arrives. */
    method OnFeedData(feedData: Option<FeedResponse>)
      modifies this`allPosts
      ensures feedData.None? || feedData.value.posts.None? ==> allPosts == old(allPosts)
      ensures feedData.Some? && feedData.value.posts.Some? && page == 1 ==>
        allPosts == feedData.value.posts.value
      ensures feedData.Some? && feedData.value.posts.Some? && page != 1 ==>
        allPosts == AppendUnseen(old(allPosts), feedData.value.posts.value)
    {
      if feedData.Some? && feedData.value.posts.Some? {
        var posts := feedData.value.posts.value;
        if page == 1 {
          allPosts := posts;
        } else {
          var existingIds := Ids(allPosts);
          var newPosts := Unseen(existingIds, posts);
          allPosts := allPosts + newPosts;
        }
      }
    }

    /** `handleLoadMore`: asks for the next page. */
    method LoadMore()
      modifies this`page
      ensures page == old(page) + 1
    {
      page := page + 1;
    }

    /** The create-post buttons open the form. */
    method OpenCreatePost()
      modifies this`showCreatePost
      ensures showCreatePost
    {
      showCreatePost := true;
    }

    /** `handlePostCreated`: the new post goes on top, without a check for
        its id, and the form closes. */
    method PostCreated(newPost: Post)
      modifies this`allPosts, this`showCreatePost
      ensures allPosts == [newPost] + old(allPosts)
      ensures |allPosts| == |old(allPosts)| + 1
      ensures !showCreatePost
    {
      allPosts := [newPost] + allPosts;
      showCreatePost := false;
    }
  }
}
