/**
 * Voting on a post card (src/components/post/PostCard.tsx): a click maps the
 * current vote to a new vote, a score change and the vote type sent to the
 * server; the card applies the change at once and restores a snapshot when
 * the request fails. One request is modelled at a time.
 */
module PostCard {
  import opened Types

  datatype VoteClick = Upvote | Downvote

  /** The vote as the card reads it: only 1 and -1 are votes. */
  function Norm(v: Option<int>): (n: int)
    ensures n == 1 || n == 0 || n == -1
    ensures v == Some(n) || n == 0
    ensures v == Some(1) || v == Some(-1) ==> v == Some(n)
  {
    if v == Some(1) then 1 else if v == Some(-1) then -1 else 0
  }

  datatype VoteTransition = VoteTransition(newVote: int, scoreDelta: int, apiVoteType: int)

  /** The transition table, one row per (click, current vote). */
  function Table(click: VoteClick, current: Option<int>): VoteTransition {
    match (click, Norm(current))
    case (Upvote, 1)    => VoteTransition(0, -1, 1)
    case (Upvote, -1)   => VoteTransition(1, 2, 1)
    case (Upvote, _)    => VoteTransition(1, 1, 1)
    case (Downvote, -1) => VoteTransition(0, 1, -1)
    case (Downvote, 1)  => VoteTransition(-1, -2, -1)
    case (Downvote, _)  => VoteTransition(-1, -1, -1)
  }

  /** The if-chain of `handleVote`, assigning its three locals step by step. */
  method ComputeTransition(click: VoteClick, userVote: Option<int>)
    returns (optimisticUserVote: int, optimisticScoreChange: int, newApiVoteType: int)
    ensures VoteTransition(optimisticUserVote, optimisticScoreChange, newApiVoteType) == Table(click, userVote)
  {
    optimisticUserVote := 0;
    optimisticScoreChange := 0;
    if click == Upvote {
      if userVote == Some(1) {
        optimisticUserVote := 0;
        optimisticScoreChange := -1;
        newApiVoteType := 1;
      } else {
        optimisticUserVote := 1;
        optimisticScoreChange := 1;
        if userVote == Some(-1) {
          optimisticScoreChange := optimisticScoreChange + 1;
        }
        newApiVoteType := 1;
      }
    } else {
      if userVote == Some(-1) {
        optimisticUserVote := 0;
        optimisticScoreChange := 1;
        newApiVoteType := -1;
      } else {
        optimisticUserVote := -1;
        optimisticScoreChange := -1;
        if userVote == Some(1) {
          optimisticScoreChange := optimisticScoreChange - 1;
        }
        newApiVoteType := -1;
      }
    }
  }

  /** The post as shown right after the click: only the vote and the score change. */
  function Optimistic(p: Post, click: VoteClick): Post {
    var t := Table(click, p.userVote);
    p.(userVote := Some(t.newVote), score := p.score + t.scoreDelta)
  }

  function SignOf(click: VoteClick): int {
    if click == Upvote then 1 else -1
  }

  /** The new vote is one of the three values, a repeated click in the same
      direction removes the vote, any other click sets it to the click's
      direction; the vote type sent is the click's direction in every case. */
  lemma TableShape(click: VoteClick, current: Option<int>)
    ensures var t := Table(click, current);
      (t.newVote == 1 || t.newVote == 0 || t.newVote == -1) &&
      (t.newVote == 0 <==> Norm(current) == SignOf(click)) &&
      (t.newVote != 0 ==> t.newVote == SignOf(click)) &&
      t.apiVoteType == SignOf(click)
  {
  }

  /** The score minus the vote is the same before and after every click:
      the post's score without this user's vote never moves. */
  lemma TablePreservesBase(p: Post, click: VoteClick)
    ensures Optimistic(p, click).score - Norm(Optimistic(p, click).userVote) == p.score - Norm(p.userVote)
  {
  }

  /** Every field other than the vote and the score is copied. */
  lemma OptimisticKeepsOtherFields(p: Post, click: VoteClick)
    ensures Optimistic(p, click).(userVote := p.userVote, score := p.score) == p
  {
  }

  /** From no vote, or from a vote in the clicked direction, clicking the same
      button twice gives the original vote (as the card reads it) and score. */
  lemma {:induction false} DoubleClickRestores(p: Post, click: VoteClick)
    requires Norm(p.userVote) == 0 || Norm(p.userVote) == SignOf(click)
    ensures var q := Optimistic(Optimistic(p, click), click);
      q.score == p.score && Norm(q.userVote) == Norm(p.userVote) &&
      (Norm(p.userVote) != 0 ==> q == p)
  {
    var q1 := Optimistic(p, click);
    TablePreservesBase(p, click);
    TablePreservesBase(q1, click);
    TableShape(click, p.userVote);
    TableShape(click, q1.userVote);
  }

  /** A missing vote does not come back as missing: after two clicks the
      card holds the vote 0, which it reads as no vote. */
  lemma NullVoteReturnsAsZero(p: Post, click: VoteClick)
    requires p.userVote.None?
    ensures var q := Optimistic(Optimistic(p, click), click);
      q.userVote == Some(0) && q != p
  {
    TableShape(click, p.userVote);
    TableShape(click, Optimistic(p, click).userVote);
  }

  /** From a vote in the other direction the double click does not come
      back: the first click swings the score by 2, the second takes back only
      1, and the post ends with no vote. */
  lemma SwitchThenUndo(p: Post, click: VoteClick)
    requires Norm(p.userVote) == -SignOf(click)
    ensures var q := Optimistic(Optimistic(p, click), click);
      Norm(q.userVote) == 0 && q.score == p.score + SignOf(click)
  {
  }

  /** A sequence of confirmed clicks, applied in order. */
  function ApplyClicks(p: Post, clicks: seq<VoteClick>): Post
    decreases |clicks|
  {
    if clicks == [] then p else ApplyClicks(Optimistic(p, clicks[0]), clicks[1..])
  }

  function SumDeltas(v: Option<int>, clicks: seq<VoteClick>): int
    decreases |clicks|
  {
    if clicks == [] then 0
    else Table(clicks[0], v).scoreDelta + SumDeltas(Some(Table(clicks[0], v).newVote), clicks[1..])
  }

  /** Over any run of confirmed clicks the score is the start score plus the
      table's deltas, the final vote is the last transition's target, and the
      score minus the vote is unchanged. */
  lemma {:induction false} ApplyClicksScore(p: Post, clicks: seq<VoteClick>)
    ensures var q := ApplyClicks(p, clicks);
      q.score == p.score + SumDeltas(p.userVote, clicks) &&
      q.score - Norm(q.userVote) == p.score - Norm(p.userVote) &&
      (clicks != [] ==>
         q.userVote == Some(Table(clicks[|clicks| - 1], ApplyClicks(p, clicks[..|clicks| - 1]).userVote).newVote))
    decreases |clicks|
  {
    if clicks != [] {
      var p1 := Optimistic(p, clicks[0]);
      TablePreservesBase(p, clicks[0]);
      ApplyClicksScore(p1, clicks[1..]);
      if |clicks| > 1 {
        assert clicks[1..][..|clicks[1..]| - 1] == clicks[..|clicks| - 1][1..];
        assert clicks[1..][|clicks[1..]| - 1] == clicks[|clicks| - 1];
      } else {
        assert clicks[..|clicks| - 1] == [];
      }
    }
  }

  /** `hasUpvoted` and `hasDownvoted`: which button is highlighted. */
  predicate HasUpvoted(p: Post) {
    p.userVote == Some(1)
  }

  predicate HasDownvoted(p: Post) {
    p.userVote == Some(-1)
  }

  /** After a confirmed click, the clicked button is highlighted exactly when
      it was not highlighted before, and the other button never is. */
  lemma HighlightAfterClick(p: Post, click: VoteClick)
    ensures click == Upvote ==> (HasUpvoted(Optimistic(p, click)) <==> !HasUpvoted(p)) && !HasDownvoted(Optimistic(p, click))
    ensures click == Downvote ==> (HasDownvoted(Optimistic(p, click)) <==> !HasDownvoted(p)) && !HasUpvoted(Optimistic(p, click))
  {
  }

  /** The card's local copy of the post. */
  class Card {
    var currentPost: Post

    constructor (initialPost: Post)
      ensures currentPost == initialPost
    {
      currentPost := initialPost;
    }

    /** A new post from the parent replaces the local copy. */
    method SyncFromProps(initialPost: Post)
      modifies this
      ensures currentPost == initialPost
    {
      currentPost := initialPost;
    }

    /** `handleVote(click)`. Without a user the card only asks to go to
        /login. Otherwise it applies the optimistic post (shown while the
        request runs, returned as `pending`), sends the vote, and on failure
        puts back the snapshot it took first. */
    method HandleVote(click: VoteClick, user: Option<User>, apiSucceeds: bool)
      returns (navigateTo: Option<string>, request: Option<VoteRequest>, ghost pending: Option<Post>)
      modifies this
      ensures user.None? ==>
        navigateTo == Some("/login") && request.None? && pending.None? && currentPost == old(currentPost)
      ensures user.Some? ==>
        navigateTo.None? &&
        request == Some(VoteRequest(old(currentPost).id, SignOf(click))) &&
        pending == Some(Optimistic(old(currentPost), click))
      ensures user.Some? && apiSucceeds ==> currentPost == Optimistic(old(currentPost), click)
      ensures user.Some? && !apiSucceeds ==> currentPost == old(currentPost)
    {
      if user.None? {
        return Some("/login"), None, None;
      }
      var originalPost := currentPost;
      var optimisticUserVote, optimisticScoreChange, newApiVoteType := ComputeTransition(click, currentPost.userVote);
      currentPost := currentPost.(userVote := Some(optimisticUserVote), score := currentPost.score + optimisticScoreChange);
      pending := Some(currentPost);
      navigateTo := None;
      request := Some(VoteRequest(originalPost.id, newApiVoteType));
      if !apiSucceeds {
        currentPost := originalPost;
      }
    }
  }
}
