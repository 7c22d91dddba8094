/** Votes on posts and comments. Each user has at most one stored vote per
    item, and the item carries a `rating` counter. Repeating an up or down
    vote withdraws it (stored value 0), any other vote replaces the stored
    value, and a first vote creates it. The counter always moves by the new
    stored value minus the old, so rating minus the sum of stored values
    never changes. */
module RateController {
  import opened Text
  import opened Store

  const PostMissing := "Post does not exist"
  const CommentMissing := "Comment does not exist"
  /** Both handlers answer with this text, the post handler included. */
  const RatingUpdated := "Comment rating updated successfully"

  /** The user's stored vote on an item, if a rating row exists. */
  function PriorVote(votes: map<int, map<int, int>>, item: int, user: int): Option<int>
  {
    if item in votes && user in votes[item] then Some(votes[item][user]) else None
  }

  /** The rating rows of one item. */
  function VotesOn(votes: map<int, map<int, int>>, item: int): map<int, int>
  {
    if item in votes then votes[item] else map[]
  }

  /** An absent rating row counts as 0. */
  function ValueOr0(prior: Option<int>): int
  {
    if prior.Some? then prior.value else 0
  }

  /** The stored value after `vote`: 0 when it repeats a stored up or down
      vote, else the vote itself. */
  function Stored(prior: Option<int>, vote: int): (v: int)
    ensures v == 0 || v == vote
    ensures v != vote <==> prior.Some? && prior.value == vote && (vote == 1 || vote == -1)
  {
    if prior.Some? && ((vote == 1 && prior.value == 1) || (vote == -1 && prior.value == -1)) then 0
    else vote
  }

  /** The branches of the handlers that set `rateAmount` and pick the new
      stored value. */
  method Toggle(prior: Option<int>, vote: int) returns (stored: int, rateAmount: int)
    ensures stored == Stored(prior, vote)
    ensures rateAmount == stored - ValueOr0(prior)
  {
    rateAmount := 0;
    if prior.Some? {
      var upToNone := vote == 1 && prior.value == 1;
      var downToNone := vote == -1 && prior.value == -1;
      if upToNone {
        rateAmount := -1;
      } else if downToNone {
        rateAmount := 1;
      } else {
        rateAmount := vote - prior.value;
      }
      if upToNone || downToNone {
        stored := 0;
      } else {
        stored := vote;
      }
    } else {
      rateAmount := vote;
      stored := vote;
    }
  }

  /** `ratePost`. */
  method RatePost(db: Database, caller: Caller, postId: int, vote: int) returns (reply: Reply)
    requires db.Valid()
    modifies db`posts, db`postVotes
    ensures db.Valid()
    ensures postId !in old(db.posts) ==>
              reply == Reply(404, Message(PostMissing))
              && db.posts == old(db.posts) && db.postVotes == old(db.postVotes)
    ensures postId in old(db.posts) ==>
              var prior := PriorVote(old(db.postVotes), postId, caller.userId);
              var post := old(db.posts)[postId];
              && reply == Reply(200, Message(RatingUpdated))
              && db.postVotes == old(db.postVotes)[postId := VotesOn(old(db.postVotes), postId)[caller.userId := Stored(prior, vote)]]
              && db.posts == old(db.posts)[postId := post.(rating := post.rating + Stored(prior, vote) - ValueOr0(prior))]
  {
    if postId !in db.posts {
      return Reply(404, Message(PostMissing));
    }
    var prior := PriorVote(db.postVotes, postId, caller.userId);
    var stored, rateAmount := Toggle(prior, vote);
    db.postVotes := db.postVotes[postId := VotesOn(db.postVotes, postId)[caller.userId := stored]];
    var post := db.posts[postId];
    db.posts := db.posts[postId := post.(rating := post.rating + rateAmount)];
    reply := Reply(200, Message(RatingUpdated));
  }

  /** `rateComment`: the same rules on comments. */
  method RateComment(db: Database, caller: Caller, commentId: int, vote: int) returns (reply: Reply)
    requires db.Valid()
    modifies db`comments, db`commentVotes
    ensures db.Valid()
    ensures commentId !in old(db.comments) ==>
              reply == Reply(404, Message(CommentMissing))
              && db.comments == old(db.comments) && db.commentVotes == old(db.commentVotes)
    ensures commentId in old(db.comments) ==>
              var prior := PriorVote(old(db.commentVotes), commentId, caller.userId);
              var comment := old(db.comments)[commentId];
              && reply == Reply(200, Message(RatingUpdated))
              && db.commentVotes == old(db.commentVotes)[commentId := VotesOn(old(db.commentVotes), commentId)[caller.userId := Stored(prior, vote)]]
              && db.comments == old(db.comments)[commentId := comment.(rating := comment.rating + Stored(prior, vote) - ValueOr0(prior))]
  {
    if commentId !in db.comments {
      return Reply(404, Message(CommentMissing));
    }
    var prior := PriorVote(db.commentVotes, commentId, caller.userId);
    var stored, rateAmount := Toggle(prior, vote);
    db.commentVotes := db.commentVotes[commentId := VotesOn(db.commentVotes, commentId)[caller.userId := stored]];
    var comment := db.comments[commentId];
    db.comments := db.comments[commentId := comment.(rating := comment.rating + rateAmount)];
    reply := Reply(200, Message(RatingUpdated));
  }

  /** A set with positive size has a member. */
  lemma HasMember(s: set<int>)
    requires |s| > 0
    ensures exists x :: x in s
  {
    if forall x :: x !in s {
      assert false;
    }
  }

  /** Some key of a non-empty map. */
  ghost function AnyKey(m: map<int, int>): (k: int)
    requires |m| > 0
    ensures k in m
  {
    var keys := m.Keys;
    assert |keys| == |m|;
    HasMember(keys);
    var k :| k in keys;
    k
  }

  /** The sum of the stored values of one item's rating rows. */
  ghost function Total(m: map<int, int>): int
    decreases |m|
  {
    if |m| == 0 then 0
    else
      var k := AnyKey(m);
      m[k] + Total(m - {k})
  }

  /** Any row can be taken out of the sum first, whichever key the sum
      happens to pick. */
  lemma {:induction false} TotalRemove(m: map<int, int>, k: int)
    requires k in m
    ensures Total(m) == m[k] + Total(m - {k})
    decreases |m|
  {
    var j := AnyKey(m);
    if j != k {
      var mj, mk := m - {j}, m - {k};
      assert k in mj && j in mk;
      assert mj - {k} == mk - {j};
      assert |mj| < |m| by { assert mj.Keys < m.Keys; }
      assert |mk| < |m| by { assert mk.Keys < m.Keys; }
      TotalRemove(mj, k);
      TotalRemove(mk, j);
    }
  }

  /** Setting one row changes the sum by the new value minus the old. */
  lemma TotalUpdate(m: map<int, int>, k: int, v: int)
    ensures Total(m[k := v]) == Total(m) - (if k in m then m[k] else 0) + v
  {
    TotalRemove(m[k := v], k);
    assert m[k := v] - {k} == m - {k};
    if k in m {
      TotalRemove(m, k);
    } else {
      assert m - {k} == m;
    }
  }

  /** A vote keeps rating minus the sum of the item's stored values, for any
      integer vote and any prior state. */
  lemma VoteKeepsBalance(rows: map<int, int>, rating: int, user: int, vote: int)
    ensures var prior := if user in rows then Some(rows[user]) else None;
            var stored := Stored(prior, vote);
            (rating + stored - ValueOr0(prior)) - Total(rows[user := stored]) == rating - Total(rows)
  {
    var prior := if user in rows then Some(rows[user]) else None;
    TotalUpdate(rows, user, Stored(prior, vote));
  }

  /** The balance of an item after `RatePost`, stated on the database. */
  lemma RatePostKeepsBalance(posts: map<int, Post>, votes: map<int, map<int, int>>, postId: int, user: int, vote: int)
    requires postId in posts
    ensures var prior := PriorVote(votes, postId, user);
            var post := posts[postId];
            var votes' := votes[postId := VotesOn(votes, postId)[user := Stored(prior, vote)]];
            (post.rating + Stored(prior, vote) - ValueOr0(prior)) - Total(VotesOn(votes', postId))
            == post.rating - Total(VotesOn(votes, postId))
  {
    VoteKeepsBalance(VotesOn(votes, postId), posts[postId].rating, user, vote);
  }

  /** With up and down votes only, every stored value stays in {-1, 0, 1}. */
  lemma StoredStaysTernary(rows: map<int, int>, user: int, vote: int)
    requires vote == 1 || vote == -1
    requires forall u :: u in rows ==> -1 <= rows[u] <= 1
    ensures var rows' := rows[user := Stored(if user in rows then Some(rows[user]) else None, vote)];
            forall u :: u in rows' ==> -1 <= rows'[u] <= 1
  {
  }

  /** The same up or down vote (or 0) cast twice from no vote or a withdrawn
      vote moves the counter back to where it started. */
  lemma DoubleVoteRestores(prior: Option<int>, vote: int)
    requires prior.None? || prior == Some(0)
    requires -1 <= vote <= 1
    ensures var first := Stored(prior, vote);
            var second := Stored(Some(first), vote);
            (first - ValueOr0(prior)) + (second - first) == 0
  {
  }
}
