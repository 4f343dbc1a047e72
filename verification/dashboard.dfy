/** The creator dashboard: aggregates over the creator's own posts and
    subscribers, the top-posts panel, and the ungated post list. */
module Dashboard {
  import opened Outcomes
  import opened Types
  import Access

  /** Total likes: the vote counts of all posts summed left to right, a
      missing count adding nothing. */
  function TotalLikes(posts: seq<Post>): (total: int)
    ensures (forall i :: 0 <= i < |posts| ==> posts[i].Likes() >= 0) ==> total >= 0
    ensures (forall i :: 0 <= i < |posts| ==> posts[i].voteCount.None?) ==> total == 0
  {
    if |posts| == 0 then 0 else TotalLikes(posts[..|posts| - 1]) + posts[|posts| - 1].Likes()
  }

  /** The total adds up over concatenation: reducing left to right and
      summing per part agree. */
  lemma {:induction false} TotalLikesAppend(a: seq<Post>, b: seq<Post>)
    ensures TotalLikes(a + b) == TotalLikes(a) + TotalLikes(b)
    decreases |b|
  {
    if |b| == 0 {
      assert a + b == a;
    } else {
      assert (a + b)[..|a + b| - 1] == a + b[..|b| - 1];
      assert (a + b)[|a + b| - 1] == b[|b| - 1];
      TotalLikesAppend(a, b[..|b| - 1]);
    }
  }

  /** Each post contributes its own count, a missing count nothing. */
  lemma TotalLikesSingle(p: Post)
    ensures TotalLikes([p]) == if p.voteCount.Some? then p.voteCount.value else 0
  {
    assert [p][..0] == [];
  }

  /** The "Subscribers" figure: every fetched subscription counts once. */
  function TotalSubscribers(subs: seq<Subscription>): (n: nat)
    ensures n == |subs|
    ensures n == 0 <==> subs == []
  {
    |subs|
  }

  /** A row of the "Top Performing Posts" panel. */
  datatype TopRow = TopRow(rank: nat, post: Post, likes: int, comments: nat)

  /** The first five posts in fetched order, ranked from #1, with missing
      counts shown as 0. */
  function TopPosts(posts: seq<Post>): (rows: seq<TopRow>)
    ensures |rows| == if |posts| < 5 then |posts| else 5
    ensures forall i :: 0 <= i < |rows| ==>
      rows[i] == TopRow(i + 1, posts[i], posts[i].voteCount.GetOr(0), |posts[i].comments.GetOr([])|)
  {
    var top := posts[..if |posts| < 5 then |posts| else 5];
    seq(|top|, i requires 0 <= i < |top| => TopRow(i + 1, top[i], top[i].Likes(), top[i].CommentCount()))
  }

  /** Only the first five posts matter: posts after them never reach the
      table, and the table of the first five is the whole table. */
  lemma TopPostsIgnoresLaterPosts(posts: seq<Post>, later: seq<Post>)
    ensures |posts| >= 5 ==> TopPosts(posts + later) == TopPosts(posts)
    ensures TopPosts(posts[..if |posts| < 5 then |posts| else 5]) == TopPosts(posts)
  {
    if |posts| >= 5 {
      var r, q := TopPosts(posts + later), TopPosts(posts);
      assert forall i :: 0 <= i < |q| ==> (posts + later)[i] == posts[i];
      assert |r| == |q|;
      assert forall i :: 0 <= i < |q| ==> r[i] == q[i];
    }
  }

  /** The `isSubscribed` argument of the dashboard's post cards: a
      constant, so the creator's own posts are never gated. */
  function CardGate(p: Post): (g: bool)
    ensures !Access.ShouldBlur(p, g)
  {
    true
  }
}
