/** The post detail page: it derives `isSubscribed` on load (no check for
    anonymous viewers, owner short-circuit, otherwise the service), gates
    the whole page on it, and handles votes and new comments. */
module PostDetail {
  import opened Outcomes
  import opened Types
  import Access
  import Carousel
  import Js
  import SubscriptionService

  /** Where `isSubscribed` came from after loading, and whether the
      subscription service was asked. */
  datatype StatusCheck = StatusCheck(isSubscribed: bool, queried: bool)

  /** `checkSubscriptionStatus(post)`. An empty creatorId or no logged-in
      user gives false without a call; the creator's own post gives true
      without a call; otherwise the service's answer. The service never
      throws, so the page's own catch-to-false is never taken. */
  function CheckSubscriptionStatus(post: Post, viewer: Option<User>, t: SubscriptionService.Transport<SubscriptionService.CheckPayload>): (r: StatusCheck)
    ensures post.creatorId == "" || viewer.None? ==> r == StatusCheck(false, false)
    ensures post.creatorId != "" && viewer.Some? && viewer.value.id == post.creatorId ==> r == StatusCheck(true, false)
    ensures r.queried <==> post.creatorId != "" && viewer.Some? && viewer.value.id != post.creatorId
    ensures r.queried ==> (r.isSubscribed <==> t.Delivered? && t.response.success && t.response.data.Some? && t.response.data.value.active == Some(true))
  {
    if post.creatorId == "" || viewer.None? then StatusCheck(false, false)
    else if viewer.value.id == post.creatorId then StatusCheck(true, false)
    else StatusCheck(SubscriptionService.CheckSubscription(t), true)
  }

  /** The gated parts of the page. */
  datatype DetailView = DetailView(
    mediaBlurred: bool,
    unlockOverlay: bool,
    videoControls: bool,
    carouselControls: bool,
    titleBlurred: bool,
    descriptionBlurred: bool,
    unlockNotice: bool,
    voteEnabled: bool,
    commentEnabled: bool,
    shareEnabled: bool,
    voteLabel: CountLabel,
    commentLabel: CountLabel,
    commentsHeader: CountLabel,
    commentListShown: bool,
    composerShown: bool)

  /** Renders the loaded page with the media on item `idx`. Unlike the
      card, the page blurs the title too, hides the comment list and the
      composer, and shows '?' in the comments header. The comment counts
      are those of `comments`, the list the page loads on its own rather
      than the post's embedded one. The media block, and with it the blur and the lock
      overlay that holds the page's only Subscribe button, exists only when
      the post has media; the video controls only on a video item of open
      content. */
  function Render(post: Post, isSubscribed: bool, viewer: Option<User>, idx: int, comments: seq<Comment>): (v: DetailView)
    requires Carousel.Valid(idx, |post.Media()|)
    ensures v.mediaBlurred <==> |post.Media()| > 0 && Access.ShouldBlur(post, isSubscribed)
    ensures v.unlockOverlay <==> |post.Media()| > 0 && Access.ShouldBlur(post, isSubscribed)
    ensures v.videoControls <==> post.VideoAt(idx) && !Access.ShouldBlur(post, isSubscribed)
    ensures Access.ShouldBlur(post, isSubscribed) ==>
      && v.titleBlurred && v.descriptionBlurred && v.unlockNotice
      && !v.voteEnabled && !v.commentEnabled && !v.shareEnabled
      && v.voteLabel == Hidden && v.commentLabel == Hidden && v.commentsHeader == Hidden
      && !v.commentListShown && !v.composerShown && !v.carouselControls
    ensures !Access.ShouldBlur(post, isSubscribed) ==>
      && !v.titleBlurred && !v.descriptionBlurred && !v.unlockNotice
      && v.voteEnabled && v.commentEnabled && v.shareEnabled
      && v.voteLabel == Count(post.Likes()) && v.commentLabel == Count(|comments|)
      && v.commentsHeader == Count(|comments|) && v.commentListShown
      && (v.composerShown <==> viewer.Some?)
    ensures v.carouselControls <==> |post.Media()| > 1 && !Access.ShouldBlur(post, isSubscribed)
  {
    var blur := Access.ShouldBlur(post, isSubscribed);
    var hasMedia := |post.Media()| > 0;
    DetailView(
      mediaBlurred := hasMedia && blur,
      unlockOverlay := hasMedia && blur,
      videoControls := hasMedia && post.Media()[idx].mediaType == Video && !blur,
      carouselControls := Carousel.ControlsShown(|post.Media()|, blur),
      titleBlurred := blur,
      descriptionBlurred := blur,
      unlockNotice := blur,
      voteEnabled := !blur,
      commentEnabled := !blur,
      shareEnabled := !blur,
      voteLabel := CountShown(blur, post.Likes()),
      commentLabel := CountShown(blur, |comments|),
      commentsHeader := CountShown(blur, |comments|),
      commentListShown := !blur,
      composerShown := !blur && viewer.Some?)
  }

  /** A premium post without media, seen by a non-subscriber, is locked
      but offers no way to subscribe from the page: the Subscribe button
      lives in the media overlay, which is not rendered. */
  lemma TextOnlyPremiumOffersNoSubscribe(post: Post, viewer: Option<User>)
    requires !post.isPublic && |post.Media()| == 0
    ensures var v := Render(post, false, viewer, 0, []);
            !v.voteEnabled && v.titleBlurred && !v.unlockOverlay
  {
  }

  /** The like state of the page. */
  datatype VoteState = VoteState(isLiked: bool, voteCount: Option<int>, userVote: Option<int>)

  /** After loading, the heart is filled exactly when the viewer's stored
      vote is an upvote. */
  function Loaded(post: Post): (s: VoteState)
    ensures s.isLiked <==> post.userVote == Some(1)
    ensures s.voteCount == post.voteCount && s.userVote == post.userVote
  {
    VoteState(post.userVote == Some(1), post.voteCount, post.userVote)
  }

  function LikedAsInt(s: VoteState): int {
    if s.isLiked then 1 else 0
  }

  /** `handleVote(value)` as written: after the call succeeds the heart
      follows `value == 1` while the count moves by -1 if the heart WAS
      filled and +1 otherwise. A failed call changes nothing. */
  function HandleVoteAsWritten(s: VoteState, value: VoteValue, call: Attempt<()>): (r: VoteState)
    ensures call.Rejected? ==> r == s
    ensures call.Resolved? ==> r.isLiked == (value == 1) && r.userVote == Some(value)
    ensures call.Resolved? ==> r.voteCount.Some? && r.voteCount.value - s.voteCount.GetOr(0) == if s.isLiked then -1 else 1
  {
    if call.Rejected? then s
    else VoteState(value == 1, Some(s.voteCount.GetOr(0) + (if s.isLiked then -1 else 1)), Some(value))
  }

  /** Liking an already liked post (the only vote the page's button sends)
      keeps the heart filled but takes one off the count: three likes from a
      count of 5 leave 4 with the heart filled. */
  lemma AsWrittenRepeatedLikesDrift()
    ensures var s0 := VoteState(false, Some(5), None);
            var s1 := HandleVoteAsWritten(s0, 1, Resolved(()));
            var s2 := HandleVoteAsWritten(s1, 1, Resolved(()));
            var s3 := HandleVoteAsWritten(s2, 1, Resolved(()));
            s1.voteCount == Some(6) && s3.voteCount == Some(4) && s3.isLiked
  {
  }

  /** The count with the viewer's own like taken out. */
  function Baseline(s: VoteState): int {
    s.voteCount.GetOr(0) - LikedAsInt(s)
  }

  /** `handleVote(value)` with the count moved to match the heart: +1 when
      it becomes filled, -1 when it empties, 0 when it does not change. */
  function HandleVote(s: VoteState, value: VoteValue, call: Attempt<()>): (r: VoteState)
    ensures call.Rejected? ==> r == s
    ensures call.Resolved? ==> r.isLiked == (value == 1) && r.userVote == Some(value)
    ensures Baseline(r) == Baseline(s)
    ensures r.voteCount.GetOr(0) - s.voteCount.GetOr(0) in {-1, 0, 1}
  {
    if call.Rejected? then s
    else
      var liked := value == 1;
      var delta := (if liked then 1 else 0) - LikedAsInt(s);
      VoteState(liked, Some(s.voteCount.GetOr(0) + delta), Some(value))
  }

  /** A vote request and the server's answer to it. */
  datatype VoteRound = VoteRound(value: VoteValue, call: Attempt<()>)

  function ReplayVotes(s: VoteState, rounds: seq<VoteRound>): VoteState
    decreases |rounds|
  {
    if |rounds| == 0 then s
    else ReplayVotes(HandleVote(s, rounds[0].value, rounds[0].call), rounds[1..])
  }

  /** However many votes go through or fail, the displayed count is the
      loaded baseline plus one exactly when the heart is filled. */
  lemma {:induction false} ReplayKeepsBaseline(s: VoteState, rounds: seq<VoteRound>)
    ensures Baseline(ReplayVotes(s, rounds)) == Baseline(s)
    ensures var e := ReplayVotes(s, rounds);
            e.voteCount.GetOr(0) == Baseline(s) + LikedAsInt(e)
    decreases |rounds|
  {
    if |rounds| > 0 {
      ReplayKeepsBaseline(HandleVote(s, rounds[0].value, rounds[0].call), rounds[1..]);
    }
  }

  /** The repeated-like session under the corrected handler: 6, heart filled. */
  lemma CorrectedRepeatedLikesStable()
    ensures var s0 := VoteState(false, Some(5), None);
            var s3 := HandleVote(HandleVote(HandleVote(s0, 1, Resolved(())), 1, Resolved(())), 1, Resolved(()));
            s3.voteCount == Some(6) && s3.isLiked
  {
  }

  /** The comment section: the loaded list (newest first) and the input. */
  datatype CommentBox = CommentBox(comments: seq<Comment>, input: string)

  datatype CommentOutcome = CommentOutcome(box: CommentBox, requested: bool)

  /** `handleAddComment()`: blank input is ignored without a request; a
      created comment goes on top of the list and the input is cleared; a
      failed request leaves list and input as they were. */
  function HandleAddComment(b: CommentBox, call: Attempt<Comment>): (r: CommentOutcome)
    ensures r.requested <==> !Js.IsBlank(b.input)
    ensures !r.requested ==> r.box == b
    ensures r.requested && call.Rejected? ==> r.box == b
    ensures r.requested && call.Resolved? ==>
      && |r.box.comments| == |b.comments| + 1
      && r.box.comments[0] == call.value
      && r.box.comments[1..] == b.comments
      && r.box.input == ""
  {
    if Js.IsBlank(b.input) then CommentOutcome(b, false)
    else match call
      case Rejected(_) => CommentOutcome(b, true)
      case Resolved(c) => CommentOutcome(CommentBox([c] + b.comments, ""), true)
  }
  /** One submission from the composer: what was typed, and how the
      request went if one was made. */
  datatype CommentRound = CommentRound(input: string, call: Attempt<Comment>)

  /** The comment list after a run of submissions, each typed into the box
      left by the previous one. */
  function ReplayComments(b: CommentBox, rounds: seq<CommentRound>): CommentBox
    decreases |rounds|
  {
    if |rounds| == 0 then b
    else ReplayComments(HandleAddComment(b.(input := rounds[0].input), rounds[0].call).box, rounds[1..])
  }

  /** The comments a run creates, newest first: one per submission with a
      non-blank input whose request succeeded. */
  function Added(rounds: seq<CommentRound>): seq<Comment>
    decreases |rounds|
  {
    if |rounds| == 0 then []
    else
      var r := rounds[0];
      Added(rounds[1..]) + (if !Js.IsBlank(r.input) && r.call.Resolved? then [r.call.value] else [])
  }

  /** Over any run of submissions the loaded list survives unchanged at
      the bottom, topped by exactly the created comments in reverse order
      of submission. */
  lemma {:induction false} ReplayCommentsStacks(b: CommentBox, rounds: seq<CommentRound>)
    ensures ReplayComments(b, rounds).comments == Added(rounds) + b.comments
    ensures |Added(rounds)| <= |rounds|
    decreases |rounds|
  {
    if |rounds| > 0 {
      var r := rounds[0];
      var b1 := HandleAddComment(b.(input := r.input), r.call).box;
      ReplayCommentsStacks(b1, rounds[1..]);
      var acc := if !Js.IsBlank(r.input) && r.call.Resolved? then [r.call.value] else [];
      assert b1.comments == acc + b.comments;
      assert Added(rounds[1..]) + (acc + b.comments) == (Added(rounds[1..]) + acc) + b.comments;
    }
  }


  /** The overlay's "Subscribe Now": without a creator id nothing happens;
      a successful subscribe unlocks the page, a failure keeps it locked. */
  function HandleSubscribe(isSubscribed: bool, creator: Option<User>, call: Attempt<Subscription>): (r: bool)
    ensures creator.None? || creator.value.id == "" || call.Rejected? ==> r == isSubscribed
    ensures creator.Some? && creator.value.id != "" && call.Resolved? ==> r
  {
    if creator.None? || creator.value.id == "" then isSubscribed
    else if call.Resolved? then true
    else isSubscribed
  }
}
