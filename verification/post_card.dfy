/** The post card shown in feeds and on profiles: what it renders for a
    post given the `isSubscribed` flag its parent passes (default false),
    and how it reacts to clicks. */
module PostCard {
  import opened Outcomes
  import opened Types
  import Access
  import Carousel

  /** The gated parts of a rendered card. */
  datatype CardView = CardView(
    premiumBadge: bool,
    mediaBlurred: bool,
    unlockOverlay: bool,
    videoControls: bool,
    carouselControls: bool,
    titleBlurred: bool,
    descriptionBlurred: bool,
    unlockNotice: bool,
    voteEnabled: bool,
    commentEnabled: bool,
    shareEnabled: bool,
    voteLabel: CountLabel,
    commentLabel: CountLabel)

  /** The value of the `isSubscribed` prop when the parent omits it. */
  const DefaultIsSubscribed := false


  /** Renders the card with the carousel on item `idx`. When blurred,
      every affordance is locked: vote/comment/share disabled, counts shown
      as '?', description blurred, no carousel controls. The media block,
      and with it the blur and the lock overlay, exists only when the post
      has media; the video controls exist only on a video item of open
      content. The title is never blurred on the card. */
  function Render(post: Post, isSubscribed: bool, idx: int): (v: CardView)
    requires Carousel.Valid(idx, |post.Media()|)
    ensures v.mediaBlurred <==> |post.Media()| > 0 && Access.ShouldBlur(post, isSubscribed)
    ensures v.unlockOverlay <==> |post.Media()| > 0 && Access.ShouldBlur(post, isSubscribed)
    ensures v.videoControls <==> post.VideoAt(idx) && !Access.ShouldBlur(post, isSubscribed)
    ensures Access.ShouldBlur(post, isSubscribed) ==>
      && v.descriptionBlurred && v.unlockNotice
      && !v.voteEnabled && !v.commentEnabled && !v.shareEnabled
      && v.voteLabel == Hidden && v.commentLabel == Hidden
      && !v.carouselControls
    ensures !Access.ShouldBlur(post, isSubscribed) ==>
      && !v.descriptionBlurred && !v.unlockNotice
      && v.voteEnabled && v.commentEnabled && v.shareEnabled
      && v.voteLabel == Count(post.Likes()) && v.commentLabel == Count(post.CommentCount())
    ensures !v.titleBlurred
    ensures v.premiumBadge <==> !post.isPublic
    ensures v.carouselControls <==> |post.Media()| > 1 && !Access.ShouldBlur(post, isSubscribed)
  {
    var blur := Access.ShouldBlur(post, isSubscribed);
    var hasMedia := |post.Media()| > 0;
    CardView(
      premiumBadge := !post.isPublic,
      mediaBlurred := hasMedia && blur,
      unlockOverlay := hasMedia && blur,
      videoControls := hasMedia && post.Media()[idx].mediaType == Video && !blur,
      carouselControls := Carousel.ControlsShown(|post.Media()|, blur),
      titleBlurred := false,
      descriptionBlurred := blur,
      unlockNotice := blur,
      voteEnabled := !blur,
      commentEnabled := !blur,
      shareEnabled := !blur,
      voteLabel := CountShown(blur, post.Likes()),
      commentLabel := CountShown(blur, post.CommentCount()))
  }

  /** With the prop omitted, a premium post is locked and a public one is
      open: the card fails closed. */
  lemma DefaultLocksPremium(post: Post)
    ensures Render(post, DefaultIsSubscribed, 0).voteEnabled <==> post.isPublic
    ensures |post.Media()| > 0 ==> (Render(post, DefaultIsSubscribed, 0).mediaBlurred <==> !post.isPublic)
  {
  }

  /** The card's own state: carousel cursor and the liked heart. */
  datatype CardState = CardState(idx: int, isLiked: bool)

  const Initial := CardState(0, false)

  /** A click on the card. */
  datatype Click = VoteButton(value: VoteValue) | CommentButton | MediaControl(g: Carousel.Gesture)

  /** A callback the card invokes on its parent. */
  datatype Callback = OnVote(postId: PostId, value: VoteValue) | OnComment(postId: PostId)

  datatype Reaction = Reaction(state: CardState, callbacks: seq<Callback>)

  /** `handleVote(value)`: the heart fills exactly for an upvote, and the
      vote is forwarded to `onVote` when the parent supplied one. */
  function HandleVote(s: CardState, post: Post, value: VoteValue, hasOnVote: bool): (r: Reaction)
    ensures r.state.isLiked <==> value == 1
    ensures r.state.idx == s.idx
    ensures r.callbacks == if hasOnVote then [OnVote(post.id, value)] else []
  {
    Reaction(s.(isLiked := value == 1), if hasOnVote then [OnVote(post.id, value)] else [])
  }

  /** One click. Disabled buttons and controls that are not rendered do
      nothing; so on a blurred card no click changes anything or reaches
      the parent. */
  function Apply(s: CardState, post: Post, isSubscribed: bool, hasOnVote: bool, hasOnComment: bool, c: Click): (r: Reaction)
    requires Carousel.Valid(s.idx, |post.Media()|)
    ensures Carousel.Valid(r.state.idx, |post.Media()|)
    ensures Access.ShouldBlur(post, isSubscribed) ==> r == Reaction(s, [])
    ensures !Access.ShouldBlur(post, isSubscribed) && c.VoteButton? ==>
      r.state.isLiked == (c.value == 1) && (hasOnVote ==> r.callbacks == [OnVote(post.id, c.value)])
    ensures |r.callbacks| <= 1
    ensures forall cb :: cb in r.callbacks ==> cb.postId == post.id
  {
    var v := Render(post, isSubscribed, s.idx);
    match c
    case VoteButton(value) =>
      if v.voteEnabled then HandleVote(s, post, value, hasOnVote) else Reaction(s, [])
    case CommentButton =>
      if v.commentEnabled && hasOnComment then Reaction(s, [OnComment(post.id)]) else Reaction(s, [])
    case MediaControl(g) =>
      var blur := Access.ShouldBlur(post, isSubscribed);
      Reaction(s.(idx := Carousel.Step(s.idx, |post.Media()|, blur, g)), [])
  }

  /** A whole session of clicks on one card: the cursor stays on an item,
      and on a blurred card nothing ever reaches the parent. */
  method Session(post: Post, isSubscribed: bool, hasOnVote: bool, hasOnComment: bool, clicks: seq<Click>)
    returns (s: CardState, sent: seq<Callback>)
    ensures Carousel.Valid(s.idx, |post.Media()|)
    ensures Access.ShouldBlur(post, isSubscribed) ==> s == Initial && sent == []
    ensures |sent| <= |clicks|
    ensures forall cb :: cb in sent ==> cb.postId == post.id
  {
    s := Initial;
    sent := [];
    var k := 0;
    while k < |clicks|
      invariant 0 <= k <= |clicks|
      invariant Carousel.Valid(s.idx, |post.Media()|)
      invariant Access.ShouldBlur(post, isSubscribed) ==> s == Initial && sent == []
      invariant |sent| <= k
      invariant forall cb :: cb in sent ==> cb.postId == post.id
    {
      var r := Apply(s, post, isSubscribed, hasOnVote, hasOnComment, clicks[k]);
      s := r.state;
      sent := sent + r.callbacks;
      k := k + 1;
    }
  }
}
