/** The premium-content access rule, stated once. A viewer may see and
    interact with a post when the post is public, when the viewer created
    it, or when the (logged-in) viewer holds an active subscription to its
    creator. The components write the same rule as a blur predicate over an
    `isSubscribed` flag that each page derives its own way. */
module Access {
  import opened Outcomes
  import opened Types

  /** What the viewer may do with one post. */
  datatype ContentAccess = ContentAccess(canViewMedia: bool, canViewFullText: bool, canInteract: bool)

  /** The viewer is logged in and is the post's creator. */
  predicate IsOwner(post: Post, viewer: Option<UserId>) {
    viewer == Some(post.creatorId)
  }

  /** The single rule. An anonymous viewer has no subscription, whatever
      `subActive` says. */
  predicate Allowed(post: Post, viewer: Option<UserId>, subActive: bool) {
    post.isPublic || IsOwner(post, viewer) || (viewer.Some? && subActive)
  }

  /** The evaluator: one all-or-nothing decision for media, text and
      interaction. */
  function Evaluate(post: Post, viewer: Option<UserId>, subActive: bool): (a: ContentAccess)
    ensures a.canViewMedia == a.canViewFullText == a.canInteract
    ensures post.isPublic ==> a.canViewMedia
    ensures IsOwner(post, viewer) ==> a.canViewMedia
    ensures !post.isPublic && !IsOwner(post, viewer) && viewer.Some? ==> (a.canViewMedia <==> subActive)
    ensures viewer.None? ==> (a.canViewMedia <==> post.isPublic)
  {
    var g := Allowed(post, viewer, subActive);
    ContentAccess(g, g, g)
  }

  /** The blur predicate the components compute: `!isPublic && !isSubscribed`. */
  function ShouldBlur(post: Post, isSubscribed: bool): (blur: bool)
    ensures blur ==> !post.isPublic
    ensures post.isPublic || isSubscribed ==> !blur
    ensures !post.isPublic && !isSubscribed ==> blur
  {
    !post.isPublic && !isSubscribed
  }

  /** For a public post or the creator's own post the subscription status
      is irrelevant, so it need not be fetched at all. */
  lemma SubscriptionIrrelevantWhenPublicOrOwned(post: Post, viewer: Option<UserId>)
    requires post.isPublic || IsOwner(post, viewer)
    ensures Evaluate(post, viewer, true) == Evaluate(post, viewer, false)
    ensures Evaluate(post, viewer, false).canViewMedia
  {
  }

  /** Premium content denied to a logged-in non-owner is unlocked by a
      subscription and by nothing else. */
  lemma SubscriptionIsTheOnlyKey(post: Post, viewer: UserId, subActive: bool)
    requires !post.isPublic && viewer != post.creatorId
    ensures Evaluate(post, Some(viewer), subActive).canViewMedia <==> subActive
  {
  }

  /** The blur predicate is the negation of the rule once `isSubscribed`
      stands for "owner, or a logged-in subscriber". */
  lemma BlurIsDenial(post: Post, viewer: Option<UserId>, subActive: bool)
    ensures ShouldBlur(post, IsOwner(post, viewer) || (viewer.Some? && subActive))
            <==> !Evaluate(post, viewer, subActive).canViewMedia
  {
  }
}
