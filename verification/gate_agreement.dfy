/** How each page's own derivation of `isSubscribed` compares with the
    single access rule: the post detail page and the profile page agree
    with it for logged-in viewers, the dashboard agrees on the creator's
    own posts, and the home feed's constant bypasses it. */
module GateAgreement {
  import opened Outcomes
  import opened Types
  import Access
  import PostCard
  import PostDetail
  import Profile
  import Dashboard
  import SubscriptionService

  function ViewerId(u: Option<User>): (r: Option<UserId>)
    ensures r.Some? <==> u.Some?
    ensures r.Some? ==> r.value == u.value.id
  {
    if u.Some? then Some(u.value.id) else None
  }

  /** Post detail: for a post with a creator id, when the viewer known
      at mount is the viewer at render, the page blurs exactly what the
      rule denies, taking the service's answer as the subscription status;
      and every gated affordance follows. */
  lemma DetailAgrees(post: Post, viewer: Option<User>, t: SubscriptionService.Transport<SubscriptionService.CheckPayload>)
    requires post.creatorId != ""
    ensures var s := PostDetail.CheckSubscriptionStatus(post, viewer, t).isSubscribed;
            var a := Access.Evaluate(post, ViewerId(viewer), SubscriptionService.CheckSubscription(t));
            && (Access.ShouldBlur(post, s) <==> !a.canViewMedia)
            && (PostDetail.Render(post, s, viewer, 0, []).voteEnabled <==> a.canInteract)
            && (PostDetail.Render(post, s, viewer, 0, []).titleBlurred <==> !a.canViewFullText)
            && (PostDetail.Render(post, s, viewer, 0, []).commentListShown <==> a.canViewFullText)
  {
    var s := PostDetail.CheckSubscriptionStatus(post, viewer, t).isSubscribed;
    if viewer.Some? && viewer.value.id != post.creatorId {
      assert s == SubscriptionService.CheckSubscription(t);
    }
  }

  /** Post detail after "Subscribe Now" (for the post's own creator): when
      the service returns an active subscription of this viewer, the page's
      flag unlocks exactly what the rule now allows, and voting opens. When
      the call fails on a locked page, the page stays locked, as the rule
      demands of a non-owner without a subscription. */
  lemma DetailSubscribeAgrees(post: Post, viewer: User, creator: User, isSubscribed: bool, call: Attempt<Subscription>)
    requires creator.id == post.creatorId && creator.id != ""
    ensures call.Resolved? && call.value.subscriberId == viewer.id && call.value.creatorId == post.creatorId && call.value.isActive ==>
            var r := PostDetail.HandleSubscribe(isSubscribed, Some(creator), call);
            && (Access.ShouldBlur(post, r) <==> !Access.Evaluate(post, Some(viewer.id), call.value.isActive).canViewMedia)
            && PostDetail.Render(post, r, Some(viewer), 0, []).voteEnabled
    ensures call.Rejected? && !isSubscribed && !post.isPublic && viewer.id != post.creatorId ==>
            var r := PostDetail.HandleSubscribe(isSubscribed, Some(creator), call);
            && Access.ShouldBlur(post, r)
            && !Access.Evaluate(post, Some(viewer.id), false).canViewMedia
            && !PostDetail.Render(post, r, Some(viewer), 0, []).voteEnabled
  {
  }

  /** Post detail on a cold load: the status check runs once per post with
      the user known at mount, which is still none while the session is
      being restored. A premium post is then locked for good, even for its
      owner or an active subscriber whom the rule allows once the session
      arrives. */
  lemma DetailColdLoadLocks(post: Post, user: User, t: SubscriptionService.Transport<SubscriptionService.CheckPayload>)
    requires !post.isPublic && post.creatorId != ""
    ensures var st := PostDetail.CheckSubscriptionStatus(post, None, t);
            && !st.queried && Access.ShouldBlur(post, st.isSubscribed)
            && !PostDetail.Render(post, st.isSubscribed, Some(user), 0, []).voteEnabled
    ensures user.id == post.creatorId ==> Access.Allowed(post, Some(user.id), false)
    ensures SubscriptionService.CheckSubscription(t) ==> Access.Allowed(post, Some(user.id), SubscriptionService.CheckSubscription(t))
  {
  }

  /** Post detail with an empty creator id: the page never asks the service
      and locks every premium post, so it is never looser than the rule. */
  lemma DetailWithoutCreatorIsStricter(post: Post, viewer: Option<User>, t: SubscriptionService.Transport<SubscriptionService.CheckPayload>)
    requires post.creatorId == ""
    ensures var st := PostDetail.CheckSubscriptionStatus(post, viewer, t);
            !st.queried && (Access.ShouldBlur(post, st.isSubscribed) <==> !post.isPublic)
    ensures var st := PostDetail.CheckSubscriptionStatus(post, viewer, t);
            !Access.ShouldBlur(post, st.isSubscribed) ==> Access.Allowed(post, ViewerId(viewer), SubscriptionService.CheckSubscription(t))
  {
  }

  /** Profile, logged-in viewer: every card on the page for the profile's
      posts is locked exactly when the rule denies, with the service's
      status check as the subscription status. */
  lemma ProfileAgrees(post: Post, currentUser: User, userId: UserId, t: SubscriptionService.Transport<SubscriptionService.CheckPayload>)
    requires post.creatorId == userId
    ensures var g := Profile.CardGate(Some(currentUser), userId, Profile.Load(Some(currentUser), userId, t));
            var ok := Access.Allowed(post, Some(currentUser.id), SubscriptionService.CheckSubscription(t));
            && (Access.ShouldBlur(post, g) <==> !ok)
            && (PostCard.Render(post, g, 0).voteEnabled <==> ok)
  {
  }

  /** Profile, anonymous viewer: the page still asks the service and
      trusts the answer, so it agrees with the rule exactly when the post is
      public or the check does not come back true. */
  lemma ProfileAnonymous(post: Post, userId: UserId, t: SubscriptionService.Transport<SubscriptionService.CheckPayload>)
    requires post.creatorId == userId
    ensures var g := Profile.CardGate(None, userId, Profile.Load(None, userId, t));
            (Access.ShouldBlur(post, g) <==> !Access.Allowed(post, None, true))
            <==> post.isPublic || !SubscriptionService.CheckSubscription(t)
  {
  }

  /** Dashboard: the constant `true` agrees with the rule on the creator's
      own posts, whatever the subscription status. */
  lemma DashboardAgreesOnOwnPosts(post: Post, creator: UserId, subActive: bool)
    requires post.creatorId == creator
    ensures Access.ShouldBlur(post, Dashboard.CardGate(post)) <==> !Access.Allowed(post, Some(creator), subActive)
  {
  }

  /** The home feed bypasses the gate: it passes the constant `true` as
      every card's subscription flag, so a premium post by someone else,
      seen by a logged-in viewer without a subscription, is denied by the
      rule yet shown unlocked, votes and all. */
  lemma HomeFeedBypassesGate(post: Post, viewer: UserId)
    requires !post.isPublic && viewer != post.creatorId
    ensures !Access.Allowed(post, Some(viewer), false)
    ensures var v := PostCard.Render(post, true, 0);
            v.voteEnabled && !v.mediaBlurred && !v.unlockOverlay && (v.videoControls <==> post.VideoAt(0))
  {
  }

  /** The reference scenarios: a premium post by "c1" is locked for "u2"
      without a subscription, open with one, and open to "c1" either way;
      a public post is open to anyone, anonymous viewers included. */
  lemma Scenarios()
    ensures var post := Post(1, "c1", None, None, false, None, None, None, None);
            && Access.Evaluate(post, Some("u2"), false) == Access.ContentAccess(false, false, false)
            && Access.Evaluate(post, Some("u2"), true) == Access.ContentAccess(true, true, true)
            && Access.Evaluate(post, Some("c1"), false) == Access.ContentAccess(true, true, true)
            && Access.Evaluate(post, Some("c1"), true) == Access.ContentAccess(true, true, true)
            && Access.Evaluate(post.(isPublic := true), None, false) == Access.ContentAccess(true, true, true)
  {
  }
}
