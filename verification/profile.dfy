/** The profile page: it knows whether the viewer is on their own profile,
    checks the subscription only on someone else's, and passes
    `isOwnProfile || isSubscribed` to every post card. */
module Profile {
  import opened Outcomes
  import opened Types
  import SubscriptionService

  /** `currentUser?.id === userId` for a route that names a user: an
      anonymous viewer owns no profile. */
  function IsOwnProfile(currentUser: Option<User>, userId: UserId): (own: bool)
    ensures own ==> currentUser.Some?
    ensures currentUser.None? ==> !own
    ensures currentUser.Some? ==> (own <==> currentUser.value.id == userId)
  {
    currentUser.Some? && currentUser.value.id == userId
  }

  /** The page's subscription flag and whether the service was asked. */
  datatype ProfileState = ProfileState(isSubscribed: bool, queried: bool)

  /** The mount effect. `isSubscribed` starts false; on another user's
      profile the service's status check is made and its answer replaces
      the flag (the check itself never fails, answering false on any
      error). On one's own profile nothing is asked. The check is made for
      anonymous viewers too. */
  function Load(currentUser: Option<User>, userId: UserId, t: SubscriptionService.Transport<SubscriptionService.CheckPayload>): (s: ProfileState)
    ensures s.queried <==> !IsOwnProfile(currentUser, userId)
    ensures !s.queried ==> !s.isSubscribed
    ensures s.queried ==> (s.isSubscribed <==> t.Delivered? && t.response.success && t.response.data.Some? && t.response.data.value.active == Some(true))
  {
    if IsOwnProfile(currentUser, userId) then ProfileState(false, false)
    else ProfileState(SubscriptionService.CheckSubscription(t), true)
  }

  /** The `isSubscribed` argument every post card on the page receives. */
  function CardGate(currentUser: Option<User>, userId: UserId, s: ProfileState): (g: bool)
    ensures IsOwnProfile(currentUser, userId) ==> g
    ensures !IsOwnProfile(currentUser, userId) ==> g == s.isSubscribed
  {
    IsOwnProfile(currentUser, userId) || s.isSubscribed
  }

  /** `handleSubscribe()`: success sets the flag, failure keeps it. */
  function HandleSubscribe(s: ProfileState, call: Attempt<Subscription>): (r: ProfileState)
    ensures call.Resolved? ==> r.isSubscribed
    ensures call.Rejected? ==> r == s
    ensures r.queried == s.queried
  {
    if call.Resolved? then s.(isSubscribed := true) else s
  }

  /** `handleUnsubscribe()`: success clears the flag, failure keeps it. */
  function HandleUnsubscribe(s: ProfileState, call: Attempt<()>): (r: ProfileState)
    ensures call.Resolved? ==> !r.isSubscribed
    ensures call.Rejected? ==> r == s
    ensures r.queried == s.queried
  {
    if call.Resolved? then s.(isSubscribed := false) else s
  }

  /** The toggle's action: unsubscribe when subscribed, subscribe otherwise. */
  function Toggle(s: ProfileState, subscribe: Attempt<Subscription>, unsubscribe: Attempt<()>): (r: ProfileState)
    ensures s.isSubscribed ==> (r.isSubscribed <==> unsubscribe.Rejected?)
    ensures !s.isSubscribed ==> (r.isSubscribed <==> subscribe.Resolved?)
    ensures r.queried == s.queried
    ensures s.isSubscribed && unsubscribe.Rejected? ==> r == s
    ensures !s.isSubscribed && subscribe.Rejected? ==> r == s
  {
    if s.isSubscribed then HandleUnsubscribe(s, unsubscribe) else HandleSubscribe(s, subscribe)
  }

  /** A successful subscribe followed by a successful unsubscribe returns
      the page to where it was, and so does the reverse order. */
  lemma SubscribeUnsubscribeRoundTrip(s: ProfileState, sub: Subscription)
    ensures !s.isSubscribed ==> HandleUnsubscribe(HandleSubscribe(s, Resolved(sub)), Resolved(())) == s
    ensures s.isSubscribed ==> HandleSubscribe(HandleUnsubscribe(s, Resolved(())), Resolved(sub)) == s
  {
  }

  /** Two toggles whose calls succeed cancel out; a toggle whose call
      fails is undone by nothing, because it did nothing. */
  lemma ToggleTwiceRestores(s: ProfileState, sub: Subscription, msg: string)
    ensures Toggle(Toggle(s, Resolved(sub), Resolved(())), Resolved(sub), Resolved(())) == s
    ensures Toggle(s, Rejected(msg), Rejected(msg)) == s
  {
  }

  /** The subscribe toggle as written: another user's profile whose role
      string equals the lowercase "creator". */
  predicate ShowToggleAsWritten(currentUser: Option<User>, profileUser: User) {
    !IsOwnProfile(currentUser, profileUser.id) && RoleName(profileUser.role) == "creator"
  }

  /** No role is spelled "creator", so the toggle (and with it the Creator
      badge and the About tab, which use the same comparison) never shows. */
  lemma AsWrittenToggleNeverShown(currentUser: Option<User>, profileUser: User)
    ensures !ShowToggleAsWritten(currentUser, profileUser)
  {
    var n := RoleName(profileUser.role);
    assert n[0] != "creator"[0];
  }

  /** The toggle as evidently intended: another user's profile whose role
      is CREATOR. */
  predicate ShowToggle(currentUser: Option<User>, profileUser: User) {
    !IsOwnProfile(currentUser, profileUser.id) && profileUser.role == CREATOR
  }

  /** The corrected toggle is shown exactly on creators' profiles other
      than one's own, and for every such profile it is. */
  lemma ToggleShownExactlyOnOtherCreators(currentUser: Option<User>, profileUser: User)
    ensures ShowToggle(currentUser, profileUser) <==>
      profileUser.role == CREATOR && (currentUser.None? || currentUser.value.id != profileUser.id)
    ensures ShowToggle(currentUser, profileUser) ==> RoleName(profileUser.role) == "CREATOR"
  {
  }

  /** A click on the toggle as written: it reaches the toggle's action
      only when the as-written condition renders the button. */
  function ClickToggleAsWritten(currentUser: Option<User>, profileUser: User, s: ProfileState,
                                subscribe: Attempt<Subscription>, unsubscribe: Attempt<()>): ProfileState
  {
    if ShowToggleAsWritten(currentUser, profileUser) then Toggle(s, subscribe, unsubscribe) else s
  }

  /** As written, no click on any profile ever changes the subscription
      flag, because the button is never rendered. */
  lemma AsWrittenClickChangesNothing(currentUser: Option<User>, profileUser: User, s: ProfileState,
                                     subscribe: Attempt<Subscription>, unsubscribe: Attempt<()>)
    ensures ClickToggleAsWritten(currentUser, profileUser, s, subscribe, unsubscribe) == s
  {
    AsWrittenToggleNeverShown(currentUser, profileUser);
  }

  /** A click on the corrected toggle: without the toggle rendered nothing
      happens; with it, the toggle's action runs. */
  function ClickToggle(currentUser: Option<User>, profileUser: User, s: ProfileState,
                       subscribe: Attempt<Subscription>, unsubscribe: Attempt<()>): (r: ProfileState)
    ensures !ShowToggle(currentUser, profileUser) ==> r == s
    ensures ShowToggle(currentUser, profileUser) && subscribe.Resolved? && unsubscribe.Resolved? ==>
      r.isSubscribed == !s.isSubscribed
    ensures ShowToggle(currentUser, profileUser) && s.isSubscribed && unsubscribe.Rejected? ==> r == s
    ensures ShowToggle(currentUser, profileUser) && !s.isSubscribed && subscribe.Rejected? ==> r == s
  {
    if ShowToggle(currentUser, profileUser) then Toggle(s, subscribe, unsubscribe) else s
  }
}
