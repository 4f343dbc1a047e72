# Premium-content gate of a subscription-platform web client, in Dafny

This project models the decision logic of a React client for a paid-content
platform. Creators publish posts that are either public or premium. A
premium post is shown blurred, with its interactions locked, unless the
viewer created it or holds an active subscription to its creator. The model
covers:

- **The access gate.** One rule, `Access.Allowed`, with its evaluator
  `Access.Evaluate`. The components write the rule as `!isPublic && !isSubscribed`
  (`Access.ShouldBlur`). Each page derives `isSubscribed` in its own way:
  - the post detail page checks for an owner first, then asks the service;
  - the profile page passes `isOwnProfile || isSubscribed`;
  - the dashboard and the home feed pass the constant `true`.

  `GateAgreement` proves where each of these derivations agrees with the
  rule and where it departs from it.
- **Rendering.** The gated affordances of the post card and the detail page:
  - blurred media, description and (on the detail page only) title;
  - disabled vote, comment and share buttons;
  - `?` in place of counts;
  - hidden comment list and composer;
  - hidden carousel controls.
- **The carousel cursor.** A cursor clamped to the media list (`Carousel`).
- **State updates in the pages.** The subscribed-creator set on the explore
  page, the subscription list, comments, votes and the dashboard aggregates.
- **The subscription service.** How it unwraps each response, and why its
  status check fails closed.
- **The validators.** The post, profile, password and registration form
  schemas; the media-file picker; the picture pickers; and the order of the
  profile save requests.

Network results are inputs to the model:
- `SubscriptionService.Transport` is an HTTP call that either threw or
  delivered a response body;
- `Outcomes.Attempt` is an awaited call that either rejected or resolved.

Email format validation is a function parameter `isEmail`.

## Model

| member | source | states |
|---|---|---|
| SubscriptionService.Unwrap | src/services/subscriptionService.ts:10-14 | The payload comes back exactly when the reply says success and carries a payload. Otherwise the error is the server's message, or the fallback when that message is missing or empty. A thrown client error propagates unchanged |
| SubscriptionService.Subscribe | src/services/subscriptionService.ts:5-15 | Resolves exactly on success with a payload. A failure carries the server message or "Failed to subscribe" |
| SubscriptionService.Unsubscribe | src/services/subscriptionService.ts:17-23 | Fails exactly when the client threw or the reply's success flag is false. The payload is never inspected |
| SubscriptionService.GetMySubscriptions | src/services/subscriptionService.ts:25-35 | Follows the same unwrap rule as subscribe, with its own fallback message |
| SubscriptionService.GetCreatorSubscriptions | src/services/subscriptionService.ts:37-47 | Follows the same unwrap rule as subscribe, with its own fallback message |
| SubscriptionService.CheckSubscription | src/services/subscriptionService.ts:49-61 | True exactly for a successful reply whose payload has `active === true`. A thrown error reads as false, so the check never fails |
| SubscriptionService.CheckImpliesUnwrapActive | src/services/subscriptionService.ts:49-61 | The check is true exactly when the same reply would unwrap to a payload marked active |
| SubscriptionService.CheckFailsClosed | src/services/subscriptionService.ts:56-60 | Every reply that does not unwrap reads as not subscribed |
| Types.RoleName | src/types/index.ts:7 | The three role spellings are upper-case words |
| Types.RoleNameInjective | src/types/index.ts:7 | Distinct roles have distinct spellings |
| Access.Evaluate | src/components/Post/PostCard.tsx:50 | Media, full text and interaction share one decision. It grants every public post and the owner's own post. For a logged-in non-owner it equals the subscription status. An anonymous viewer sees public posts only |
| Access.ShouldBlur | src/components/Post/PostCard.tsx:50 | Content blurs exactly for a premium post when the flag is false. A public post or a set flag never blurs |
| Access.SubscriptionIrrelevantWhenPublicOrOwned | src/pages/PostDetailPage.tsx:80-84 | For a public post or the viewer's own post the decision does not depend on the subscription status, so no check is needed |
| Access.SubscriptionIsTheOnlyKey | src/pages/PostDetailPage.tsx:185-186 | For a premium post and a logged-in non-owner, access holds exactly when a subscription is active |
| Access.BlurIsDenial | src/pages/PostDetailPage.tsx:186 | `!isPublic && !isSubscribed` is the negation of the rule when `isSubscribed` means "owner, or a logged-in subscriber" |
| Carousel.Next | src/components/Post/PostCard.tsx:37-41 | Moves a valid cursor to `min(idx+1, n-1)` and keeps it valid. At the last item it does nothing |
| Carousel.Prev | src/components/Post/PostCard.tsx:43-47 | Moves the cursor to `max(idx-1, 0)`. It never goes negative |
| Carousel.Select | src/components/Post/PostCard.tsx:153-164 | A dot sets the cursor to its own position, which lies in `[0, n)` |
| Carousel.DisabledIffNoOp | src/components/Post/PostCard.tsx:130-148 | An arrow is disabled exactly when clicking it would do nothing |
| Carousel.NextPrevInverse | src/pages/PostDetailPage.tsx:173-183 | Away from the ends, next and previous undo each other |
| Carousel.Step | src/components/Post/PostCard.tsx:124 | A gesture keeps the cursor valid. Without rendered controls (one item, or blurred content) no gesture moves it |
| Carousel.ControlsShown | src/components/Post/PostCard.tsx:124 | Arrows and dots are shown exactly for at least two items of unblurred content |
| Carousel.Replay | src/components/Post/PostCard.tsx:37-164 | After any sequence of arrow and dot gestures from 0, the card's cursor is on an item. On blurred content or a single item it stays at 0. The detail page has the arrows but no dots |
| Carousel.ThreeItemWalk | src/pages/PostDetailPage.tsx:173-183 | With three items, next visits 0,1,2,2 and previous from 2 visits 2,1,0,0 |
| PostCard.Render | src/components/Post/PostCard.tsx:72-228 | When blurred, vote/comment/share are disabled, counts show '?', the description is blurred and there are no carousel controls. Otherwise all of these are open and the counts default to 0. Media blur and the lock overlay appear exactly when the post has media and is blurred. Video controls appear exactly on a video item of open content. The title is never blurred. The Premium badge appears exactly for non-public posts |
| PostCard.DefaultLocksPremium | src/components/Post/PostCard.tsx:20 | With the prop omitted, exactly the premium posts are locked |
| PostCard.HandleVote | src/components/Post/PostCard.tsx:28-31 | The heart fills exactly for an upvote. `(post.id, value)` is forwarded to `onVote` when a handler is supplied |
| PostCard.Apply | src/components/Post/PostCard.tsx:193-228 | On a blurred card no click changes state or reaches the parent. On an open card a vote sets the heart to `value == 1` and forwards the vote. At most one callback is made, and it always names this post |
| PostCard.Session | src/components/Post/PostCard.tsx:18-50 | After any sequence of clicks the cursor is on an item, every callback names this post, and a blurred card is still in its initial state having called nothing |
| PostDetail.CheckSubscriptionStatus | src/pages/PostDetailPage.tsx:74-95 | An empty creatorId or no user gives false without a call. The owner gets true without a call. Anyone else gets the service's answer, and a query happens exactly in that case |
| PostDetail.Render | src/pages/PostDetailPage.tsx:262-406 | When blurred, title and description are blurred, vote/comment/share are disabled, all counts (the comments header too) show '?', and the comment list, composer and carousel controls are hidden. Otherwise all of these are open. The vote count shows the post's count, or 0 when it is missing. Both comment counts show the length of the separately loaded comment list, not the post's embedded one. The composer shows exactly for a logged-in viewer. Media blur and the lock overlay with its Subscribe button appear exactly when the post has media and is blurred. Video controls appear exactly on a video item of open content |
| PostDetail.TextOnlyPremiumOffersNoSubscribe | src/pages/PostDetailPage.tsx:262-300 | A premium post without media, seen by a non-subscriber, is locked and shows no Subscribe button, because that button sits in the media overlay |
| PostDetail.Loaded | src/pages/PostDetailPage.tsx:57 | The heart starts filled exactly when the stored vote is +1 |
| PostDetail.HandleVoteAsWritten | src/pages/PostDetailPage.tsx:110-127 | As written: a failed vote changes nothing. A successful vote sets the heart to `value == 1` and `userVote` to the value, and moves the count by -1 if the heart was filled and +1 otherwise |
| PostDetail.AsWrittenRepeatedLikesDrift | src/pages/PostDetailPage.tsx:114-119 | Three likes from a count of 5 leave the count at 4 with the heart filled |
| PostDetail.HandleVote | src/pages/PostDetailPage.tsx:110-127 | Corrected: the heart and `userVote` follow the vote as before, but the count moves with the heart, so the count minus the viewer's own like is unchanged. A failed vote changes nothing |
| PostDetail.ReplayKeepsBaseline | src/pages/PostDetailPage.tsx:110-127 | After any run of successful or failed votes, the count equals the loaded baseline plus one exactly when the heart is filled |
| PostDetail.CorrectedRepeatedLikesStable | src/pages/PostDetailPage.tsx:110-127 | With the corrected handler, the three-like session ends at 6 with the heart filled |
| PostDetail.HandleAddComment | src/pages/PostDetailPage.tsx:129-148 | Whitespace-only input is ignored without a request. A created comment is put first, the old list follows unchanged, and the input is cleared. A failed request changes nothing |
| PostDetail.ReplayCommentsStacks | src/pages/PostDetailPage.tsx:129-148 | After any run of submissions the list is the created comments, newest first, on top of the loaded list unchanged. Only non-blank inputs whose request succeeded add a comment |
| PostDetail.HandleSubscribe | src/pages/PostDetailPage.tsx:150-171 | With no creator id nothing happens. A successful subscribe unlocks the page and a failure leaves it as it was |
| Profile.Load | src/pages/ProfilePage.tsx:29-74 | The service is asked exactly on someone else's profile, and the flag becomes the status check's answer (true only for a successful reply marked active). On one's own profile the flag stays false |
| Profile.IsOwnProfile | src/pages/ProfilePage.tsx:27 | An anonymous viewer owns no profile. A logged-in viewer owns exactly the profile with their id |
| Profile.CardGate | src/pages/ProfilePage.tsx:236 | On one's own profile every card is ungated. Elsewhere the card's gate is the subscription flag |
| Profile.HandleSubscribe | src/pages/ProfilePage.tsx:76-85 | Success sets the flag. Failure leaves the state unchanged |
| Profile.HandleUnsubscribe | src/pages/ProfilePage.tsx:87-96 | Success clears the flag. Failure leaves the state unchanged |
| Profile.Toggle | src/pages/ProfilePage.tsx:187 | When subscribed, the toggle consults only the unsubscribe call and the flag ends cleared exactly when that call succeeds. Otherwise it consults only subscribe and the flag ends set exactly when that call succeeds. A failed call changes nothing |
| Profile.SubscribeUnsubscribeRoundTrip | src/pages/ProfilePage.tsx:76-96 | A successful subscribe followed by a successful unsubscribe restores the state, and so does the reverse order |
| Profile.ToggleTwiceRestores | src/pages/ProfilePage.tsx:187 | Two toggles whose calls succeed restore the state. A toggle whose calls fail changes nothing |
| Profile.AsWrittenToggleNeverShown | src/pages/ProfilePage.tsx:185 | As written, the role is compared with lowercase "creator", so the toggle is never shown for any user |
| Profile.AsWrittenClickChangesNothing | src/pages/ProfilePage.tsx:185-192 | As written, no click on the toggle ever changes the page's state, since the button never renders |
| Profile.ToggleShownExactlyOnOtherCreators | src/pages/ProfilePage.tsx:174-192 | Corrected: the toggle shows exactly on a CREATOR's profile that is not the viewer's own |
| Profile.ClickToggle | src/pages/ProfilePage.tsx:174-192 | Corrected: with the toggle rendered under the CREATOR comparison, a click runs the toggle's action, so a successful call flips the flag and a failed call changes nothing. Without the toggle nothing changes |
| Explore.BuildSubscribedSet | src/pages/ExplorePage.tsx:31-42 | The set holds exactly the ids of creators whose index-aligned check is true |
| Explore.LoadCreators | src/pages/ExplorePage.tsx:25-48 | A fetched list replaces the creators and rebuilds the set from the checks. A failed fetch keeps both |
| Explore.HandleSubscribe | src/pages/ExplorePage.tsx:67-74 | Success adds the id and no other id changes. Failure changes nothing |
| Explore.HandleUnsubscribe | src/pages/ExplorePage.tsx:76-87 | Success removes the id and no other id changes. Failure changes nothing |
| Explore.SubscribeUnsubscribeRoundTrip | src/pages/ExplorePage.tsx:67-87 | Subscribing to a creator not in the set and then unsubscribing, both successfully, restores the state. Unsubscribing from one in the set and subscribing again does too |
| Explore.Toggle | src/pages/ExplorePage.tsx:327-330 | The button unsubscribes when the id is in the set and subscribes otherwise. A successful call flips the id's membership, a failed one changes nothing, and other ids never change |
| Explore.CreatorsOnly | src/pages/ExplorePage.tsx:59 | Keeps exactly the users whose role is CREATOR |
| Explore.CreatorsOnlyAppend | src/pages/ExplorePage.tsx:59 | The filter distributes over concatenation, so order is kept |
| Explore.CreatorsOnlyKeepsCreators | src/pages/ExplorePage.tsx:59 | A list of creators passes through unchanged |
| Explore.HandleSearch | src/pages/ExplorePage.tsx:50-65 | A blank or whitespace query reloads everything. Otherwise the list becomes the CREATOR-role results, in their order, or stays as it was on failure. The subscribed set is untouched |
| Explore.Featured | src/pages/ExplorePage.tsx:90 | Featured is the first three creators, or all of them if there are fewer |
| Explore.Trending | src/pages/ExplorePage.tsx:91 | Trending is creators 3 to 7 (at most five), and empty for three or fewer |
| Explore.Newest | src/pages/ExplorePage.tsx:348 | New is the last six creators, or all of them if there are fewer |
| Explore.FeaturedThenTrending | src/pages/ExplorePage.tsx:90-91 | Featured followed by trending is exactly the first eight creators |
| SubscriptionsList.WithoutCreator | src/pages/SubscriptionsPage.tsx:33 | Keeps exactly the subscriptions to other creators |
| SubscriptionsList.WithoutCreatorAppend | src/pages/SubscriptionsPage.tsx:33 | Removal distributes over concatenation, so the rest keep their order |
| SubscriptionsList.WithoutAbsentCreator | src/pages/SubscriptionsPage.tsx:33 | Removing a creator the list does not mention changes nothing |
| SubscriptionsList.HandleUnsubscribe | src/pages/SubscriptionsPage.tsx:30-37 | Success drops every subscription to that creator and keeps the others in order. Failure keeps the list |
| SubscriptionsList.ActiveCount | src/pages/SubscriptionsPage.tsx:194 | The count is at most the list length. It equals the length exactly when all entries are active, and is 0 exactly when none is |
| SubscriptionsList.ActiveCountAppend | src/pages/SubscriptionsPage.tsx:194 | The count adds up over concatenation |
| SubscriptionsList.Label | src/pages/SubscriptionsPage.tsx:112-116 | An entry is labelled Active exactly when `isActive`, and Expired otherwise |
| SubscriptionsList.HeaderBadge | src/pages/SubscriptionsPage.tsx:67-69 | The "N Active" badge shows the number of all subscriptions, expired ones included. So it is at least the active count, and equals it only when no entry is expired |
| Dashboard.TotalLikes | src/pages/CreatorDashboard.tsx:71 | The total is non-negative when every count is, and 0 when every count is missing |
| Dashboard.TotalLikesAppend | src/pages/CreatorDashboard.tsx:71 | The left-to-right reduce adds up over concatenation |
| Dashboard.TotalLikesSingle | src/pages/CreatorDashboard.tsx:71 | A post contributes its count, or 0 when the count is missing |
| Dashboard.TotalSubscribers | src/pages/CreatorDashboard.tsx:70 | The figure is the number of fetched subscriptions, active or not, and is 0 exactly when none was fetched |
| Dashboard.TopPosts | src/pages/CreatorDashboard.tsx:265-285 | The first five posts in fetched order, ranked from #1, with missing vote and comment counts shown as 0 |
| Dashboard.TopPostsIgnoresLaterPosts | src/pages/CreatorDashboard.tsx:265-285 | Posts after the fifth never reach the table, and the first five alone give the whole table |
| Dashboard.CardGate | src/pages/CreatorDashboard.tsx:218 | The dashboard's gate never blurs a card |
| CreatorPost.Verdict | src/pages/CreatorPostPage.tsx:49-73 | A file is accepted exactly when its type starts with `image/` or `video/` and its size is at most 50 MiB. The type is checked before the size |
| CreatorPost.ValidFiles | src/pages/CreatorPostPage.tsx:49-73 | Keeps exactly the accepted files |
| CreatorPost.ValidFilesAppend | src/pages/CreatorPostPage.tsx:49-73 | The filter distributes over concatenation, so the selection order is kept |
| CreatorPost.HandleFileSelect | src/pages/CreatorPostPage.tsx:75-84 | If the current files plus the valid ones would exceed 10, the batch is dropped. Otherwise the valid files are appended in order. A list of at most 10 stays at most 10 |
| CreatorPost.RemoveAt | src/pages/CreatorPostPage.tsx:96-99 | Removes exactly position `index`, keeping the others in order. An index out of range changes nothing |
| CreatorPost.RemoveKeepsAlignment | src/pages/CreatorPostPage.tsx:96-99 | Files and previews of equal length stay equal in length, and each remaining file keeps its preview |
| CreatorPost.FormErrors | src/pages/CreatorPostPage.tsx:17-21 | The title must be 1 to 150 UTF-16 code units. An optional description may have at most 1000 |
| CreatorPost.TitleLengthInCharacters | src/pages/CreatorPostPage.tsx:18 | Counted in characters: any title of 1 to 75 characters passes the length check. A title with no character beyond U+FFFF passes exactly when it has 1 to 150 characters. A title of 76 emoji fails |
| CreatorPost.DefaultFormIsPremium | src/pages/CreatorPostPage.tsx:40-42 | A new post is premium by default, and the untouched form fails only on the title |
| CreatorPost.Submit | src/pages/CreatorPostPage.tsx:101-118 | An invalid form is refused first. Zero media is then refused without `createPost`. Otherwise the request carries the form and the files |
| CreatorPost.Replay | src/pages/CreatorPostPage.tsx:47-99 | Every list reachable by picks and removals holds at most 10 accepted files |
| Settings.ProfileErrors | src/pages/SettingsPage.tsx:33-38 | Names need at least 2 UTF-16 code units and an optional bio at most 500. The email must pass `isEmail` |
| Settings.PasswordErrors | src/pages/SettingsPage.tsx:40-47 | The current password must be non-empty and the new one at least 8 UTF-16 code units. A mismatch is an error on the confirmation field |
| Settings.ValidPasswordFormIsConfirmed | src/pages/SettingsPage.tsx:40-47 | A password form validates exactly when a current password is given and the new one is confirmed and at least 8 code units long |
| Settings.FourEmojiPasswordIsLongEnough | src/pages/SettingsPage.tsx:42 | A new password of four emoji (eight code units) meets the minimum |
| Settings.ValidProfileForm | src/pages/SettingsPage.tsx:33-38 | A profile form validates exactly when both names have at least 2 code units, any bio at most 500, and the email is accepted |
| Settings.PickPicture | src/pages/SettingsPage.tsx:88-146 | A file over the limit or of a non-image type is refused (size checked first) and the pending file is kept. Otherwise the file becomes pending |
| Settings.PickProfilePicture | src/pages/SettingsPage.tsx:88-116 | A newly pending profile picture is at most 5 MiB |
| Settings.PickCoverImage | src/pages/SettingsPage.tsx:118-146 | A newly pending cover image is at most 10 MiB |
| Settings.CoverLimitIsLooser | src/pages/SettingsPage.tsx:91-121 | Every acceptable profile picture is an acceptable cover. A 6 MiB image is a cover only |
| Settings.SaveProfile | src/pages/SettingsPage.tsx:148-184 | Corrected: the cover step sends a cover upload. The profile update goes first. Then comes the picture upload if one is pending, and then the cover upload, last, only for a CREATOR. Each step runs only after the previous one succeeds. Success clears both pending files; failure keeps both |
| Settings.SaveProfileOrder | src/pages/SettingsPage.tsx:148-184 | Corrected save: a failed update sends nothing else. Every cover upload is for a CREATOR and carries the pending cover. A picture upload is always the second request and carries the pending picture. Only the first request is a profile update |
| Settings.SubmitProfile | src/pages/SettingsPage.tsx:68-76 | The profile form's submit (line 282): nothing is sent unless the profile schema passes. Otherwise it runs the corrected save |
| Settings.SaveImages | src/pages/SettingsPage.tsx:530-541 | The "Save Images" button, shown while a picture or cover is pending, runs the save on the form's current values without the schema. The profile update is always sent first, and the picture upload follows it if the update succeeds. A non-creator's cover alone sends only the update, and a successful update then drops the cover |
| Settings.SaveImagesSkipsSchema | src/pages/SettingsPage.tsx:282-541 | Both ways to save run the same save. A form the schema rejects is refused by the submit, yet still sent as the first request by Save Images |
| Settings.ColdLoadDefaultsAreSentUnchecked | src/pages/SettingsPage.tsx:68-76 | The empty defaults of a page mounted before the session is restored fail both name checks at submit. Save Images sends them as the profile update, followed by the pending picture |
| Settings.SaveProfileAsWritten | src/pages/SettingsPage.tsx:148-184 | As written: the profile update goes first and the picture upload follows if one is pending. No cover upload is ever sent. A save succeeds exactly when those steps succeed and no creator cover is pending. Success clears both pending files; failure keeps both |
| Settings.AsWrittenCreatorCoverNeverSaves | src/pages/SettingsPage.tsx:159-162 | As written, a creator's save with a pending cover fails and keeps both files, although the update and any picture upload were sent. The corrected save with the cover accepted succeeds and sends the cover last |
| Settings.AsWrittenAgreesWithoutCreatorCover | src/pages/SettingsPage.tsx:148-184 | Without a creator's pending cover, the save as written and the corrected save are the same |
| Register.Errors | src/components/Auth/RegisterForm.tsx:17-28 | Names need at least 2 UTF-16 code units, the email must be valid, and the password needs at least 8. The role must be USER or CREATOR and the terms must be accepted. A mismatched confirmation is reported on `confirmPassword` only when the role is valid, because an invalid role aborts the parse before the refinement |
| Register.InitialNeverValidates | src/components/Auth/RegisterForm.tsx:46-52 | The initial role USER is valid, but the unticked terms box makes the untouched form invalid |
| Register.ValidFormGuarantees | src/components/Auth/RegisterForm.tsx:17-28 | A form validates exactly when the terms are accepted, the role is allowed, the password is confirmed and has at least 8 code units, both names have at least 2, and the email is valid |
| Register.AstralNameIsLongEnough | src/components/Auth/RegisterForm.tsx:18 | A first name of one emoji (two code units) passes the minimum, while a single letter does not |
| Register.UnknownRoleHidesMismatch | src/components/Auth/RegisterForm.tsx:23-27 | With an unknown role a password mismatch is not reported, only the role. Choosing USER brings the mismatch error back |
| GateAgreement.DetailAgrees | src/pages/PostDetailPage.tsx:74-95 | For a post with a creator id, and a viewer who is the same at mount and at render, the detail page blurs exactly what the rule denies, and vote, title and comment list follow the rule |
| GateAgreement.DetailWithoutCreatorIsStricter | src/pages/PostDetailPage.tsx:75-78 | With an empty creator id the page asks nothing and locks every premium post. It is never looser than the rule |
| GateAgreement.DetailSubscribeAgrees | src/pages/PostDetailPage.tsx:150-171 | After an active subscription to the post's creator is returned, the page's flag blurs exactly what the rule denies, and voting opens. A failed subscribe leaves a locked page locked, as the rule demands of a non-owner |
| GateAgreement.DetailColdLoadLocks | src/pages/PostDetailPage.tsx:45-78 | When the session is not yet restored at mount, a premium post is locked without a query, even for its owner or for an active subscriber whom the rule allows |
| GateAgreement.ProfileAgrees | src/pages/ProfilePage.tsx:236 | For a logged-in viewer, the profile's cards are locked exactly when the rule denies, with the service's status check as the subscription status |
| GateAgreement.ProfileAnonymous | src/pages/ProfilePage.tsx:27-35 | For an anonymous viewer the profile agrees with the rule exactly when the post is public or the status check does not answer true |
| GateAgreement.DashboardAgreesOnOwnPosts | src/pages/CreatorDashboard.tsx:218 | On the creator's own posts the constant gate agrees with the rule |
| GateAgreement.HomeFeedBypassesGate | src/pages/HomePage.tsx:130-137 | The home feed passes a constant true flag. So for any premium post and any logged-in non-owner without a subscription, which the rule denies, the card is shown with voting open, unblurred media and no overlay |
| GateAgreement.Scenarios | src/components/Post/PostCard.tsx:50 | Premium post by c1: locked for u2 without a subscription, open with one, and open to c1. A public post is open to anonymous viewers |

## Left out

- `src/services/api.ts`: the axios client, its timeout, the token header and the refresh queue. A thrown call is modelled only as `Transport.Thrown`.
- `src/services/authService.ts` and `src/contexts/AuthContext.tsx`: network calls and the localStorage session. The session appears only as an optional current user.
- `src/services/postService.ts`, `userService.ts`, `commentService.ts` and `voteService.ts`: thin REST wrappers. The results of the methods they define are inputs of type `Attempt`. The settings page also calls `userService.uploadCoverImage`, which is not defined; see Findings.
- `src/pages/HomePage.tsx`: only its constant `isSubscribed={true}` is modelled. Its handlers are placeholders.
- Layout, Header, BottomNav and App: routing and menus.
- Email format (zod `.email()`): a parameter `isEmail`, not a regular expression.
- FileReader previews: they are produced asynchronously and may complete out of order.
- CreatorPost.RemoveKeepsAlignment: assumes the preview list is aligned with the file list. That is not guaranteed, because previews are appended in FileReader completion order.
- `Promise.all` concurrency: the resolved check results are given as an index-aligned sequence.
- Toasts, navigation, loading flags, date formatting, mock analytics, and the MB figure shown with `toFixed` (floating point).
- `onPasswordSubmit` in the settings page sends no request. It only resets the form, so only its schema is modelled.
- The cover-image "remove" button in the settings page (it clears the pending cover) is not modelled.
- Zod skips an object-level refinement (the password confirmation) when some field aborts the parse. An `undefined` field would abort it, but the model takes every text field to be a present string, as the registered inputs provide. The one abort modelled is the registration role enum: an unknown role hides the mismatch error.
- The "less than 150/500/1000 characters" messages do not match `.max(n)`, which allows exactly n characters. The model follows the check, not the message.
- Profile.Load: the mount effect depends only on `userId`. A login that completes after mount does not re-run the check, and the model does not cover that.
- Carousel.Replay: each post starts from cursor 0. On the detail page the cursor is not reset when the route's post changes. A later post with fewer media items could then read past its list, and the model does not cover that case.
- GateAgreement.DetailAgrees: holds only when the user known at mount is the user at render. The status check runs once per post with the user of the first render. The session is restored asynchronously and nothing waits for it, so after a reload a premium post stays locked even for its owner or a subscriber. `GateAgreement.DetailColdLoadLocks` states that case. Re-running the check when the user changes is not modelled.
- PostCard.Render, PostDetail.Render: require the carousel cursor to be on an item. The source would throw on an out-of-range cursor, and the cursor lemmas show the card never leaves that range.
- PostDetail.CheckSubscriptionStatus: the page's own catch-to-false is unreachable, because the service never throws. The model therefore feeds the service result through directly.
- Types: `UserStats`, `AuthTokens`, `LoginRequest`, `RegisterRequest`, timestamps and the pagination fields `size`, `number`, `first` and `last` are not modelled.

Behaviour worth noting:
- The card leaves the title unblurred, while the detail page blurs it.
- The detail page does not reset the cursor when the post changes.
- Votes update the page only after the server confirms, so there is nothing to roll back.
- The settings page's "Save Images" button bypasses the profile schema, so an invalid profile form can still be sent.

## Findings

| source | as written | input that shows it | evidently intended | confidence | as-written member | corrected member |
|---|---|---|---|---|---|---|
| src/pages/ProfilePage.tsx:185 | The subscribe toggle (and the Creator badge and About tab at lines 144 and 214) shows only when `role === 'creator'`, but roles are spelled `'CREATOR'` | any other user's profile whose role is CREATOR: no toggle | compare with `'CREATOR'`, so creators' profiles offer subscribe/unsubscribe | high (not executed) | Profile.AsWrittenToggleNeverShown | Profile.ToggleShownExactlyOnOtherCreators |
| src/pages/PostDetailPage.tsx:114-119 | After a vote the heart becomes `value === 1`, but the count moves by `isLiked ? -1 : +1` | count 5, not liked, three likes: the count goes 6, 5, 4 while the heart stays filled | the count moves together with the heart, so count minus own like stays constant | medium (not executed) | PostDetail.AsWrittenRepeatedLikesDrift | PostDetail.ReplayKeepsBaseline |
| src/pages/SettingsPage.tsx:161 | The cover step calls `userService.uploadCoverImage`, which the user service does not define, so the call throws a TypeError before any request | a CREATOR saves with a pending cover: the update (and any picture) is applied, then 'Update failed' is shown and both files are kept. The cover is never uploaded | a cover upload method in the user service, called here, so that the cover is sent and the save succeeds | high (not executed) | Settings.AsWrittenCreatorCoverNeverSaves | Settings.SaveProfile |
