/** The subscription service: every call unwraps the backend envelope the
    same way, except the status check, which never fails and answers
    "not subscribed" whenever anything goes wrong. */
module SubscriptionService {
  import opened Outcomes
  import opened Types
  import Js

  /** What an HTTP call produced: the client threw (network error, non-2xx
      status) with a message, or the response body arrived. */
  datatype Transport<T> = Thrown(error: string) | Delivered(response: ApiResponse<T>)

  /** The payload of the status check. `active` is `None` when the field is
      null, missing or not a boolean. */
  datatype CheckPayload = CheckPayload(id: Option<string>, endDate: Option<string>, active: Option<bool>)

  const SubscribeFailed := "Failed to subscribe"
  const UnsubscribeFailed := "Failed to unsubscribe"
  const ListFailed := "Failed to get subscriptions"
  const CreatorListFailed := "Failed to get creator subscriptions"

  /** The shared unwrap rule: the payload when the reply says success and
      carries a payload; otherwise an error with the server's message, or
      `fallback` when that is missing or empty. A thrown client error
      propagates unchanged. */
  function Unwrap<T>(t: Transport<T>, fallback: string): (r: Attempt<T>)
    ensures r.Resolved? <==> t.Delivered? && t.response.success && t.response.data.Some?
    ensures r.Resolved? ==> r.value == t.response.data.value
    ensures t.Thrown? ==> r == Rejected(t.error)
    ensures t.Delivered? && r.Rejected? ==> r.message == Js.OrElse(t.response.message, fallback)
  {
    match t
    case Thrown(e) => Rejected(e)
    case Delivered(resp) =>
      if resp.success && resp.data.Some? then Resolved(resp.data.value)
      else Rejected(Js.OrElse(resp.message, fallback))
  }

  /** `subscribe(creatorId)`: the created subscription, or an error. */
  function Subscribe(t: Transport<Subscription>): (r: Attempt<Subscription>)
    ensures r.Resolved? <==> t.Delivered? && t.response.success && t.response.data.Some?
    ensures t.Delivered? && r.Rejected? ==> r.message == Js.OrElse(t.response.message, SubscribeFailed)
  {
    Unwrap(t, SubscribeFailed)
  }

  /** `unsubscribe(creatorId)`: fails exactly when the reply says failure
      (the payload is void and never inspected) or the client threw. */
  function Unsubscribe(t: Transport<()>): (r: Attempt<()>)
    ensures r.Rejected? <==> t.Thrown? || !t.response.success
    ensures t.Delivered? && r.Rejected? ==> r.message == Js.OrElse(t.response.message, UnsubscribeFailed)
  {
    match t
    case Thrown(e) => Rejected(e)
    case Delivered(resp) =>
      if !resp.success then Rejected(Js.OrElse(resp.message, UnsubscribeFailed)) else Resolved(())
  }

  /** `getMySubscriptions()`: the page on success with a payload. */
  function GetMySubscriptions(t: Transport<Page<Subscription>>): (r: Attempt<Page<Subscription>>)
    ensures r.Resolved? <==> t.Delivered? && t.response.success && t.response.data.Some?
    ensures t.Delivered? && r.Rejected? ==> r.message == Js.OrElse(t.response.message, ListFailed)
  {
    Unwrap(t, ListFailed)
  }

  /** `getCreatorSubscriptions()`: the same rule with its own fallback. */
  function GetCreatorSubscriptions(t: Transport<Page<Subscription>>): (r: Attempt<Page<Subscription>>)
    ensures r.Resolved? <==> t.Delivered? && t.response.success && t.response.data.Some?
    ensures t.Delivered? && r.Rejected? ==> r.message == Js.OrElse(t.response.message, CreatorListFailed)
  {
    Unwrap(t, CreatorListFailed)
  }

  /** `checkSubscription(creatorId)`: true only for a successful reply whose
      payload has `active === true`; a thrown error is caught and read as
      false. The result is a plain boolean, so the call never fails. */
  function CheckSubscription(t: Transport<CheckPayload>): (r: bool)
    ensures r ==> t.Delivered? && t.response.success
    ensures t.Thrown? ==> !r
    ensures t.Delivered? ==> (r <==> t.response.success && t.response.data.Some? && t.response.data.value.active == Some(true))
  {
    match t
    case Thrown(_) => false
    case Delivered(resp) => resp.success && resp.data.Some? && resp.data.value.active == Some(true)
  }

  /** The check is stricter than the unwrap rule: whenever it answers true,
      the same reply would unwrap to a payload that says active. */
  lemma CheckImpliesUnwrapActive(t: Transport<CheckPayload>, fallback: string)
    ensures CheckSubscription(t) <==> Unwrap(t, fallback).Resolved? && Unwrap(t, fallback).value.active == Some(true)
  {
  }

  /** Fail-closed: any reply that does not unwrap (thrown error, failure
      flag, missing payload) reads as not subscribed. */
  lemma CheckFailsClosed(t: Transport<CheckPayload>, fallback: string)
    ensures Unwrap(t, fallback).Rejected? ==> !CheckSubscription(t)
  {
  }
}
