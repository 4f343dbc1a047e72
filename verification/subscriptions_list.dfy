/** The "My Subscriptions" page: the fetched list, removal on unsubscribe,
    the per-entry status label and the two counts it displays. */
module SubscriptionsList {
  import opened Outcomes
  import opened Types

  /** The list without the subscriptions to `creatorId`, others in order. */
  function WithoutCreator(subs: seq<Subscription>, creatorId: UserId): (r: seq<Subscription>)
    ensures |r| <= |subs|
    ensures forall i :: 0 <= i < |r| ==> r[i].creatorId != creatorId
    ensures forall s :: s in r <==> s in subs && s.creatorId != creatorId
  {
    if |subs| == 0 then []
    else if subs[0].creatorId != creatorId then [subs[0]] + WithoutCreator(subs[1..], creatorId)
    else WithoutCreator(subs[1..], creatorId)
  }

  /** Removal keeps relative order: it distributes over concatenation. */
  lemma {:induction false} WithoutCreatorAppend(a: seq<Subscription>, b: seq<Subscription>, creatorId: UserId)
    ensures WithoutCreator(a + b, creatorId) == WithoutCreator(a, creatorId) + WithoutCreator(b, creatorId)
    decreases |a|
  {
    if |a| == 0 {
      assert a + b == b;
    } else {
      assert (a + b)[0] == a[0];
      assert (a + b)[1..] == a[1..] + b;
      WithoutCreatorAppend(a[1..], b, creatorId);
    }
  }

  /** Removing a creator the list does not mention changes nothing. */
  lemma {:induction false} WithoutAbsentCreator(subs: seq<Subscription>, creatorId: UserId)
    requires forall i :: 0 <= i < |subs| ==> subs[i].creatorId != creatorId
    ensures WithoutCreator(subs, creatorId) == subs
    decreases |subs|
  {
    if |subs| > 0 {
      WithoutAbsentCreator(subs[1..], creatorId);
    }
  }

  /** `handleUnsubscribe(creatorId)`: a successful call drops every
      subscription to that creator; a failed one leaves the list alone. */
  function HandleUnsubscribe(subs: seq<Subscription>, creatorId: UserId, call: Attempt<()>): (r: seq<Subscription>)
    ensures call.Rejected? ==> r == subs
    ensures call.Resolved? ==> forall s :: s in r <==> s in subs && s.creatorId != creatorId
    ensures call.Resolved? ==> r == WithoutCreator(subs, creatorId)
  {
    if call.Resolved? then WithoutCreator(subs, creatorId) else subs
  }

  /** The "Active Subscriptions" stat. */
  function ActiveCount(subs: seq<Subscription>): (n: nat)
    ensures n <= |subs|
    ensures n == |subs| <==> forall i :: 0 <= i < |subs| ==> subs[i].isActive
    ensures n == 0 <==> forall i :: 0 <= i < |subs| ==> !subs[i].isActive
  {
    if |subs| == 0 then 0
    else (if subs[0].isActive then 1 else 0) + ActiveCount(subs[1..])
  }

  /** The stat adds up over concatenation. */
  lemma {:induction false} ActiveCountAppend(a: seq<Subscription>, b: seq<Subscription>)
    ensures ActiveCount(a + b) == ActiveCount(a) + ActiveCount(b)
    decreases |a|
  {
    if |a| == 0 {
      assert a + b == b;
    } else {
      assert (a + b)[0] == a[0];
      assert (a + b)[1..] == a[1..] + b;
      ActiveCountAppend(a[1..], b);
    }
  }

  datatype StatusLabel = Active | Expired

  /** Each entry is labelled Active exactly when its flag says so. */
  function Label(s: Subscription): (l: StatusLabel)
    ensures l == Active <==> s.isActive
  {
    if s.isActive then Active else Expired
  }

  /** The header badge ("N Active") shows the length of the whole list;
      it agrees with the Active stat only when no entry is expired. */
  function HeaderBadge(subs: seq<Subscription>): (n: nat)
    ensures n == |subs|
    ensures ActiveCount(subs) <= n
    ensures n == ActiveCount(subs) <==> forall i :: 0 <= i < |subs| ==> Label(subs[i]) == Active
  {
    |subs|
  }
}
