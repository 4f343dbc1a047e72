/** The explore page: the creator list, the set of creators the viewer is
    subscribed to (built from one check per creator), the subscribe toggle,
    search, and the featured/trending/new sections. */
module Explore {
  import opened Outcomes
  import opened Types
  import Js

  datatype ExploreState = ExploreState(creators: seq<User>, subscribed: set<UserId>)

  /** The ids whose index-aligned check came back true. */
  ghost predicate CheckedTrue(creators: seq<User>, statuses: seq<bool>, id: UserId, upTo: int)
    requires |statuses| == |creators| && 0 <= upTo <= |creators|
  {
    exists i :: 0 <= i < upTo && statuses[i] && creators[i].id == id
  }

  /** The `forEach` in `loadCreators`: walk the creators with their
      resolved checks (`Promise.all` keeps them index-aligned) and collect
      the ids whose check is true. */
  method BuildSubscribedSet(creators: seq<User>, statuses: seq<bool>) returns (s: set<UserId>)
    requires |statuses| == |creators|
    ensures forall id :: id in s <==> CheckedTrue(creators, statuses, id, |creators|)
    ensures forall i :: 0 <= i < |creators| && statuses[i] ==> creators[i].id in s
  {
    s := {};
    for k := 0 to |creators|
      invariant forall id :: id in s <==> CheckedTrue(creators, statuses, id, k)
    {
      if statuses[k] {
        s := s + {creators[k].id};
      }
    }
  }

  /** `loadCreators()`: on a fetched list, the list and a fresh subscribed
      set replace the old ones; if the fetch fails both are kept. */
  method LoadCreators(prev: ExploreState, fetch: Attempt<Page<User>>, statuses: seq<bool>) returns (st: ExploreState)
    requires fetch.Resolved? ==> |statuses| == |fetch.value.content|
    ensures fetch.Rejected? ==> st == prev
    ensures fetch.Resolved? ==> st.creators == fetch.value.content
    ensures fetch.Resolved? ==> forall id :: id in st.subscribed <==> CheckedTrue(fetch.value.content, statuses, id, |statuses|)
  {
    if fetch.Rejected? {
      return prev;
    }
    var s := BuildSubscribedSet(fetch.value.content, statuses);
    st := ExploreState(fetch.value.content, s);
  }

  /** `handleSubscribe(id)`: success adds the id and nothing else. */
  function HandleSubscribe(st: ExploreState, id: UserId, call: Attempt<Subscription>): (r: ExploreState)
    ensures r.creators == st.creators
    ensures call.Rejected? ==> r == st
    ensures call.Resolved? ==> id in r.subscribed && forall x :: x != id ==> (x in r.subscribed <==> x in st.subscribed)
  {
    if call.Resolved? then st.(subscribed := st.subscribed + {id}) else st
  }

  /** `handleUnsubscribe(id)`: success removes the id and nothing else. */
  function HandleUnsubscribe(st: ExploreState, id: UserId, call: Attempt<()>): (r: ExploreState)
    ensures r.creators == st.creators
    ensures call.Rejected? ==> r == st
    ensures call.Resolved? ==> id !in r.subscribed && forall x :: x != id ==> (x in r.subscribed <==> x in st.subscribed)
  {
    if call.Resolved? then st.(subscribed := st.subscribed - {id}) else st
  }

  /** Subscribing to a creator not yet in the set and then unsubscribing,
      both successfully, leaves the page as it was; so does unsubscribing
      from one in the set and subscribing again. */
  lemma SubscribeUnsubscribeRoundTrip(st: ExploreState, id: UserId, sub: Subscription)
    ensures id !in st.subscribed ==> HandleUnsubscribe(HandleSubscribe(st, id, Resolved(sub)), id, Resolved(())) == st
    ensures id in st.subscribed ==> HandleSubscribe(HandleUnsubscribe(st, id, Resolved(())), id, Resolved(sub)) == st
  {
    if id !in st.subscribed {
      assert st.subscribed + {id} - {id} == st.subscribed;
    } else {
      assert st.subscribed - {id} + {id} == st.subscribed;
    }
  }

  /** The button on every creator card: unsubscribe when the id is in the
      set, subscribe otherwise. When the call goes through, membership of
      that id flips and every other id stays as it was. */
  function Toggle(st: ExploreState, id: UserId, subscribe: Attempt<Subscription>, unsubscribe: Attempt<()>): (r: ExploreState)
    ensures id in st.subscribed && unsubscribe.Resolved? ==> id !in r.subscribed
    ensures id !in st.subscribed && subscribe.Resolved? ==> id in r.subscribed
    ensures (id in st.subscribed && unsubscribe.Rejected?) || (id !in st.subscribed && subscribe.Rejected?) ==> r == st
    ensures forall x :: x != id ==> (x in r.subscribed <==> x in st.subscribed)
  {
    if id in st.subscribed then HandleUnsubscribe(st, id, unsubscribe) else HandleSubscribe(st, id, subscribe)
  }

  /** The search results keep only users whose role is CREATOR, in order. */
  function CreatorsOnly(users: seq<User>): (r: seq<User>)
    ensures |r| <= |users|
    ensures forall i :: 0 <= i < |r| ==> r[i].role == CREATOR
    ensures forall u :: u in r <==> u in users && u.role == CREATOR
  {
    if |users| == 0 then []
    else if users[0].role == CREATOR then [users[0]] + CreatorsOnly(users[1..])
    else CreatorsOnly(users[1..])
  }

  /** Filtering distributes over concatenation, so relative order is kept. */
  lemma {:induction false} CreatorsOnlyAppend(a: seq<User>, b: seq<User>)
    ensures CreatorsOnly(a + b) == CreatorsOnly(a) + CreatorsOnly(b)
    decreases |a|
  {
    if |a| == 0 {
      assert a + b == b;
    } else {
      assert (a + b)[0] == a[0];
      assert (a + b)[1..] == a[1..] + b;
      CreatorsOnlyAppend(a[1..], b);
    }
  }

  /** A list of creators only passes through unchanged. */
  lemma {:induction false} CreatorsOnlyKeepsCreators(users: seq<User>)
    requires forall i :: 0 <= i < |users| ==> users[i].role == CREATOR
    ensures CreatorsOnly(users) == users
    decreases |users|
  {
    if |users| > 0 {
      CreatorsOnlyKeepsCreators(users[1..]);
    }
  }

  datatype SearchOutcome = ReloadAll | Searched(state: ExploreState)

  /** `handleSearch()`: a blank query reloads every creator; otherwise the
      list becomes the creators among the search results, or stays as it
      was when the search fails. The subscribed set is not touched. */
  function HandleSearch(st: ExploreState, query: string, call: Attempt<Page<User>>): (r: SearchOutcome)
    ensures r.ReloadAll? <==> Js.IsBlank(query)
    ensures r.Searched? && call.Rejected? ==> r.state == st
    ensures r.Searched? ==> r.state.subscribed == st.subscribed
    ensures r.Searched? && call.Resolved? ==>
      forall u :: u in r.state.creators <==> u in call.value.content && u.role == CREATOR
    ensures r.Searched? && call.Resolved? ==> r.state.creators == CreatorsOnly(call.value.content)
  {
    if Js.IsBlank(query) then ReloadAll
    else match call
      case Rejected(_) => Searched(st)
      case Resolved(page) => Searched(st.(creators := CreatorsOnly(page.content)))
  }

  /** "Featured": `creators.slice(0, 3)`, the first three. */
  function Featured(creators: seq<User>): (r: seq<User>)
    ensures r == creators[..if |creators| < 3 then |creators| else 3]
  {
    Js.Slice(creators, 0, 3)
  }

  /** "Trending": `creators.slice(3, 8)`, the next five. */
  function Trending(creators: seq<User>): (r: seq<User>)
    ensures |creators| <= 3 ==> r == []
    ensures 3 < |creators| ==> r == creators[3..if |creators| < 8 then |creators| else 8]
  {
    Js.Slice(creators, 3, 8)
  }

  /** "New": `creators.slice(-6)`, the last six, or all when there are fewer. */
  function Newest(creators: seq<User>): (r: seq<User>)
    ensures r == creators[if |creators| < 6 then 0 else |creators| - 6..]
  {
    Js.Slice(creators, -6, |creators|)
  }

  /** Featured and trending are adjacent: together they are the first eight. */
  lemma FeaturedThenTrending(creators: seq<User>)
    ensures Featured(creators) + Trending(creators) == creators[..if |creators| < 8 then |creators| else 8]
  {
  }
}
