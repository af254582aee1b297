/**
  The publisher's shaper chain as values: the id list kept newest first, the
  id-to-element map, the neighbour lookups over the list, and the sequence of
  connections that wires the chain between the WebRTC endpoint (the source)
  and the pass-through element (the sink).

  In the wired chain media flows from the source through the OLDEST applied
  element first and the NEWEST last, then into the sink: the id list is read
  back to front.
 */
module ShaperChain {
  import opened Outcomes
  import opened Kurento

  ghost predicate NoDuplicates<T>(s: seq<T>)
  {
    forall i, j :: 0 <= i < j < |s| ==> s[i] != s[j]
  }

  /** Every id of the list has an element. */
  ghost predicate Registered(ids: seq<ElementId>, elements: map<ElementId, MediaElement>)
  {
    forall id :: id in ids ==> id in elements
  }

  /** The position of the first occurrence of `x`, or -1 (a linked list's indexOf). */
  function IndexOf<T(==)>(s: seq<T>, x: T): (r: int)
    ensures -1 <= r < |s|
    ensures r == -1 <==> x !in s
    ensures 0 <= r ==> s[r] == x && x !in s[..r]
  {
    if s == [] then -1
    else if s[0] == x then 0
    else
      var k := IndexOf(s[1..], x);
      assert s[1..][..k + 1] == s[1..k + 2] by { if 0 <= k { } }
      if k < 0 then -1 else k + 1
  }

  /**
    The id after `uid` in the list (the next older element), or None when
    `uid` is absent or last.
   */
  function GetNext(ids: seq<ElementId>, uid: ElementId): (r: Option<ElementId>)
    ensures uid !in ids ==> r.None?
    ensures forall k :: 0 <= k < |ids| && ids[k] == uid && uid !in ids[..k] ==>
      r == if k + 1 < |ids| then Some(ids[k + 1]) else None
  {
    var idx := IndexOf(ids, uid);
    if idx < 0 || idx + 1 == |ids| then None else Some(ids[idx + 1])
  }

  /**
    The id before `uid` in the list (the next newer element), or None when
    `uid` is absent or first.
   */
  function GetPrevious(ids: seq<ElementId>, uid: ElementId): (r: Option<ElementId>)
    ensures uid !in ids ==> r.None?
    ensures forall k :: 0 <= k < |ids| && ids[k] == uid && uid !in ids[..k] ==>
      r == if 0 < k then Some(ids[k - 1]) else None
  {
    var idx := IndexOf(ids, uid);
    if idx <= 0 then None else Some(ids[idx - 1])
  }

  /** In a list without duplicates every occurrence is the first one. */
  lemma FirstOccurrence(ids: seq<ElementId>, k: int)
    requires NoDuplicates(ids) && 0 <= k < |ids|
    ensures ids[k] !in ids[..k]
  {
  }

  /** The elements of the chain in media-flow order: the id list reversed. */
  function FlowOrder(ids: seq<ElementId>, elements: map<ElementId, MediaElement>): (r: seq<MediaElement>)
    requires Registered(ids, elements)
    ensures |r| == |ids|
    ensures forall k :: 0 <= k < |ids| ==> r[k] == elements[ids[|ids| - 1 - k]]
  {
    if ids == [] then [] else FlowOrder(ids[1..], elements) + [elements[ids[0]]]
  }

  /** One connection from each element of `path` to the one after it. */
  function ConnectCalls(path: seq<MediaElement>): (r: seq<Call>)
    ensures |r| == if path == [] then 0 else |path| - 1
  {
    if |path| < 2 then [] else [Connected(path[0], path[1])] + ConnectCalls(path[1..])
  }

  /** The `k`-th connection goes from the `k`-th element of the path to the one after it. */
  lemma {:induction false} ConnectCallsAt(path: seq<MediaElement>, k: nat)
    requires k + 1 < |path|
    ensures ConnectCalls(path)[k] == Connected(path[k], path[k + 1])
  {
    if k > 0 {
      ConnectCallsAt(path[1..], k - 1);
    }
  }

  /**
    One step of the wiring walk: the element after position `j` of the path
    is the one registered under the id `j` places from the end of the list,
    and wiring it adds one connection.
   */
  lemma PathStep(path: seq<MediaElement>, source: MediaElement, ids: seq<ElementId>, elements: map<ElementId, MediaElement>, j: nat)
    requires Registered(ids, elements) && j < |ids|
    requires path == [source] + FlowOrder(ids, elements)
    ensures elements[ids[|ids| - 1 - j]] == path[j + 1]
    ensures ConnectCalls(path[..j + 2]) == ConnectCalls(path[..j + 1]) + [Connected(path[j], path[j + 1])]
  {
    assert path[j + 1] == FlowOrder(ids, elements)[j];
    ConnectCallsPrefix(path, j + 1);
  }

  /** The last step of the walk: wiring the end of the path to `sink`. */
  lemma PathEnd(path: seq<MediaElement>, sink: MediaElement)
    requires path != []
    ensures ConnectCalls(path[..|path|]) + [Connected(path[|path| - 1], sink)] == ConnectCalls(path + [sink])
  {
    assert path[..|path|] == path;
    ConnectCallsSnoc(path, sink);
  }

  /** The connections that wire the whole chain from `source` to `sink`. */
  function Wiring(source: MediaElement, ids: seq<ElementId>, elements: map<ElementId, MediaElement>, sink: MediaElement): seq<Call>
    requires Registered(ids, elements)
  {
    ConnectCalls([source] + FlowOrder(ids, elements) + [sink])
  }

  /** The element nearest the sink: the newest element, or the source when the chain is empty. */
  function Newest(source: MediaElement, ids: seq<ElementId>, elements: map<ElementId, MediaElement>): MediaElement
    requires Registered(ids, elements)
  {
    if ids == [] then source else elements[ids[0]]
  }

  /** The element feeding `uid`: the next older one, or the source. */
  function Upstream(source: MediaElement, ids: seq<ElementId>, elements: map<ElementId, MediaElement>, uid: ElementId): MediaElement
    requires Registered(ids, elements)
  {
    match GetNext(ids, uid)
    case Some(next) => elements[next]
    case None => source
  }

  /** The element `uid` feeds: the next newer one, or the sink. */
  function Downstream(sink: MediaElement, ids: seq<ElementId>, elements: map<ElementId, MediaElement>, uid: ElementId): MediaElement
    requires Registered(ids, elements)
  {
    match GetPrevious(ids, uid)
    case Some(prev) => elements[prev]
    case None => sink
  }

  /**
    The shape of the first wiring: source to the oldest element, each element
    to the next newer one, the newest to the sink; the source straight to the
    sink when the chain is empty.
   */
  lemma WiringOrder(source: MediaElement, ids: seq<ElementId>, elements: map<ElementId, MediaElement>, sink: MediaElement)
    requires Registered(ids, elements)
    ensures |Wiring(source, ids, elements, sink)| == |ids| + 1
    ensures ids == [] ==> Wiring(source, ids, elements, sink) == [Connected(source, sink)]
    ensures ids != [] ==> Wiring(source, ids, elements, sink)[0] == Connected(source, elements[ids[|ids| - 1]])
    ensures forall k :: 0 < k < |ids| ==>
      Wiring(source, ids, elements, sink)[|ids| - k] == Connected(elements[ids[k]], elements[ids[k - 1]])
    ensures Wiring(source, ids, elements, sink)[|ids|] == Connected(Newest(source, ids, elements), sink)
  {
    var path := [source] + FlowOrder(ids, elements) + [sink];
    var w := Wiring(source, ids, elements, sink);
    var n := |ids|;
    assert |path| == n + 2;
    assert path[0] == source && path[n + 1] == sink;
    forall j | 1 <= j <= n
      ensures path[j] == elements[ids[n - j]]
    {
      assert path[j] == FlowOrder(ids, elements)[j - 1];
    }
    forall k | 0 < k < n
      ensures w[n - k] == Connected(elements[ids[k]], elements[ids[k - 1]])
    {
      ConnectCallsAt(path, n - k);
    }
    ConnectCallsAt(path, 0);
    ConnectCallsAt(path, n);
    if ids == [] {
      assert w == [w[0]];
    }
  }

  /** Adding a path element at the end adds exactly one connection. */
  lemma {:induction false} ConnectCallsSnoc(path: seq<MediaElement>, x: MediaElement)
    requires path != []
    ensures ConnectCalls(path + [x]) == ConnectCalls(path) + [Connected(path[|path| - 1], x)]
  {
    if |path| == 1 {
      assert (path + [x])[1..] == [x];
    } else {
      assert (path + [x])[1..] == path[1..] + [x];
      ConnectCallsSnoc(path[1..], x);
    }
  }

  /** Growing the walked prefix of a path by one element adds one connection. */
  lemma ConnectCallsPrefix(path: seq<MediaElement>, m: nat)
    requires 1 <= m < |path|
    ensures ConnectCalls(path[..m + 1]) == ConnectCalls(path[..m]) + [Connected(path[m - 1], path[m])]
  {
    assert path[..m + 1] == path[..m] + [path[m]];
    ConnectCallsSnoc(path[..m], path[m]);
  }

  /** A new element at the head of the id list is the last element of the flow. */
  lemma FlowOrderPrepend(id: ElementId, ids: seq<ElementId>, elements: map<ElementId, MediaElement>, shaper: MediaElement)
    requires Registered(ids, elements) && id !in ids
    ensures Registered([id] + ids, elements[id := shaper])
    ensures FlowOrder([id] + ids, elements[id := shaper]) == FlowOrder(ids, elements) + [shaper]
  {
    var updated := elements[id := shaper];
    assert ([id] + ids)[1..] == ids;
    var a := FlowOrder(ids, updated);
    var b := FlowOrder(ids, elements);
    forall k | 0 <= k < |ids| ensures a[k] == b[k] {
      assert ids[|ids| - 1 - k] in ids;
    }
    assert a == b;
  }

  /**
    Splicing a new element in at the sink end, as done on a wired chain,
    gives exactly the connections a fresh wiring of the longer chain would
    make, except that the old connection from the previously newest element
    to the sink stays in place.
   */
  lemma SpliceMatchesWiring(source: MediaElement, ids: seq<ElementId>, elements: map<ElementId, MediaElement>,
                            shaper: MediaElement, sink: MediaElement)
    requires Registered(ids, elements) && shaper.id !in elements
    ensures Registered([shaper.id] + ids, elements[shaper.id := shaper])
    ensures var stem := ConnectCalls([source] + FlowOrder(ids, elements));
      Wiring(source, ids, elements, sink) == stem + [Connected(Newest(source, ids, elements), sink)] &&
      Wiring(source, [shaper.id] + ids, elements[shaper.id := shaper], sink)
        == stem + [Connected(Newest(source, ids, elements), shaper), Connected(shaper, sink)]
  {
    var front := [source] + FlowOrder(ids, elements);
    assert shaper.id !in ids;
    FlowOrderPrepend(shaper.id, ids, elements, shaper);
    assert front[|front| - 1] == Newest(source, ids, elements) by {
      if ids != [] {
        assert front[|front| - 1] == FlowOrder(ids, elements)[|ids| - 1];
      }
    }
    ConnectCallsSnoc(front, sink);
    ConnectCallsSnoc(front, shaper);
    ConnectCallsSnoc(front + [shaper], sink);
    assert [source] + FlowOrder([shaper.id] + ids, elements[shaper.id := shaper]) + [sink] == front + [shaper] + [sink];
  }

  /** The list with position `k` removed. */
  function RemoveAt<T>(s: seq<T>, k: nat): (r: seq<T>)
    requires k < |s|
    ensures |r| == |s| - 1
    ensures forall j :: 0 <= j < k ==> r[j] == s[j]
    ensures forall j :: k <= j < |r| ==> r[j] == s[j + 1]
  {
    s[..k] + s[k + 1..]
  }

  /**
    Reverting the element at position `k` of a wired chain connects its
    upstream neighbour to its downstream neighbour: exactly the connection a
    fresh wiring of the chain without that element makes across the gap.
   */
  lemma RevertBridgesGap(source: MediaElement, ids: seq<ElementId>, elements: map<ElementId, MediaElement>,
                         sink: MediaElement, k: nat)
    requires Registered(ids, elements) && NoDuplicates(ids) && k < |ids|
    ensures Registered(RemoveAt(ids, k), elements)
    ensures Wiring(source, RemoveAt(ids, k), elements, sink)[|ids| - 1 - k]
      == Connected(Upstream(source, ids, elements, ids[k]), Downstream(sink, ids, elements, ids[k]))
  {
    var rest := RemoveAt(ids, k);
    var n := |ids|;
    forall id | id in rest ensures id in elements {
      var j :| 0 <= j < |rest| && rest[j] == id;
      if j < k { assert rest[j] == ids[j]; } else { assert rest[j] == ids[j + 1]; }
    }
    var flow := FlowOrder(rest, elements);
    var path := [source] + flow + [sink];
    FirstOccurrence(ids, k);
    var w := Wiring(source, rest, elements, sink);
    assert |path| == n + 1;
    ConnectCallsAt(path, n - 1 - k);
    if k + 1 < n {
      assert path[n - 1 - k] == flow[n - 2 - k] == elements[rest[k]];
    }
    if 0 < k {
      assert path[n - k] == flow[n - 1 - k] == elements[rest[k - 1]];
    }
  }

  /** The calls that unregister the listeners of the elements of `ids`, in list order. */
  function ElementUnsubscriptions(ids: seq<ElementId>, elements: map<ElementId, MediaElement>,
                                  subscriptions: map<ElementId, Subscription>): (r: seq<Call>)
    requires Registered(ids, elements)
    ensures |r| <= |ids|
  {
    if ids == [] then []
    else Unsubscription(Some(elements[ids[0]]), Get(subscriptions, ids[0]))
         + ElementUnsubscriptions(ids[1..], elements, subscriptions)
  }

  /**
    Unregistering the chain's listeners removes the listener of every element
    of the list that has a subscription, and removes nothing else.
   */
  lemma {:induction false} ElementUnsubscriptionsComplete(ids: seq<ElementId>, elements: map<ElementId, MediaElement>,
                                                          subscriptions: map<ElementId, Subscription>)
    requires Registered(ids, elements)
    ensures forall id :: id in ids && id in subscriptions ==>
      ErrorListenerRemoved(elements[id], subscriptions[id]) in ElementUnsubscriptions(ids, elements, subscriptions)
    ensures forall c :: c in ElementUnsubscriptions(ids, elements, subscriptions) ==>
      c.ErrorListenerRemoved? && exists id :: id in ids && id in subscriptions && c == ErrorListenerRemoved(elements[id], subscriptions[id])
    ensures subscriptions == map[] ==> ElementUnsubscriptions(ids, elements, subscriptions) == []
  {
    if ids != [] {
      assert Registered(ids[1..], elements) by {
        forall x | x in ids[1..] ensures x in elements { assert x in ids; }
      }
      ElementUnsubscriptionsComplete(ids[1..], elements, subscriptions);
      var head := Unsubscription(Some(elements[ids[0]]), Get(subscriptions, ids[0]));
      var tail := ElementUnsubscriptions(ids[1..], elements, subscriptions);
      assert ElementUnsubscriptions(ids, elements, subscriptions) == head + tail;
      forall id | id in ids && id in subscriptions
        ensures ErrorListenerRemoved(elements[id], subscriptions[id]) in head + tail
      {
        if id == ids[0] {
          assert head == [ErrorListenerRemoved(elements[id], subscriptions[id])];
        } else {
          assert id in ids[1..];
        }
      }
      forall c: Call | c in head + tail
        ensures c.ErrorListenerRemoved? && exists id :: id in ids && id in subscriptions && c == ErrorListenerRemoved(elements[id], subscriptions[id])
      {
        if c in head {
          assert ids[0] in ids && ids[0] in subscriptions && c == ErrorListenerRemoved(elements[ids[0]], subscriptions[ids[0]]);
        } else {
          var id :| id in ids[1..] && id in subscriptions && c == ErrorListenerRemoved(elements[id], subscriptions[id]);
          assert id in ids;
        }
      }
    }
  }

  lemma {:induction false} ElementUnsubscriptionsSnoc(ids: seq<ElementId>, id: ElementId, elements: map<ElementId, MediaElement>,
                                                      subscriptions: map<ElementId, Subscription>)
    requires Registered(ids + [id], elements)
    ensures Registered(ids, elements)
    ensures ElementUnsubscriptions(ids + [id], elements, subscriptions)
      == ElementUnsubscriptions(ids, elements, subscriptions) + Unsubscription(Some(elements[id]), Get(subscriptions, id))
  {
    assert forall x :: x in ids ==> x in ids + [id];
    if ids == [] {
      assert ids + [id] == [id] && [id][1..] == [];
    } else {
      assert (ids + [id])[1..] == ids[1..] + [id];
      assert (ids + [id])[0] == ids[0];
      ElementUnsubscriptionsSnoc(ids[1..], id, elements, subscriptions);
    }
  }
}
