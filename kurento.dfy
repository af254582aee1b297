/** Option and failure outcomes for the operations that throw in the source. */
module Outcomes {
  datatype Option<+T> = None | Some(value: T)

  /** A value-returning operation that either returns or throws. */
  datatype Result<+T> = Success(value: T) | Failure

  /** A void operation that either completes or throws. */
  datatype Outcome = Pass | Fail

  /** A map lookup that yields None for a missing key, as a Java map's get does with null. */
  function Get<K, V>(m: map<K, V>, key: K): (r: Option<V>)
    ensures r.Some? <==> key in m
    ensures r.Some? ==> r.value == m[key]
  {
    if key in m then Some(m[key]) else None
  }

  lemma AppendAssoc<T>(a: seq<T>, b: seq<T>, c: seq<T>)
    ensures a + b + c == a + (b + c)
  {
  }

  lemma RemoveKeysTwice<K, V>(m: map<K, V>, a: set<K>, b: set<K>)
    ensures m - a - b == m - (a + b)
  {
  }
}

/**
  The part of the Kurento client the endpoints talk to, reduced to what the
  endpoints can observe: a pipeline that hands out fresh element and
  subscription identifiers and records, in order, every call made into the
  media server. Media flow, SDP negotiation and ICE gathering themselves are
  not modelled; only the fact and the order of the calls are.
 */
module Kurento {
  import opened Outcomes

  /** Media-object ids are opaque to the endpoints: compared and used as keys only. */
  type ElementId = nat
  type Subscription = nat

  datatype ElementKind = WebRtcEndpoint | PassThrough | Filter

  datatype MediaElement = MediaElement(kind: ElementKind, id: ElementId)

  datatype IceCandidate = IceCandidate(candidate: string, sdpMid: string, sdpMLineIndex: int)

  /** One call into the media server, as recorded by the pipeline. */
  datatype Call =
    | Built(element: MediaElement)
    | ErrorListenerAdded(element: MediaElement, subscription: Subscription)
    | ErrorListenerRemoved(element: MediaElement, subscription: Subscription)
    | CandidateAdded(element: MediaElement, candidate: IceCandidate)
    | IceCandidateListenerAdded(element: MediaElement)
    | OfferProcessed(element: MediaElement, offer: string)
    | GatheringStarted(element: MediaElement)
    | Connected(source: MediaElement, sink: MediaElement)
    | Released(element: MediaElement)

  /** The candidates handed to the media server, in the order they were handed over. */
  function Delivered(log: seq<Call>): seq<IceCandidate>
  {
    if log == [] then []
    else (if log[0].CandidateAdded? then [log[0].candidate] else []) + Delivered(log[1..])
  }

  lemma {:induction false} DeliveredAppend(a: seq<Call>, b: seq<Call>)
    ensures Delivered(a + b) == Delivered(a) + Delivered(b)
  {
    if a == [] {
      assert a + b == b;
    } else {
      var head := if a[0].CandidateAdded? then [a[0].candidate] else [];
      assert (a + b)[0] == a[0];
      assert (a + b)[1..] == a[1..] + b;
      DeliveredAppend(a[1..], b);
      AppendAssoc(head, Delivered(a[1..]), Delivered(b));
    }
  }

  /** Calls that hand over no candidate deliver nothing. */
  lemma {:induction false} DeliveredNone(log: seq<Call>)
    requires forall k :: 0 <= k < |log| ==> !log[k].CandidateAdded?
    ensures Delivered(log) == []
  {
    if log != [] {
      DeliveredNone(log[1..]);
    }
  }

  /** The calls that hand `candidates` to `element`, one per candidate, in order. */
  function DeliveryCalls(element: MediaElement, candidates: seq<IceCandidate>): (r: seq<Call>)
    ensures |r| == |candidates|
    ensures forall k :: 0 <= k < |r| ==> r[k] == CandidateAdded(element, candidates[k])
  {
    if candidates == [] then []
    else [CandidateAdded(element, candidates[0])] + DeliveryCalls(element, candidates[1..])
  }

  /** Handing over `candidates` delivers exactly `candidates`, each once and in order. */
  lemma {:induction false} DeliveryCallsDeliver(element: MediaElement, candidates: seq<IceCandidate>)
    ensures Delivered(DeliveryCalls(element, candidates)) == candidates
  {
    if candidates != [] {
      var calls := DeliveryCalls(element, candidates);
      assert calls == [CandidateAdded(element, candidates[0])] + DeliveryCalls(element, candidates[1..]);
      DeliveredAppend([CandidateAdded(element, candidates[0])], DeliveryCalls(element, candidates[1..]));
      DeliveryCallsDeliver(element, candidates[1..]);
      assert Delivered([CandidateAdded(element, candidates[0])]) == [candidates[0]];
    }
  }

  /**
    Setting an element up with calls that hand over no candidate and then
    handing it `candidates` delivers exactly those candidates on top of what
    was delivered before.
   */
  lemma SetupThenDeliver(before: seq<Call>, setup: seq<Call>, element: MediaElement, candidates: seq<IceCandidate>)
    requires forall k :: 0 <= k < |setup| ==> !setup[k].CandidateAdded?
    ensures Delivered(before + setup + DeliveryCalls(element, candidates)) == Delivered(before) + candidates
  {
    DeliveredAppend(before + setup, DeliveryCalls(element, candidates));
    DeliveredAppend(before, setup);
    DeliveredNone(setup);
    DeliveryCallsDeliver(element, candidates);
    assert Delivered(before) + [] == Delivered(before);
  }

  /**
    The calls made when an error listener is unregistered with a possibly
    missing element and a possibly missing subscription: nothing unless both
    are present.
   */
  function Unsubscription(element: Option<MediaElement>, subscription: Option<Subscription>): (r: seq<Call>)
    ensures |r| <= 1
    ensures r != [] <==> element.Some? && subscription.Some?
    ensures r != [] ==> r[0] == ErrorListenerRemoved(element.value, subscription.value)
  {
    if element.Some? && subscription.Some? then [ErrorListenerRemoved(element.value, subscription.value)] else []
  }

  /**
    A media pipeline: builds elements and listener subscriptions with fresh
    ids and carries out the calls the endpoints make, each recorded in `log`.
    The SDP answer the server produces is the parameter `answerTo`.
   */
  class MediaPipeline {
    var nextId: nat
    ghost var log: seq<Call>
    const answerTo: string -> string

    constructor (answerTo: string -> string)
      ensures this.answerTo == answerTo
      ensures nextId == 0 && log == []
    {
      this.answerTo := answerTo;
      nextId := 0;
      log := [];
    }

    method Build(kind: ElementKind) returns (element: MediaElement)
      modifies this
      ensures element == MediaElement(kind, old(nextId)) && nextId == old(nextId) + 1
      ensures log == old(log) + [Built(element)]
    {
      element := MediaElement(kind, nextId);
      nextId := nextId + 1;
      log := log + [Built(element)];
    }

    method AddErrorListener(element: MediaElement) returns (subscription: Subscription)
      modifies this
      ensures subscription == old(nextId) && nextId == old(nextId) + 1
      ensures log == old(log) + [ErrorListenerAdded(element, subscription)]
    {
      subscription := nextId;
      nextId := nextId + 1;
      log := log + [ErrorListenerAdded(element, subscription)];
    }

    method RemoveErrorListener(element: MediaElement, subscription: Subscription)
      modifies this`log
      ensures log == old(log) + [ErrorListenerRemoved(element, subscription)]
    {
      log := log + [ErrorListenerRemoved(element, subscription)];
    }

    method AddIceCandidate(element: MediaElement, candidate: IceCandidate)
      modifies this`log
      ensures log == old(log) + [CandidateAdded(element, candidate)]
    {
      log := log + [CandidateAdded(element, candidate)];
    }

    method AddOnIceCandidateListener(element: MediaElement)
      modifies this`log
      ensures log == old(log) + [IceCandidateListenerAdded(element)]
    {
      log := log + [IceCandidateListenerAdded(element)];
    }

    method ProcessOffer(element: MediaElement, offer: string) returns (answer: string)
      modifies this`log
      ensures answer == answerTo(offer)
      ensures log == old(log) + [OfferProcessed(element, offer)]
    {
      answer := answerTo(offer);
      log := log + [OfferProcessed(element, offer)];
    }

    method GatherCandidates(element: MediaElement)
      modifies this`log
      ensures log == old(log) + [GatheringStarted(element)]
    {
      log := log + [GatheringStarted(element)];
    }

    method Connect(source: MediaElement, sink: MediaElement)
      modifies this`log
      ensures log == old(log) + [Connected(source, sink)]
    {
      log := log + [Connected(source, sink)];
    }

    method Release(element: MediaElement)
      modifies this`log
      ensures log == old(log) + [Released(element)]
    {
      log := log + [Released(element)];
    }
  }
}
