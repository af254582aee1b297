/**
  The publishing endpoint: an IceWebRtcEndpoint whose media leaves through a
  pass-through element, with a chain of shaper elements that can be applied
  and reverted between the WebRTC endpoint and the pass-through.

  The source class extends IceWebRtcEndpoint; here the inherited state is the
  component `ice`, and the one overridden method the base calls
  (internalEndpointInitialization, from createEndpoint) is dispatched
  explicitly by this class's CreateEndpoint. Every public method of the
  source is `synchronized`; each is modelled as one atomic step.
 */
module Publisher {
  import opened Outcomes
  import opened Kurento
  import opened ShaperChain
  import opened IceEndpoint

  /**
    The walk of innerConnect: connects `source` to the oldest element of the
    chain, each element to the next newer one found by GetPrevious, and the
    newest to `sink`; with no element, `source` straight to `sink`.
   */
  method WalkChain(pipeline: MediaPipeline, source: MediaElement, ids: seq<ElementId>,
                   elements: map<ElementId, MediaElement>, sink: MediaElement)
    requires NoDuplicates(ids) && Registered(ids, elements)
    modifies pipeline`log
    ensures pipeline.log == old(pipeline.log) + Wiring(source, ids, elements, sink)
  {
    var current := source;
    var prevId: Option<ElementId> := if ids == [] then None else Some(ids[|ids| - 1]);
    ghost var path := [source] + FlowOrder(ids, elements);
    ghost var j := 0;
    while prevId.Some?
      invariant 0 <= j <= |ids| && |path| == |ids| + 1
      invariant prevId == if j == |ids| then None else Some(ids[|ids| - 1 - j])
      invariant current == path[j]
      invariant pipeline.log == old(pipeline.log) + ConnectCalls(path[..j + 1])
      decreases |ids| - j
    {
      var prev := elements[prevId.value];
      PathStep(path, source, ids, elements, j);
      AppendAssoc(old(pipeline.log), ConnectCalls(path[..j + 1]), [Connected(current, prev)]);
      pipeline.Connect(current, prev);
      current := prev;
      FirstOccurrence(ids, |ids| - 1 - j);
      prevId := GetPrevious(ids, prevId.value);
      j := j + 1;
    }
    PathEnd(path, sink);
    AppendAssoc(old(pipeline.log), ConnectCalls(path[..|path|]), [Connected(current, sink)]);
    pipeline.Connect(current, sink);
  }

  /**
    Unregisters, in list order, the error listener of every element of `ids`
    that has a subscription, removing each id it visits from the
    subscriptions; returns the subscriptions left.
   */
  method UnsubscribeChain(ice: IceWebRtcEndpoint, ids: seq<ElementId>, elements: map<ElementId, MediaElement>,
                          subscriptions: map<ElementId, Subscription>) returns (remaining: map<ElementId, Subscription>)
    requires NoDuplicates(ids) && Registered(ids, elements)
    modifies ice.pipeline`log
    ensures remaining == subscriptions - (set id | id in ids)
    ensures ice.pipeline.log == old(ice.pipeline.log) + ElementUnsubscriptions(ids, elements, subscriptions)
  {
    remaining := subscriptions;
    ghost var removed: set<ElementId> := {};
    for i := 0 to |ids|
      invariant forall x :: x in removed <==> x in ids[..i]
      invariant remaining == subscriptions - removed
      invariant ice.pipeline.log == old(ice.pipeline.log) + ElementUnsubscriptions(ids[..i], elements, subscriptions)
    {
      var id := ids[i];
      FirstOccurrence(ids, i);
      var subscription := Get(remaining, id);
      assert subscription == Get(subscriptions, id);
      remaining := remaining - {id};
      RemoveKeysTwice(subscriptions, removed, {id});
      removed := removed + {id};
      assert ids[..i + 1] == ids[..i] + [id];
      ElementUnsubscriptionsSnoc(ids[..i], id, elements, subscriptions);
      AppendAssoc(old(ice.pipeline.log), ElementUnsubscriptions(ids[..i], elements, subscriptions),
                  Unsubscription(Some(elements[id]), subscription));
      ice.UnregisterElementErrListener(Some(elements[id]), subscription);
    }
    assert ids[..|ids|] == ids;
    assert removed == set id | id in ids;
  }

  class PublisherEndpoint {
    const ice: IceWebRtcEndpoint
    var passThru: Option<MediaElement>
    var passThruSubscription: Option<Subscription>
    var elements: map<ElementId, MediaElement>
    var elementIds: seq<ElementId>
    var connected: bool
    var elementsErrorSubscriptions: map<ElementId, Subscription>

    ghost predicate Valid()
      reads this, ice
    {
      ice.Valid() &&
      (passThru.Some? <==> ice.endpoint.Some?) &&
      (passThruSubscription.Some? <==> passThru.Some?) &&
      (connected ==> ice.endpoint.Some?) &&
      NoDuplicates(elementIds) &&
      Registered(elementIds, elements) &&
      (forall id :: id in elements ==> elements[id].id == id) &&
      (forall id :: id in elementsErrorSubscriptions ==> id in elementIds)
    }

    /** The connections that wire the current chain from the endpoint to the pass-through. */
    ghost function ChainWiring(): seq<Call>
      requires Valid() && ice.endpoint.Some?
      reads this, ice
    {
      Wiring(ice.endpoint.value, elementIds, elements, passThru.value)
    }

    constructor (pipeline: MediaPipeline)
      ensures fresh(ice) && ice.pipeline == pipeline
      ensures ice.endpoint == None && ice.candidates == []
      ensures passThru == None && elements == map[] && elementIds == [] && !connected
      ensures elementsErrorSubscriptions == map[]
      ensures Valid()
    {
      ice := new IceWebRtcEndpoint(pipeline);
      passThru := None;
      passThruSubscription := None;
      elements := map[];
      elementIds := [];
      connected := false;
      elementsErrorSubscriptions := map[];
    }

    /** Builds the WebRTC endpoint and then the pass-through, each with one error listener. */
    method InternalEndpointInitialization()
      modifies ice`endpoint, ice`endpointSubscription, ice.pipeline, this`passThru, this`passThruSubscription
      ensures var n := old(ice.pipeline.nextId);
        var e := MediaElement(WebRtcEndpoint, n);
        var p := MediaElement(PassThrough, n + 2);
        ice.endpoint == Some(e) && ice.endpointSubscription == Some(n + 1) &&
        passThru == Some(p) && passThruSubscription == Some(n + 3) &&
        ice.pipeline.nextId == n + 4 &&
        ice.pipeline.log == old(ice.pipeline.log) + [Built(e), ErrorListenerAdded(e, n + 1), Built(p), ErrorListenerAdded(p, n + 3)]
    {
      ice.InternalEndpointInitialization();
      var p := ice.pipeline.Build(PassThrough);
      passThru := Some(p);
      var s := ice.RegisterElemErrListener(p);
      passThruSubscription := Some(s);
    }

    /**
      The inherited createEndpoint running this class's initialization: on the
      first call builds the endpoint and the pass-through, then hands every
      buffered candidate to the endpoint; returns the endpoint as it was before.
      A publisher's endpoint is created only through this method, never by
      calling `ice.CreateEndpoint` directly, which would skip the pass-through.
     */
    method CreateEndpoint() returns (previous: Option<MediaElement>)
      requires Valid()
      modifies ice, ice.pipeline, this`passThru, this`passThruSubscription
      ensures Valid()
      ensures previous == old(ice.endpoint)
      ensures ice.endpoint.Some? && ice.candidates == []
      ensures old(ice.endpoint).Some? ==>
        ice.endpoint == old(ice.endpoint) && ice.endpointSubscription == old(ice.endpointSubscription) &&
        passThru == old(passThru) && passThruSubscription == old(passThruSubscription) &&
        ice.pipeline.nextId == old(ice.pipeline.nextId) && ice.pipeline.log == old(ice.pipeline.log)
      ensures old(ice.endpoint).None? ==>
        var n := old(ice.pipeline.nextId);
        var e := MediaElement(WebRtcEndpoint, n);
        var p := MediaElement(PassThrough, n + 2);
        ice.endpoint == Some(e) && passThru == Some(p) && ice.pipeline.nextId == n + 4 &&
        ice.endpointSubscription == Some(n + 1) && passThruSubscription == Some(n + 3) &&
        ice.pipeline.log == old(ice.pipeline.log) + [Built(e), ErrorListenerAdded(e, n + 1), Built(p), ErrorListenerAdded(p, n + 3)]
                                                  + DeliveryCalls(e, old(ice.candidates))
      ensures ice.Buffer() == Step(old(ice.Buffer()), EndpointCreated)
    {
      previous := ice.endpoint;
      ghost var setup: seq<Call> := [];
      if ice.endpoint.None? {
        InternalEndpointInitialization();
        setup := [Built(ice.endpoint.value), ErrorListenerAdded(ice.endpoint.value, old(ice.pipeline.nextId) + 1),
                  Built(passThru.value), ErrorListenerAdded(passThru.value, old(ice.pipeline.nextId) + 3)];
      }
      assert ice.pipeline.log == old(ice.pipeline.log) + setup;
      ice.DrainCandidates();
      SetupThenDeliver(old(ice.pipeline.log), setup, ice.endpoint.value, old(ice.candidates));
    }

    /**
      Unregisters the listeners of the endpoint, of the pass-through and of
      every element of the chain; the element subscriptions are removed from
      the map, the endpoint's and the pass-through's are kept.
     */
    method UnregisterErrorListeners()
      requires Valid()
      modifies this`elementsErrorSubscriptions, ice.pipeline`log
      ensures Valid()
      ensures elementsErrorSubscriptions == map[]
      ensures ice.pipeline.log == old(ice.pipeline.log)
        + Unsubscription(ice.endpoint, ice.endpointSubscription)
        + Unsubscription(passThru, passThruSubscription)
        + ElementUnsubscriptions(elementIds, elements, old(elementsErrorSubscriptions))
    {
      ice.UnregisterErrorListeners();
      ice.UnregisterElementErrListener(passThru, passThruSubscription);
      elementsErrorSubscriptions := UnsubscribeChain(ice, elementIds, elements, elementsErrorSubscriptions);
      assert elementsErrorSubscriptions.Keys == {};
    }

    /**
      Every element this endpoint manages apart from the WebRTC endpoint: the
      pass-through, once it exists, is first recorded in `elements` under its
      own id; every applied element stays there, reverted or not.
     */
    method GetMediaElements() returns (all: set<MediaElement>)
      requires Valid()
      modifies this`elements
      ensures Valid()
      ensures passThru.None? ==> elements == old(elements)
      ensures passThru.Some? ==> elements == old(elements)[passThru.value.id := passThru.value]
      ensures all == elements.Values
      ensures passThru.Some? ==> passThru.value in all
      ensures forall id :: id in old(elements) && (passThru.None? || id != passThru.value.id) ==> old(elements)[id] in all
    {
      if passThru.Some? {
        elements := elements[passThru.value.id := passThru.value];
        assert elements[passThru.value.id] == passThru.value;
      }
      all := elements.Values;
      forall id | id in old(elements) && (passThru.None? || id != passThru.value.id)
        ensures old(elements)[id] in all
      {
        assert elements[id] == old(elements)[id];
      }
    }

    /**
      Publishes: installs the local-candidate listener, connects the
      pass-through back to the endpoint (wiring the chain first if it is not
      yet wired), processes the offer and starts gathering, in that order.
     */
    method Publish(sdpOffer: string) returns (sdpAnswer: Result<string>)
      requires Valid()
      modifies this`connected, ice.pipeline`log
      ensures Valid()
      ensures old(connected) ==> connected
      ensures ice.endpoint.None? ==>
        sdpAnswer == Failure && connected == old(connected) && ice.pipeline.log == old(ice.pipeline.log)
      ensures ice.endpoint.Some? ==>
        var e := ice.endpoint.value;
        sdpAnswer == Success(ice.pipeline.answerTo(sdpOffer)) && connected &&
        ice.pipeline.log == old(ice.pipeline.log) + [IceCandidateListenerAdded(e)]
                            + (if old(connected) then [] else ChainWiring())
                            + [Connected(passThru.value, e), OfferProcessed(e, sdpOffer), GatheringStarted(e)]
    {
      var registered := ice.RegisterOnIceCandidateEventListener();
      if registered == Fail {
        return Failure;
      }
      var looped := Connect(ice.endpoint.value);
      var answer := ice.ProcessOffer(sdpOffer);
      var gathering := ice.GatherCandidates();
      sdpAnswer := Success(answer.value);
    }

    /**
      Connects the pass-through to `other`, wiring the chain first on the
      first successful call; fails, changing nothing, while there is no endpoint.
     */
    method Connect(other: MediaElement) returns (outcome: Outcome)
      requires Valid()
      modifies this`connected, ice.pipeline`log
      ensures Valid()
      ensures old(connected) ==>
        outcome == Pass && connected && ice.pipeline.log == old(ice.pipeline.log) + [Connected(passThru.value, other)]
      ensures !old(connected) && ice.endpoint.None? ==>
        outcome == Fail && !connected && ice.pipeline.log == old(ice.pipeline.log)
      ensures !old(connected) && ice.endpoint.Some? ==>
        outcome == Pass && connected &&
        ice.pipeline.log == old(ice.pipeline.log) + ChainWiring() + [Connected(passThru.value, other)]
    {
      if !connected {
        outcome := InnerConnect();
        if outcome == Fail {
          return;
        }
      }
      ice.pipeline.Connect(passThru.value, other);
      outcome := Pass;
    }

    /**
      Inserts `shaper` at the head of the id list, the sink end of the media
      flow; on a wired chain it is spliced in after the previously newest
      element (or the endpoint) and before the pass-through. Fails, changing
      nothing, when an element with the same id is already recorded.
     */
    method Apply(shaper: MediaElement) returns (result: Result<ElementId>)
      requires Valid()
      modifies this`elements, this`elementIds, this`elementsErrorSubscriptions, ice.pipeline
      ensures Valid()
      ensures shaper.id in old(elements) ==>
        result == Failure &&
        elements == old(elements) && elementIds == old(elementIds) &&
        elementsErrorSubscriptions == old(elementsErrorSubscriptions) &&
        ice.pipeline.nextId == old(ice.pipeline.nextId) && ice.pipeline.log == old(ice.pipeline.log)
      ensures shaper.id !in old(elements) ==>
        var s := old(ice.pipeline.nextId);
        result == Success(shaper.id) &&
        elementIds == [shaper.id] + old(elementIds) &&
        elements == old(elements)[shaper.id := shaper] &&
        elementsErrorSubscriptions == old(elementsErrorSubscriptions)[shaper.id := s] &&
        ice.pipeline.nextId == s + 1 &&
        ice.pipeline.log == old(ice.pipeline.log)
          + (if connected
             then [Connected(Newest(ice.endpoint.value, old(elementIds), old(elements)), shaper),
                   Connected(shaper, passThru.value)]
             else [])
          + [ErrorListenerAdded(shaper, s)]
    {
      var id := shaper.id;
      if id in elements {
        return Failure;
      }
      var first: Option<MediaElement> := None;
      if elementIds != [] {
        first := Some(elements[elementIds[0]]);
      }
      if connected {
        if first.Some? {
          ice.pipeline.Connect(first.value, shaper);
        } else {
          ice.pipeline.Connect(ice.endpoint.value, shaper);
        }
        ice.pipeline.Connect(shaper, passThru.value);
      }
      elementIds := [id] + elementIds;
      elements := elements[id := shaper];
      var subscription := ice.RegisterElemErrListener(shaper);
      elementsErrorSubscriptions := elementsErrorSubscriptions[id := subscription];
      result := Success(id);
    }

    /**
      Unregisters the listener of the element recorded under `shaper`'s id and
      releases it; on a wired chain then connects the element's upstream
      neighbour (or the endpoint) to its downstream neighbour (or the
      pass-through). The id stays in `elements` and `elementIds`. Fails,
      changing nothing, when no element is recorded under that id.
     */
    method Revert(shaper: MediaElement) returns (outcome: Outcome)
      requires Valid()
      modifies this`elementsErrorSubscriptions, ice.pipeline`log
      ensures Valid()
      ensures elements == old(elements) && elementIds == old(elementIds)
      ensures shaper.id !in elements ==>
        outcome == Fail && elementsErrorSubscriptions == old(elementsErrorSubscriptions) &&
        ice.pipeline.log == old(ice.pipeline.log)
      ensures shaper.id in elements ==>
        var element := elements[shaper.id];
        outcome == Pass &&
        elementsErrorSubscriptions == old(elementsErrorSubscriptions) - {shaper.id} &&
        ice.pipeline.log == old(ice.pipeline.log)
          + Unsubscription(Some(element), Get(old(elementsErrorSubscriptions), shaper.id))
          + [Released(element)]
          + (if connected
             then [Connected(Upstream(ice.endpoint.value, elementIds, elements, shaper.id),
                             Downstream(passThru.value, elementIds, elements, shaper.id))]
             else [])
    {
      var elementId := shaper.id;
      if elementId !in elements {
        return Fail;
      }
      var element := elements[elementId];
      var subscription := Get(elementsErrorSubscriptions, elementId);
      elementsErrorSubscriptions := elementsErrorSubscriptions - {elementId};
      ice.UnregisterElementErrListener(Some(element), subscription);
      ice.pipeline.Release(element);
      if !connected {
        return Pass;
      }
      var nextId := GetNext(elementIds, elementId);
      var prevId := GetPrevious(elementIds, elementId);
      var next := if nextId.Some? then elements[nextId.value] else ice.endpoint.value;
      var prev := if prevId.Some? then elements[prevId.value] else passThru.value;
      ice.pipeline.Connect(next, prev);
      outcome := Pass;
    }

    /**
      Wires the chain: the endpoint to the oldest element, each element to the
      next newer one found by GetPrevious, the newest to the pass-through, and
      latches `connected`. Fails, changing nothing, without an endpoint. The
      source's "no media element" failure inside the walk cannot happen: every
      id of the list is recorded in `elements` (Valid).
     */
    method InnerConnect() returns (outcome: Outcome)
      requires Valid()
      modifies this`connected, ice.pipeline`log
      ensures Valid()
      ensures ice.endpoint.None? ==>
        outcome == Fail && connected == old(connected) && ice.pipeline.log == old(ice.pipeline.log)
      ensures ice.endpoint.Some? ==>
        outcome == Pass && connected && ice.pipeline.log == old(ice.pipeline.log) + ChainWiring()
    {
      if ice.endpoint.None? {
        return Fail;
      }
      WalkChain(ice.pipeline, ice.endpoint.value, elementIds, elements, passThru.value);
      connected := true;
      outcome := Pass;
    }
  }
}
