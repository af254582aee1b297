/**
  The WebRTC endpoint wrapper that buffers remote ICE candidates until its
  WebRtcEndpoint exists, creates that endpoint lazily and at most once, and
  keeps the error-listener subscription of the endpoint.

  Every public method of the source is `synchronized`; each is modelled as
  one atomic step.
 */
module IceEndpoint {
  import opened Outcomes
  import opened Kurento

  // ---------------------------------------------------------------------
  // The candidate buffer as a state machine: what the endpoint does with
  // candidates, independent of the media server's other calls.
  // ---------------------------------------------------------------------

  datatype BufferEvent = Received(candidate: IceCandidate) | EndpointCreated

  /** Whether the endpoint exists, the buffered candidates, and those handed to the endpoint. */
  datatype BufferState = BufferState(created: bool, buffered: seq<IceCandidate>, delivered: seq<IceCandidate>)

  const InitialBuffer := BufferState(false, [], [])

  /** Candidates are buffered only while no endpoint exists. */
  ghost predicate BufferInvariant(s: BufferState)
  {
    s.buffered != [] ==> !s.created
  }

  /** The candidates carried by `events`, in order. */
  function Arrivals(events: seq<BufferEvent>): seq<IceCandidate>
  {
    if events == [] then []
    else (if events[0].Received? then [events[0].candidate] else []) + Arrivals(events[1..])
  }

  /**
    One step: a received candidate is buffered while there is no endpoint and
    handed over otherwise; creating the endpoint hands over the buffer in order.
   */
  function Step(s: BufferState, e: BufferEvent): (t: BufferState)
    ensures BufferInvariant(s) ==> BufferInvariant(t)
    ensures BufferInvariant(s) ==> t.delivered + t.buffered == s.delivered + s.buffered + Arrivals([e])
    ensures s.created ==> t.created
    ensures e.EndpointCreated? ==> t.created && t.buffered == []
    ensures e.Received? ==> t.created == s.created && (if s.created then t.delivered == s.delivered + [e.candidate] else t.delivered == s.delivered)
  {
    assert Arrivals([e]) == (if e.Received? then [e.candidate] else []) by {
      assert [e][1..] == [];
    }
    match e
    case Received(c) =>
      if s.created then s.(delivered := s.delivered + [c]) else s.(buffered := s.buffered + [c])
    case EndpointCreated =>
      BufferState(true, [], s.delivered + s.buffered)
  }

  function Run(s: BufferState, events: seq<BufferEvent>): BufferState
    decreases |events|
  {
    if events == [] then s else Run(Step(s, events[0]), events[1..])
  }

  lemma {:induction false} RunConserves(s: BufferState, events: seq<BufferEvent>)
    requires BufferInvariant(s)
    decreases |events|
    ensures BufferInvariant(Run(s, events))
    ensures Run(s, events).delivered + Run(s, events).buffered == s.delivered + s.buffered + Arrivals(events)
    ensures s.created || EndpointCreated in events ==> Run(s, events).created
  {
    if events != [] {
      var t := Step(s, events[0]);
      RunConserves(t, events[1..]);
      assert events == [events[0]] + events[1..];
      ArrivalsAppend([events[0]], events[1..]);
      assert EndpointCreated in events ==> events[0] == EndpointCreated || EndpointCreated in events[1..];
    }
  }

  lemma {:induction false} ArrivalsAppend(a: seq<BufferEvent>, b: seq<BufferEvent>)
    ensures Arrivals(a + b) == Arrivals(a) + Arrivals(b)
  {
    if a == [] {
      assert a + b == b;
    } else {
      var head := if a[0].Received? then [a[0].candidate] else [];
      assert (a + b)[0] == a[0];
      assert (a + b)[1..] == a[1..] + b;
      ArrivalsAppend(a[1..], b);
      AppendAssoc(head, Arrivals(a[1..]), Arrivals(b));
    }
  }

  /**
    Over any interleaving of received candidates and endpoint creations,
    starting with no endpoint: every candidate is either still buffered or
    delivered, exactly once and in arrival order, and once the endpoint has
    been created nothing is left in the buffer.
   */
  lemma {:induction false} NoCandidateLostOrReordered(events: seq<BufferEvent>)
    ensures Run(InitialBuffer, events).delivered + Run(InitialBuffer, events).buffered == Arrivals(events)
    ensures EndpointCreated in events ==>
      Run(InitialBuffer, events).buffered == [] && Run(InitialBuffer, events).delivered == Arrivals(events)
  {
    RunConserves(InitialBuffer, events);
  }

  // ---------------------------------------------------------------------
  // The endpoint wrapper.
  // ---------------------------------------------------------------------

  class IceWebRtcEndpoint {
    const pipeline: MediaPipeline
    var endpoint: Option<MediaElement>
    var endpointSubscription: Option<Subscription>
    var candidates: seq<IceCandidate>

    ghost predicate Valid()
      reads this
    {
      (candidates != [] ==> endpoint.None?) &&
      (endpointSubscription.Some? <==> endpoint.Some?)
    }

    /** The candidate buffer this object implements, with the candidates the pipeline has received. */
    ghost function Buffer(): BufferState
      reads this, pipeline
    {
      BufferState(endpoint.Some?, candidates, Delivered(pipeline.log))
    }

    constructor (pipeline: MediaPipeline)
      ensures this.pipeline == pipeline
      ensures endpoint == None && endpointSubscription == None && candidates == []
      ensures Valid()
    {
      this.pipeline := pipeline;
      endpoint := None;
      endpointSubscription := None;
      candidates := [];
    }

    /** Buffers a remote candidate while there is no endpoint, hands it over otherwise. */
    method AddIceCandidate(candidate: IceCandidate)
      requires Valid()
      modifies this`candidates, pipeline`log
      ensures Valid()
      ensures endpoint.None? ==> candidates == old(candidates) + [candidate] && pipeline.log == old(pipeline.log)
      ensures endpoint.Some? ==>
        candidates == old(candidates) && pipeline.log == old(pipeline.log) + [CandidateAdded(endpoint.value, candidate)]
      ensures Buffer() == Step(old(Buffer()), Received(candidate))
    {
      if endpoint.None? {
        candidates := candidates + [candidate];
      } else {
        pipeline.AddIceCandidate(endpoint.value, candidate);
        DeliveredAppend(old(pipeline.log), [CandidateAdded(endpoint.value, candidate)]);
      }
    }

    /**
      Creates the endpoint if there is none, then hands every buffered
      candidate to it in arrival order; returns the endpoint as it was before.
     */
    method CreateEndpoint() returns (previous: Option<MediaElement>)
      requires Valid()
      modifies this, pipeline
      ensures Valid()
      ensures previous == old(endpoint)
      ensures endpoint.Some? && candidates == []
      ensures old(endpoint).Some? ==>
        endpoint == old(endpoint) && endpointSubscription == old(endpointSubscription) &&
        pipeline.nextId == old(pipeline.nextId) && pipeline.log == old(pipeline.log)
      ensures old(endpoint).None? ==>
        var e := MediaElement(WebRtcEndpoint, old(pipeline.nextId));
        endpoint == Some(e) && endpointSubscription == Some(old(pipeline.nextId) + 1) &&
        pipeline.nextId == old(pipeline.nextId) + 2 &&
        pipeline.log == old(pipeline.log) + [Built(e), ErrorListenerAdded(e, old(pipeline.nextId) + 1)]
                                          + DeliveryCalls(e, old(candidates))
      ensures Buffer() == Step(old(Buffer()), EndpointCreated)
    {
      previous := endpoint;
      ghost var setup: seq<Call> := [];
      if endpoint.None? {
        InternalEndpointInitialization();
        setup := [Built(endpoint.value), ErrorListenerAdded(endpoint.value, old(pipeline.nextId) + 1)];
      }
      assert pipeline.log == old(pipeline.log) + setup;
      DrainCandidates();
      SetupThenDeliver(old(pipeline.log), setup, endpoint.value, old(candidates));
    }

    /** Builds the WebRtcEndpoint and registers its one error listener. */
    method InternalEndpointInitialization()
      modifies this`endpoint, this`endpointSubscription, pipeline
      ensures endpoint == Some(MediaElement(WebRtcEndpoint, old(pipeline.nextId)))
      ensures endpointSubscription == Some(old(pipeline.nextId) + 1)
      ensures pipeline.nextId == old(pipeline.nextId) + 2
      ensures pipeline.log == old(pipeline.log) + [Built(endpoint.value), ErrorListenerAdded(endpoint.value, endpointSubscription.value)]
    {
      var e := pipeline.Build(WebRtcEndpoint);
      endpoint := Some(e);
      var s := RegisterElemErrListener(e);
      endpointSubscription := Some(s);
    }

    /** Removes the buffered candidates one by one from the front, handing each to the endpoint. */
    method DrainCandidates()
      requires endpoint.Some?
      modifies this`candidates, pipeline`log
      ensures candidates == []
      ensures pipeline.log == old(pipeline.log) + DeliveryCalls(endpoint.value, old(candidates))
    {
      ghost var pending := candidates;
      while candidates != []
        invariant |candidates| <= |pending|
        invariant candidates == pending[|pending| - |candidates|..]
        invariant pipeline.log == old(pipeline.log) + DeliveryCalls(endpoint.value, pending[..|pending| - |candidates|])
        decreases |candidates|
      {
        ghost var done := pending[..|pending| - |candidates|];
        var c := candidates[0];
        candidates := candidates[1..];
        pipeline.AddIceCandidate(endpoint.value, c);
        assert pending[..|pending| - |candidates|] == done + [c];
        assert DeliveryCalls(endpoint.value, done + [c]) == DeliveryCalls(endpoint.value, done) + [CandidateAdded(endpoint.value, c)];
      }
      assert pending[..|pending|] == pending;
    }

    /** Unregisters the endpoint's error listener; nothing happens before the endpoint exists. */
    method UnregisterErrorListeners()
      modifies pipeline`log
      ensures endpoint.None? ==> pipeline.log == old(pipeline.log)
      ensures pipeline.log == old(pipeline.log) + Unsubscription(endpoint, endpointSubscription)
    {
      UnregisterElementErrListener(endpoint, endpointSubscription);
    }

    /** Registers an error listener on `element` and returns its subscription. */
    method RegisterElemErrListener(element: MediaElement) returns (subscription: Subscription)
      modifies pipeline
      ensures subscription == old(pipeline.nextId) && pipeline.nextId == old(pipeline.nextId) + 1
      ensures pipeline.log == old(pipeline.log) + [ErrorListenerAdded(element, subscription)]
    {
      subscription := pipeline.AddErrorListener(element);
    }

    /** Unregisters a listener; a missing element or a missing subscription makes it a no-op. */
    method UnregisterElementErrListener(element: Option<MediaElement>, subscription: Option<Subscription>)
      modifies pipeline`log
      ensures element.None? || subscription.None? ==> pipeline.log == old(pipeline.log)
      ensures element.Some? && subscription.Some? ==>
        pipeline.log == old(pipeline.log) + [ErrorListenerRemoved(element.value, subscription.value)]
    {
      if element.None? || subscription.None? {
        return;
      }
      pipeline.RemoveErrorListener(element.value, subscription.value);
    }

    /** Installs the listener forwarding locally gathered candidates; fails without an endpoint. */
    method RegisterOnIceCandidateEventListener() returns (outcome: Outcome)
      modifies pipeline`log
      ensures endpoint.None? ==> outcome == Fail && pipeline.log == old(pipeline.log)
      ensures endpoint.Some? ==> outcome == Pass && pipeline.log == old(pipeline.log) + [IceCandidateListenerAdded(endpoint.value)]
    {
      if endpoint.None? {
        return Fail;
      }
      pipeline.AddOnIceCandidateListener(endpoint.value);
      outcome := Pass;
    }

    /** Has the endpoint process an SDP offer and returns its answer; fails without an endpoint. */
    method ProcessOffer(offer: string) returns (answer: Result<string>)
      modifies pipeline`log
      ensures endpoint.None? ==> answer == Failure && pipeline.log == old(pipeline.log)
      ensures endpoint.Some? ==>
        answer == Success(pipeline.answerTo(offer)) && pipeline.log == old(pipeline.log) + [OfferProcessed(endpoint.value, offer)]
    {
      if endpoint.None? {
        return Failure;
      }
      var sdpAnswer := pipeline.ProcessOffer(endpoint.value, offer);
      answer := Success(sdpAnswer);
    }

    /** Starts ICE gathering on the endpoint; fails without an endpoint. */
    method GatherCandidates() returns (outcome: Outcome)
      modifies pipeline`log
      ensures endpoint.None? ==> outcome == Fail && pipeline.log == old(pipeline.log)
      ensures endpoint.Some? ==> outcome == Pass && pipeline.log == old(pipeline.log) + [GatheringStarted(endpoint.value)]
    {
      if endpoint.None? {
        return Fail;
      }
      pipeline.GatherCandidates(endpoint.value);
      outcome := Pass;
    }
  }
}
