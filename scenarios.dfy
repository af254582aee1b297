/**
  Whole-object scenarios: short call sequences on a fresh publisher whose
  outcome is stated call by call, as the wiring order and the listener
  bookkeeping of the two endpoint classes imply.
 */
module Scenarios {
  import opened Outcomes
  import opened Kurento
  import opened ShaperChain
  import opened IceEndpoint
  import opened Publisher

  /**
    Shapers A, B and C applied in that order (so the id list reads C, B, A)
    are wired endpoint to A, A to B, B to C and C to the pass-through.
   */
  lemma ThreeShapersWiring(e: MediaElement, a: MediaElement, b: MediaElement, c: MediaElement, p: MediaElement)
    requires a.id != b.id && b.id != c.id && a.id != c.id
    ensures Registered([c.id, b.id, a.id], map[a.id := a, b.id := b, c.id := c])
    ensures Wiring(e, [c.id, b.id, a.id], map[a.id := a, b.id := b, c.id := c], p)
      == [Connected(e, a), Connected(a, b), Connected(b, c), Connected(c, p)]
  {
    var ids := [c.id, b.id, a.id];
    var elements := map[a.id := a, b.id := b, c.id := c];
    assert Registered(ids, elements);
    WiringOrder(e, ids, elements, p);
    var w := Wiring(e, ids, elements, p);
    assert w[0] == Connected(e, a);
    assert w[|ids| - 2] == Connected(elements[ids[2]], elements[ids[1]]);
    assert w[|ids| - 1] == Connected(elements[ids[1]], elements[ids[0]]);
    assert w[3] == Connected(c, p);
  }

  /**
    Reverting B from the wired chain A, B, C connects A to C, and that is the
    connection a fresh wiring of A, C makes between them.
   */
  lemma RevertMiddleOfThree(e: MediaElement, a: MediaElement, b: MediaElement, c: MediaElement, p: MediaElement)
    requires a.id != b.id && b.id != c.id && a.id != c.id
    ensures Registered([c.id, b.id, a.id], map[a.id := a, b.id := b, c.id := c])
    ensures Upstream(e, [c.id, b.id, a.id], map[a.id := a, b.id := b, c.id := c], b.id) == a
    ensures Downstream(p, [c.id, b.id, a.id], map[a.id := a, b.id := b, c.id := c], b.id) == c
    ensures Wiring(e, [c.id, a.id], map[a.id := a, b.id := b, c.id := c], p)[1] == Connected(a, c)
  {
    var ids := [c.id, b.id, a.id];
    var elements := map[a.id := a, b.id := b, c.id := c];
    assert ids[1] == b.id && b.id !in ids[..1];
    RevertBridgesGap(e, ids, elements, p, 1);
    assert RemoveAt(ids, 1) == [c.id, a.id];
  }

  /** A new publisher whose endpoint has been created: the endpoint and the pass-through, nothing applied. */
  method CreatePublisher(pipeline: MediaPipeline) returns (p: PublisherEndpoint)
    modifies pipeline
    ensures fresh(p) && fresh(p.ice) && p.ice.pipeline == pipeline && p.Valid()
    ensures var n := old(pipeline.nextId);
      p.ice.endpoint == Some(MediaElement(WebRtcEndpoint, n)) && p.passThru == Some(MediaElement(PassThrough, n + 2)) &&
      p.ice.endpointSubscription == Some(n + 1) && p.passThruSubscription == Some(n + 3) &&
      p.elements == map[] && p.elementIds == [] && !p.connected && pipeline.nextId == n + 4 &&
      pipeline.log == old(pipeline.log) + [Built(MediaElement(WebRtcEndpoint, n)), ErrorListenerAdded(MediaElement(WebRtcEndpoint, n), n + 1),
                                           Built(MediaElement(PassThrough, n + 2)), ErrorListenerAdded(MediaElement(PassThrough, n + 2), n + 3)]
  {
    p := new PublisherEndpoint(pipeline);
    var _ := p.CreateEndpoint();
  }

  /** Applying A, B and C to an unwired, empty chain only registers their listeners. */
  method ApplyThree(p: PublisherEndpoint, a: MediaElement, b: MediaElement, c: MediaElement)
    requires p.Valid() && p.elements == map[] && p.elementIds == [] && !p.connected
    requires a.id != b.id && b.id != c.id && a.id != c.id
    modifies p`elements, p`elementIds, p`elementsErrorSubscriptions, p.ice.pipeline
    ensures p.Valid() && !p.connected
    ensures p.elements == map[a.id := a, b.id := b, c.id := c] && p.elementIds == [c.id, b.id, a.id]
    ensures var n := old(p.ice.pipeline.nextId);
      p.ice.pipeline.log == old(p.ice.pipeline.log) + [ErrorListenerAdded(a, n), ErrorListenerAdded(b, n + 1), ErrorListenerAdded(c, n + 2)]
  {
    ghost var n := p.ice.pipeline.nextId;
    ghost var start := p.ice.pipeline.log;
    var ra := p.Apply(a);
    var rb := p.Apply(b);
    assert p.ice.pipeline.log == start + [ErrorListenerAdded(a, n), ErrorListenerAdded(b, n + 1)];
    var rc := p.Apply(c);
  }

  /**
    A new publisher: create the endpoint, apply A, B and C, then connect a
    subscriber. The chain is wired only by the connect, oldest shaper first.
   */
  method ApplyThreeThenConnect(pipeline: MediaPipeline, a: MediaElement, b: MediaElement, c: MediaElement,
                               subscriber: MediaElement) returns (p: PublisherEndpoint)
    requires a.id != b.id && b.id != c.id && a.id != c.id
    modifies pipeline
    ensures p.ice.pipeline == pipeline && p.connected && p.elementIds == [c.id, b.id, a.id]
    ensures var n := old(pipeline.nextId);
      var e := MediaElement(WebRtcEndpoint, n);
      var pt := MediaElement(PassThrough, n + 2);
      pipeline.log == old(pipeline.log)
        + [Built(e), ErrorListenerAdded(e, n + 1), Built(pt), ErrorListenerAdded(pt, n + 3)]
        + [ErrorListenerAdded(a, n + 4), ErrorListenerAdded(b, n + 5), ErrorListenerAdded(c, n + 6)]
        + [Connected(e, a), Connected(a, b), Connected(b, c), Connected(c, pt), Connected(pt, subscriber)]
  {
    ghost var n := pipeline.nextId;
    ghost var e := MediaElement(WebRtcEndpoint, n);
    ghost var pt := MediaElement(PassThrough, n + 2);
    p := CreatePublisher(pipeline);
    ghost var created := pipeline.log;
    ApplyThree(p, a, b, c);
    ghost var applied := pipeline.log;
    ThreeShapersWiring(e, a, b, c, pt);
    var outcome := p.Connect(subscriber);
    assert pipeline.log == applied
      + [Connected(e, a), Connected(a, b), Connected(b, c), Connected(c, pt)] + [Connected(pt, subscriber)];
  }

  /**
    Unregistering twice removes the endpoint's and the pass-through's
    listeners twice, since their subscriptions are kept, while each shaper's
    listener is removed only the first time.
   */
  method UnregisterTwice(p: PublisherEndpoint)
    requires p.Valid() && p.ice.endpoint.Some?
    modifies p`elementsErrorSubscriptions, p.ice.pipeline`log
    ensures var e := p.ice.endpoint.value;
      var pt := p.passThru.value;
      var endpointRemoved := ErrorListenerRemoved(e, p.ice.endpointSubscription.value);
      var passThruRemoved := ErrorListenerRemoved(pt, p.passThruSubscription.value);
      p.ice.pipeline.log == old(p.ice.pipeline.log)
        + [endpointRemoved, passThruRemoved]
        + ElementUnsubscriptions(p.elementIds, p.elements, old(p.elementsErrorSubscriptions))
        + [endpointRemoved, passThruRemoved]
  {
    ghost var start := p.ice.pipeline.log;
    ghost var removed := [ErrorListenerRemoved(p.ice.endpoint.value, p.ice.endpointSubscription.value),
                          ErrorListenerRemoved(p.passThru.value, p.passThruSubscription.value)];
    ghost var chain := ElementUnsubscriptions(p.elementIds, p.elements, p.elementsErrorSubscriptions);
    p.UnregisterErrorListeners();
    assert p.ice.pipeline.log == start + removed + chain;
    ElementUnsubscriptionsComplete(p.elementIds, p.elements, p.elementsErrorSubscriptions);
    p.UnregisterErrorListeners();
    assert p.ice.pipeline.log == start + removed + chain + removed;
  }
}
