# Kurento Room publisher endpoint, modelled in Dafny

This project models the two classes of the Kurento Room SDK that stand
between a browser publishing WebRTC media and the rest of a room:

- `IceWebRtcEndpoint` wraps a Kurento `WebRtcEndpoint`. It creates the
  endpoint lazily and at most once. It buffers the remote ICE candidates
  that arrive before the endpoint exists and hands them over, in arrival
  order, when the endpoint is created. It also keeps the error-listener
  subscription of the endpoint, and refuses the operations that need an
  endpoint while there is none.
- `PublisherEndpoint` extends it with a `PassThrough` element and a chain
  of "shaper" media elements. The chain can be applied and reverted at run
  time. The chain is wired endpoint → shapers → pass-through once, on the
  first `connect`/`publish`, and a `connected` latch remembers it.

The Kurento client itself is the class `Kurento.MediaPipeline`. It hands
out fresh ids for elements and listener subscriptions. It records, in a
ghost `log`, every call the endpoints make into the media server: build,
add or remove an error listener, add a candidate, connect, release, process
an offer, start gathering, add the candidate listener. Each operation's
contract states how it changes the fields of its object and exactly which
calls it appends to that log, in order. The SDP answer of the server is a
function parameter of the pipeline (`answerTo`).

The files:

- `kurento.dfy`: the `Outcomes` module and the `Kurento` module.
  - `Outcomes` holds `Option`, `Result` and `Outcome` (Pass | Fail); a
    Java exception is `Failure`/`Fail`, with nothing changed.
  - `Kurento` holds the engine (`MediaPipeline`) and its call log, with the
    functions that read delivered candidates back out of the log.
- `ice_webrtc_endpoint.dfy`: the module `IceEndpoint`. It holds the
  candidate buffer as a pure state machine (`Step`, `Run`) with its
  conservation lemmas, and the class `IceWebRtcEndpoint`. Each method of
  that class states its effect through that state machine (`Buffer()`).
- `shaper_chain.dfy`: the module `ShaperChain`. It holds the chain as
  values: the id list, `indexOf`/`getNext`/`getPrevious`, the media-flow
  order and the connections a wiring makes, with lemmas relating wiring,
  splicing in and bridging a gap.
- `publisher_endpoint.dfy`: the module `Publisher`, with the class
  `PublisherEndpoint`. Its invariant `Valid()` says:
  - the pass-through and the endpoint exist together;
  - the id list has no duplicates;
  - every listed id is a key of `elements`;
  - every key maps to an element with that id;
  - subscriptions exist only for listed ids.
- `scenarios.dfy`: concrete call sequences on a fresh publisher.

Inheritance is modelled by composition. `PublisherEndpoint.ice` is the
inherited `IceWebRtcEndpoint` state. `PublisherEndpoint.CreateEndpoint`
is the inherited `createEndpoint` running the overriding
`internalEndpointInitialization`, so the virtual dispatch is spelled out.
The inherited candidate drain (`DrainCandidates`) is shared. A
publisher's endpoint is created only through
`PublisherEndpoint.CreateEndpoint`. Calling `ice.CreateEndpoint` on a
publisher's component directly would build an endpoint without a
pass-through. That breaks `PublisherEndpoint.Valid()`, and Java's dispatch
never allows it.

The model keeps these behaviours of the code as written:

- **Wiring order.** The first connect wires endpoint → the OLDEST applied
  shaper → … → the NEWEST → pass-through. `elementIds` is kept newest
  first; `innerConnect` starts at its last entry and walks towards its
  head with `getPrevious` (PublisherEndpoint.java:166-177). So after apply
  A, B, C the wiring is endpoint→A, A→B, B→C, C→pass-through
  (`Scenarios.ThreeShapersWiring`). Reverting B from that chain connects A
  to C (`Scenarios.RevertMiddleOfThree`).
- **A newly applied shaper goes next to the pass-through.** On a wired
  chain it is spliced in between the previously newest element (or the
  endpoint) and the pass-through. That is where a fresh wiring would put
  it, but the old connection from the previously newest element to the
  pass-through is not removed (`ShaperChain.SpliceMatchesWiring`).
- **`revert` keeps the bookkeeping.** The id stays in `elements` and in
  `elementIds`; only its subscription is removed.
- **`getMediaElements` writes.** It records the pass-through in `elements`
  under its own id. Reverted shapers stay in the returned collection.
- **Repeated unregister.** A second `unregisterErrorListeners` removes the
  endpoint's and the pass-through's listeners again, because their
  subscription fields are never cleared (`Scenarios.UnregisterTwice`).

## Model

| member | source | states |
|---|---|---|
| IceEndpoint.Step | kurento-room-sdk/src/main/java/org/kurento/room/endpoint/IceWebRtcEndpoint.java:136-141 | a received candidate goes to the end of the buffer while there is no endpoint, delivering nothing; with an endpoint it is delivered at once and the buffer is unchanged; endpoint creation empties the buffer and marks the endpoint created; each step keeps "buffer non-empty only without endpoint" and keeps delivered ++ buffered equal to what arrived |
| IceEndpoint.RunConserves | kurento-room-sdk/src/main/java/org/kurento/room/endpoint/IceWebRtcEndpoint.java:88-95 | over any sequence of receptions and creations the buffer invariant holds, delivered ++ buffered is the earlier contents plus every arrival in order, and once created the endpoint stays created |
| IceEndpoint.NoCandidateLostOrReordered | kurento-room-sdk/src/main/java/org/kurento/room/endpoint/IceWebRtcEndpoint.java:88-95 | starting with no endpoint, every candidate received is either still buffered or delivered, exactly once and in arrival order; after a creation nothing is left buffered and everything received has been delivered |
| Kurento.DeliveryCallsDeliver | kurento-room-sdk/src/main/java/org/kurento/room/endpoint/IceWebRtcEndpoint.java:92-93 | handing a list of candidates to an element delivers exactly that list, in order |
| Kurento.SetupThenDeliver | kurento-room-sdk/src/main/java/org/kurento/room/endpoint/IceWebRtcEndpoint.java:88-95 | building the endpoint and registering listeners delivers no candidate, so after the drain the delivered candidates are the earlier ones followed by the buffered ones |
| Kurento.Unsubscription | kurento-room-sdk/src/main/java/org/kurento/room/endpoint/IceWebRtcEndpoint.java:204-209 | unregistering removes the listener exactly when both the element and the subscription are present, and otherwise makes no call |
| IceEndpoint.IceWebRtcEndpoint.constructor | kurento-room-sdk/src/main/java/org/kurento/room/endpoint/IceWebRtcEndpoint.java:45-64 | a new wrapper has no endpoint, no subscription, an empty buffer, and uses the given pipeline |
| IceEndpoint.IceWebRtcEndpoint.AddIceCandidate | kurento-room-sdk/src/main/java/org/kurento/room/endpoint/IceWebRtcEndpoint.java:136-141 | without an endpoint the candidate is appended to the buffer and no call is made; with one it is handed to the endpoint and the buffer is unchanged; the buffer state moves exactly as `Step` says |
| IceEndpoint.IceWebRtcEndpoint.CreateEndpoint | kurento-room-sdk/src/main/java/org/kurento/room/endpoint/IceWebRtcEndpoint.java:88-95 | returns the endpoint as it was before; afterwards an endpoint exists and the buffer is empty; if one existed nothing is built, registered or called; otherwise one endpoint is built with one error listener and then every buffered candidate is handed to it in order; the buffer moves as `Step` on creation |
| IceEndpoint.IceWebRtcEndpoint.InternalEndpointInitialization | kurento-room-sdk/src/main/java/org/kurento/room/endpoint/IceWebRtcEndpoint.java:154-157 | builds a fresh WebRtcEndpoint and registers exactly one error listener on it, recording its subscription |
| IceEndpoint.IceWebRtcEndpoint.DrainCandidates | kurento-room-sdk/src/main/java/org/kurento/room/endpoint/IceWebRtcEndpoint.java:92-93 | empties the buffer from the front, handing each candidate to the endpoint in buffer order |
| IceEndpoint.IceWebRtcEndpoint.UnregisterErrorListeners | kurento-room-sdk/src/main/java/org/kurento/room/endpoint/IceWebRtcEndpoint.java:147-149 | removes the endpoint's listener when both the endpoint and its subscription exist; before the endpoint exists it does nothing |
| IceEndpoint.IceWebRtcEndpoint.RegisterElemErrListener | kurento-room-sdk/src/main/java/org/kurento/room/endpoint/IceWebRtcEndpoint.java:188-195 | adds one error listener to the element and returns its fresh subscription |
| IceEndpoint.IceWebRtcEndpoint.UnregisterElementErrListener | kurento-room-sdk/src/main/java/org/kurento/room/endpoint/IceWebRtcEndpoint.java:204-209 | a missing element or subscription makes it a no-op; otherwise exactly that listener is removed |
| IceEndpoint.IceWebRtcEndpoint.RegisterOnIceCandidateEventListener | kurento-room-sdk/src/main/java/org/kurento/room/endpoint/IceWebRtcEndpoint.java:168-178 | fails with no call while there is no endpoint; otherwise installs the candidate listener on the endpoint |
| IceEndpoint.IceWebRtcEndpoint.ProcessOffer | kurento-room-sdk/src/main/java/org/kurento/room/endpoint/IceWebRtcEndpoint.java:218-223 | fails with no call while there is no endpoint; otherwise the endpoint processes the offer and the server's answer to it is returned |
| IceEndpoint.IceWebRtcEndpoint.GatherCandidates | kurento-room-sdk/src/main/java/org/kurento/room/endpoint/IceWebRtcEndpoint.java:229-234 | fails with no call while there is no endpoint; otherwise starts gathering on the endpoint |
| ShaperChain.IndexOf | kurento-room-sdk/src/main/java/org/kurento/room/endpoint/PublisherEndpoint.java:149 | the position of the first occurrence of the id, or -1 exactly when it is absent |
| ShaperChain.GetNext | kurento-room-sdk/src/main/java/org/kurento/room/endpoint/PublisherEndpoint.java:148-153 | the id right after the first occurrence (the next older element); none when the id is absent or last |
| ShaperChain.GetPrevious | kurento-room-sdk/src/main/java/org/kurento/room/endpoint/PublisherEndpoint.java:155-160 | the id right before the first occurrence (the next newer element); none when the id is absent or first |
| ShaperChain.FlowOrder | kurento-room-sdk/src/main/java/org/kurento/room/endpoint/PublisherEndpoint.java:166-176 | the chain's elements in the order innerConnect visits them: the id list read back to front |
| ShaperChain.PathStep | kurento-room-sdk/src/main/java/org/kurento/room/endpoint/PublisherEndpoint.java:168-175 | each step of the walk reaches the element registered under the next id from the end of the list and adds exactly the connection from the current element to it |
| ShaperChain.WiringOrder | kurento-room-sdk/src/main/java/org/kurento/room/endpoint/PublisherEndpoint.java:162-179 | the first wiring makes one connection per element plus one: endpoint → oldest, each element → the next newer one, newest → pass-through; endpoint → pass-through for an empty chain |
| ShaperChain.SpliceMatchesWiring | kurento-room-sdk/src/main/java/org/kurento/room/endpoint/PublisherEndpoint.java:101-110 | the two connections apply makes on a wired chain are exactly the last two of a fresh wiring of the longer chain; the rest of that wiring is the current one minus its connection into the pass-through |
| ShaperChain.RevertBridgesGap | kurento-room-sdk/src/main/java/org/kurento/room/endpoint/PublisherEndpoint.java:132-145 | the connection revert makes, from the getNext element (or the endpoint) to the getPrevious element (or the pass-through), is exactly the connection across the gap in a fresh wiring of the chain without that element |
| ShaperChain.ElementUnsubscriptionsComplete | kurento-room-sdk/src/main/java/org/kurento/room/endpoint/PublisherEndpoint.java:66-68 | the loop over the id list removes the listener of every listed element that has a subscription, removes no other listener, and removes nothing when there are no subscriptions |
| Publisher.WalkChain | kurento-room-sdk/src/main/java/org/kurento/room/endpoint/PublisherEndpoint.java:166-177 | the walk from the last id towards the head with getPrevious makes exactly the wiring of the chain from the endpoint to the pass-through |
| Publisher.UnsubscribeChain | kurento-room-sdk/src/main/java/org/kurento/room/endpoint/PublisherEndpoint.java:66-68 | visits the ids in list order, unregistering each one's listener when it has a subscription; returns the subscription map minus exactly the listed ids, so every other subscription keeps its value |
| Publisher.PublisherEndpoint.constructor | kurento-room-sdk/src/main/java/org/kurento/room/endpoint/PublisherEndpoint.java:39-53 | a new publisher has no endpoint, no pass-through, no elements, no subscriptions and is not connected |
| Publisher.PublisherEndpoint.InternalEndpointInitialization | kurento-room-sdk/src/main/java/org/kurento/room/endpoint/PublisherEndpoint.java:55-60 | builds the endpoint with its listener, then the pass-through with its listener, in that order, with four fresh ids |
| Publisher.PublisherEndpoint.CreateEndpoint | kurento-room-sdk/src/main/java/org/kurento/room/endpoint/IceWebRtcEndpoint.java:88-95 | the inherited createEndpoint with this class's initialization: on the first call builds the endpoint and the pass-through, each with a listener whose subscription is recorded in its field, then hands over the buffered candidates in order; on later calls changes nothing; keeps the publisher invariant |
| Publisher.PublisherEndpoint.UnregisterErrorListeners | kurento-room-sdk/src/main/java/org/kurento/room/endpoint/PublisherEndpoint.java:62-69 | unregisters the endpoint's listener, then the pass-through's, then each chain element's in list order; the element subscription map ends empty, the endpoint's and pass-through's subscriptions are kept |
| Publisher.PublisherEndpoint.GetMediaElements | kurento-room-sdk/src/main/java/org/kurento/room/endpoint/PublisherEndpoint.java:75-79 | records the pass-through in `elements` under its own id once it exists and returns every recorded element, including reverted shapers and the pass-through; no other state changes |
| Publisher.PublisherEndpoint.Publish | kurento-room-sdk/src/main/java/org/kurento/room/endpoint/PublisherEndpoint.java:81-87 | without an endpoint fails with no call; otherwise, in order: installs the candidate listener, wires the chain if not yet wired, connects the pass-through back to the endpoint, processes the offer, starts gathering; returns the server's answer; the latch stays set |
| Publisher.PublisherEndpoint.Connect | kurento-room-sdk/src/main/java/org/kurento/room/endpoint/PublisherEndpoint.java:89-93 | on a wired chain adds only pass-through → other; otherwise wires the whole chain first and latches `connected`; without an endpoint it fails, changing nothing |
| Publisher.PublisherEndpoint.Apply | kurento-room-sdk/src/main/java/org/kurento/room/endpoint/PublisherEndpoint.java:96-115 | an id already recorded fails with nothing changed; otherwise returns the id, puts it at the head of the list, records the element and one fresh subscription, and, only on a wired chain, connects the previously newest element (or the endpoint) to it and it to the pass-through |
| Publisher.PublisherEndpoint.Revert | kurento-room-sdk/src/main/java/org/kurento/room/endpoint/PublisherEndpoint.java:118-146 | an unrecorded id fails with nothing changed; otherwise removes the id's subscription (unregistering it if there was one), releases the element, and, only on a wired chain, connects its upstream neighbour to its downstream neighbour; `elements` and `elementIds` never change |
| Publisher.PublisherEndpoint.InnerConnect | kurento-room-sdk/src/main/java/org/kurento/room/endpoint/PublisherEndpoint.java:162-179 | without an endpoint fails with the latch and the log unchanged; otherwise makes exactly the chain's wiring and sets the latch; every listed id is recorded, so the "no media element" failure cannot occur |
| Scenarios.ThreeShapersWiring | kurento-room-sdk/src/main/java/org/kurento/room/endpoint/PublisherEndpoint.java:162-179 | after applying A, B, C the wiring is endpoint→A, A→B, B→C, C→pass-through |
| Scenarios.RevertMiddleOfThree | kurento-room-sdk/src/main/java/org/kurento/room/endpoint/PublisherEndpoint.java:132-145 | reverting B from the chain A, B, C connects A to C, the connection a fresh wiring of A, C makes |
| Scenarios.CreatePublisher | kurento-room-sdk/src/main/java/org/kurento/room/endpoint/PublisherEndpoint.java:55-60 | a fresh publisher after createEndpoint has the endpoint and the pass-through built with one listener each, their subscriptions recorded, an empty chain and no connection |
| Scenarios.ApplyThree | kurento-room-sdk/src/main/java/org/kurento/room/endpoint/PublisherEndpoint.java:96-115 | applying A, B, C to an unwired empty chain lists them newest first and only registers their three listeners |
| Scenarios.ApplyThreeThenConnect | kurento-room-sdk/src/main/java/org/kurento/room/endpoint/PublisherEndpoint.java:89-93 | create, apply A, B, C, connect a subscriber: the complete call sequence, with the wiring endpoint→A→B→C→pass-through made only at the connect |
| Scenarios.UnregisterTwice | kurento-room-sdk/src/main/java/org/kurento/room/endpoint/PublisherEndpoint.java:62-69 | a second unregister removes the endpoint's and the pass-through's listeners again but no chain element's |

## Left out

- Event listener callbacks are left out, along with the notifications they send to the owning participant (`sendIceCandidate`, `sendMediaError`). They run asynchronously on the media server's events; the model records only that a listener was registered or removed.
- Concurrency and locking are not modelled. Every public method is `synchronized`, so each is one atomic step.
- The trivial getters and setters (owner, endpoint name, pipeline, endpoint) are left out. The pipeline is fixed at construction, and `setMediaPipeline` is not modelled.
- SDP content, ICE gathering, media flow and the Kurento client internals (builders, `connect`, `release`) are left out. They appear only as calls recorded in the pipeline's log, and the server's answer to an offer is the parameter `answerTo`.
- Engine calls never fail in the model. In the source, a `KurentoException` from the media server propagates out of `connect`, `release`, `processOffer`, `gatherCandidates`, the builders and the listener calls, and aborts the operation after some of its changes. For example, `revert` has already removed and unregistered the subscription when `release` throws (PublisherEndpoint.java:125-128). Those partial states are not modelled.
- Released elements stay connectable. After the newest shaper of a wired chain is reverted, a later `apply` still calls `connect` on the released element (PublisherEndpoint.java:103-106). The model records that call and returns success; what the media server does with a released element is not modelled.
- Exception classes, error codes and messages are left out. A thrown exception is a `Failure`/`Fail` outcome that changes nothing, which holds because every exception the endpoint classes throw themselves comes before any state change. Engine failures are covered by the line above.
- Element ids and subscription tokens are natural numbers handed out by one counter, not the server's strings. Only equality and their use as map keys matter to the code.
- Publisher.PublisherEndpoint.GetMediaElements: returns the set of recorded elements, not a live `Collection` view with multiplicities. The same element recorded under two keys appears once.
- ShaperChain.ConnectCalls: its contract gives only the length. The connection at each position is stated by the lemma `ConnectCallsAt`.
- ShaperChain.ElementUnsubscriptions: its contract gives only a length bound. What it unregisters is stated by `ShaperChain.ElementUnsubscriptionsComplete`.
- The `null` checks on the endpoint are modelled with `Option`. A `MediaElement` argument passed to `connect`, `apply` or `revert` is never null here.
