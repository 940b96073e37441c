/** The `map` / `tryMap` stage as its tests fix it, between recording stubs:
    an upstream subscription that logs `request` and `cancel`, an upstream
    publisher, and a tracking subscriber downstream. */
module MapOperator {
  import opened Combine
  import opened Tracking

  /** `CustomSubscription`: a subscription that only records the calls made on it. */
  class CustomSubscription {
    var history: seq<SubscriptionCall>

    constructor()
      ensures history == []
    {
      history := [];
    }

    method Request(demand: Demand)
      modifies this
      ensures history == old(history) + [Requested(demand)]
    {
      history := history + [Requested(demand)];
    }

    method Cancel()
      modifies this
      ensures history == old(history) + [Canceled]
    {
      history := history + [Canceled];
    }
  }

  /** The calls a downstream makes on a stage, one after another: each is
      forwarded to the upstream subscription verbatim and in order. */
  method Forward(upstream: CustomSubscription, calls: seq<SubscriptionCall>)
    modifies upstream
    ensures upstream.history == old(upstream.history) + calls
  {
    var i := 0;
    while i < |calls|
      invariant 0 <= i <= |calls|
      invariant upstream.history == old(upstream.history) + calls[..i]
    {
      match calls[i] {
        case Requested(d) => upstream.Request(d);
        case Canceled => upstream.Cancel();
      }
      assert calls[..i + 1] == calls[..i] + [calls[i]];
      i := i + 1;
    }
  }

  /** What one call of the transform does: return a value or throw an error. */
  datatype Outcome = Returned(value: int) | Thrown(error: AnyError)

  /** The closure of `map`, which cannot throw, seen as a `tryMap` transform. */
  function Total(f: int -> int): int -> Outcome
  {
    x => Returned(f(x))
  }

  /** A `map` transform returns the closure's image of every input. */
  lemma TotalApplies(f: int -> int, x: int)
    ensures Total(f)(x) == Returned(f(x))
  {
  }

  ghost predicate NeverThrows(transform: int -> Outcome)
  {
    forall x :: transform(x).Returned?
  }

  /** The event the stage delivers downstream for one transform outcome:
      the transformed value, or a failure carrying the thrown error. */
  function Delivered(o: Outcome): Event
  {
    match o
    case Returned(y) => Value(y)
    case Thrown(e) => Completed(Failure(e))
  }

  /** The events a live stage delivers for `inputs`, one per input, in order. */
  function Deliveries(transform: int -> Outcome, inputs: seq<int>): (r: seq<Event>)
    ensures |r| == |inputs|
  {
    if inputs == [] then []
    else [Delivered(transform(inputs[0]))] + Deliveries(transform, inputs[1..])
  }

  /** Delivering one more input adds its delivery at the end. */
  lemma {:induction false} DeliveriesAppend(transform: int -> Outcome, inputs: seq<int>, input: int)
    ensures Deliveries(transform, inputs + [input]) == Deliveries(transform, inputs) + [Delivered(transform(input))]
  {
    if inputs != [] {
      assert (inputs + [input])[1..] == inputs[1..] + [input];
      DeliveriesAppend(transform, inputs[1..], input);
    }
  }

  /** The images of `inputs` under `f`, in order. */
  function Images(f: int -> int, inputs: seq<int>): (r: seq<int>)
    ensures |r| == |inputs|
  {
    seq(|inputs|, i requires 0 <= i < |inputs| => f(inputs[i]))
  }

  /** Through `map`, a subscribed stage that has not completed delivers exactly
      the images of the values it receives, in order, and no further
      subscription or completion: the subscriber protocol still holds and the
      stream is still open. */
  lemma {:induction false} MapDeliversImages(f: int -> int, s: nat, inputs: seq<int>)
    ensures Inputs(Deliveries(Total(f), inputs)) == Images(f, inputs)
    ensures Subscriptions(Deliveries(Total(f), inputs)) == []
    ensures Completions(Deliveries(Total(f), inputs)) == []
    ensures Conforms([Subscription(s)] + Deliveries(Total(f), inputs))
    ensures !EndsInCompletion([Subscription(s)] + Deliveries(Total(f), inputs))
  {
    var d := Deliveries(Total(f), inputs);
    if inputs != [] {
      var rest := Deliveries(Total(f), inputs[1..]);
      MapDeliversImages(f, s, inputs[1..]);
      assert d == [Value(f(inputs[0]))] + rest;
      assert d[1..] == rest;
      assert Images(f, inputs) == [f(inputs[0])] + Images(f, inputs[1..]);
      var h := [Subscription(s)] + d;
      forall i | 0 < i < |h| ensures h[i].Value? {
        if i > 1 {
          assert h[i] == ([Subscription(s)] + rest)[i - 1];
        }
      }
    }
  }

  /** The subscriber `map`/`tryMap` attaches to its upstream, which is also the
      subscription its downstream is handed. `transformCalls` is the number of
      times the transform closure has run (the test's captured `counter`). */
  class MapStage {
    const combineIdentifier: nat
    const downstream: TrackingSubscriber
    const transform: int -> Outcome
    var upstream: CustomSubscription?
    var transformCalls: nat

    constructor(combineIdentifier: nat, downstream: TrackingSubscriber, transform: int -> Outcome)
      ensures this.combineIdentifier == combineIdentifier
      ensures this.downstream == downstream && this.transform == transform
      ensures upstream == null && transformCalls == 0
    {
      this.combineIdentifier := combineIdentifier;
      this.downstream := downstream;
      this.transform := transform;
      upstream := null;
      transformCalls := 0;
    }

    /** `receive(subscription:)` from upstream: keep the upstream subscription,
        hand this stage to the downstream as its subscription, and forward the
        calls the downstream's callback makes on it. */
    method ReceiveSubscription(subscription: CustomSubscription)
      requires upstream == null
      modifies this, downstream, subscription
      ensures upstream == subscription && transformCalls == old(transformCalls)
      ensures downstream.history == old(downstream.history) + [Subscription(combineIdentifier)]
      ensures subscription.history == old(subscription.history) + downstream.CallsFor(downstream.history)
    {
      upstream := subscription;
      var calls := downstream.ReceiveSubscription(combineIdentifier);
      Forward(subscription, calls);
    }

    /** `receive(_:)` from upstream: run the transform once and deliver what it
        gives; a returned value goes downstream and the downstream's demand goes
        back upstream unchanged; a thrown error goes downstream as a failure and
        no demand goes back. Nothing stops later values. */
    method ReceiveValue(input: int) returns (demand: Demand)
      modifies this, downstream
      ensures upstream == old(upstream)
      ensures transformCalls == old(transformCalls) + 1
      ensures downstream.history == old(downstream.history) + [Delivered(transform(input))]
      ensures transform(input).Returned? ==> demand == downstream.DemandFor(downstream.history, transform(input).value)
      ensures transform(input).Thrown? ==> demand == NoDemand
    {
      transformCalls := transformCalls + 1;
      match transform(input)
      case Returned(y) =>
        demand := downstream.ReceiveValue(y);
      case Thrown(e) =>
        downstream.ReceiveCompletion(Failure(e));
        demand := NoDemand;
    }

    /** `receive(completion:)` from upstream: forwarded downstream unchanged. */
    method ReceiveCompletion(completion: Completion<AnyError>)
      modifies downstream
      ensures downstream.history == old(downstream.history) + [Completed(completion)]
    {
      downstream.ReceiveCompletion(completion);
    }

    /** `request(_:)` from downstream: forwarded upstream verbatim. */
    method Request(demand: Demand)
      requires upstream != null
      modifies upstream
      ensures upstream.history == old(upstream.history) + [Requested(demand)]
    {
      upstream.Request(demand);
    }

    /** `cancel()` from downstream: forwarded upstream verbatim, every time. */
    method Cancel()
      requires upstream != null
      modifies upstream
      ensures upstream.history == old(upstream.history) + [Canceled]
    {
      upstream.Cancel();
    }
  }

  /** `CustomPublisher(subscription:)`: hands a given subscription to its
      subscriber and passes on what the test sends it. */
  class CustomPublisher {
    const subscription: CustomSubscription
    var subscriber: MapStage?

    constructor(subscription: CustomSubscription)
      ensures this.subscription == subscription && subscriber == null
    {
      this.subscription := subscription;
      subscriber := null;
    }

    method Subscribe(stage: MapStage)
      requires stage.upstream == null
      modifies this, stage, stage.downstream, subscription
      ensures subscriber == stage && stage.upstream == subscription
      ensures stage.transformCalls == old(stage.transformCalls)
      ensures stage.downstream.history == old(stage.downstream.history) + [Subscription(stage.combineIdentifier)]
      ensures subscription.history == old(subscription.history) + stage.downstream.CallsFor(stage.downstream.history)
    {
      subscriber := stage;
      stage.ReceiveSubscription(subscription);
    }

    /** `send(_:)`: returns the demand the subscriber hands back. */
    method Send(input: int) returns (demand: Demand)
      requires subscriber != null
      modifies subscriber, subscriber.downstream
      ensures subscriber.upstream == old(subscriber.upstream)
      ensures subscriber.transformCalls == old(subscriber.transformCalls) + 1
      ensures subscriber.downstream.history == old(subscriber.downstream.history) + [Delivered(subscriber.transform(input))]
      ensures subscriber.transform(input).Returned? ==>
        demand == subscriber.downstream.DemandFor(subscriber.downstream.history, subscriber.transform(input).value)
      ensures subscriber.transform(input).Thrown? ==> demand == NoDemand
    {
      demand := subscriber.ReceiveValue(input);
    }

    method SendCompletion(completion: Completion<AnyError>)
      requires subscriber != null
      modifies subscriber.downstream
      ensures subscriber.downstream.history == old(subscriber.downstream.history) + [Completed(completion)]
    {
      subscriber.ReceiveCompletion(completion);
    }
  }

  /** The `PassthroughSubject` upstream of the tests, with the one subscriber
      they attach: a value sent before anyone subscribed or after a completion
      reaches nobody, and so does a second completion. The demand a subscriber
      returns is not accounted. */
  class PassthroughSubject {
    var subscriber: MapStage?
    var completed: bool

    constructor()
      ensures subscriber == null && !completed
    {
      subscriber := null;
      completed := false;
    }

    /** With a transform that never throws, the subscriber's downstream history
        obeys the subscriber protocol and is completed exactly when the subject is. */
    ghost predicate Valid()
      reads this, subscriber, if subscriber != null then {subscriber.downstream} else {}
    {
      subscriber != null ==>
        && subscriber.upstream != null
        && subscriber.downstream.history != []
        && (NeverThrows(subscriber.transform) ==>
              Conforms(subscriber.downstream.history) &&
              (completed <==> EndsInCompletion(subscriber.downstream.history)))
    }

    /** `subscribe(_:)`: the subject hands a fresh subscription of its own. */
    method Subscribe(stage: MapStage)
      requires subscriber == null && !completed
      requires stage.upstream == null && stage.downstream.history == []
      modifies this, stage, stage.downstream
      ensures Valid() && subscriber == stage && !completed
      ensures stage.upstream != null && fresh(stage.upstream)
      ensures stage.transformCalls == old(stage.transformCalls)
      ensures stage.downstream.history == [Subscription(stage.combineIdentifier)]
      ensures stage.upstream.history == stage.downstream.CallsFor(stage.downstream.history)
    {
      subscriber := stage;
      var subscription := new CustomSubscription();
      stage.ReceiveSubscription(subscription);
    }

    /** `send(_:)` */
    method Send(input: int)
      requires Valid()
      modifies subscriber, if subscriber != null then {subscriber.downstream} else {}
      ensures Valid() && subscriber == old(subscriber) && completed == old(completed)
      ensures subscriber != null ==> subscriber.upstream == old(subscriber.upstream)
      ensures subscriber != null && !completed ==>
        && subscriber.transformCalls == old(subscriber.transformCalls) + 1
        && subscriber.downstream.history == old(subscriber.downstream.history) + [Delivered(subscriber.transform(input))]
      ensures subscriber != null && completed ==>
        && subscriber.transformCalls == old(subscriber.transformCalls)
        && subscriber.downstream.history == old(subscriber.downstream.history)
    {
      if !completed && subscriber != null {
        ghost var h := subscriber.downstream.history;
        var _ := subscriber.ReceiveValue(input);
        if NeverThrows(subscriber.transform) {
          ConformsAppend(h, Delivered(subscriber.transform(input)));
        }
      }
    }

    /** `send(completion:)` */
    method SendCompletion(completion: Completion<AnyError>)
      requires Valid()
      modifies this, if subscriber != null then {subscriber.downstream} else {}
      ensures Valid() && completed && subscriber == old(subscriber)
      ensures subscriber != null && !old(completed) ==>
        subscriber.downstream.history == old(subscriber.downstream.history) + [Completed(completion)]
      ensures subscriber != null && old(completed) ==>
        subscriber.downstream.history == old(subscriber.downstream.history)
    {
      if !completed {
        completed := true;
        if subscriber != null {
          ghost var h := subscriber.downstream.history;
          subscriber.ReceiveCompletion(completion);
          if NeverThrows(subscriber.transform) {
            ConformsAppend(h, Completed(completion));
          }
        }
      }
    }
  }

  /** `send(_:)` for each of `inputs` in turn, while the subject is live and
      subscribed: the transform runs once per input and the downstream history
      gains exactly the deliveries of `inputs`, in order. */
  method SendAll(publisher: PassthroughSubject, inputs: seq<int>)
    requires publisher.Valid() && publisher.subscriber != null && !publisher.completed
    modifies publisher.subscriber, publisher.subscriber.downstream
    ensures publisher.Valid() && !publisher.completed
    ensures publisher.subscriber.upstream == old(publisher.subscriber.upstream)
    ensures publisher.subscriber.transformCalls == old(publisher.subscriber.transformCalls) + |inputs|
    ensures publisher.subscriber.downstream.history ==
      old(publisher.subscriber.downstream.history) + Deliveries(publisher.subscriber.transform, inputs)
  {
    var stage := publisher.subscriber;
    var i := 0;
    while i < |inputs|
      invariant 0 <= i <= |inputs|
      invariant publisher.Valid() && publisher.subscriber == stage && !publisher.completed
      invariant stage.upstream == old(stage.upstream)
      invariant stage.transformCalls == old(stage.transformCalls) + i
      invariant stage.downstream.history == old(stage.downstream.history) + Deliveries(stage.transform, inputs[..i])
    {
      publisher.Send(inputs[i]);
      DeliveriesAppend(stage.transform, inputs[..i], inputs[i]);
      assert inputs[..i + 1] == inputs[..i] + [inputs[i]];
      i := i + 1;
    }
    assert inputs[..i] == inputs;
  }

  /** A `tryMap` stage that treats its first failure as terminal, as the
      subscriber protocol requires: after a thrown error or an upstream
      completion it runs the transform no more and delivers nothing more, and
      a throw also cancels the upstream subscription. */
  class TerminatingMapStage {
    const combineIdentifier: nat
    const downstream: TrackingSubscriber
    const transform: int -> Outcome
    var upstream: CustomSubscription?
    var transformCalls: nat
    var finished: bool

    /** The downstream history obeys the protocol, and the stage has finished
        exactly when that history is completed. */
    ghost predicate Valid()
      reads this, downstream
    {
      && Conforms(downstream.history)
      && (finished <==> EndsInCompletion(downstream.history))
      && (upstream == null <==> downstream.history == [])
    }

    constructor(combineIdentifier: nat, downstream: TrackingSubscriber, transform: int -> Outcome)
      requires downstream.history == []
      ensures Valid()
      ensures this.combineIdentifier == combineIdentifier
      ensures this.downstream == downstream && this.transform == transform
      ensures upstream == null && transformCalls == 0 && !finished
    {
      this.combineIdentifier := combineIdentifier;
      this.downstream := downstream;
      this.transform := transform;
      upstream := null;
      transformCalls := 0;
      finished := false;
    }

    method ReceiveSubscription(subscription: CustomSubscription)
      requires Valid() && upstream == null
      modifies this, downstream, subscription
      ensures Valid() && upstream == subscription && !finished
      ensures transformCalls == old(transformCalls)
      ensures downstream.history == [Subscription(combineIdentifier)]
      ensures subscription.history == old(subscription.history) + downstream.CallsFor(downstream.history)
    {
      upstream := subscription;
      var calls := downstream.ReceiveSubscription(combineIdentifier);
      Forward(subscription, calls);
    }

    method ReceiveValue(input: int) returns (demand: Demand)
      requires Valid() && upstream != null
      modifies this, downstream, upstream
      ensures Valid() && upstream == old(upstream)
      ensures finished == (old(finished) || transform(input).Thrown?)
      ensures transformCalls == old(transformCalls) + (if old(finished) then 0 else 1)
      ensures downstream.history ==
        old(downstream.history) + (if old(finished) then [] else [Delivered(transform(input))])
      ensures upstream.history ==
        old(upstream.history) + (if !old(finished) && transform(input).Thrown? then [Canceled] else [])
      ensures demand ==
        if !old(finished) && transform(input).Returned?
        then downstream.DemandFor(downstream.history, transform(input).value)
        else NoDemand
    {
      if finished {
        return NoDemand;
      }
      ConformsAppend(downstream.history, Delivered(transform(input)));
      transformCalls := transformCalls + 1;
      match transform(input)
      case Returned(y) =>
        demand := downstream.ReceiveValue(y);
      case Thrown(e) =>
        finished := true;
        downstream.ReceiveCompletion(Failure(e));
        upstream.Cancel();
        demand := NoDemand;
    }

    method ReceiveCompletion(completion: Completion<AnyError>)
      requires Valid() && upstream != null
      modifies this, downstream
      ensures Valid() && finished && upstream == old(upstream)
      ensures transformCalls == old(transformCalls)
      ensures !old(finished) ==> downstream.history == old(downstream.history) + [Completed(completion)]
      ensures old(finished) ==> downstream.history == old(downstream.history)
    {
      if !finished {
        ConformsAppend(downstream.history, Completed(completion));
        finished := true;
        downstream.ReceiveCompletion(completion);
      }
    }

    method Request(demand: Demand)
      requires upstream != null
      modifies upstream
      ensures upstream.history == old(upstream.history) + [Requested(demand)]
    {
      upstream.Request(demand);
    }

    method Cancel()
      requires upstream != null
      modifies upstream
      ensures upstream.history == old(upstream.history) + [Canceled]
    {
      upstream.Cancel();
    }
  }
}
