/** The eleven scenarios of the map operator's test case, each driving the
    modelled stage between its recording stubs and stating what the test
    asserts about the resulting histories. */
module MapTests {
  import opened Combine
  import opened Tracking
  import opened MapOperator

  /** Stands for `Subscriptions.empty` in the expected histories; event
      equality ignores which subscription was recorded. */
  const EmptySubscription: nat := 0

  /** `[.subscription(Subscriptions.empty)] + events`, the shape of every
      history the tests expect. */
  function Subscribed(events: seq<Event>): seq<Event>
  {
    [Subscription(EmptySubscription)] + events
  }

  const TooMuch: AnyError := Testing(Described("too much"))

  function Double(x: int): int
  {
    x * 2
  }

  /** The `tryMap` closure of the throwing test: doubles, but throws "too much" on 100. */
  function DoubleUnlessTooMuch(x: int): Outcome
  {
    if x == 100 then Thrown(TooMuch) else Returned(x * 2)
  }

  /** `receiveSubscription: { $0.request(d) }` */
  function RequestOnSubscription(d: Demand): Option<seq<Event> -> seq<SubscriptionCall>>
  {
    Some((h: seq<Event>) => [Requested(d)])
  }

  method TestEmpty() returns (history: seq<Event>)
    ensures HistoriesEqual(history, Subscribed([]))
  {
    var tracking := new TrackingSubscriber(1, RequestOnSubscription(Unlimited), None);
    var publisher := new PassthroughSubject();
    var stage := new MapStage(2, tracking, Total(Double));
    publisher.Subscribe(stage);
    history := tracking.history;
    assert history == [Subscription(2)] + [];
    ResubscribedHistoriesEqual(2, EmptySubscription, []);
  }

  method TestError() returns (history: seq<Event>)
    ensures HistoriesEqual(history, Subscribed([Completed(Failure(Testing(Oops)))]))
  {
    var tracking := new TrackingSubscriber(1, RequestOnSubscription(Unlimited), None);
    var publisher := new PassthroughSubject();
    var stage := new MapStage(2, tracking, Total(Double));
    publisher.Subscribe(stage);
    publisher.SendCompletion(Failure(Testing(Oops)));
    history := tracking.history;
    assert history == [Subscription(2)] + [Completed(Failure(Testing(Oops)))];
    ResubscribedHistoriesEqual(2, EmptySubscription, [Completed(Failure(Testing(Oops)))]);
  }

  /** The history testTryMapFailureBecauseOfThrow asserts, after the subscription. */
  const ThrowScenarioEvents: seq<Event> :=
    [Value(4), Value(6), Completed(Failure(TooMuch)), Value(18), Completed(Finished)]

  const ThrowScenarioHistory: seq<Event> := Subscribed(ThrowScenarioEvents)

  method TestTryMapFailureBecauseOfThrow() returns (history: seq<Event>, counter: nat)
    ensures HistoriesEqual(history, ThrowScenarioHistory)
    ensures counter == 4
  {
    var publisher := new PassthroughSubject();
    var tracking := new TrackingSubscriber(1, RequestOnSubscription(Unlimited), None);
    var stage := new MapStage(2, tracking, DoubleUnlessTooMuch);
    assert !NeverThrows(DoubleUnlessTooMuch) by {
      assert DoubleUnlessTooMuch(100).Thrown?;
    }
    publisher.Send(1);
    publisher.Subscribe(stage);
    PublishThrowingSequence(publisher);
    history, counter := tracking.history, stage.transformCalls;
    ResubscribedHistoriesEqual(2, EmptySubscription, ThrowScenarioEvents);
  }

  /** The sends of the throwing test after the subscription: 2, 3, 100, 9 and
      `.finished`, through a stage that keeps going after the throw. */
  method PublishThrowingSequence(publisher: PassthroughSubject)
    requires publisher.Valid() && publisher.subscriber != null && !publisher.completed
    requires publisher.subscriber.transform == DoubleUnlessTooMuch
    modifies publisher, publisher.subscriber, publisher.subscriber.downstream
    ensures publisher.subscriber == old(publisher.subscriber)
    ensures publisher.subscriber.transformCalls == old(publisher.subscriber.transformCalls) + 4
    ensures publisher.subscriber.downstream.history ==
      old(publisher.subscriber.downstream.history) + ThrowScenarioEvents
  {
    publisher.Send(2);
    publisher.Send(3);
    publisher.Send(100);
    publisher.Send(9);
    publisher.SendCompletion(Finished);
  }

  /** The history the throwing test asserts holds two completions. */
  lemma ThrowScenarioCompletions()
    ensures |Completions(ThrowScenarioHistory)| == 2
  {
    var t := ThrowScenarioHistory;
    assert t == t[..3] + ([t[3]] + (t[4..5] + [t[5]]));
    CompletionsOfConcat(t[..3], [t[3]] + (t[4..5] + [t[5]]));
    CompletionsOfConcat([t[3]], t[4..5] + [t[5]]);
    CompletionsOfConcat(t[4..5], [t[5]]);
    NoCompletions(t[..3]);
    NoCompletions(t[4..5]);
    assert Completions([t[3]]) == [t[3].completion];
    assert Completions([t[5]]) == [t[5].completion];
  }

  /** Any history the throwing test accepts has a value and a second
      completion after the first completion. */
  lemma ThrowScenarioBreaksProtocol(h: seq<Event>)
    requires HistoriesEqual(h, ThrowScenarioHistory)
    ensures !Conforms(h)
    ensures |Completions(h)| == 2
  {
    assert EventsEqual(h[3], ThrowScenarioHistory[3]);
    ViewsRespectEquality(h, ThrowScenarioHistory);
    ThrowScenarioCompletions();
  }

  /** The throwing scenario against a stage that treats the failure as terminal:
      the history obeys the protocol, the transform runs three times, and the
      upstream subscription is cancelled after the throw. */
  method TestTryMapFailureBecauseOfThrowTerminating() returns (history: seq<Event>, counter: nat, upstreamHistory: seq<SubscriptionCall>)
    ensures Conforms(history)
    ensures HistoriesEqual(history, Subscribed([Value(4), Value(6), Completed(Failure(TooMuch))]))
    ensures counter == 3
    ensures upstreamHistory == [Requested(Unlimited), Canceled]
  {
    var tracking := new TrackingSubscriber(1, RequestOnSubscription(Unlimited), None);
    var stage := new TerminatingMapStage(2, tracking, DoubleUnlessTooMuch);
    var subscription := new CustomSubscription();
    stage.ReceiveSubscription(subscription);
    RunThrowingSequence(stage);
    history, counter, upstreamHistory := tracking.history, stage.transformCalls, subscription.history;
    ResubscribedHistoriesEqual(2, EmptySubscription, [Value(4), Value(6), Completed(Failure(TooMuch))]);
  }

  /** The same sends, 2, 3, 100, 9 and `.finished`, into the terminating stage:
      everything after the throw is dropped and the throw cancels upstream. */
  method RunThrowingSequence(stage: TerminatingMapStage)
    requires stage.Valid() && stage.upstream != null && !stage.finished
    requires stage.transform == DoubleUnlessTooMuch
    modifies stage, stage.downstream, stage.upstream
    ensures stage.Valid() && stage.upstream == old(stage.upstream)
    ensures stage.transformCalls == old(stage.transformCalls) + 3
    ensures stage.downstream.history ==
      old(stage.downstream.history) + [Value(4), Value(6), Completed(Failure(TooMuch))]
    ensures stage.upstream.history == old(stage.upstream.history) + [Canceled]
  {
    var _ := stage.ReceiveValue(2);
    var _ := stage.ReceiveValue(3);
    var _ := stage.ReceiveValue(100);
    var _ := stage.ReceiveValue(9);
    stage.ReceiveCompletion(Finished);
  }

  method TestTryMapFailureOnCompletion() returns (history: seq<Event>)
    ensures HistoriesEqual(history, Subscribed([Completed(Failure(Testing(Oops)))]))
  {
    var publisher := new PassthroughSubject();
    var tracking := new TrackingSubscriber(1, None, None);
    var stage := new MapStage(2, tracking, Total(Double));
    publisher.Send(1);
    publisher.Subscribe(stage);
    publisher.SendCompletion(Failure(Testing(Oops)));
    publisher.Send(2);
    history := tracking.history;
    assert history == [Subscription(2)] + [Completed(Failure(Testing(Oops)))];
    ResubscribedHistoriesEqual(2, EmptySubscription, [Completed(Failure(Testing(Oops)))]);
  }

  method TestRange() returns (history: seq<Event>)
    ensures HistoriesEqual(history, Subscribed([Value(4), Value(6), Completed(Finished)]))
  {
    var publisher := new PassthroughSubject();
    var tracking := new TrackingSubscriber(1, RequestOnSubscription(Unlimited), None);
    var stage := new MapStage(2, tracking, Total(Double));
    publisher.Send(1);
    publisher.Subscribe(stage);
    publisher.Send(2);
    publisher.Send(3);
    publisher.SendCompletion(Finished);
    publisher.Send(5);
    history := tracking.history;
    TotalApplies(Double, 2);
    TotalApplies(Double, 3);
    assert history == [Subscription(2)] + [Value(4), Value(6), Completed(Finished)];
    ResubscribedHistoriesEqual(2, EmptySubscription, [Value(4), Value(6), Completed(Finished)]);
  }

  /** `testRange` for every closure and every sequence of values sent after
      the subscription: the downstream sees exactly their images, in order,
      after its one subscription, and the history obeys the protocol and stays
      open. */
  method TestRangeForAll(f: int -> int, inputs: seq<int>) returns (history: seq<Event>)
    ensures history == [Subscription(2)] + Deliveries(Total(f), inputs)
    ensures Inputs(history) == Images(f, inputs)
    ensures Completions(history) == []
    ensures Conforms(history) && !EndsInCompletion(history)
  {
    var publisher := new PassthroughSubject();
    var tracking := new TrackingSubscriber(1, RequestOnSubscription(Unlimited), None);
    var stage := new MapStage(2, tracking, Total(f));
    publisher.Subscribe(stage);
    SendAll(publisher, inputs);
    history := tracking.history;
    MapDeliversImages(f, 2, inputs);
    InputsOfConcat([Subscription(2)], Deliveries(Total(f), inputs));
    CompletionsOfConcat([Subscription(2)], Deliveries(Total(f), inputs));
  }

  method TestNoDemand() returns (upstreamHistory: seq<SubscriptionCall>)
    ensures upstreamHistory == []
  {
    var subscription := new CustomSubscription();
    var publisher := new CustomPublisher(subscription);
    var tracking := new TrackingSubscriber(1, None, None);
    var stage := new MapStage(2, tracking, Total(Double));
    publisher.Subscribe(stage);
    upstreamHistory := subscription.history;
  }

  method TestDemandSubscribe() returns (upstreamHistory: seq<SubscriptionCall>)
    ensures upstreamHistory == [Requested(Max(42))]
  {
    var subscription := new CustomSubscription();
    var publisher := new CustomPublisher(subscription);
    var tracking := new TrackingSubscriber(1, RequestOnSubscription(Max(42)), None);
    var stage := new MapStage(2, tracking, Total(Double));
    publisher.Subscribe(stage);
    upstreamHistory := subscription.history;
  }

  method TestDemandSend() returns (demand: Demand)
    ensures demand == Max(4)
  {
    var subscription := new CustomSubscription();
    var publisher := new CustomPublisher(subscription);
    var tracking := new TrackingSubscriber(1, None, Some((h: seq<Event>, x: int) => Max(4)));
    var stage := new MapStage(2, tracking, Total(Double));
    publisher.Subscribe(stage);
    demand := publisher.Send(0);
  }

  method TestCompletion() returns (upstreamHistory: seq<SubscriptionCall>, history: seq<Event>)
    ensures upstreamHistory == [Requested(Unlimited)]
    ensures HistoriesEqual(history, Subscribed([Completed(Finished)]))
  {
    var subscription := new CustomSubscription();
    var publisher := new CustomPublisher(subscription);
    var tracking := new TrackingSubscriber(1, RequestOnSubscription(Unlimited), None);
    var stage := new MapStage(2, tracking, Total(Double));
    publisher.Subscribe(stage);
    publisher.SendCompletion(Finished);
    upstreamHistory, history := subscription.history, tracking.history;
    assert history == [Subscription(2)] + [Completed(Finished)];
    ResubscribedHistoriesEqual(2, EmptySubscription, [Completed(Finished)]);
  }

  /** The downstream's subscription is the stage itself, so the test's
      `downstreamSubscription` is `stage`. */
  method TestCancel() returns (upstreamHistory: seq<SubscriptionCall>)
    ensures upstreamHistory == [Requested(Unlimited), Canceled]
  {
    var subscription := new CustomSubscription();
    var publisher := new CustomPublisher(subscription);
    var tracking := new TrackingSubscriber(1, RequestOnSubscription(Unlimited), None);
    var stage := new MapStage(2, tracking, Total(Double));
    publisher.Subscribe(stage);
    stage.Cancel();
    upstreamHistory := subscription.history;
  }

  method TestCancelAlreadyCancelled() returns (upstreamHistory: seq<SubscriptionCall>)
    ensures upstreamHistory == [Requested(Unlimited), Canceled, Requested(Unlimited), Canceled]
  {
    var subscription := new CustomSubscription();
    var publisher := new CustomPublisher(subscription);
    var tracking := new TrackingSubscriber(1, RequestOnSubscription(Unlimited), None);
    var stage := new MapStage(2, tracking, Total(Double));
    publisher.Subscribe(stage);
    stage.Cancel();
    stage.Request(Unlimited);
    stage.Cancel();
    upstreamHistory := subscription.history;
  }
}
