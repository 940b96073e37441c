/** The recording subscriber and the recording subject of the test suite:
    objects that append every callback they receive to an event log. */
module Tracking {
  import opened Combine

  /** `TrackingSubscriberBase.Event`. A subscription is recorded by the identity
      of the subscription object it was handed; `Completed` is the event case
      `.completion`, which carries a `Combine.Completion`. */
  datatype Event =
    | Subscription(subscription: nat)
    | Value(input: int)
    | Completed(completion: Completion<AnyError>)

  /** What the custom equality of events looks at: subscription identity is
      forgotten, and a failure is seen only through its cast to `TestingError`. */
  datatype EventKey = SubscriptionKey | ValueKey(input: int) | FinishedKey | FailureKey(cast: Option<TestingError>)

  function Key(e: Event): EventKey
  {
    match e
    case Subscription(_) => SubscriptionKey
    case Value(v) => ValueKey(v)
    case Completed(Finished) => FinishedKey
    case Completed(Failure(err)) => FailureKey(AsTestingError(err))
  }

  /** The `==` of `TrackingSubscriberBase.Event`. */
  function EventsEqual(a: Event, b: Event): (r: bool)
    ensures a == b ==> r
    ensures a.Subscription? && b.Subscription? ==> r
    ensures r ==> a.Subscription? == b.Subscription? && a.Value? == b.Value? && a.Completed? == b.Completed?
  {
    match (a, b)
    case (Subscription(_), Subscription(_)) => true
    case (Value(x), Value(y)) => x == y
    case (Completed(c), Completed(d)) =>
      (match (c, d)
       case (Finished, Finished) => true
       case (Failure(e1), Failure(e2)) => AsTestingError(e1) == AsTestingError(e2)
       case _ => false)
    case _ => false
  }

  /** Event equality is exactly equality of keys. */
  lemma EventsEqualMatchesKey(a: Event, b: Event)
    ensures EventsEqual(a, b) <==> Key(a) == Key(b)
  {
  }

  /** Event equality is an equivalence relation. */
  lemma EventsEqualIsEquivalence(a: Event, b: Event, c: Event)
    ensures EventsEqual(a, a)
    ensures EventsEqual(a, b) ==> EventsEqual(b, a)
    ensures EventsEqual(a, b) && EventsEqual(b, c) ==> EventsEqual(a, c)
  {
  }

  /** Two failures neither of which is a `TestingError` compare equal, whatever
      errors they carry (both casts give nil). */
  lemma ForeignFailuresAreEqual(x: int, y: int)
    ensures EventsEqual(Completed(Failure(Foreign(x))), Completed(Failure(Foreign(y))))
    ensures x != y ==> Completed(Failure(Foreign(x))) != Completed(Failure(Foreign(y)))
  {
  }

  /** Equality of two recorded histories (`Array ==` over events). */
  function HistoriesEqual(a: seq<Event>, b: seq<Event>): (r: bool)
    ensures r ==> |a| == |b|
    ensures a == b ==> r
  {
    |a| == |b| && forall i :: 0 <= i < |a| ==> EventsEqual(a[i], b[i])
  }

  /** Histories that differ only in which subscription object they recorded
      first are equal. */
  lemma ResubscribedHistoriesEqual(s: nat, t: nat, rest: seq<Event>)
    ensures HistoriesEqual([Subscription(s)] + rest, [Subscription(t)] + rest)
  {
  }

  /** The `subscriptions` view: the subscriptions in the history, in order. */
  function Subscriptions(h: seq<Event>): (r: seq<nat>)
    ensures |r| <= |h|
  {
    if h == [] then []
    else (if h[0].Subscription? then [h[0].subscription] else []) + Subscriptions(h[1..])
  }

  /** The `inputs` view: the values in the history, in order. */
  function Inputs(h: seq<Event>): (r: seq<int>)
    ensures |r| <= |h|
  {
    if h == [] then []
    else (if h[0].Value? then [h[0].input] else []) + Inputs(h[1..])
  }

  /** The `completions` view: the completions in the history, in order. */
  function Completions(h: seq<Event>): (r: seq<Completion<AnyError>>)
    ensures |r| <= |h|
  {
    if h == [] then []
    else (if h[0].Completed? then [h[0].completion] else []) + Completions(h[1..])
  }

  /** Each view holds exactly the payloads of the events of its kind. */
  lemma {:induction false} ViewMembership(h: seq<Event>)
    ensures forall s :: s in Subscriptions(h) <==> Subscription(s) in h
    ensures forall v :: v in Inputs(h) <==> Value(v) in h
    ensures forall c :: c in Completions(h) <==> Completed(c) in h
  {
    if h != [] {
      ViewMembership(h[1..]);
      assert h == [h[0]] + h[1..];
    }
  }

  /** Every event lands in exactly one of the three views. */
  lemma {:induction false} ProjectionLengths(h: seq<Event>)
    ensures |Subscriptions(h)| + |Inputs(h)| + |Completions(h)| == |h|
  {
    if h != [] {
      ProjectionLengths(h[1..]);
    }
  }

  /** The views distribute over concatenation, so each keeps the history's order. */
  lemma {:induction false} SubscriptionsOfConcat(a: seq<Event>, b: seq<Event>)
    ensures Subscriptions(a + b) == Subscriptions(a) + Subscriptions(b)
  {
    if a == [] {
      assert a + b == b;
    } else {
      assert (a + b)[0] == a[0] && (a + b)[1..] == a[1..] + b;
      SubscriptionsOfConcat(a[1..], b);
      var head := if a[0].Subscription? then [a[0].subscription] else [];
      calc {
        Subscriptions(a + b);
        head + Subscriptions(a[1..] + b);
        head + (Subscriptions(a[1..]) + Subscriptions(b));
        { assert head + (Subscriptions(a[1..]) + Subscriptions(b)) == (head + Subscriptions(a[1..])) + Subscriptions(b); }
        Subscriptions(a) + Subscriptions(b);
      }
    }
  }

  lemma {:induction false} InputsOfConcat(a: seq<Event>, b: seq<Event>)
    ensures Inputs(a + b) == Inputs(a) + Inputs(b)
  {
    if a == [] {
      assert a + b == b;
    } else {
      assert (a + b)[0] == a[0] && (a + b)[1..] == a[1..] + b;
      InputsOfConcat(a[1..], b);
      var head := if a[0].Value? then [a[0].input] else [];
      calc {
        Inputs(a + b);
        head + Inputs(a[1..] + b);
        head + (Inputs(a[1..]) + Inputs(b));
        { assert head + (Inputs(a[1..]) + Inputs(b)) == (head + Inputs(a[1..])) + Inputs(b); }
        Inputs(a) + Inputs(b);
      }
    }
  }

  lemma {:induction false} CompletionsOfConcat(a: seq<Event>, b: seq<Event>)
    ensures Completions(a + b) == Completions(a) + Completions(b)
  {
    if a == [] {
      assert a + b == b;
    } else {
      assert (a + b)[0] == a[0] && (a + b)[1..] == a[1..] + b;
      CompletionsOfConcat(a[1..], b);
      var head := if a[0].Completed? then [a[0].completion] else [];
      calc {
        Completions(a + b);
        head + Completions(a[1..] + b);
        head + (Completions(a[1..]) + Completions(b));
        { assert head + (Completions(a[1..]) + Completions(b)) == (head + Completions(a[1..])) + Completions(b); }
        Completions(a) + Completions(b);
      }
    }
  }

  /** Appending one event extends exactly the view of its kind, by that event. */
  lemma ProjectionsOfAppend(h: seq<Event>, e: Event)
    ensures Subscriptions(h + [e]) == Subscriptions(h) + (if e.Subscription? then [e.subscription] else [])
    ensures Inputs(h + [e]) == Inputs(h) + (if e.Value? then [e.input] else [])
    ensures Completions(h + [e]) == Completions(h) + (if e.Completed? then [e.completion] else [])
  {
    SubscriptionsOfConcat(h, [e]);
    InputsOfConcat(h, [e]);
    CompletionsOfConcat(h, [e]);
    assert [e][1..] == [];
  }

  /** Histories the tests consider equal have the same inputs, in the same
      order, and the same number of subscriptions and of completions. */
  lemma {:induction false} ViewsRespectEquality(a: seq<Event>, b: seq<Event>)
    requires HistoriesEqual(a, b)
    ensures Inputs(a) == Inputs(b)
    ensures |Subscriptions(a)| == |Subscriptions(b)|
    ensures |Completions(a)| == |Completions(b)|
  {
    if a != [] {
      assert EventsEqual(a[0], b[0]);
      assert HistoriesEqual(a[1..], b[1..]) by {
        forall i | 0 <= i < |a[1..]| ensures EventsEqual(a[1..][i], b[1..][i]) {
          assert EventsEqual(a[i + 1], b[i + 1]);
        }
      }
      ViewsRespectEquality(a[1..], b[1..]);
    }
  }

  /** The subscriber protocol as seen in a history: the subscription comes first
      and only once, and nothing follows a completion. */
  predicate Conforms(h: seq<Event>)
  {
    && (|h| > 0 ==> h[0].Subscription?)
    && (forall i :: 0 < i < |h| ==> !h[i].Subscription?)
    && (forall i :: 0 <= i < |h| - 1 ==> !h[i].Completed?)
  }

  /** The history has been completed. */
  predicate EndsInCompletion(h: seq<Event>)
  {
    |h| > 0 && h[|h| - 1].Completed?
  }

  /** A history without subscription events has an empty `subscriptions` view. */
  lemma {:induction false} NoSubscriptions(h: seq<Event>)
    requires forall i :: 0 <= i < |h| ==> !h[i].Subscription?
    ensures Subscriptions(h) == []
  {
    if h != [] {
      NoSubscriptions(h[1..]);
    }
  }

  /** A history without completion events has an empty `completions` view. */
  lemma {:induction false} NoCompletions(h: seq<Event>)
    requires forall i :: 0 <= i < |h| ==> !h[i].Completed?
    ensures Completions(h) == []
  {
    if h != [] {
      NoCompletions(h[1..]);
    }
  }

  /** A conforming history holds at most one subscription. */
  lemma ConformingSubscriptions(h: seq<Event>)
    requires Conforms(h)
    ensures |Subscriptions(h)| <= 1
  {
    if h != [] {
      assert h == [h[0]] + h[1..];
      SubscriptionsOfConcat([h[0]], h[1..]);
      forall i | 0 <= i < |h[1..]| ensures !h[1..][i].Subscription? {
        assert h[1..][i] == h[i + 1];
      }
      NoSubscriptions(h[1..]);
    }
  }

  /** A conforming history holds at most one completion, and holds one exactly
      when it has been completed. */
  lemma ConformingCompletions(h: seq<Event>)
    requires Conforms(h)
    ensures |Completions(h)| <= 1
    ensures |Completions(h)| == 1 <==> EndsInCompletion(h)
  {
    if h != [] {
      var n := |h| - 1;
      assert h == h[..n] + [h[n]];
      CompletionsOfConcat(h[..n], [h[n]]);
      assert Completions([h[n]]) == if h[n].Completed? then [h[n].completion] else [];
      forall i | 0 <= i < n ensures !h[..n][i].Completed? {
        assert h[..n][i] == h[i];
      }
      NoCompletions(h[..n]);
    }
  }

  /** A completed-free conforming history stays conforming when a value or a
      completion is appended. */
  lemma ConformsAppend(h: seq<Event>, e: Event)
    requires Conforms(h) && h != [] && !EndsInCompletion(h)
    requires !e.Subscription?
    ensures Conforms(h + [e])
    ensures EndsInCompletion(h + [e]) == e.Completed?
  {
  }

  /** Whether a history conforms depends only on the kinds of its events, so it
      is preserved by the tests' notion of history equality. */
  lemma ConformsRespectsEquality(a: seq<Event>, b: seq<Event>)
    requires HistoriesEqual(a, b)
    ensures Conforms(a) <==> Conforms(b)
  {
  }

  /** `TrackingSubscriberBase`: records every callback in `history`, then runs
      the optional user callback. A callback is modelled as a function of the
      history as it stands when the callback runs; the `receiveSubscription`
      callback is the calls it makes, in order, on the subscription it is
      handed: any number of requests and cancels, or none. */
  class TrackingSubscriber {
    const combineIdentifier: nat
    const receiveSubscription: Option<seq<Event> -> seq<SubscriptionCall>>
    const receiveValue: Option<(seq<Event>, int) -> Demand>
    var history: seq<Event>

    constructor(combineIdentifier: nat,
                receiveSubscription: Option<seq<Event> -> seq<SubscriptionCall>>,
                receiveValue: Option<(seq<Event>, int) -> Demand>)
      ensures this.combineIdentifier == combineIdentifier
      ensures this.receiveSubscription == receiveSubscription
      ensures this.receiveValue == receiveValue
      ensures history == []
    {
      this.combineIdentifier := combineIdentifier;
      this.receiveSubscription := receiveSubscription;
      this.receiveValue := receiveValue;
      history := [];
    }

    /** The calls `receive(subscription:)` makes on the subscription when its
        callback sees history `h`. */
    function CallsFor(h: seq<Event>): seq<SubscriptionCall>
    {
      if receiveSubscription.Some? then receiveSubscription.value(h) else []
    }

    /** The demand `receive(_:)` hands back for `input` when its callback sees history `h`. */
    function DemandFor(h: seq<Event>, input: int): Demand
    {
      if receiveValue.Some? then receiveValue.value(h, input) else NoDemand
    }

    /** `receive(subscription:)`: records the subscription, then the callback
        runs on the extended history; `calls` are the calls it makes on the
        subscription, in order, and none without a callback. */
    method ReceiveSubscription(subscription: nat) returns (calls: seq<SubscriptionCall>)
      modifies this
      ensures history == old(history) + [Subscription(subscription)]
      ensures receiveSubscription.None? ==> calls == []
      ensures receiveSubscription.Some? ==> calls == receiveSubscription.value(history)
    {
      history := history + [Subscription(subscription)];
      calls := CallsFor(history);
    }

    /** `receive(_:)`: records the value, then returns the callback's demand
        (computed on the extended history), or `.none` without a callback. */
    method ReceiveValue(input: int) returns (demand: Demand)
      modifies this
      ensures history == old(history) + [Value(input)]
      ensures receiveValue.None? ==> demand == NoDemand
      ensures receiveValue.Some? ==> demand == receiveValue.value(history, input)
    {
      history := history + [Value(input)];
      demand := DemandFor(history, input);
    }

    /** `receive(completion:)`: records the completion. */
    method ReceiveCompletion(completion: Completion<AnyError>)
      modifies this
      ensures history == old(history) + [Completed(completion)]
    {
      history := history + [Completed(completion)];
    }
  }

  /** `TrackingSubject.Event`. */
  datatype SubjectEvent =
    | SubjectSubscriber(identifier: nat)
    | SubjectValue(value: int)
    | SubjectCompletion(completion: Completion<TestingError>)

  /** The `==` of `TrackingSubject.Event`: it coincides with structural equality. */
  function SubjectEventsEqual(a: SubjectEvent, b: SubjectEvent): (r: bool)
    ensures r <==> a == b
  {
    match (a, b)
    case (SubjectSubscriber(x), SubjectSubscriber(y)) => x == y
    case (SubjectValue(x), SubjectValue(y)) => x == y
    case (SubjectCompletion(c), SubjectCompletion(d)) =>
      (match (c, d)
       case (Finished, Finished) => true
       case (Failure(e1), Failure(e2)) => e1 == e2
       case _ => false)
    case _ => false
  }

  /** `TrackingSubject`: a subject that only records what is sent to it and who
      subscribes; it delivers nothing to anyone. */
  class TrackingSubject {
    var history: seq<SubjectEvent>

    constructor()
      ensures history == []
    {
      history := [];
    }

    /** `send(_:)` */
    method Send(value: int)
      modifies this
      ensures history == old(history) + [SubjectValue(value)]
    {
      history := history + [SubjectValue(value)];
    }

    /** `send(completion:)` */
    method SendCompletion(completion: Completion<TestingError>)
      modifies this
      ensures history == old(history) + [SubjectCompletion(completion)]
    {
      history := history + [SubjectCompletion(completion)];
    }

    /** `receive(subscriber:)`: records the subscriber's identifier and hands it
        nothing, not even a subscription. The source takes any subscriber and
        reads only its `combineIdentifier`; the parameter is narrowed here to
        the tracking subscriber, the only one whose state there is to keep. */
    method ReceiveSubscriber(subscriber: TrackingSubscriber)
      modifies this
      ensures history == old(history) + [SubjectSubscriber(subscriber.combineIdentifier)]
      ensures subscriber.history == old(subscriber.history)
    {
      history := history + [SubjectSubscriber(subscriber.combineIdentifier)];
    }
  }
}
