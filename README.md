# Recording subscriber and the map stage of OpenCombine's tests

This project models two parts of the OpenCombine test suite in Dafny. The
first is the recording helpers: `TrackingSubscriberBase` and
`TrackingSubject`. The second is the `map`/`tryMap` stage as the eleven
scenarios of `MapTests` fix its behaviour.

- `combine.dfy` (module `Combine`) holds the protocol's value types:
  - `Demand` is `Unlimited | Max(n)`, and `.none` is `Max(0)`;
  - `SubscriptionCall` is a call made on a subscription, `request(d)` or `cancel()`;
  - `Completion` is `.finished` or `.failure`;
  - `TestingError` is the test suite's error type;
  - `AnyError` is Swift's existential `Error`;
  - the cast `as? TestingError` is a function.
- `tracking.dfy` (module `Tracking`) holds the recording helpers:
  - the recorded `Event` (its case `.completion` is named `Completed`) and its custom `==`, which ignores subscription identity and compares failures after the cast;
  - equality of whole histories;
  - the three views `subscriptions`, `inputs` and `completions`, as order-preserving filters;
  - the subscriber protocol as a predicate on histories (`Conforms`);
  - `TrackingSubscriber`, a class whose `receive` methods append to `history`;
  - `TrackingSubject`, with its own event type and equality.
  - A user callback is a function of the history as it stands when the callback runs, so a callback sees the event just appended. The `receiveSubscription` callback yields the calls it makes on the subscription it is handed, in order: any number of requests and cancels, or none.
- `map_operator.dfy` (module `MapOperator`) holds the stage and the stubs around it:
  - recording stubs for the collaborators the tests build: `CustomSubscription`, `CustomPublisher` and the `PassthroughSubject` the tests send through;
  - `MapStage`, the stage the tests pin down, which runs a transform that returns or throws;
  - `TerminatingMapStage`, the corrected stage described under Findings.
  - `transformCalls` counts transform runs and plays the tests' captured `counter`.
  - `Forward` passes the calls a downstream makes on either stage on to the upstream subscription.
  - `SendAll` sends a sequence of values through the subject; `Deliveries` is what the stage delivers for them.
- `map_tests.dfy` (module `MapTests`) holds one method per test, each of which states in its postcondition what the test asserts.
  - Each of the eleven builds the test's objects and makes the test's calls. Where a test keeps the downstream subscription and calls it later (`testCancel`, `testCancelAlreadyCancelled`), the method calls the stage, which is that subscription.
  - Two helper methods group the sends of the throwing test after its subscription.
  - `TestRangeForAll` generalises `testRange` to every closure and every sequence of values.
  - One more method runs the throwing test's inputs against the corrected stage (see Findings). It drives that stage directly, with no publisher, so the send before subscription is absent.
  - Every expected history is compared with the tests' own event equality (`HistoriesEqual`), so `.subscription(Subscriptions.empty)` matches the stage's own subscription.

## Model

| member | source | states |
|---|---|---|
| Tracking.EventsEqual | Tests/OpenCombineTests/Helpers/TrackingSubscriber.swift:47-65 | Structurally equal events are equal. Any two subscription events are equal. Events of different kinds are never equal. |
| Tracking.EventsEqualMatchesKey | Tests/OpenCombineTests/Helpers/TrackingSubscriber.swift:47-65 | Two events are equal iff they agree on a key: every subscription shares one key, values compare their ints, `.finished` matches only `.finished`, and failures compare their payloads cast to `TestingError`. |
| Tracking.EventsEqualIsEquivalence | Tests/OpenCombineTests/Helpers/TrackingSubscriber.swift:47-65 | Event equality is reflexive, symmetric and transitive. |
| Tracking.ForeignFailuresAreEqual | Tests/OpenCombineTests/Helpers/TrackingSubscriber.swift:57-58 | Two failures whose errors are not `TestingError`s compare equal even when the errors differ, because both casts give nil. |
| Tracking.HistoriesEqual | Tests/OpenCombineTests/Helpers/TrackingSubscriber.swift:47-65 | Equal histories have equal lengths. Identical histories are equal. |
| Tracking.ResubscribedHistoriesEqual | Tests/OpenCombineTests/Helpers/TrackingSubscriber.swift:20-24 | Histories that differ only in which subscription object was recorded first are equal. This is why the tests can expect `Subscriptions.empty`. |
| Tracking.Subscriptions | Tests/OpenCombineTests/Helpers/TrackingSubscriber.swift:90-100 | Its own contract is only that the view is no longer than the history. What it means (exactly the subscription payloads, in history order) is stated by ViewMembership, SubscriptionsOfConcat and ProjectionsOfAppend. |
| Tracking.Inputs | Tests/OpenCombineTests/Helpers/TrackingSubscriber.swift:103-113 | Its own contract is only that the view is no longer than the history. What it means (exactly the values, in history order) is stated by ViewMembership, InputsOfConcat and ProjectionsOfAppend. |
| Tracking.Completions | Tests/OpenCombineTests/Helpers/TrackingSubscriber.swift:116-129 | Its own contract is only that the view is no longer than the history. What it means (exactly the completions, in history order) is stated by ViewMembership, CompletionsOfConcat and ProjectionsOfAppend. |
| Tracking.ViewMembership | Tests/OpenCombineTests/Helpers/TrackingSubscriber.swift:90-129 | Each view holds exactly the payloads of the history's events of its kind. |
| Tracking.ProjectionLengths | Tests/OpenCombineTests/Helpers/TrackingSubscriber.swift:90-129 | The lengths of the three views sum to the length of the history. |
| Tracking.SubscriptionsOfConcat | Tests/OpenCombineTests/Helpers/TrackingSubscriber.swift:90-100 | The `subscriptions` view of a concatenation is the concatenation of the views, so the view keeps history order. |
| Tracking.InputsOfConcat | Tests/OpenCombineTests/Helpers/TrackingSubscriber.swift:103-113 | The `inputs` view distributes over concatenation and keeps history order. |
| Tracking.CompletionsOfConcat | Tests/OpenCombineTests/Helpers/TrackingSubscriber.swift:116-129 | The `completions` view distributes over concatenation and keeps history order. |
| Tracking.ProjectionsOfAppend | Tests/OpenCombineTests/Helpers/TrackingSubscriber.swift:90-129 | Appending one event extends the view of its kind by its payload and leaves the other two views unchanged. |
| Tracking.NoSubscriptions | Tests/OpenCombineTests/Helpers/TrackingSubscriber.swift:90-100 | A history without subscription events has an empty `subscriptions` view. |
| Tracking.NoCompletions | Tests/OpenCombineTests/Helpers/TrackingSubscriber.swift:116-129 | A history without completion events has an empty `completions` view. |
| Tracking.ViewsRespectEquality | Tests/OpenCombineTests/Helpers/TrackingSubscriber.swift:47-129 | Histories the tests consider equal have the same `inputs`, in the same order, and the same numbers of subscriptions and of completions. |
| Tracking.ConformingSubscriptions | Tests/OpenCombineTests/Helpers/TrackingSubscriber.swift:90-100 | A history that obeys the subscriber protocol has at most one entry in its `subscriptions` view. `Conforms` is this model's statement of the protocol; the source has no such check. |
| Tracking.ConformingCompletions | Tests/OpenCombineTests/Helpers/TrackingSubscriber.swift:116-129 | A history that obeys the protocol has at most one entry in its `completions` view. It has one exactly when its last event is a completion. |
| Tracking.ConformsAppend | Tests/OpenCombineTests/Helpers/TrackingSubscriber.swift:146-154 | Appending a value or a completion to a subscribed, uncompleted history that obeys the protocol keeps it obeying. The result is completed iff the appended event is a completion. |
| Tracking.ConformsRespectsEquality | Tests/OpenCombineTests/Helpers/TrackingSubscriber.swift:47-65 | Histories the tests consider equal either both obey the protocol or both break it. |
| Tracking.TrackingSubscriber.constructor | Tests/OpenCombineTests/Helpers/TrackingSubscriber.swift:131-139 | Keeps the optional callbacks and starts with an empty history. |
| Tracking.TrackingSubscriber.ReceiveSubscription | Tests/OpenCombineTests/Helpers/TrackingSubscriber.swift:141-144 | Appends exactly one subscription event. The callback runs on the history that already holds it, and the calls it makes on the subscription are handed back in order. Without a callback no call is made. |
| Tracking.TrackingSubscriber.ReceiveValue | Tests/OpenCombineTests/Helpers/TrackingSubscriber.swift:146-149 | Appends exactly one value event, then returns the callback's demand computed on the extended history, or `.none` when there is no callback. |
| Tracking.TrackingSubscriber.ReceiveCompletion | Tests/OpenCombineTests/Helpers/TrackingSubscriber.swift:151-154 | Appends exactly one completion event. |
| Tracking.SubjectEventsEqual | Tests/OpenCombineTests/Helpers/TrackingSubscriber.swift:177-195 | The subject's event equality holds iff the events are structurally equal: same subscriber identifier, same value, or the same completion with the same failure. |
| Tracking.TrackingSubject.constructor | Tests/OpenCombineTests/Helpers/TrackingSubscriber.swift:198 | Starts with an empty history. |
| Tracking.TrackingSubject.Send | Tests/OpenCombineTests/Helpers/TrackingSubscriber.swift:200-202 | Appends exactly one value event. |
| Tracking.TrackingSubject.SendCompletion | Tests/OpenCombineTests/Helpers/TrackingSubscriber.swift:204-206 | Appends exactly one completion event. |
| Tracking.TrackingSubject.ReceiveSubscriber | Tests/OpenCombineTests/Helpers/TrackingSubscriber.swift:208-212 | Appends the subscriber's identifier. Nothing is delivered to the subscriber, whose history is unchanged. |
| MapOperator.CustomSubscription.Request | Tests/OpenCombineTests/PublisherTests/MapTests.swift:155 | Records `requested(d)` at the end of the subscription's history. |
| MapOperator.CustomSubscription.Cancel | Tests/OpenCombineTests/PublisherTests/MapTests.swift:204 | Records `canceled` at the end of the subscription's history. |
| MapOperator.Forward | Tests/OpenCombineTests/PublisherTests/MapTests.swift:143-156 | The calls a downstream makes on a stage are forwarded upstream one after another: the upstream history gains exactly those calls, in order. Both stages forward through it. |
| MapOperator.DeliveriesAppend | Tests/OpenCombineTests/PublisherTests/MapTests.swift:116-121 | Delivering one more value appends exactly its delivery after the deliveries of the earlier values. |
| MapOperator.MapDeliversImages | Tests/OpenCombineTests/PublisherTests/MapTests.swift:110-129 | For every closure and every sequence of values, the deliveries of a `map` transform are exactly the closure's images of the values, in order, with no subscription or completion. After a subscription they still obey the protocol and are not completed. With SendAll, this is what a live subscribed subject delivers downstream. |
| MapOperator.SendAll | Tests/OpenCombineTests/PublisherTests/MapTests.swift:116-121 | Sending values one after another through a live, subscribed subject runs the transform once per value. The downstream history gains exactly the deliveries of those values, in order, and the stage keeps its upstream and the protocol. |
| MapOperator.MapStage.constructor | Tests/OpenCombineTests/PublisherTests/MapTests.swift:63-69 | The stage starts without an upstream and with a zero call counter. |
| MapOperator.MapStage.ReceiveSubscription | Tests/OpenCombineTests/PublisherTests/MapTests.swift:131-156 | Hands downstream one subscription event. The upstream history then gains exactly the calls the downstream's callback makes, in order, and nothing without a callback. |
| MapOperator.MapStage.ReceiveValue | Tests/OpenCombineTests/PublisherTests/MapTests.swift:59-91 | Runs the transform exactly once. A returned value goes downstream and the downstream's demand comes back unchanged. A thrown error goes downstream as a failure. |
| MapOperator.MapStage.ReceiveCompletion | Tests/OpenCombineTests/PublisherTests/MapTests.swift:173-188 | Forwards the completion downstream unchanged. |
| MapOperator.MapStage.Request | Tests/OpenCombineTests/PublisherTests/MapTests.swift:207-227 | Forwards a downstream request to the upstream subscription verbatim. |
| MapOperator.MapStage.Cancel | Tests/OpenCombineTests/PublisherTests/MapTests.swift:190-227 | Forwards every downstream cancel upstream verbatim, with no idempotence filtering. |
| MapOperator.CustomPublisher.constructor | Tests/OpenCombineTests/PublisherTests/MapTests.swift:133-134 | Keeps the given subscription and starts without a subscriber. |
| MapOperator.CustomPublisher.Subscribe | Tests/OpenCombineTests/PublisherTests/MapTests.swift:131-156 | Hands its subscription to the stage. The downstream records one subscription event. The subscription records exactly the calls of the downstream's callback. |
| MapOperator.CustomPublisher.Send | Tests/OpenCombineTests/PublisherTests/MapTests.swift:158-171 | Delivers one value through the stage, which keeps its upstream. It returns the downstream's demand when the transform returns, and `.none` when it throws. |
| MapOperator.CustomPublisher.SendCompletion | Tests/OpenCombineTests/PublisherTests/MapTests.swift:173-188 | Forwards one completion downstream through the stage. |
| MapOperator.PassthroughSubject.constructor | Tests/OpenCombineTests/PublisherTests/MapTests.swift:37 | Starts with no subscriber and not completed. |
| MapOperator.PassthroughSubject.Subscribe | Tests/OpenCombineTests/PublisherTests/MapTests.swift:32-42 | The downstream history becomes just the subscription. The stage gets a fresh upstream subscription that holds exactly the calls of the downstream's callback. |
| MapOperator.PassthroughSubject.Send | Tests/OpenCombineTests/PublisherTests/MapTests.swift:110-129 | The stage keeps its upstream. Before completion, a value runs the transform once and delivers one event. After completion, nothing runs and nothing is delivered. With a transform that never throws, the downstream history keeps obeying the protocol. |
| MapOperator.PassthroughSubject.SendCompletion | Tests/OpenCombineTests/PublisherTests/MapTests.swift:44-57 | The first completion is forwarded once and unchanged. Later completions reach nobody. |
| MapOperator.TerminatingMapStage.constructor | Tests/OpenCombineTests/PublisherTests/MapTests.swift:59-91 | Starts unfinished, unsubscribed, and with an empty downstream history that obeys the protocol. |
| MapOperator.TerminatingMapStage.ReceiveSubscription | Tests/OpenCombineTests/PublisherTests/MapTests.swift:70-75 | Same forwarding as the as-written stage. The downstream history is then the single subscription. |
| MapOperator.TerminatingMapStage.ReceiveValue | Tests/OpenCombineTests/PublisherTests/MapTests.swift:59-91 | Before the stage finishes, the transform runs once and its outcome goes downstream; a throw also finishes the stage and cancels upstream exactly once. After it finishes, nothing runs and nothing is delivered. The downstream history always obeys the protocol. |
| MapOperator.TerminatingMapStage.ReceiveCompletion | Tests/OpenCombineTests/PublisherTests/MapTests.swift:80 | Forwards only the first terminal event. The stage is finished afterwards and its history still obeys the protocol. |
| MapOperator.TerminatingMapStage.Request | Tests/OpenCombineTests/PublisherTests/MapTests.swift:207-227 | Forwards a request upstream verbatim. |
| MapOperator.TerminatingMapStage.Cancel | Tests/OpenCombineTests/PublisherTests/MapTests.swift:190-205 | Forwards a cancel upstream verbatim. |
| MapTests.TestEmpty | Tests/OpenCombineTests/PublisherTests/MapTests.swift:32-42 | With no sends, the downstream records only the subscription. |
| MapTests.TestError | Tests/OpenCombineTests/PublisherTests/MapTests.swift:44-57 | An upstream failure arrives downstream unchanged, after the subscription. |
| MapTests.TestTryMapFailureBecauseOfThrow | Tests/OpenCombineTests/PublisherTests/MapTests.swift:59-91 | The value sent before subscription is dropped. The transform runs 4 times. The history is the subscription, 4, 6, failure "too much", 18, `.finished`. |
| MapTests.PublishThrowingSequence | Tests/OpenCombineTests/PublisherTests/MapTests.swift:76-80 | The five sends after subscription run the transform four times and append exactly the five events the test expects. |
| MapTests.ThrowScenarioCompletions | Tests/OpenCombineTests/PublisherTests/MapTests.swift:82-88 | The expected history of the throwing test holds two completions. |
| MapTests.ThrowScenarioBreaksProtocol | Tests/OpenCombineTests/PublisherTests/MapTests.swift:82-88 | Every history equal to that expected history breaks the subscriber protocol and holds two completions. |
| MapTests.TestTryMapFailureBecauseOfThrowTerminating | Tests/OpenCombineTests/PublisherTests/MapTests.swift:59-91 | The corrected stage is driven directly, with no publisher and so without the send before subscription. It receives the values 2, 3, 100 and 9 and then `.finished`. The history obeys the protocol and is the subscription, 4, 6, failure "too much". The transform runs 3 times. Upstream records the request, then one cancel. |
| MapTests.RunThrowingSequence | Tests/OpenCombineTests/PublisherTests/MapTests.swift:76-80 | Fed directly into the corrected stage, the values and completion of these sends run the transform three times, deliver 4, 6 and the failure, and cancel upstream once. |
| MapTests.TestTryMapFailureOnCompletion | Tests/OpenCombineTests/PublisherTests/MapTests.swift:93-108 | The downstream records the subscription and the forwarded failure. A value sent after the failure is not recorded. |
| MapTests.TestRange | Tests/OpenCombineTests/PublisherTests/MapTests.swift:110-129 | A value sent before subscription is never seen. Later values arrive doubled and in order. Nothing arrives after `.finished`. |
| MapTests.TestRangeForAll | Tests/OpenCombineTests/PublisherTests/MapTests.swift:110-129 | For every closure and every sequence of values sent after subscription, the downstream history is the subscription followed by the deliveries. Its values are exactly the closure's images, in order, with no completion, and the history obeys the protocol and stays open. |
| MapTests.TestNoDemand | Tests/OpenCombineTests/PublisherTests/MapTests.swift:131-141 | A downstream that requests nothing leaves the upstream history empty. |
| MapTests.TestDemandSubscribe | Tests/OpenCombineTests/PublisherTests/MapTests.swift:143-156 | A request of `.max(42)` on subscription appears upstream as exactly one `requested(.max(42))`. |
| MapTests.TestDemandSend | Tests/OpenCombineTests/PublisherTests/MapTests.swift:158-171 | `send(0)` returns the downstream's `.max(4)` unchanged. |
| MapTests.TestCompletion | Tests/OpenCombineTests/PublisherTests/MapTests.swift:173-188 | Upstream records only `requested(.unlimited)`. Downstream records the subscription and one `.finished`. |
| MapTests.TestCancel | Tests/OpenCombineTests/PublisherTests/MapTests.swift:190-205 | A downstream cancel appends exactly one `canceled` upstream. |
| MapTests.TestCancelAlreadyCancelled | Tests/OpenCombineTests/PublisherTests/MapTests.swift:207-227 | A request and a second cancel after a cancel are still forwarded, giving `[requested, canceled, requested, canceled]`. |

## Left out

- The implementations of `map`, `tryMap`, `PassthroughSubject`, `CustomPublisher` and `CustomSubscription` are not part of this model. Each is a recording stub that does only what the `MapTests` assertions pin down.
- PassthroughSubject: it has one subscriber, as the tests attach, and keeps no demand accounting and no buffering. The stub delivers every value whatever demand was requested, even to a downstream that requested none. No test sends a value while such a downstream is subscribed and uncompleted.
- PassthroughSubject.Subscribe: subscribing after the subject has completed is not modelled, because no test does it.
- MapStage.ReceiveValue: after a throw it returns `.none`. The tests do not pin the demand returned after a throw, so this value is a choice.
- CustomPublisher.Send: it requires a subscriber. Sending to a `CustomPublisher` without one does not happen in the tests.
- `receiveCompletion` callbacks and `onDeinit` hooks of `TrackingSubscriberBase` are not modelled. No `MapTests` scenario installs one, and `deinit` has no sequential meaning.
- TrackingSubscriber.ReceiveSubscription: the callback's effect is the list of calls it makes on the subscription while it runs. A callback that keeps the subscription and calls it later, as `testCancel` does, is modelled by the scenario calling the stage directly, since the stage is that subscription.
- Overflow of `$0 * 2` on Swift's 64-bit `Int` is not modelled. Integers are unbounded, and the tests only double small numbers.
- The `description` strings, the lazy-sequence wrapper types of the views (plain sequences here), and the XCTest scaffolding are not modelled.
- Concurrency and reentrancy beyond one callback seeing the history just appended are not modelled.
- TrackingSubject.ReceiveSubscriber: the source accepts any subscriber and reads only its `combineIdentifier`; the model accepts only a `TrackingSubscriber`, so it does not show a stage subscribing to the subject.
- `TestingError.swift` is not part of this model. `TestingError` is taken to be the case `oops` or a value made from a string literal. Errors of other types are `Foreign` with a code that tells them apart.
- A subscription recorded in an event is identified by a number, the `combineIdentifier` of the object handed over.
- Subject semantics: a general subject delivers a subscription and values to its subscribers. `TrackingSubject` does neither, and the model follows the code.
- The throwing test: a fallible map is described generally as terminating on the first throw and cancelling upstream. The test pins the opposite, and the as-written stage follows the test (see Findings).

## Findings

| source | as written | input that shows it | evidently intended | confidence | as-written member | corrected member |
|---|---|---|---|---|---|---|
| Tests/OpenCombineTests/PublisherTests/MapTests.swift:82-90 | The test expects `value(18)` and `.finished` after the `.failure("too much")` completion, and a transform count of 4. A `tryMap` that behaves like that delivers two completions and a value after a completion. | Send 1, subscribe, send 2, 3, 100, 9, then `.finished` (lines 74-80). | The stage stops at the first throw: history subscription, 4, 6, failure "too much"; the transform runs 3 times; upstream records one `canceled`. | not executed; medium, since the assertion may pin the library's behaviour at that time on purpose | MapTests.ThrowScenarioBreaksProtocol | MapTests.TestTryMapFailureBecauseOfThrowTerminating |
