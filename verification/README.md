# Traffic: a verified model of the subscription protocol and operator engine

Traffic is a reimplementation of Combine's reactive streams in Swift. This
project models the sequential core of that runtime in Dafny:

- **Demand arithmetic**: `_Subscribers.Demand` as `Unlimited | Max(count)`, with saturating `+`, clamped `-`, saturating `*` and the `<` order.
- **The per-edge state machine**: `SubscriberEvent`, which goes pending, then subscribed with a pending, fulfilled or rejected completion, or cancelled.
- **The channel framework**:
  - `Channel.Base` and its guards `shouldReceive`, `shouldReceiveCompletion`, `shouldRequest`, `cancel` and `request`;
  - `TransformBase`, with its `hasThrown` latch and `willComplete` hook;
  - `FilterBase`;
  - the `Anonymous` channel, whose closures receive the channel itself as their subscription.
- **Accumulating operators**: reduce, scan, min/max, allSatisfy, removeDuplicates, first, last, prefixWhile, contains(where:), collect, collect-by-count, buffer, drop and output(in:).
- **Fan-in and fan-out**: the `MultiUpstream` hub with its combineLatest and zip slot arrays; merge; concatenate; flatMap's publisher budget; switchToLatest's identity check.
- **Leaf producers and consumers**: the passthrough and current-value subjects with per-subscriber demand; the sequence and record producers with their demand loops; the sink subscriber; `AnyCancellable`.

Effects on neighbours are recorded as traces:

- `sent` holds the signals a downstream subscriber received: `Subscribe`, `Value` and `Completed`.
- `calls` holds the `request`/`cancel` calls made on upstream subscriptions.

A downstream subscriber's answer to a value (the demand returned by its `receive(_:)`) is a parameter: `reply`, or `reply(i)` for the i-th delivery inside a loop. Subscription identities (`combineIdentifier`) are natural numbers. 0 stands for the shared empty subscription.

Classes mirror the source's objects. A `Channel` carries `event`, `demand` and `hasThrown`. Each operator class holds its channel and its own captured state. Each class's `Valid()` invariant ties that state to a specification function of the inputs seen so far, for example:

- scan publishes the running folds;
- drop forwards the inputs without their first `count`;
- collect-by-count publishes full batches.

The methods keep `Valid()`. The lemmas about those functions state what the operator promises over a whole stream.

## Model

| member | source | states |
|---|---|---|
| Demands.MaxOf | Sources/Traffic/Subscriber/_Subscribers.Demand.swift:21-24 | `max(v)` is accepted only for v ≥ 0; it is a finite, valid demand equal to the integer v |
| Demands.Plus | Sources/Traffic/Subscriber/_Subscribers.Demand.swift:108-114 | the sum of two valid demands is valid (never a negative count) |
| Demands.Minus | Sources/Traffic/Subscriber/_Subscribers.Demand.swift:141-150 | a difference is always a valid demand, whatever the operands |
| Demands.Times | Sources/Traffic/Subscriber/_Subscribers.Demand.swift:128-134 | a valid demand times a non-negative integer is valid |
| Demands.PlusUnlimited | Sources/Traffic/Subscriber/_Subscribers.Demand.swift:108-111 | unlimited plus anything, on either side, is unlimited |
| Demands.PlusSaturates | Sources/Traffic/Subscriber/_Subscribers.Demand.swift:112-113 | finite addition is exact up to `Int.max` and becomes unlimited beyond it instead of wrapping; the sum is at least each operand |
| Demands.PlusCommutes | Sources/Traffic/Subscriber/_Subscribers.Demand.swift:108-114 | `a + b == b + a` |
| Demands.PlusAssociates | Sources/Traffic/Subscriber/_Subscribers.Demand.swift:108-114 | saturating addition of valid demands is associative, so accumulating `+=` in any grouping gives the same total |
| Demands.MinusUnlimited | Sources/Traffic/Subscriber/_Subscribers.Demand.swift:141-147 | unlimited minus anything is unlimited; finite minus unlimited is none |
| Demands.MinusClamps | Sources/Traffic/Subscriber/_Subscribers.Demand.swift:148-149 | finite subtraction gives `max(a - b, 0)` and never exceeds the left operand |
| Demands.MinusUndoesPlus | Sources/Traffic/Subscriber/_Subscribers.Demand.swift:108-150 | subtracting what was just added gives back the original finite demand when the sum did not saturate |
| Demands.TimesProperties | Sources/Traffic/Subscriber/_Subscribers.Demand.swift:128-134 | unlimited times n is unlimited; an overflowing finite product is unlimited; finite times 0 is none |
| Demands.LessIsStrictTotalOrder | Sources/Traffic/Subscriber/_Subscribers.Demand.swift:64-73 | `<` is irreflexive, transitive and total; every finite demand is below unlimited and unlimited is below nothing |
| Demands.UnlimitedEqualsNoInt | Sources/Traffic/Subscriber/_Subscribers.Demand.swift:37-39 | `.unlimited == n` is false for every integer n |
| Demands.PositiveDemand | Sources/Traffic/Subscriber/_Subscribers.Demand.swift:64-73 | `d > .none` holds exactly for unlimited or a positive count |
| Demands.PlusInt | Sources/Traffic/Subscriber/_Subscribers.Demand.swift:115-118 | adding an `Int` traps on a negative count; otherwise unlimited stays unlimited, a finite sum is exact up to `Int.max` and unlimited beyond, and the result is never below the left operand |
| Demands.MinusInt | Sources/Traffic/Subscriber/_Subscribers.Demand.swift:151-154 | subtracting an `Int` traps on a negative count; otherwise the result is valid, unlimited stays unlimited, a finite difference is clamped at none, and it never exceeds the left operand |
| Demands.UnlimitedIffNoInt | Sources/Traffic/Subscriber/_Subscribers.Demand.swift:32-39 | `isUnlimited` holds exactly for the demand that equals no integer |
| Demands.EqualsIntIsMax | Sources/Traffic/Subscriber/_Subscribers.Demand.swift:37-51 | `d == n` holds exactly when d is `.max(n)`; a valid demand equals no negative integer |
| Demands.DerivedComparisons | Sources/Traffic/Subscriber/_Subscribers.Demand.swift:64-73 | `>`, `<=` and `>=` derived from `<`: `<=` is `<` or equal, `>=` is `>` or equal, `>` is the negation of `<=` |
| Demands.CompareWithInt | Sources/Traffic/Subscriber/_Subscribers.Demand.swift:74-105 | comparing with an integer n compares with `.max(n)`: unlimited is above every n, a finite demand compares by its count |
| Completions.MapError | Sources/Traffic/Subscriber/_Subscribers.Completion.swift:9-16 | mapping keeps finished as finished and applies the transform to a failure's error |
| Completions.Encode | Sources/Traffic/Subscriber/_Subscribers.Completion.swift:27-37 | the encoded single value is nil exactly for finished |
| Completions.Decode | Sources/Traffic/Subscriber/_Subscribers.Completion.swift:38-46 | decoding nil gives finished and decoding an error gives a failure |
| Completions.IsFinishedExactly | Sources/Traffic/Subscriber/_Subscribers.Completion.swift:17-24 | `isFinished` is true exactly for `.finished` |
| Completions.MapErrorIdentity | Sources/Traffic/Subscriber/_Subscribers.Completion.swift:9-16 | mapping with the identity transform changes nothing |
| Completions.RoundTrip | Sources/Traffic/Subscriber/_Subscribers.Completion.swift:27-46 | decode(encode(c)) == c for finished and for every failure |
| Completions.EncodeInjective | Sources/Traffic/Subscriber/_Subscribers.Completion.swift:27-37 | distinct completions encode differently |
| SubscriptionState.SubscriberEvent.EmbeddedSubscription | Sources/Traffic/Helper/SubscriptionState.swift:40-45 | a subscription is embedded only in a subscribed state |
| SubscriptionState.SubscribedWith | Sources/Traffic/Helper/SubscriptionState.swift:53-55 | the completed state keeps the given subscription; it is fulfilled exactly when finished and rejected exactly otherwise |
| SubscriptionState.Complete | Sources/Traffic/Helper/SubscriptionState.swift:46-52 | `complete` succeeds exactly when subscribed; it then marks the completion and keeps the embedded subscription; otherwise the state is unchanged |
| SubscriptionState.SubscribedQuery | Sources/Traffic/Helper/SubscriptionState.swift:13-18 | every state is pending, cancelled or subscribed; subscribed means open or completed, and never cancelled |
| SubscriptionState.CompletedQuery | Sources/Traffic/Helper/SubscriptionState.swift:19-24 | `isCompleted` holds exactly when finished or failed, and only on a subscribed edge |
| SubscriptionState.FinishedOrFailed | Sources/Traffic/Helper/SubscriptionState.swift:25-36 | `isFinished` and `isFailed` never hold together |
| SubscriptionState.CancelledQuery | Sources/Traffic/Helper/SubscriptionState.swift:37-39 | `isCancelled` holds for the cancelled state alone, which embeds no subscription and is not subscribed |
| SubscriptionState.OpenQuery | Sources/Traffic/Helper/Channel.swift:32-34 | `isSubscribedAndNotCompleted` is exactly the open state, so open and completed exclude each other |
| Channels.AcceptSubscription | Sources/Traffic/Helper/Channel.swift:36-42 | a subscription is accepted exactly from pending, and then the state is open with that subscription; otherwise the state is unchanged |
| Channels.AcceptCompletion | Sources/Traffic/Helper/Channel.swift:44-52 | a completion is accepted exactly in the open state and marks it finished or failed with the same subscription; otherwise the state is unchanged |
| Channels.AcceptOnce | Sources/Traffic/Helper/Channel.swift:36-52 | after an accepted subscription a second one is refused; after an accepted completion a second completion and any new subscription are refused |
| Channels.FilterOutcome | Sources/Traffic/Helper/Channel.swift:180-185 | `FilterBase` passes the input through unchanged exactly when the filter returns true, and fails with the filter's error exactly when it throws |
| Channels.Channel.constructor | Sources/Traffic/Helper/Channel.swift:8-14 | a new channel is pending with demand none, not thrown, and has sent and called nothing |
| Channels.Channel.ShouldReceive | Sources/Traffic/Helper/Channel.swift:36-42 | the result and the new event follow `AcceptSubscription`; validity is kept |
| Channels.Channel.ShouldCancel | Sources/Traffic/Helper/Channel.swift:54-59 | a cancel is honoured on any subscribed edge, open or already completed, and refused while pending or once cancelled |
| Channels.Channel.ShouldReceiveCompletion | Sources/Traffic/Helper/Channel.swift:44-52 | the result and the new event follow `AcceptCompletion`; validity is kept |
| Channels.Channel.ShouldRequest | Sources/Traffic/Helper/Channel.swift:61-67 | succeeds exactly while subscribed, and only then adds the request to the stored demand |
| Channels.Channel.Cancel | Sources/Traffic/Helper/Channel.swift:97-107 | with an embedded subscription, cancels it once and becomes cancelled; otherwise nothing changes |
| Channels.Channel.Request | Sources/Traffic/Helper/Channel.swift:108-117 | adds to the demand while subscribed and forwards the request to the embedded subscription, if any |
| Channels.Channel.Deliver | Sources/Traffic/Helper/Channel.swift:139-162 | appends one signal to the downstream's trace and keeps the channel valid when the trace had not terminated and a completion is sent only in a completed or cancelled state |
| Channels.Channel.TransformReceiveSubscription | Sources/Traffic/Helper/Channel.swift:135-140 | the first subscription opens the channel and hands the downstream the channel itself; later ones change nothing |
| Channels.Channel.TransformReceiveCompletion | Sources/Traffic/Helper/Channel.swift:155-163 | only an open channel accepts a completion; `willComplete` runs only when the transform has not thrown; the optional flushed value goes before the forwarded completion |
| Channels.Channel.AnonymousReceiveCompletion | Sources/Traffic/Helper/Channel.swift:235-240 | the completion closure runs exactly when the channel was open; the completion is forwarded once |
| Channels.Channel.Forward | Sources/Traffic/Helper/Channel.swift:142-153 | an emitted value is delivered and the downstream's answer returned; a nil transform delivers nothing and returns none; a throw sets `hasThrown`, fails the downstream once and returns none |
| Signals.RequestAll | Sources/Traffic/Helper/MultiUpstream.swift:91-95 | one request with the same demand per subscription, in order |
| Signals.CancelAll | Sources/Traffic/Helper/MultiUpstream.swift:96-100 | one cancel per subscription, in order |
| Signals.ValuesOfValueSignals | Sources/Traffic/Publisher/_Publishers/Buffer.swift:80-84 | delivering a list of values one by one gives the downstream exactly those values |
| Signals.ValuesAppend | Sources/Traffic/Helper/Channel.swift:142-153 | the values of a concatenated trace are the concatenation of the values |
| Signals.DisciplinedCompletesOnce | Sources/Traffic/Helper/Channel.swift:44-52 | a trace whose completion can only come last holds at most one completion, and exactly one when it ends in one |
| Signals.DisciplinedAppend | Sources/Traffic/Helper/Channel.swift:44-52 | appending to a trace that has not completed keeps that discipline |
| Reduce.FoldSnoc | Sources/Traffic/Publisher/_Publishers/Reduce.swift:74-80 | one more input applies `next` to the accumulator, unless the fold has already thrown |
| Reduce.FoldThrowSticks | Sources/Traffic/Helper/Channel.swift:148-152 | once the closure has thrown, later inputs do not change the outcome |
| Reduce.FoldLeftSnoc | Sources/Traffic/Publisher/_Publishers/Reduce.swift:74-80 | the plain left fold applies `f` to the last input |
| Reduce.FoldIsFoldLeft | Sources/Traffic/Publisher/_Publishers/Reduce.swift:69-80 | with a closure that never throws, the accumulator is the left fold of the inputs from `initial` |
| Reduce.ReduceChannel.constructor | Sources/Traffic/Publisher/_Publishers/Reduce.swift:69-73 | the accumulator starts at `initial` |
| Reduce.ReduceChannel.ReceiveSubscription | Sources/Traffic/Helper/Channel.swift:135-140 | only the first subscription is accepted and passed downstream |
| Reduce.ReduceChannel.ReceiveInput | Sources/Traffic/Publisher/_Publishers/Reduce.swift:74-80 | each input returns none and publishes nothing; the accumulator becomes `next(acc, x)`, or the throw fails the downstream; nothing happens unless open |
| Reduce.ReduceChannel.ReceiveCompletion | Sources/Traffic/Publisher/_Publishers/Reduce.swift:81-83 | on completion the final accumulator is published before the completion, unless the closure threw |
| Scan.RunningFoldsSnoc | Sources/Traffic/Publisher/_Publishers/Scan.swift:71-77 | one more input adds the new accumulator to the published values, unless the closure throws |
| Scan.RunningFoldsAt | Sources/Traffic/Publisher/_Publishers/Scan.swift:71-77 | while the closure has not thrown, the n-th published value is the fold of the first n inputs |
| Scan.RangeSums | Sources/Traffic/Publisher/_Publishers/Scan.swift:71-77 | with `+` from 0, the inputs 0…n-1 publish the triangular numbers k(k+1)/2, one per input (0 1 3 6 10 15 for 0…5) |
| Scan.ScanChannel.constructor | Sources/Traffic/Publisher/_Publishers/Scan.swift:66-70 | the accumulator starts at `initialResult` |
| Scan.ScanChannel.ReceiveSubscription | Sources/Traffic/Helper/Channel.swift:135-140 | only the first subscription is accepted and passed downstream |
| Scan.ScanChannel.ReceiveInput | Sources/Traffic/Publisher/_Publishers/Scan.swift:71-77 | each input publishes the new accumulator and returns the downstream's answer; a throw fails the downstream; the published values remain the running folds |
| Scan.ScanChannel.ReceiveCompletion | Sources/Traffic/Publisher/_Publishers/Scan.swift:78-80 | the completion is forwarded and the accumulator cleared |
| Comparison.MinOrder | Sources/Traffic/Publisher/_Publishers/Comparison.swift:23-25 | `min` is `max` with the ordering's arguments swapped |
| Comparison.MaximumSnoc | Sources/Traffic/Publisher/_Publishers/Comparison.swift:96-108 | one more input replaces the maximum exactly when `areInIncreasingOrder(max, input)` |
| Comparison.MaximumIsGreatest | Sources/Traffic/Publisher/_Publishers/Comparison.swift:96-113 | for a strict order that never throws, the result is absent only for no inputs; it is one of the inputs and no input is above it |
| Comparison.MinimumIsLeast | Sources/Traffic/Publisher/_Publishers/Comparison.swift:23-25 | with the flipped order, the result is an input and no input is below it |
| Comparison.ComparisonChannel.constructor | Sources/Traffic/Publisher/_Publishers/Comparison.swift:88-95 | starts with no maximum |
| Comparison.ComparisonChannel.ReceiveSubscription | Sources/Traffic/Helper/Channel.swift:135-140 | only the first subscription is accepted and passed downstream |
| Comparison.ComparisonChannel.ReceiveInput | Sources/Traffic/Publisher/_Publishers/Comparison.swift:96-108 | the first input becomes the maximum, later ones replace it by the ordering; nothing is published and none is returned; a throw fails the downstream |
| Comparison.ComparisonChannel.ReceiveCompletion | Sources/Traffic/Publisher/_Publishers/Comparison.swift:110-113 | on completion the maximum is published if present, before the completion, and cleared |
| AllSatisfy.AllSoFarSnoc | Sources/Traffic/Publisher/_Publishers/AllSatisfy.swift:71-81 | one more input updates the stored result by one predicate step |
| AllSatisfy.FalseIsFinal | Sources/Traffic/Publisher/_Publishers/AllSatisfy.swift:72-74 | once the result is false the predicate is not evaluated again and the result stays false |
| AllSatisfy.AllSatisfyIff | Sources/Traffic/Publisher/_Publishers/AllSatisfy.swift:75-84 | the published result is true exactly when every input satisfies the predicate, so an empty stream gives true |
| AllSatisfy.AllSatisfyChannel.constructor | Sources/Traffic/Publisher/_Publishers/AllSatisfy.swift:64-70 | starts with no stored result |
| AllSatisfy.AllSatisfyChannel.ReceiveSubscription | Sources/Traffic/Helper/Channel.swift:135-140 | only the first subscription is accepted and passed downstream |
| AllSatisfy.AllSatisfyChannel.ReceiveInput | Sources/Traffic/Publisher/_Publishers/AllSatisfy.swift:71-81 | nothing is published per input and none is returned; the stored result takes one predicate step or the throw fails the downstream |
| AllSatisfy.AllSatisfyChannel.ReceiveCompletion | Sources/Traffic/Publisher/_Publishers/AllSatisfy.swift:82-84 | on completion the stored result, or true if none, is published before the completion |
| RemoveDuplicates.DedupStep | Sources/Traffic/Publisher/_Publishers/RemoveDuplicates.swift:73-93 | the input always becomes the new `previous` |
| RemoveDuplicates.DeduplicatedSnoc | Sources/Traffic/Publisher/_Publishers/RemoveDuplicates.swift:76-90 | the first input is passed; a later one is passed exactly when the predicate says it is not a duplicate of its predecessor |
| RemoveDuplicates.DedupStepExtends | Sources/Traffic/Publisher/_Publishers/RemoveDuplicates.swift:73-93 | the per-input step, run with the last input as `previous`, publishes an input exactly when the deduplicated sequence grows by it |
| RemoveDuplicates.NoAdjacentDuplicates | Sources/Traffic/Publisher/_Publishers/RemoveDuplicates.swift:73-93 | for an equivalence predicate: the first input is always published; the last published value is equivalent to the last input; no two adjacent published values are duplicates |
| RemoveDuplicates.RemoveDuplicatesChannel.constructor | Sources/Traffic/Publisher/_Publishers/RemoveDuplicates.swift:64-72 | starts with no previous element |
| RemoveDuplicates.RemoveDuplicatesChannel.ReceiveSubscription | Sources/Traffic/Helper/Channel.swift:135-140 | only the first subscription is accepted and passed downstream |
| RemoveDuplicates.RemoveDuplicatesChannel.ReceiveInput | Sources/Traffic/Publisher/_Publishers/RemoveDuplicates.swift:73-93 | the input becomes `previous` whether or not it is passed; a passed input is delivered and the answer returned; a duplicate returns none |
| RemoveDuplicates.RemoveDuplicatesChannel.ReceiveCompletion | Sources/Traffic/Publisher/_Publishers/RemoveDuplicates.swift:94-97 | the completion is forwarded and `previous` reset |
| First.FirstSearchSnoc | Sources/Traffic/Publisher/_Publishers/First.swift:84-91 | the search stops at the first match or throw; later inputs do not change it |
| First.FirstSearchIsFirst | Sources/Traffic/Publisher/_Publishers/First.swift:84-91 | a found element is the first input that matches, all earlier ones failing; nothing is found exactly when every input fails |
| First.FirstOfAll | Sources/Traffic/Publisher/_Publishers/First.swift:38 | with the always-true predicate of `first()`, the result is the first input, or nothing for no inputs |
| First.Published | Sources/Traffic/Publisher/_Publishers/First.swift:84-91 | at most one value is published, and exactly the match when there is one |
| First.FirstChannel.constructor | Sources/Traffic/Publisher/_Publishers/First.swift:78-83 | a new channel with no inputs |
| First.FirstChannel.ReceiveSubscription | Sources/Traffic/Helper/Channel.swift:135-140 | only the first subscription is accepted and passed downstream |
| First.FirstChannel.ReceiveInput | Sources/Traffic/Publisher/_Publishers/First.swift:84-91 | the first match is delivered and followed by finished; `filterInput` then returns false so it is not delivered twice; every input returns none |
| First.FirstChannel.Found | Sources/Traffic/Publisher/_Publishers/First.swift:85-88 | the match is delivered and then finished; the channel completes and the match is the only value ever published |
| First.FirstChannel.ReceiveCompletion | Sources/Traffic/Publisher/_Publishers/First.swift:84-91 | an upstream completion reaches the downstream only when nothing matched, so it carries no value |
| Last.LastSearchSnoc | Sources/Traffic/Publisher/_Publishers/Last.swift:81-87 | a matching input replaces the remembered one |
| Last.LastSearchIsLast | Sources/Traffic/Publisher/_Publishers/Last.swift:81-91 | the remembered element is the last input that matches, with none after it matching; nothing is remembered exactly when no input matches |
| Last.LastOfAll | Sources/Traffic/Publisher/_Publishers/Last.swift:34 | with the always-true predicate of `last()`, the result is the last input, or nothing for no inputs |
| Last.LastChannel.constructor | Sources/Traffic/Publisher/_Publishers/Last.swift:74-80 | starts with nothing remembered |
| Last.LastChannel.ReceiveSubscription | Sources/Traffic/Helper/Channel.swift:135-140 | only the first subscription is accepted and passed downstream |
| Last.LastChannel.ReceiveInput | Sources/Traffic/Publisher/_Publishers/Last.swift:81-87 | a match is remembered, nothing is published per input and none is returned; a throw fails the downstream |
| Last.LastChannel.ReceiveCompletion | Sources/Traffic/Publisher/_Publishers/Last.swift:88-91 | on completion the remembered match is published if present, before the completion, and cleared |
| PrefixWhile.TakeWhileIsLongestPrefix | Sources/Traffic/Publisher/_Publishers/PrefixWhile.swift:64-71 | the published values are a prefix of the inputs; every one satisfies the predicate; the input right after them does not, so the prefix is the longest |
| PrefixWhile.TakeWhileSnoc | Sources/Traffic/Publisher/_Publishers/PrefixWhile.swift:64-70 | while every input has passed, the next one is passed exactly when the predicate holds |
| PrefixWhile.PrefixWhileChannel.constructor | Sources/Traffic/Publisher/_Publishers/PrefixWhile.swift:58-63 | a new channel with no inputs |
| PrefixWhile.PrefixWhileChannel.ReceiveSubscription | Sources/Traffic/Helper/Channel.swift:135-140 | only the first subscription is accepted and passed downstream |
| PrefixWhile.PrefixWhileChannel.ReceiveInput | Sources/Traffic/Publisher/_Publishers/PrefixWhile.swift:64-71 | inputs pass while the predicate holds; the first failing one is dropped and finished is sent; later inputs are refused by the completion guard |
| PrefixWhile.PrefixWhileChannel.ReceiveCompletion | Sources/Traffic/Helper/Channel.swift:155-163 | an upstream completion is forwarded only while open |
| ContainsWhere.ContainsExactly | Sources/Traffic/Publisher/_Publishers/ContainsWhere.swift:63-69 | with a predicate that never throws, true is found exactly when some input matches |
| ContainsWhere.NeverThrows | Sources/Traffic/Publisher/_Publishers/ContainsWhere.swift:63-69 | a predicate that never throws never fails the search |
| ContainsWhere.ContainsWhereChannel.constructor | Sources/Traffic/Publisher/_Publishers/ContainsWhere.swift:56-62 | starts with `contains` false |
| ContainsWhere.ContainsWhereChannel.ReceiveSubscription | Sources/Traffic/Helper/Channel.swift:135-140 | only the first subscription is accepted and passed downstream |
| ContainsWhere.ContainsWhereChannel.ReceiveInput | Sources/Traffic/Publisher/_Publishers/ContainsWhere.swift:63-69 | true is published on the first match; after a match the predicate is skipped and nothing more is published; non-matching inputs publish nothing; at most one true ever |
| ContainsWhere.ContainsWhereChannel.ReceiveCompletion | Sources/Traffic/Helper/Channel.swift:155-163 | the completion is forwarded only while open |
| Collect.PrefixesAt | Sources/Traffic/Publisher/_Publishers/Collect.swift:123-127 | the n-th published array is the first n inputs |
| Collect.CollectChannel.constructor | Sources/Traffic/Publisher/_Publishers/Collect.swift:118-119 | the captured array starts empty |
| Collect.CollectChannel.ReceiveSubscription | Sources/Traffic/Publisher/_Publishers/Collect.swift:119-122 | the first subscription is handed downstream as the channel itself |
| Collect.CollectChannel.ReceiveInput | Sources/Traffic/Publisher/_Publishers/Collect.swift:123-127 | each value is appended and the whole accumulated array is published; the answer is returned |
| Collect.CollectChannel.ReceiveCompletion | Sources/Traffic/Publisher/_Publishers/Collect.swift:128-132 | the completion is forwarded once |
| Collect.BatchesPartition | Sources/Traffic/Publisher/_Publishers/Collect.swift:157-163 | the published batches followed by the buffer are exactly the inputs; every batch has `count` elements; the buffer stays below `count` |
| Collect.BatchesSnoc | Sources/Traffic/Publisher/_Publishers/Collect.swift:157-163 | one more input joins the batch being filled; when that batch reaches `count` it is published and the buffer emptied |
| Collect.CollectByCountChannel.constructor | Sources/Traffic/Publisher/_Publishers/Collect.swift:150-152 | the buffer starts empty |
| Collect.CollectByCountChannel.ReceiveSubscription | Sources/Traffic/Publisher/_Publishers/Collect.swift:152-155 | the first subscription is handed downstream as the channel itself |
| Collect.CollectByCountChannel.ReceiveInput | Sources/Traffic/Publisher/_Publishers/Collect.swift:156-166 | a full batch is published and the buffer emptied; while filling, unlimited is returned |
| Collect.CollectByCountChannel.ReceiveCompletion | Sources/Traffic/Publisher/_Publishers/Collect.swift:167-170 | the completion is forwarded once |
| Buffer.Store | Sources/Traffic/Publisher/_Publishers/Buffer.swift:70-79 | below size the input is appended; at size dropNewest discards it and dropOldest discards the oldest element |
| Buffer.BufferedBelowSize | Sources/Traffic/Publisher/_Publishers/Buffer.swift:70-76 | under the drop strategies the buffer length stays below `size` |
| Buffer.BufferedSnoc | Sources/Traffic/Publisher/_Publishers/Buffer.swift:68-85 | one more input is stored into the array and, unless it overflows a `customError` buffer, the whole array is published again |
| Buffer.DropNewestKeepsFirst | Sources/Traffic/Publisher/_Publishers/Buffer.swift:71-74 | under dropNewest the buffer is the first inputs, at most size − 1 of them |
| Buffer.DropOldestKeepsLatest | Sources/Traffic/Publisher/_Publishers/Buffer.swift:75-76 | under dropOldest the buffer is the latest inputs, at most size − 1 of them |
| Buffer.ReplySumProperties | Sources/Traffic/Publisher/_Publishers/Buffer.swift:80-84 | the summed answers are valid, unlimited when any answer is, none for no deliveries |
| Buffer.AsWrittenReceive | Sources/Traffic/Publisher/_Publishers/Buffer.swift:77-79 | the as-written customError path leaves the channel's event open |
| Buffer.CustomErrorDeliversAfterFailure | Sources/Traffic/Publisher/_Publishers/Buffer.swift:68-85 | as written, a customError failure is followed by more values to the same downstream |
| Buffer.BufferChannel.constructor | Sources/Traffic/Publisher/_Publishers/Buffer.swift:53-59 | the captured array starts empty with no prefetch subscription |
| Buffer.BufferChannel.ReceiveSubscription | Sources/Traffic/Publisher/_Publishers/Buffer.swift:59-67 | keepFull keeps the subscription and hands the downstream nothing; byRequest hands it downstream |
| Buffer.BufferChannel.DeliverAll | Sources/Traffic/Publisher/_Publishers/Buffer.swift:80-84 | the whole buffer is delivered in order and the answers summed |
| Buffer.BufferChannel.Complete | Sources/Traffic/Publisher/_Publishers/Buffer.swift:86-90 | an open channel forwards the completion once; a kept prefetch subscription is then cancelled |
| Buffer.BufferChannel.StoreInput | Sources/Traffic/Publisher/_Publishers/Buffer.swift:68-79 | the buffer becomes `Store` of the input and reports overflow under customError |
| Buffer.BufferChannel.ReceiveInput | Sources/Traffic/Publisher/_Publishers/Buffer.swift:68-85 | customError overflow fails the downstream once through the completion guard and returns none; otherwise the strategy is applied, the whole buffer re-published and the answers summed |
| Buffer.BufferChannel.ReceiveCompletion | Sources/Traffic/Publisher/_Publishers/Buffer.swift:86-90 | the completion is forwarded once, and a kept prefetch subscription is cancelled |
| Drop.Swallowed | Sources/Traffic/Publisher/_Publishers/Drop.swift:27-31 | the counter after n inputs is min(n, count), or 0 for a non-positive count |
| Drop.ForwardedSnoc | Sources/Traffic/Publisher/_Publishers/Drop.swift:27-33 | one more input is forwarded exactly when the counter has already reached `count` |
| Drop.ForwardedDropsFirst | Sources/Traffic/Publisher/_Publishers/Drop.swift:24-36 | the forwarded values are exactly the inputs with the first `count` removed |
| Drop.DropChannel.constructor | Sources/Traffic/Publisher/_Publishers/Drop.swift:24-25 | the counter starts at 0 |
| Drop.DropChannel.ReceiveSubscription | Sources/Traffic/Publisher/_Publishers/Drop.swift:24-26 | the first subscription is handed downstream as the channel itself |
| Drop.DropChannel.ReceiveInput | Sources/Traffic/Publisher/_Publishers/Drop.swift:27-33 | the first `count` values are swallowed with none returned; later ones are forwarded and unlimited returned; the counter never exceeds `count` |
| Drop.DropChannel.ReceiveCompletion | Sources/Traffic/Publisher/_Publishers/Drop.swift:34-36 | the completion is forwarded once |
| Output.At | Sources/Traffic/Publisher/_Publishers/Output.swift:7-9 | `output(at: i)` selects exactly the index i |
| Output.Clamp | Sources/Traffic/Publisher/_Publishers/Output.swift:43-48 | a range bound clamped to the stream length |
| Output.SelectedIsSlice | Sources/Traffic/Publisher/_Publishers/Output.swift:43-48 | the forwarded values are the slice of the inputs inside the range |
| Output.OutputChannel.constructor | Sources/Traffic/Publisher/_Publishers/Output.swift:38-40 | the index starts at 0 |
| Output.OutputChannel.ReceiveSubscription | Sources/Traffic/Publisher/_Publishers/Output.swift:40-41 | the first subscription is handed downstream as the channel itself |
| Output.OutputChannel.ReceiveInput | Sources/Traffic/Publisher/_Publishers/Output.swift:42-49 | a value is forwarded exactly when its 0-based index is in the range; the index grows by one per value; out-of-range values return unlimited |
| Output.OutputChannel.ReceiveCompletion | Sources/Traffic/Publisher/_Publishers/Output.swift:50-51 | the completion is forwarded once |
| MultiUpstream.Compact | Sources/Traffic/Helper/MultiUpstream.swift:32-35 | once all slots are filled, the derived subscription covers exactly their subscriptions in order |
| MultiUpstream.AsWrittenSubscribe | Sources/Traffic/Helper/MultiUpstream.swift:26-38 | as written, a filled index is ignored, an index beyond the emptied slot array traps, and the last slot derives the subscription |
| MultiUpstream.RepeatedSubscriptionTraps | Sources/Traffic/Helper/MultiUpstream.swift:26-38 | as written, a second subscription after the derived one indexes the emptied array |
| MultiUpstream.DerivedSubscription.constructor | Sources/Traffic/Helper/MultiUpstream.swift:84-90 | holds the given upstream subscriptions |
| MultiUpstream.DerivedSubscription.Request | Sources/Traffic/Helper/MultiUpstream.swift:91-95 | a request goes to every upstream subscription in order |
| MultiUpstream.DerivedSubscription.Cancel | Sources/Traffic/Helper/MultiUpstream.swift:96-100 | a cancel goes to every upstream subscription in order |
| MultiUpstream.Hub.constructor | Sources/Traffic/Helper/MultiUpstream.swift:11-18 | N empty slots and no downstream subscription |
| MultiUpstream.Hub.ReceiveSingleSubscription | Sources/Traffic/Helper/MultiUpstream.swift:26-39 | a filled index is ignored; the downstream gets one derived subscription, only once all N slots are filled, and later subscriptions are ignored |
| MultiUpstream.Hub.ReceiveSingleCompletion | Sources/Traffic/Helper/MultiUpstream.swift:48-52 | every completion is forwarded |
| MultiUpstream.Hub.Emit | Sources/Traffic/Helper/MultiUpstream.swift:115 | a combined value is delivered |
| MultiUpstream.CompletionsNotGuarded | Sources/Traffic/Helper/MultiUpstream.swift:48-52 | two upstream completions reach the downstream twice |
| MultiUpstream.LastAt | Sources/Traffic/Helper/MultiUpstream.swift:110-116 | a slot is empty exactly when no value arrived at its index |
| MultiUpstream.Latest | Sources/Traffic/Helper/MultiUpstream.swift:110-116 | once every slot is filled, the combined inputs are the latest value per index |
| MultiUpstream.CombinedSnoc | Sources/Traffic/Helper/MultiUpstream.swift:110-116 | a value arriving when every slot is filled publishes the transform of the latest values; before then nothing |
| MultiUpstream.CombinedOnceFull | Sources/Traffic/Helper/MultiUpstream.swift:110-116 | once full, every later value publishes exactly one combination |
| MultiUpstream.Unwrapped | Sources/Traffic/Helper/MultiUpstream.swift:115 | the unwrapped slot values, in slot order |
| MultiUpstream.CombineLatest.constructor | Sources/Traffic/Helper/MultiUpstream.swift:109-110 | N nil slots |
| MultiUpstream.CombineLatest.ReceiveValue | Sources/Traffic/Helper/MultiUpstream.swift:109-117 | the slot is overwritten; once every slot is non-nil the transform is published; none is returned |
| MultiUpstream.Zipped | Sources/Traffic/Helper/MultiUpstream.swift:118-131 | the first n zipped tuples |
| MultiUpstream.Column | Sources/Traffic/Helper/MultiUpstream.swift:125-128 | the k-th element of every queue |
| MultiUpstream.ZippedPrefix | Sources/Traffic/Helper/MultiUpstream.swift:118-131 | the first n zipped outputs depend only on the first n elements of each queue |
| MultiUpstream.Enqueue | Sources/Traffic/Helper/MultiUpstream.swift:121 | the value is appended to its own queue and the others are unchanged |
| MultiUpstream.Zip.constructor | Sources/Traffic/Helper/MultiUpstream.swift:118-120 | N empty queues |
| MultiUpstream.Zip.Store | Sources/Traffic/Helper/MultiUpstream.swift:121 | the value joins the queue of its index |
| MultiUpstream.Zip.Pop | Sources/Traffic/Helper/MultiUpstream.swift:125-129 | the head of every queue is removed and their transform published |
| MultiUpstream.Zip.ReceiveValue | Sources/Traffic/Helper/MultiUpstream.swift:118-131 | the value is queued; when every queue is non-empty the heads are taken and published; the published values are the zipped arrivals; none is returned |
| SubjectLeading.ReceiveValueStep | Sources/Traffic/Subject/_PassthroughSubject.swift:63-66 | delivering a value keeps the subscriber attached and its downstream |
| SubjectLeading.ReceiveCompletionStep | Sources/Traffic/Subject/_PassthroughSubject.swift:67-71 | after the completion the subscription is detached from both subject and downstream |
| SubjectLeading.CancelStep | Sources/Traffic/Subject/_PassthroughSubject.swift:55-58 | cancel detaches subject and downstream and delivers nothing |
| SubjectLeading.SendStep | Sources/Traffic/Subject/_PassthroughSubject.swift:8-14 | a value is delivered only to a subscription with a live subject and demand above none |
| SubjectLeading.StepsPreserveValid | Sources/Traffic/Subject/_PassthroughSubject.swift:55-71 | every step keeps the per-subscription invariant |
| SubjectLeading.DeliveryConsumesOne | Sources/Traffic/Subject/_PassthroughSubject.swift:63-66 | delivery sets the demand to old + returned − 1, saturating and clamped |
| SubjectLeading.DetachedReceivesNothing | Sources/Traffic/Subject/_PassthroughSubject.swift:10 | a cancelled or completed subscription is skipped by later sends and completions |
| PassthroughSubject.PassthroughLeading.constructor | Sources/Traffic/Subject/_PassthroughSubject.swift:46-48 | a new subscription is attached with demand none and has handed its downstream itself |
| PassthroughSubject.PassthroughLeading.Cancel | Sources/Traffic/Subject/_PassthroughSubject.swift:55-58 | cancel clears subject and downstream |
| PassthroughSubject.PassthroughLeading.Request | Sources/Traffic/Subject/_PassthroughSubject.swift:59-62 | the demand grows and the subject is asked to start its upstreams |
| PassthroughSubject.PassthroughLeading.ReceiveValue | Sources/Traffic/Subject/_PassthroughSubject.swift:63-66 | the value is delivered and the demand updated |
| PassthroughSubject.PassthroughLeading.ReceiveCompletion | Sources/Traffic/Subject/_PassthroughSubject.swift:67-71 | the completion is delivered and the subscription detaches |
| PassthroughSubject.PassthroughSubject.constructor | Sources/Traffic/Subject/_PassthroughSubject.swift:1-7 | no subscribers, no completion, no upstreams, publishing not needed |
| PassthroughSubject.PassthroughSubject.Send | Sources/Traffic/Subject/_PassthroughSubject.swift:8-14 | each registered subscription receives the value exactly when eligible |
| PassthroughSubject.PassthroughSubject.SendCompletion | Sources/Traffic/Subject/_PassthroughSubject.swift:15-22 | the completion is latched and sent to every registered subscription, each of which detaches |
| PassthroughSubject.PassthroughSubject.SendSubscription | Sources/Traffic/Subject/_PassthroughSubject.swift:23-30 | an upstream is stored and requested unlimited only if publishing is already needed |
| PassthroughSubject.PassthroughSubject.RequestUpstreamToPublishIfNeeded | Sources/Traffic/Subject/_PassthroughSubject.swift:31-39 | the first call flips the flag and requests unlimited from every upstream; later calls do nothing |
| PassthroughSubject.PassthroughSubject.ReceiveSubscriber | Sources/Traffic/Subject/_PassthroughSubject.swift:40-51 | after completion a subscriber gets the empty subscription and the latched completion; otherwise a new attached subscription |
| PassthroughSubject.UpstreamRequestedOnce | Sources/Traffic/Subject/_PassthroughSubject.swift:23-39 | every upstream is requested unlimited exactly once once publishing is needed, and none before |
| CurrentValueSubject.CurrentValueLeading.constructor | Sources/Traffic/Subject/_CurrentValueSubject.swift:52-54 | a new subscription is attached with demand none |
| CurrentValueSubject.CurrentValueLeading.Cancel | Sources/Traffic/Subject/_CurrentValueSubject.swift:61-64 | cancel clears subject and downstream |
| CurrentValueSubject.CurrentValueLeading.Request | Sources/Traffic/Subject/_CurrentValueSubject.swift:65-70 | the demand grows and, while attached, the current value is delivered at once |
| CurrentValueSubject.CurrentValueLeading.ReceiveValue | Sources/Traffic/Subject/_CurrentValueSubject.swift:71-74 | the demand becomes old + returned − 1 |
| CurrentValueSubject.CurrentValueLeading.ReceiveCompletion | Sources/Traffic/Subject/_CurrentValueSubject.swift:75-79 | the completion is delivered and the subscription detaches |
| CurrentValueSubject.CurrentValueSubject.constructor | Sources/Traffic/Subject/_CurrentValueSubject.swift:21-23 | holds the initial value with no subscribers or upstreams |
| CurrentValueSubject.CurrentValueSubject.Send | Sources/Traffic/Subject/_CurrentValueSubject.swift:24-31 | the value is stored before it is delivered to each eligible subscription, so reading `value` afterwards returns the value just sent |
| CurrentValueSubject.CurrentValueSubject.SetValue | Sources/Traffic/Subject/_CurrentValueSubject.swift:10-17 | setting `value` behaves as `send`: each eligible subscription receives the value, and the getter then returns it |
| CurrentValueSubject.CurrentValueSubject.SendCompletion | Sources/Traffic/Subject/_CurrentValueSubject.swift:32-39 | the completion is latched and sent to every subscription |
| CurrentValueSubject.CurrentValueSubject.SendSubscription | Sources/Traffic/Subject/_CurrentValueSubject.swift:40-45 | every upstream is requested unlimited on arrival |
| CurrentValueSubject.CurrentValueSubject.ReceiveSubscriber | Sources/Traffic/Subject/_CurrentValueSubject.swift:46-57 | after completion a subscriber gets the latched completion at once |
| CurrentValueSubject.RequestNoneStillDelivers | Sources/Traffic/Subject/_CurrentValueSubject.swift:65-70 | even `request(.none)` delivers the current value, with demand clamped at none |
| AnyCancellable.CancelEffects | Sources/Traffic/Any/_AnyCancellable.swift:22-28 | cancelling runs the closure if there is one and cancels the wrapped canceller if there is one, nothing else |
| AnyCancellable.Cancellable.FromClosure | Sources/Traffic/Any/_AnyCancellable.swift:12-14 | wraps a closure, not yet cancelled |
| AnyCancellable.Cancellable.FromCanceller | Sources/Traffic/Any/_AnyCancellable.swift:15-18 | wraps a canceller, not yet cancelled |
| AnyCancellable.Cancellable.Cancel | Sources/Traffic/Any/_AnyCancellable.swift:22-28 | the first cancel runs the effects once and releases the canceller; repeat calls do nothing |
| AnyCancellable.Cancellable.Deinit | Sources/Traffic/Any/_AnyCancellable.swift:19-21 | discarding the handle cancels it |
| AnyCancellable.SeparateTokensDiffer | Sources/Traffic/Any/_AnyCancellable.swift:29-31 | `==` is identity: two tokens wrapping the same canceller differ, and each equals itself |
| SequencePublisher.Drain | Sources/Traffic/Publisher/_Publishers/Sequence.swift:34-47 | never emits more than the remaining elements; finished only after all of them |
| SequencePublisher.UnlimitedDrainsAll | Sources/Traffic/Publisher/_Publishers/Sequence.swift:34-47 | unlimited demand emits every element and finishes |
| SequencePublisher.FiniteDrainCounts | Sources/Traffic/Publisher/_Publishers/Sequence.swift:36-43 | when every value is answered with none, a demand of m emits min(m, left) elements, keeps the rest of m, and finishes only when m exceeds the elements left |
| SequencePublisher.TraceIsDisciplined | Sources/Traffic/Publisher/_Publishers/Sequence.swift:41-43 | the produced trace carries the elements and finished at most once, at the end |
| SequencePublisher.SequenceLeading.constructor | Sources/Traffic/Publisher/_Publishers/Sequence.swift:27-30 | attached with demand none, nothing consumed |
| SequencePublisher.SequenceLeading.Cancel | Sources/Traffic/Publisher/_Publishers/Sequence.swift:31-33 | cancel detaches the downstream |
| SequencePublisher.SequenceLeading.SendNext | Sources/Traffic/Publisher/_Publishers/Sequence.swift:38-40 | an element the iterator yields goes out, and the demand becomes demand − 1 + the downstream's answer |
| SequencePublisher.SequenceLeading.Finish | Sources/Traffic/Publisher/_Publishers/Sequence.swift:41-43 | a dry iterator detaches the downstream and sends finished |
| SequencePublisher.SequenceLeading.Turn | Sources/Traffic/Publisher/_Publishers/Sequence.swift:37-45 | one loop turn keeps the outcome of the whole request equal to the values sent so far plus what `Drain` says the rest of the loop sends |
| SequencePublisher.SequenceLeading.Request | Sources/Traffic/Publisher/_Publishers/Sequence.swift:34-47 | the demand grows, then elements are emitted while demand is positive and attached; after cancel nothing is emitted |
| SequencePublisher.DrainStep | Sources/Traffic/Publisher/_Publishers/Sequence.swift:38-44 | the loop unrolls by one step |
| SequencePublisher.DrainTurn | Sources/Traffic/Publisher/_Publishers/Sequence.swift:37-45 | a turn with the iterator dry ends the request finished; a turn that sends keeps the request's outcome equal to one more value plus what the rest of the loop drains |
| SequencePublisher.Prepend | Sources/Traffic/Publisher/_Publishers/Sequence.swift:188-196 | the prefix comes first, then the elements |
| SequencePublisher.Append | Sources/Traffic/Publisher/_Publishers/Sequence.swift:197-205 | the elements come first, then the suffix |
| SequencePublisher.PrependAppendPublishes | Sources/Traffic/Publisher/_Publishers/Sequence.swift:187-205 | a sequence built by `prepend` and `append` publishes, under unlimited demand, the prepended elements, its own and the appended ones, in that order, then finishes |
| SequencePublisher.CountTrace | Sources/Traffic/Publisher/_Publishers/Sequence.swift:177-185 | `count()` publishes the length once and then finished, keeping the subscriber contract; the failable form publishes nothing before its first request |
| SequencePublisher.CountIsDrainedLength | Sources/Traffic/Publisher/_Publishers/Sequence.swift:177-185 | the length `count()` publishes is the number of values the sequence itself sends before finishing under unlimited demand |
| Record.EmptyRecording | Sources/Traffic/Publisher/_Record.swift:11-14 | the default recording has empty output and finished |
| Record.RecordsInOrder | Sources/Traffic/Publisher/_Record.swift:23-31 | recording values and a completion gives exactly those values in order and that completion |
| Record.ReceivesAppend | Sources/Traffic/Publisher/_Record.swift:23-25 | `receive` appends in order |
| Record.ReceiveAfterCompletion | Sources/Traffic/Publisher/_Record.swift:20-31 | as written, an output received after the completion is still recorded, and a second completion replaces the first, leaving the output alone |
| Record.EncodeRecording | Sources/Traffic/Publisher/_Record.swift:85-91 | encoding writes the output list, then the completion |
| Record.DecodeRecording | Sources/Traffic/Publisher/_Record.swift:77-84 | decoding succeeds exactly on an output list followed by a completion |
| Record.RecordingRoundTrip | Sources/Traffic/Publisher/_Record.swift:77-91 | decode(encode(r)) gives back r |
| Record.Played | Sources/Traffic/Publisher/_Record.swift:63-70 | the loop plays between the start index and the number of outputs |
| Record.NoneAnswersPlayEverything | Sources/Traffic/Publisher/_Record.swift:63-70 | as the demand is decreased by the answers only, answers of none never stop the loop |
| Record.FirstValueAlwaysPlayed | Sources/Traffic/Publisher/_Record.swift:63-70 | the first output is played before the demand is checked |
| Record.RecordLeading.constructor | Sources/Traffic/Publisher/_Record.swift:48-50 | not cancelled; the downstream has received the subscription |
| Record.RecordLeading.Cancel | Sources/Traffic/Publisher/_Record.swift:55-58 | cancel marks the subscription cancelled |
| Record.RecordLeading.Request | Sources/Traffic/Publisher/_Record.swift:59-71 | after cancel nothing happens; otherwise the outputs are played in order and the recorded completion sent |
| FlatMap.BudgetRoundTrip | Sources/Traffic/Publisher/_Publishers/FlatMap.swift:68-73 | admitting an inner publisher takes one unit of a positive budget and refunding gives it back |
| FlatMap.FlatMapChannel.constructor | Sources/Traffic/Publisher/_Publishers/FlatMap.swift:49-53 | pending with no subscriptions and zero counts |
| FlatMap.FlatMapChannel.ReceiveSubscription | Sources/Traffic/Publisher/_Publishers/FlatMap.swift:54-63 | the first subscription counts and is handed downstream; later ones are ignored |
| FlatMap.FlatMapChannel.ReceiveInput | Sources/Traffic/Publisher/_Publishers/FlatMap.swift:64-78 | an admitted input takes one unit of budget and creates an inner subscriber; with no budget it is dropped; none is returned |
| FlatMap.FlatMapChannel.CheckAllCompleted | Sources/Traffic/Publisher/_Publishers/FlatMap.swift:44-48 | finished is sent only when every subscribed publisher has completed |
| FlatMap.FlatMapChannel.ReceiveCompletion | Sources/Traffic/Publisher/_Publishers/FlatMap.swift:79-92 | an outer failure is forwarded at once; an outer finished counts and checks completion |
| FlatMap.FlatMapChannel.Cancel | Sources/Traffic/Publisher/_Publishers/FlatMap.swift:93-102 | every inner subscription and the upstream are cancelled |
| FlatMap.FlatMapChannel.Request | Sources/Traffic/Publisher/_Publishers/FlatMap.swift:103-108 | the demand grows and is forwarded upstream |
| FlatMap.FlatMapChannel.ReceiveNewSubscription | Sources/Traffic/Publisher/_Publishers/FlatMap.swift:109-115 | an inner subscription is stored, counted and requested unlimited |
| FlatMap.FlatMapChannel.ReceiveNewValue | Sources/Traffic/Publisher/_Publishers/FlatMap.swift:116-118 | an inner value is forwarded and the answer returned |
| FlatMap.FlatMapChannel.ReceiveNewCompletion | Sources/Traffic/Publisher/_Publishers/FlatMap.swift:119-130 | an inner failure is forwarded at once; an inner finished refunds one unit and checks completion |
| FlatMap.FlatMapNew.constructor | Sources/Traffic/Publisher/_Publishers/FlatMap.swift:134-135 | a pending inner subscriber of the channel |
| FlatMap.FlatMapNew.ReceiveSubscription | Sources/Traffic/Publisher/_Publishers/FlatMap.swift:136-144 | the first inner subscription is passed to the channel while it is open |
| FlatMap.FlatMapNew.ReceiveValue | Sources/Traffic/Publisher/_Publishers/FlatMap.swift:145-150 | values are forwarded only while this inner subscriber is open |
| FlatMap.FlatMapNew.ReceiveCompletion | Sources/Traffic/Publisher/_Publishers/FlatMap.swift:151-156 | the inner completion is accepted once and passed to the channel |
| SwitchToLatest.SwitchToLatestChannel.constructor | Sources/Traffic/Publisher/_Publishers/SwitchToLatest.swift:33-35 | pending with no latest inner subscription |
| SwitchToLatest.SwitchToLatestChannel.ReceiveSubscription | Sources/Traffic/Publisher/_Publishers/SwitchToLatest.swift:36-41 | the first subscription opens the channel and is handed downstream |
| SwitchToLatest.SwitchToLatestChannel.ReceiveInput | Sources/Traffic/Publisher/_Publishers/SwitchToLatest.swift:42-50 | an outer value returns none and creates a new inner subscriber while open |
| SwitchToLatest.SwitchToLatestChannel.ReceiveCompletion | Sources/Traffic/Publisher/_Publishers/SwitchToLatest.swift:51-56 | an outer completion is forwarded once |
| SwitchToLatest.SwitchToLatestChannel.Cancel | Sources/Traffic/Publisher/_Publishers/SwitchToLatest.swift:57-65 | the outer and the latest inner subscriptions are cancelled and latest is cleared |
| SwitchToLatest.SwitchToLatestChannel.Request | Sources/Traffic/Publisher/_Publishers/SwitchToLatest.swift:66-71 | the demand grows and is forwarded upstream while subscribed |
| SwitchToLatest.SwitchToLatestChannel.ReceiveLatest | Sources/Traffic/Publisher/_Publishers/SwitchToLatest.swift:72-76 | a new inner subscription cancels the previous latest and is requested unlimited |
| SwitchToLatest.SwitchToLatestNew.constructor | Sources/Traffic/Publisher/_Publishers/SwitchToLatest.swift:80-82 | a pending inner subscriber |
| SwitchToLatest.SwitchToLatestNew.ReceiveSubscription | Sources/Traffic/Publisher/_Publishers/SwitchToLatest.swift:83-90 | the first subscription becomes this inner's identity and the channel's latest |
| SwitchToLatest.SwitchToLatestNew.ReceiveValue | Sources/Traffic/Publisher/_Publishers/SwitchToLatest.swift:91-96 | a value is delivered only when this inner is the latest; otherwise none is returned |
| SwitchToLatest.SwitchToLatestNew.ReceiveCompletion | Sources/Traffic/Publisher/_Publishers/SwitchToLatest.swift:97-107 | only the latest inner's failure is forwarded; its finished is ignored |
| SwitchToLatest.SwitchToLatestNew.Request | Sources/Traffic/Publisher/_Publishers/SwitchToLatest.swift:108-116 | the demand grows and is forwarded to the latest inner subscription when this is it |
| Merge.MergeChannel.constructor | Sources/Traffic/Publisher/_Publishers/Merge.swift:359-361 | no subscriptions yet |
| Merge.MergeChannel.ReceiveSubscription | Sources/Traffic/Publisher/_Publishers/Merge.swift:362-377 | the downstream receives exactly one subscription, from the first upstream; later ones are stored and requested unlimited unless cancelled |
| Merge.MergeChannel.ReceiveValue | Sources/Traffic/Publisher/_Publishers/Merge.swift:378-383 | a value is forwarded only while open |
| Merge.MergeChannel.ReceiveCompletion | Sources/Traffic/Publisher/_Publishers/Merge.swift:384-389 | the first completion received is forwarded |
| Merge.MergeChannel.Cancel | Sources/Traffic/Publisher/_Publishers/Merge.swift:393-405 | cancel goes to the first and every stored subscription, then the state is cancelled |
| Merge.MergeChannel.Request | Sources/Traffic/Publisher/_Publishers/Merge.swift:406-417 | a request goes to the first and every stored subscription |
| Merge.CompletesAtMostOnce | Sources/Traffic/Publisher/_Publishers/Merge.swift:384-389 | the downstream receives at most one completion |
| Concatenate.ConcatenateChannel.constructor | Sources/Traffic/Publisher/_Publishers/Concatenate.swift:64-67 | the suffix is held and the prefix not completed |
| Concatenate.ConcatenateChannel.ReceiveSubscription | Sources/Traffic/Publisher/_Publishers/Concatenate.swift:68-79 | the prefix subscription is handed downstream; the suffix subscription is requested the accumulated demand and the downstream is not re-subscribed |
| Concatenate.ConcatenateChannel.ReceiveValue | Sources/Traffic/Publisher/_Publishers/Concatenate.swift:80-87 | values are forwarded while subscribed and the answer returned |
| Concatenate.ConcatenateChannel.ReceiveCompletion | Sources/Traffic/Publisher/_Publishers/Concatenate.swift:88-106 | a prefix finished resets to pending and subscribes the suffix once; a prefix failure is forwarded; the suffix's completion is forwarded once |
| Concatenate.ConcatenateChannel.Cancel | Sources/Traffic/Helper/Channel.swift:97-107 | cancel goes to the current upstream |
| Concatenate.ConcatenateChannel.Request | Sources/Traffic/Helper/Channel.swift:108-117 | a request is accumulated and forwarded while subscribed |
| Sink.SinkSubscriber.constructor | Sources/Traffic/Subscriber/_Subscribers.Sink.swift:26-40 | pending with nothing received |
| Sink.SinkSubscriber.ReceiveSubscription | Sources/Traffic/Subscriber/_Subscribers.Sink.swift:41-47 | only the first subscription is accepted and it is requested unlimited |
| Sink.SinkSubscriber.ReceiveValue | Sources/Traffic/Subscriber/_Subscribers.Sink.swift:48-51 | the value closure runs and none is returned |
| Sink.SinkSubscriber.ReceiveCompletion | Sources/Traffic/Subscriber/_Subscribers.Sink.swift:52-58 | a completion with no subscription is ignored; otherwise it is recorded and the state completes |
| Sink.SinkSubscriber.Cancel | Sources/Traffic/Subscriber/_Subscribers.Sink.swift:59-65 | cancel goes to the subscription and the state becomes cancelled |

## Left out

- Locks (`Lock.swift`) and reentrancy: every locked block is one atomic step, because the model is single-threaded.
- Identities: `CombineIdentifier`, `UUID` and object identity become natural numbers; hashing is not modelled.
- Subscriber calls: the downstream's answers are parameters, and the effects of user closures are recorded only as traces.
- Weak references: the channels' weak back-references are plain references.
- `FlatMapNew` and `SwitchToLatestNew` inherit `Channel.Base.cancel`. Neither object is ever handed out as a subscription: `receiveNew` and `receiveLatest` pass on the inner subscription instead. That cancel is therefore unreachable and is not modelled. The `isCancelled` and `demand` fields of the leading subscriptions are modelled inside `SequenceLeading`, `RecordLeading` and the subjects' leading subscriptions.
- Output.At: `output(at: Int.max)` traps in the source when `index...index` is converted to a half-open range; the model states this trap as the precondition `index < INT_MAX` instead of modelling the trap.
- Output.OutputChannel.ReceiveInput: the captured `index += 1` traps once the index reaches `Int.max`; `OutputChannel.index` is an unbounded integer, so that overflow is not modelled.
- SubscriberEvent's `==` compares subscription identities and completion marks. Subscriptions are identified by number here, so this is Dafny's own equality on the datatype and needs no member of its own.
- The `attach` bound `index < count` (a trap in the source) is a precondition of `MultiUpstream.Hub.ReceiveSingleSubscription`.
- Not modelled: `store(in:)`, the `description`/`customMirror` members, and the `Sequence` extensions other than `count`, `prepend` and `append`, which are thin wrappers outside the subscription protocol.
- In concatenate, the suffix's subscribe happens inside the prefix completion in the source; the model takes it as a later, separate `ReceiveSubscription` call.

### Where the code differs from its documentation (the model follows the code)

- Demand: `unlimited * 0` is unlimited, and `*` places no sign check on its right operand.
- Merge forwards the first completion it receives, from any upstream.
- Collect publishes the growing array on every value, not once at the end.
- collect-by-count does not flush a partial batch on completion.
- output(in:) does not finish once the range is past.
- contains(where:) never publishes false.
- The current-value subject delivers the current value on every request, even `request(.none)`.
- Record decreases its demand by the downstream's answer only (not by one per value), always plays the first value, and sends the completion after the loop breaks.
- flatMap: an inner failure does not cancel the other inner subscriptions, and inner values are forwarded whatever the outer state.
- switchToLatest forwards the outer finished at once and ignores an inner finished.
- A prefix failure in concatenate leaves the event open: later prefix values still pass, and a later prefix finished would still subscribe the suffix.
- A recording accepts outputs after its completion and a second completion, although its doc comments promise a trap for both (`Record.ReceiveAfterCompletion`).
- Sink runs its value closure without a guard; its completion is guarded only by having a subscription.
- MultiUpstream forwards every completion unguarded (`MultiUpstream.CompletionsNotGuarded`).

## Findings

| source | as written | input that shows it | evidently intended | confidence | as-written member | corrected member |
|---|---|---|---|---|---|---|
| Sources/Traffic/Publisher/_Publishers/Buffer.swift:77-79 | on overflow under `customError` the failure is sent straight to the downstream, bypassing the channel's completion guard, so the event stays open | size 1, `customError(e)`: input `a` fails the downstream, then input `b` still delivers `a` and `b` | the failure completes the channel through its guard, so nothing follows it | not executed | Buffer.CustomErrorDeliversAfterFailure | Buffer.BufferChannel.ReceiveInput |
| Sources/Traffic/Helper/MultiUpstream.swift:26-38 | after the derived subscription is sent, the slot array is emptied, and a repeated subscription at any index indexes the empty array | one upstream: a subscription at index 0 derives, a second subscription at index 0 traps | a repeated subscription is ignored like one at a filled index | not executed | MultiUpstream.RepeatedSubscriptionTraps | MultiUpstream.Hub.ReceiveSingleSubscription |
