# Momento Go SDK: verified model of its concurrent core

A Dafny model of the parts of the Momento Go client that carry state across goroutines, and proofs about them. Check it with
`dafny verify dfyconfig.toml`.

**Topic subscriptions.** `StreamMachine` is one subscription as a machine of atomic steps, from the call to Subscribe to
the last call to Event; all choices of the network and of other goroutines are in the actions, so a list of actions is an
execution. `StreamLifetime` says when a subscription ends and when the stream counter is exact, `Resume` what it asks the
server for and what arrives, `ClientLedger`, `RoundRobin` and `AdmissionRace` put any number of subscriptions on one client
with its shared counter, limit check and channels, and `TopicsConfig` computes the limit from the configuration.

The code itself is in three modules of classes whose methods update the same fields: `PubSubClient` (topicSubscribe, the limit
check, the channels), `TopicSubscription` (Event, Item, attemptReconnect, Close) and `TopicClient` (Subscribe). The outside is a
script of turns, one for every place where the code looks at the network, the counter or a context; a call that uses up the
script is still running, so a script stands for any prefix of an execution. `Scripts` says, as functions of the script, the
counter and the limit, how each call ends and in which state, and proves what follows from that; the methods are proved to end
exactly so. `Histories` ties the classes to the machine: each subscription keeps a ghost history, and its invariant says that a
run of the machine leads to it and to the fields, that every cancel context made is done exactly when the machine has it
cancelled, that the network has seen the same requests, and that each step which depends on the outside took one turn and fits
it. What `StreamMachine`, `StreamLifetime` and `Resume` prove of a run therefore holds of every subscription object.

What `ClientLedger` and `AdmissionRace` prove about several subscriptions sharing a counter holds of the interleaved machine
only. The classes execute one call at a time, with the other goroutines in the script as arbitrary changes of the counter; they
are proved to make the same check against the same limit and to change the counter by the same amounts, but no theorem
assembles the runs of several objects into one run of `ClientLedger`.

**Batches.** `WorkerPool` is the goroutine pool shared in form by BatchDelete, BatchGet and BatchSet: a producer, workers,
two bounded channels, nil sentinels, a wait group and a drain. `WorkerPoolProgress` proves when it finishes, `Batch` runs it
under an arbitrary scheduler and sorts the replies into maps, and `BatchSetIfNotExists` builds on that with a cache that the
sets change. `ShardedTopic` is the fan-in of the sharded topic example.

**Retry and dictionaries.** `Retry` holds both interceptors and their strategies, `Dictionary` the trip of a map through
DictionarySetFields and DictionaryFetch.

Where the code does not do what its documentation or a reader would expect, the model follows the code, and a lemma gives
the exact condition:

- A nil key is taken for the exit sentinel, and a negative concurrency starts no worker: the batch then never returns
  (`CompletesExactly`). A byte-slice key panics when it is stored in a result map (`BatchCall`, `BatchDelete`), and
  BatchSetIfNotExists panics on an empty list and ignores the caller's concurrency and timeout.
- The limit check and the increment are two steps, so the counter can exceed the limit by the number of racing goroutines
  less one, and it does (`AdmissionBound`, `AdmissionBoundIsReached`).
- Subscribe leaves its stream counted when the first message is missing or not a heartbeat (`SubscribeLedger`); its retries
  after a resource-exhausted error therefore use up the client's capacity and end in a limit error
  (`RetriesUseUpCapacity`). It does not remember its own resume position (`Subscribe`, `ReconnectsAskForLastItem`).
- Event lowers the counter every time it returns an error, although after an error of the caller's own context the stream
  is still open and Event can be called again (`RepeatedErrorsUndercount`, `OpenButUncounted`).
- Close during a reconnect cancels only the lost stream (`CloseStopsUnlessReconnecting`).
- The 32-bit limit wraps for more than 4294967200 configured subscriptions (`CapacityCoversConfiguration`).

## Model

| member | source | states |
|---|---|---|
| WorkerPool.Partition | batchutils/batch_delete.go:83-115 | In every state of every interleaving each key and each exit nil is in exactly one place: unsent, on the job channel, with a worker, on the result channel, or drained; and the pool never has more than `width` workers, hence calls in flight. |
| WorkerPool.StepInv | batchutils/batch_get.go:27-54 | Every step of a worker or of the main goroutine keeps the FIFO order of the job channel, the partition, and the log of client calls. |
| WorkerPool.ResultsInOrder | batchutils/batch_get.go:134-143 | The main goroutine receives the results in the order the workers reported them. |
| WorkerPoolProgress.ExitedEqualsNils | batchutils/batch_delete.go:21-25 | The workers that have exited are exactly as many as the nils received. |
| WorkerPoolProgress.NilsComeLast | batchutils/batch_delete.go:95-104 | Without nil keys, no worker exits before every key has been received. |
| WorkerPoolProgress.ReportNeverBlocks | batchutils/batch_get.go:107-107 | A worker with a result always finds a free slot: the result channel never exceeds one slot per key. |
| WorkerPoolProgress.DrainNeverBlocks | batchutils/batch_delete.go:109-117 | After the wait group, exactly the results still to be drained are on the result channel. |
| WorkerPoolProgress.SomeStep | batchutils/batch_delete.go:95-109 | Deadlock freedom: without nil keys and with a worker, in every reachable state short of the end some goroutine can move, for any channel capacity of at least one. |
| WorkerPoolProgress.MeasureDrops | batchutils/batch_get.go:118-136 | Every step of every goroutine lowers a non-negative measure. |
| WorkerPoolProgress.RunsAreShort | batchutils/batch_get.go:118-136 | No schedule of a batch of n keys on w workers takes more than 5(n + w) + 1 steps. |
| WorkerPoolProgress.CompletesExactly | batchutils/batch_get.go:28-31 | Every schedule followed to its end has returned to the caller if no key is nil and there is a worker whenever there is a key; otherwise no schedule ever returns. |
| WorkerPoolProgress.NilKeyNeverReturns | batchutils/batch_delete.go:22-25 | Concrete failure: under no schedule does a batch of one nil key return. |
| WorkerPoolProgress.FinalAccount | batchutils/batch_set.go:140-153 | When the call returns, one result per key has been drained and each is the reply of a distinct client call. |
| Batch.RunPool | batchutils/batch_get.go:109-132 | Under any scheduler the pool reaches a state where nothing can move, which is the returning state exactly under the condition above. |
| Batch.Collect | batchutils/batch_get.go:134-143 | The drain loop leaves the maps of the log, and panics exactly when it meets a byte-slice key. |
| Batch.LastReplyWins | batchutils/batch_get.go:134-143 | A success that no later success of the same key follows is the key's entry, and likewise an error: a later reply overwrites an earlier one. |
| Batch.SuccessesAreLast | batchutils/batch_set.go:143-158 | The pointer returned is nil exactly without a success, and otherwise holds each key's last success among the drained replies. |
| Batch.CollectFailures | batchutils/batch_delete.go:111-117 | The same for errors only; it panics exactly on a failed byte-slice key. |
| Batch.EntriesAreReplies | batchutils/batch_set.go:143-153 | Each map entry is the reply to some occurrence of its key, and every key with such a reply has an entry. |
| Batch.ScheduleIndependent | batchutils/batch_get.go:134-159 | If the client has one reply per key (as when no key comes twice), the drained replies of any schedule give the maps of a plain loop: each job's reply is its key's entry in one of them; they are disjoint and cover all keys. |
| Batch.Request.ClampConcurrency | batchutils/batch_set.go:109-114 | Zero becomes the default of five, never more workers than jobs, and the request object keeps the new setting. |
| Batch.BatchCall | batchutils/batch_get.go:96-160 | BatchGet, and BatchSet with items for keys, under any scheduler: returns exactly when no key is nil or a byte slice and the concurrency is not negative; then there is one reply per job, and the pointers hold each key's last success and last error among them, nil when there is none; with one reply per key they are those of the plain loop. |
| Batch.BatchDelete | batchutils/batch_delete.go:73-123 | Panics on a negative concurrency; otherwise, without nil keys, returns each key's last failure among one delete per job, nil when there is none and the same for every schedule, unless a byte-slice key failed. |
| BatchSetIfNotExists.BatchSetIfNotExists | batchutils/batch_set_if_not_exists.go:80-119 | NotStored exactly when the check answers and some item's key is in the cache, which is then unchanged; a failed check gives its error for exactly the items' own keys, and panics exactly if one is a byte slice; Stored exactly when every set succeeded, and only if none of the items' keys was in the cache; then each item key holds the value of one of its items; errors name exactly the keys with a failed set, and then exactly the keys some set took effect on are written; no other key is touched. |
| BatchSetIfNotExists.KeysOfItems | batchutils/batch_set_if_not_exists.go:45-51 | The keys checked are the items' own, in order. |
| BatchSetIfNotExists.AllStored | batchutils/batch_set_if_not_exists.go:108-118 | Whatever order the sets were carried out in, each item key ends with the value of one of its items and nothing else changes. |
| BatchSetIfNotExists.FailureDomain | batchutils/batch_set_if_not_exists.go:114-116 | A key is in the error map if and only if some set for it failed. |
| BatchSetIfNotExists.CreateErrorMapping | batchutils/batch_set_if_not_exists.go:71-77 | Maps exactly the given keys to the error, panicking exactly when one is a byte slice. |
| StreamMachine.RunWellFormed | momento/topic_subscription.go:93-196 | What every reachable state of a subscription keeps, including that since Subscribe all contexts but one are cancelled. |
| StreamMachine.AtMostOneLiveStream | momento/topic_subscription.go:131-136 | In every reachable state at most one stream opened since Subscribe has a live context: the installed one, or the newest while reconnecting. |
| StreamMachine.Ledger | momento/pubsub_client.go:109-154 | Any run adds to the counter exactly one per stream held or leaked, less one per error returned. |
| StreamMachine.EventLedger | momento/topic_subscription.go:93-170 | One Event call changes the counter by zero if it returns an event and by minus one if it returns an error, whatever disconnects and failed reconnects it contains. |
| StreamLifetime.CloseStopsUnlessReconnecting | momento/topic_subscription.go:198-203 | After Close the subscription never waits for a message again if and only if it was not reconnecting. |
| StreamLifetime.RepeatedErrorsUndercount | momento/topic_subscription.go:97-107 | With no leak, an idle subscription accounts for a non-negative count if and only if at most one Event call has failed; another failing call takes it below zero. |
| StreamLifetime.OpenButUncounted | momento/topic_subscription.go:98-102 | An Event call that fails on the caller's context leaves the stream open and usable but uncounted. |
| StreamLifetime.SubscribeLedger | momento/topic_client.go:103-132 | Subscribe leaves one count too many for each stream whose first message was not a heartbeat, and is exact only if there was none. |
| ClientLedger.GlobalLedger | momento/pubsub_client.go:109-154 | In every state of every interleaving the shared counter is the sum of what the subscriptions account for. |
| ClientLedger.CarefulLedger | momento/pubsub_client.go:109-154 | If Event is never called again after it returned an error, the counter is the number of subscriptions with a stream open or asked for, not counting those between two streams, plus the streams Subscribe gave up; it is never negative. |
| ClientLedger.AdmissionBound | momento/pubsub_client.go:98-123 | With at most T goroutines inside topicSubscribe the counter never exceeds 100 per channel plus T - 1, and with one at a time never the limit. |
| AdmissionRace.AdmissionBoundIsReached | momento/pubsub_client.go:98-123 | For every number of channels and every T some run with at most T goroutines inside reaches the limit plus T - 1. |
| ClientLedger.ChannelsFillEvenly | momento/pubsub_client.go:91-107 | Opening one at a time with no failure, no channel ever has more than 100 streams, and when the check first rejects every channel has exactly 100 unless the 32-bit limit has wrapped, and then some channel has less. |
| RoundRobin.FairShare | momento/pubsub_client.go:79-89 | After k ticket draws each of n channels has been used k/n times, rounded down or up. |
| RoundRobin.DrawsAreFair | momento/pubsub_client.go:79-83 | In any list of draws in rotation each channel occurs as often as that. |
| TopicsConfig.CapacityCoversConfiguration | config/topics_config.go:104-113 | The limit of a client configured for m subscriptions is at least m, by less than 100, exactly for m up to 4294967200; above it is 4, and for zero the default 400. |
| Resume.ReconnectsAskForLastItem | momento/topic_subscription.go:172-183 | Every reconnect asks for exactly the position of the last item received, or for the origin if there was none. |
| Resume.WholeRunInOrder | momento/topic_subscription.go:148-150 | If the server sends each stream in order from the requested position on, items arrive in non-decreasing (page, number) order over all reconnects. |
| Resume.GapFreeResume | internal/protos/cachepubsub.pb.go:102-107 | If each stream replays consecutively from the requested number, then after a first item numbered at least 2 the numbers received over all streams go up one at a time or repeat. |
| Resume.RepeatsOnlyAfterReconnect | internal/protos/cachepubsub.pb.go:291-297 | A number is repeated exactly as the first item after a reconnect; any other item is the successor of the one before. |
| Resume.NothingMissing | internal/protos/cachepubsub.pb.go:102-107 | Every number between the first and the last received has been received. |
| PubSubClient.PubSubClient.GetNextStreamTopicManager | momento/pubsub_client.go:79-83 | Draws the next ticket, wrapping at 2^64, and keeps the channels drawn in rotation as long as it has not wrapped; without channels the division panics. |
| PubSubClient.PubSubClient.TopicSubscribe | momento/pubsub_client.go:109-154 | Rejects exactly when the counter it loads is at the limit; otherwise draws one ticket and asks for the given position; returns a stream exactly if the request is accepted; leaves a stream counted only if it returns it or is still waiting; the context of a refused request is cancelled and no other. |
| ClientLedger.ClosedClientAdmitsNobody | momento/pubsub_client.go:197-202 | After the client is closed, and if Event is never called again after an error, no goroutine passes the check or opens a stream in any continuation. |
| TopicSubscription.TopicSubscription.Event | momento/topic_subscription.go:93-170 | Ends as the script says, in the state it says. It returns the last message received, saying exactly what the message says, with the counter unchanged, and passes over only messages of unknown kind or payload; or it returns an error with the counter one lower, and that only if the caller's context is done at its last look, or its stream's, which somebody closed; a context done at the start always gives an error. While it waits the script is used up. Its steps are a run of the machine, each taking one turn it fits. |
| Scripts.EventReasons | momento/topic_subscription.go:97-134 | Nothing the network does ends an Event call except a message: every error is owed to a done context, and a client without channels is the only cause of a panic. |
| Scripts.EventStays | momento/topic_subscription.go:93-170 | Whatever happens after an Event call has ended makes no difference to how it ended. |
| TopicSubscription.TopicSubscription.OneLiveContext | momento/topic_subscription.go:131-136 | Of the cancel contexts made for a subscription since Subscribe returned, at most one is not done: the installed one, or the newest while a stream is being fetched. |
| Histories.HistoryOfRun | momento/topic_subscription.go:93-196 | The history a subscription keeps is that of a run of the machine: its state, what it added to the counter, its requests and its messages. |
| TopicSubscription.TopicSubscription.Deliver | momento/topic_subscription.go:144-168 | A text or binary item is returned with its payload, publisher, number and page, a discontinuity with its three numbers in order, a heartbeat as a heartbeat; only an unknown message or an item with an unknown payload is passed over. Only an item moves the last known position. |
| TopicSubscription.TopicSubscription.ResumesAtLastItem | momento/topic_subscription.go:148-150 | The position a reconnect asks for is that of the last item received, whatever else came since, or zero if there was none. |
| TopicSubscription.TopicSubscription.LooksAreOwed | momento/topic_subscription.go:97-134 | Each step that depends on the outside took one turn: an error needs the context to be done, going on needs the caller's context not to be, a stream needs an accepted request, a message needs to be the one delivered. |
| TopicSubscription.TopicSubscription.SelectDone | momento/topic_subscription.go:97-128 | Goes on exactly if neither context is done; otherwise ends the call with the error of one that is, and lowers the counter by one. |
| TopicSubscription.TopicSubscription.AttemptReconnect | momento/topic_subscription.go:172-196 | Asks only for the last known position, and ends with the first request granted: then a fresh stream with a live context is installed, and everything counted on failed attempts is uncounted. Without a stream it is still waiting at the end of the script, or the client has no channels. |
| TopicSubscription.TopicSubscription.Item | momento/topic_subscription.go:75-91 | Ends as the script says. The value is the payload of the last message received, an item, whose position is then the last known one; no message passed over was an item with a payload. So over any calls it hands out exactly the values of the items delivered, in order; errors of Event are passed on, with the same reasons. |
| TopicSubscription.TopicSubscription.Close | momento/topic_subscription.go:201-203 | Cancels the installed stream and leaves the counter alone. |
| TopicClient.Subscribe | momento/topic_client.go:62-144 | Succeeds exactly if some round finds the counter below the limit, gets its stream and hears a heartbeat, after rounds that got a stream and heard that resources are exhausted; fails exactly if after such rounds the check fails, the request is refused, or anything else comes first; waits only at the end of the script. Opens every stream at the caller's position; success gives a valid idle subscription with a live stream and no known position; the counter keeps one for the stream and one for each stream given up. |
| Scripts.SubscribeEndsExactly | momento/topic_client.go:77-132 | Those conditions, as statements about the script, for any number of rounds; and a panic exactly without channels and with a negative counter. |
| Scripts.RetriesUseUpCapacity | momento/topic_client.go:103-114 | If every stream opens and reports exhausted resources, Subscribe retries exactly as often as there were places left under the limit, and then fails on the limit check. |
| ShardedTopic.Subscribe | examples/topic-sharded-example/sharded_topic_client.go:34-56 | Returns all shards open exactly if every single Subscribe succeeds; otherwise closes every shard it opened. |
| ShardedTopic.CloseAll | examples/topic-sharded-example/sharded_topic_client.go:43-47 | Closes every subscription that was opened. |
| ShardedTopic.FanInConserves | examples/topic-sharded-example/sharded_topic_client.go:182-212 | In every interleaving, all that a shard's goroutine has read in the run is what Item returned for that shard, then its entries in the channel, then the one in hand, in order; the channel holds at most 1000. |
| Retry.UnaryRetry | internal/interceptor/retry_interceptor.go:13-44 | Makes one attempt without retries, and with FixedCount(n) at most n + 1, or one if n is negative; it makes fewer only if an attempt succeeds or its error may not be retried, goes on only after an error that may, and returns the error of the last attempt. |
| Retry.AttemptsExactly | internal/retry/retry.go:65-95 | That number of attempts, from the strategy's decisions alone. |
| Retry.StreamRetry | internal/interceptor/stream_retry_interceptor.go:14-45 | Stops at the same attempt, by the same count, and returns the stream of a successful last one. |
| Retry.LastAttemptIsUnique | internal/retry/retry.go:65-95 | That attempt is unique and within the budget, so both interceptors agree. |
| Dictionary.ElementsFromMap | momento/value.go:59-82 | Lists every entry of the map exactly once, field as a string and value as the kind asked for, whatever order the map is walked in. |
| Dictionary.InitGrpcRequest | momento/dictionary_set_fields.go:39-73 | Fails exactly on a nil value or an empty or nil field; otherwise one pair per element, in order. |
| Dictionary.InterpretFound | momento/dictionary_fetch.go:49-56 | The hit's map has exactly the fields returned, each with the value of its last pair. |
| Dictionary.ValueMapStringString | responses/dictionary_fetch.go:23-31 | The string view equals the byte view. |
| Dictionary.RoundTrip | momento/dictionary_fetch.go:49-56 | In whatever orders the pairs are sent and returned, a fetch gives the dictionary with the map written over it; from an empty dictionary, the map. |
| Dictionary.SetAndFetch | responses/dictionary_fetch.go:23-36 | The trip through the code succeeds exactly without an empty field, and both views are that dictionary. |

## Left out

- gRPC connections, dial options, TLS, keep-alive, credentials, logging and environment variables; opening the managers in newPubSubClient, and the warning near the limit.
- Time: sleeps, back-off durations, request timeouts and deadlines. A context being done is the environment's choice at every point where the code looks, and each batch client call is assumed to return eventually.
- Liveness of attemptReconnect, which retries for ever: it ends with the first request that is granted, and nothing says that one is.
- Closing the client while one of its calls is running: the channels stay during a call of the classes; `ClientLedger` has that interleaving.
- Two adjacent accesses are one step where no other goroutine can tell them apart: the increment of the stream counter and the ticket draw, and the assignments that install a new stream. Concurrent Event calls on one subscription, a data race in the code, are not modelled.
- TopicSubscription.TopicSubscription.AttemptReconnect: a Close during a reconnect reaches the stream already lost, at any point before the new one is installed; cancellation of a parent context of a stream that is still being opened is not modelled; Close and parent cancellation act on the installed stream.
- WorkerPool: one model with a parameter for the job channel's capacity stands for the three copies in the code; `Batch.BatchCall` is BatchGet with keys as jobs and BatchSet with items as jobs.
- Batch: Go interface values other than strings and byte slices as keys.
- Names: validation of cache and topic names, which returns before anything else happens.
- Topic items whose value message is absent altogether, which make Event panic.
- Publishing, whose unary channels are drawn in the same round-robin way.
- The eligibility table for retries: it is an arbitrary predicate.
- Dictionary misses and TTLs; the single-request builders and response accessors of all other operations.
- Event of the sharded subscription, which reads a channel that is never made, and Close waiting for its goroutines.
- Floating point in the channel count: the ceiling is taken on integers, which is exact for 32-bit inputs.
