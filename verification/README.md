# ETOS API: a verified model of its protocols

The ETOS API serves the events of a test run as a resumable stream, publishes messages with broker
confirms, and hands out, starts, stops and takes back test executors. This project models the parts
of it that are hard to get right and proves what they promise, for every input, every interleaving
and every run.

| files | what they model |
|---|---|
| `Wire.dfy`, `Framing.dfy` | the wire format of server-sent events and the client parser that undoes it (sections 9.2.5 and 9.2.6 of the WHATWG HTML Living Standard) |
| `Stream.dfy`, `FileStream.dfy`, `RabbitMQStream.dfy` | the event log, the contract of a stream, and its two implementations |
| `Resume.dfy`, `Subscription.dfy`, `SubscriptionProofs.dfy` | one connection of the v2alpha stream as a state machine of five goroutines, and what its runs keep |
| `Outcomes.dfy` | which errors and pings a connection sends, and when it is silent |
| `Shutdown.dfy` | that every cancelled connection can end |
| `Session.dfy`, `Progress.dfy` | a client over any number of connections, each cut at any byte: exactly-once delivery, and that nothing is withheld for ever |
| `Retention.dfy` | when retention makes a connection start too late unnoticed, and what that loses |
| `Handler.dfy` | the subscriber's loop and the filter clean-up |
| `Publisher.dfy` | the AMQP publisher with confirms, for any number of goroutines |
| `Etcd.dfy`, `Provider.dfy`, `StoredBlobs.dfy`, `Checkouts.dfy`, `Stop.dfy`, `ExecutorStart.dfy` | the life cycle of an execution space over the key/value store |
| `Cache.dfy` | the double-checked Kubernetes cache and the selection of jobs |
| `ImageNames.dfy`, `Names.dfy` | container image names and Kubernetes names |
| `Options.dfy`, `Sequences.dfy` | shared helpers |

`dafny verify dfyconfig.toml` checks the whole project.

## How to read it

The main results are `Session.ExactlyOnce`, `Session.AlwaysExactly`, `CatchingUp.CatchesUp`,
`Midway.NothingWithheld`, `SubscriptionProofs.IdSoundness`, `Retention.UnnoticedExactly`, `SubscriberLoop.MachineRunsLoop`,
`Wire.TruncatedRoundTrip`, `Framing.FramingExact`, `Shutdown.ShutdownSchedule`,
`Publishing.NilMeansAcked`, `Publishing.ConfirmationsBounded`, `Publishing.DeadChannelStays`, `Outcomes.RetryExactly`, `Provider.CheckoutRecord`,
`RabbitMQStreams.RabbitMQStream.Consume`, `Checkouts.DoneIsComplete`,
`StopHandler.StopAgain`, `KubernetesCache.StoresAreSpaced`, `ImageNames.ParsePrintExactly` and
`Names.ConvertIsRuns`.

What runs concurrently is a state machine: a state, a predicate `Enabled`, a function `Do`, and
runs as sequences of actions. What updates its own fields is a class. The methods of `FileStream`,
`RabbitMQStream` and `Cache` carry a ghost run of the machine that belongs to them and extend it as
they go, those of `Publisher` a reachable state of its machine, and a checkout is shown to be a run of
its own (`Checkouts.CheckoutInRun`), so everything proved about the runs holds of the objects.

## Assumptions

- A log is append-only. A run is described against its complete history, of which a growing prefix
  is available. In a connection the first retained offset never decreases, and retention does not
  overtake a consumer that is attached. Where one connection of a client follows another, results
  hold for any first offset of each, so in particular for offsets that never decrease.
- A goroutine blocks in a Go `select` only while no case is ready, and a context that becomes done
  releases the goroutines blocked on it through their Done case. A cancelled parent context is
  propagated to its children later, in a step of its own. Under these rules nothing passes a
  channel any more once the subscription context is done, which is a theorem
  (`SubscriptionProofs.NothingAfterDone`). So a position that is overstated after cancellation
  (`RabbitMQStreams.OverstatedPosition`) is never sent as an ID.
- Nothing is assumed about the answer of the second retention query. A connection is `unchecked` if
  that query returned no offset, because it failed or because it found the stream emptied by
  retention; the code goes on in both cases. `Retention.UnnoticedExactly` says exactly when a
  consumer then starts too late, `Retention.GapReached` gives the runs, and
  `Session.ExactlyLossless` says exactly when a client loses events by it.
- JSON decoding, schema validation and the filter are fixed for a subscription. They are the
  `Slot` of a message: filtered out, malformed, or deliverable with a name and data.
- A client keeps the last event ID it received and presents it when it reconnects. Its parser starts
  each response with that ID in the last event ID buffer. This departs from the letter of section
  9.2.6 of the standard, which starts with an empty buffer; by the letter, a ping without an ID makes
  the client forget where to resume, and `Wire.EmptyBufferForgets` says exactly when.
  A client tells the protocol's own events by the names "ping" and "error".
  Data is on one line, since it is the output of a JSON encoder; `Framing.FramingExact` shows that
  the wire format depends on that.
- A reconnect of the publisher is one step. The broker confirms the messages of a channel in order.
- UUIDs are fresh. All stored values share one key space, because `Open` drops the tree prefix.
- The broker, etcd, Kubernetes and the event repository are the environment: their answers are
  parameters or actions.
- Time is counted in ticks of a monotone clock.

## Model

| member | source | states |
|---|---|---|
| Decimal.ValueOfPrint | pkg/events/events.go:51 | reading a printed ID gives the ID back |
| Decimal.HeaderRoundTrip | pkg/sse/v2alpha/sse.go:258-268 | an ID survives printing and parsing the Last-Event-ID header if and only if it is below 2^63 |
| Decimal.PrintedDigits | pkg/events/events.go:51 | an ID is printed as its decimal digits, the most significant first and without leading zeros: any such string with the value of the ID is what is printed |
| Decimal.HeadersRefused | pkg/sse/v2alpha/sse.go:258-268 | a negative number, one of 2^63 or more, and a header with a character that is no digit after its first mean starting from the beginning; a plus sign does not matter |
| Wire.FeedWrite | pkg/events/events.go:48-59 | a complete message is shown exactly once, with its name, data and ID, and moves the client's last event ID to its own if that is not zero |
| Wire.FeedPartOfWrite | pkg/events/events.go:48-59 | a message cut anywhere shows nothing and leaves the last event ID alone |
| Wire.FeedPrefix | pkg/events/events.go:48-59 | the same for a parser that has already received something |
| Wire.TruncatedRoundTrip | pkg/events/events.go:48-59 | any byte prefix of a response shows exactly the events that are whole in it, in order, and the last event ID is the last non-zero ID among them |
| Wire.WholeOfAll | pkg/events/events.go:48-59 | an uncut response shows all its events |
| Wire.EmptyBufferForgets | pkg/events/events.go:48-59 | a client whose ID buffer starts empty ends with the same last event ID if and only if no event arrived, there was no ID, or some event had one |
| Wire.WrittenBytes | pkg/events/events.go:48-59 | a message is a line for an ID other than 0, a line for a name if there is one, and the data with a blank line |
| Wire.LineBreaks | pkg/events/events.go:48-59 | the client takes a line feed, a carriage return and the two together as one end of a line |
| Wire.LinesIgnored | pkg/events/events.go:48-59 | the client ignores comments, unknown fields, and an ID with a NUL |
| Framing.BrokenData | pkg/events/events.go:57 | data with a line feed is cut there: the first line of what the client shows is what comes before it, and all data that it shows is shorter than the whole |
| Framing.FramingExact | pkg/events/events.go:48-59 | an event reaches the client unchanged if and only if its name and data have no line break; Write does not check this |
| EventLog.ExpectedMembers | internal/stream/stream.go:28-37 | the expected events of an offset range are those of its deliverable messages, and no others |
| EventLog.ExpectedOrder | internal/stream/stream.go:28-37 | they are in the order of the log, once each |
| EventLog.ExpectedJoin | pkg/sse/v2alpha/sse.go:128-130 | what is expected up to an ID and what is expected from it on is what is expected in all |
| StreamContract.InvStep | internal/stream/stream.go:45-58 | every step of a consumer keeps the invariant of the contract and never moves the position back |
| StreamContract.PositionContract | internal/stream/stream.go:54-56 | in every run, while the subscription is live, each message from the start up to the position was received or filtered out |
| StreamContract.PositionMonotone | internal/stream/stream.go:56 | in every run the position never moves backwards, also after cancellation |
| StreamContract.ForwardedOnly | internal/stream/stream.go:45-58 | the messages a consumer hands over are not filtered out, and follow the order of the log |
| Messages.JoinPieces | internal/stream/file.go:116-119 | a line read in pieces is put together in order, as are the data sections of a message |
| Messages.ConcatJoins | internal/stream/file.go:114-119 | joining nothing gives nothing, joining one piece gives it back, and joining two sequences of pieces gives the first joined, followed by the second joined |
| FileStreams.FileStream.WithOffset | internal/stream/file.go:81-85 | start and position become the offset, or 0 for a negative one |
| FileStreams.FileStream.Consume | internal/stream/file.go:95-147 | the reader hands over every line from the start on, unchanged, up to the round that stops it, and no other; its position is the next line, and sound; the whole is a run of the contract |
| FileStreams.FileStream.ReadRound | internal/stream/file.go:106-143 | one round of the loop keeps this, and stops exactly on cancellation, a read error, or a line not taken |
| FileStreams.FileStream.Forward | internal/stream/file.go:133-142 | a line is handed over and the position advanced, or the context is done and neither happens |
| FileStreams.BelowNextSound | internal/stream/file.go:161-164 | a position that has not passed the next line is sound, live or not |
| FileStreams.LinesOne | internal/stream/file.go:106-119 | a round that reads a line adds it, put together from its pieces, and any other round adds none |
| FileStreams.LinesJoin | internal/stream/file.go:106-143 | the lines of later rounds follow those of earlier ones |
| FileStreams.FromStartExactly | internal/stream/file.go:119-142 | the messages are the lines from the start on, each with its number and its text, in order, and no others |
| RabbitMQStreams.RabbitMQStream.WithOffset | internal/stream/rabbitmq.go:127-136 | the options attach at the offset, or at the first retained one for a negative offset, and the start agrees with them |
| RabbitMQStreams.RabbitMQStream.WithFilter | internal/stream/rabbitmq.go:139-145 | sets the filter, and registers it in the options unless it is empty; an empty filter does not take back an earlier registration |
| RabbitMQStreams.RabbitMQStream.PostFilter | internal/stream/rabbitmq.go:239-251 | keeps exactly the messages of the run whose name the filter lists, all of them if the filter is empty |
| RabbitMQStreams.RabbitMQStream.HandleMessage | internal/stream/rabbitmq.go:171-188 | sends the joined sections with the offset exactly if the message matches, has a data section, and the context is live; otherwise it is dropped |
| RabbitMQStreams.RabbitMQStream.Consume | internal/stream/rabbitmq.go:149-211 | the subscriber receives exactly the matching messages dispatched while live, and exactly the others that match are dropped; the whole is a run of the contract; the position is sound unless a matching message was dispatched after cancellation and another message after it, and only then it is not |
| RabbitMQStreams.RabbitMQStream.DeliverAll | internal/stream/rabbitmq.go:150-154 | the deliveries, one after the other, lead there |
| RabbitMQStreams.RabbitMQStream.Deliver | internal/stream/rabbitmq.go:150-154 | one delivery keeps the consumer in step with the contract |
| RabbitMQStreams.RabbitMQStream.Dispatch | internal/stream/rabbitmq.go:150-188 | the offset is set before the handler is invoked, and the position follows it |
| RabbitMQStreams.Soundness | internal/stream/rabbitmq.go:203-211 | which positions of an ended subscription are sound, in terms of what was dropped |
| RabbitMQStreams.LostExactly | internal/stream/rabbitmq.go:179-184 | a message is dropped if and only if it matches and was dispatched after cancellation |
| RabbitMQStreams.SlotExactly | internal/stream/rabbitmq.go:171-188 | a message is left out if and only if it is of another run, not named by a filter that names any, or without a data section; it becomes an event if and only if it is not left out, parses and is valid |
| RabbitMQStreams.SentExactly | internal/stream/rabbitmq.go:171-188 | the messages received are exactly the ones dispatched while live that are not left out, with their offsets and joined sections |
| RabbitMQStreams.SentOrder | internal/stream/rabbitmq.go:150-188 | they are received in the order of their offsets, once each |
| RabbitMQStreams.LostBelow | internal/stream/rabbitmq.go:203-211 | no dropped message lies below the position if and only if no message was dispatched after one |
| RabbitMQStreams.OverstatedPosition | internal/stream/rabbitmq.go:179-211 | two matching messages dropped after cancellation make the position overstate what was received |
| Resumption.RetentionRace | pkg/sse/v2alpha/sse.go:132-147 | for any answers of the two queries and a first offset that only grows: a resume that passes both checks started at its ID if the second query returned an offset, and a late start then gets the non-retryable error; a refusal at the first check is retryable exactly if the query failed |
| Resumption.SilentGap | pkg/sse/v2alpha/sse.go:182-190 | a late start goes unnoticed if and only if retention passed the ID between the first check and the attachment and the second query returned no offset |
| Subscription.Do | pkg/sse/v2alpha/sse.go:149-239 | the steps of a connection keep the client's ID, a subscription context that is done, and the start of a consumer; the first retained offset only grows |
| SubscriptionProofs.InvStep | pkg/sse/v2alpha/sse.go:157-239 | every step of any goroutine of a connection keeps the invariants about contexts, channels, sent IDs and data |
| SubscriptionProofs.ControlContext | pkg/sse/v2alpha/sse.go:301-306 | cancellation of either context leaves no goroutine blocked on it |
| SubscriptionProofs.DataTake | pkg/sse/v2alpha/sse.go:220-236 | taking a message keeps every event below the last ID sent, and the one in hand is the next deliverable message |
| SubscriptionProofs.DataTick | pkg/sse/v2alpha/sse.go:200-208 | a ping carries the position only if it is above the last ID, and passes no message that was not sent |
| SubscriptionProofs.DataSend | pkg/sse/v2alpha/sse.go:209-235 | sending the event in hand extends the sound prefix by it |
| SubscriptionProofs.DataMoved | internal/stream/rabbitmq.go:165-188 | a consumer that skips filtered messages disturbs nothing that was promised |
| SubscriptionProofs.StartedRecheck | pkg/sse/v2alpha/sse.go:182-190 | a consumer that started late does not get past a second check whose query returns an offset |
| SubscriptionProofs.RunInv | pkg/sse/v2alpha/sse.go:157-239 | the invariants hold after every run of a connection |
| SubscriptionProofs.IdSoundness | pkg/sse/v2alpha/sse.go:149-156 | in every run and after every event, the data events sent are exactly those of the deliverable messages from the start up to but excluding the last ID, and non-zero IDs strictly increase |
| SubscriptionProofs.ResumedWhereAsked | pkg/sse/v2alpha/sse.go:164-190 | a resumed connection that sends anything but errors has a consumer that started at the client's last ID, if the second query returned an offset |
| SubscriptionProofs.LateStartRefused | pkg/sse/v2alpha/sse.go:182-190 | a late start and a second query that returns an offset give the non-retryable error, before any event |
| SubscriptionProofs.NothingAfterDone | pkg/sse/v2alpha/sse.go:195-237 | no message or event passes a channel once the subscription context is done |
| Outcomes.FirstCheckAnswers | pkg/sse/v2alpha/sse.go:132-169 | a resume is refused with a retryable error if its query fails, with the non-retryable "unknown" if the stream is empty, with the non-retryable "expired" if the ID is below the first offset, and otherwise goes on; a new client is never refused |
| Outcomes.AttachFails | pkg/sse/v2alpha/sse.go:174-180 | a consumer that cannot be created gives a retryable error |
| Outcomes.ClosedReports | pkg/sse/v2alpha/sse.go:213-219 | an error of the stream is reported as retryable; a stream that closes without one, or after cancellation, is not reported |
| Outcomes.PingCarries | pkg/sse/v2alpha/sse.go:200-208 | in every reachable state a ping carries the position exactly if that is above the last ID sent, and else no ID |
| Outcomes.RetryExactly | pkg/sse/v2alpha/sse.go:120-239 | in every run, an error event asks for a retry if and only if its reason is a failed query, a failed consumer or a closed stream |
| Outcomes.NothingAfterFailedWrite | pkg/sse/v2alpha/sse.go:325-330 | after a failed write the handler takes no further event, whatever else happens |
| Outcomes.ErrorGoesOut | pkg/sse/v2alpha/sse.go:119-126 | an error in hand can be sent to a waiting handler, and then the subscriber closes |
| Outcomes.BrokerCloseReported | internal/stream/rabbitmq.go:214-224 | from any quiet state of a live connection, a close by the broker can end with the retryable error as the last event |
| Shutdown.SubscriberBounded | pkg/sse/v2alpha/sse.go:157-239 | whatever everybody does after cancellation, the subscriber makes at most eight more steps |
| Shutdown.SubForward | pkg/sse/v2alpha/sse.go:195-238 | each of its own steps then leads it towards its exit |
| Shutdown.SubUndisturbed | pkg/sse/v2alpha/sse.go:195-238 | nobody else's step leads it away from there |
| Shutdown.WriterForward | pkg/sse/v2alpha/sse.go:308-335 | each step of the handler leads it towards waiting for events or its exit |
| Shutdown.WriterUndisturbed | pkg/sse/v2alpha/sse.go:308-335 | after cancellation nobody else's step leads the handler away from its exit |
| Shutdown.NotifierForward | internal/stream/rabbitmq.go:214-224 | each step of the close notifier leads it towards its exit |
| Shutdown.NobodyStuck | pkg/sse/v2alpha/sse.go:120-126 | once a connection is cancelled, the cancellation can reach the subscription, and then each of subscriber, consumer and notifier that has not ended has an enabled step; the handler has one as soon as its own context is done or the subscriber has ended |
| Shutdown.ShutdownSchedule | pkg/sse/v2alpha/sse.go:157-161 | from every state of a cancelled connection some schedule of at most 16 steps ends everybody, with the event channel closed exactly once and the stream closed exactly once |
| Progress.OneMessage | pkg/sse/v2alpha/sse.go:220-236 | a quiet connection can deal with its next message: skip it, drop it, or send its event |
| Progress.EverythingArrives | pkg/sse/v2alpha/sse.go:157-239 | wherever the log and retention are, unless retention has passed the client's ID, some run of a connection sends exactly the events from where it resumes to the end of the log |
| Midway.Settles | pkg/sse/v2alpha/sse.go:193-238 | from any state of a connection past its attachment that nothing has begun to end, all goroutines can come to rest, whichever of them wait at a channel |
| Midway.NothingWithheld | pkg/sse/v2alpha/sse.go:193-238 | from every reachable such state some continuation makes the data events of the connection exactly those of the deliverable messages from its start to the end of the log |
| Retention.UnnoticedExactly | pkg/sse/v2alpha/sse.go:182-190 | in every run, a resumed consumer passes both checks although it started too late if and only if retention passed the ID between the first check and the attachment and the second query returned no offset |
| Retention.RunTraced | pkg/sse/v2alpha/sse.go:164-190 | in every run the consumer starts at the ID or, if that is later, at the first offset retained when it attached |
| Retention.GapReached | pkg/sse/v2alpha/sse.go:182-190 | for any ID and any later first offset a run gets there unnoticed with a failed second query, and with an answered one if retention emptied the stream |
| Retention.ExpiredSendsNothing | pkg/sse/v2alpha/sse.go:132-147 | a connection whose ID retention has passed before it sends at most one event in every run: a retryable error if its query failed, and otherwise the non-retryable "expired", or "unknown" if the stream is empty |
| LostEvents.ExpiredGivesNothing | pkg/sse/v2alpha/sse.go:164-169 | such a connection gives its client no data event and leaves its ID alone |
| LostEvents.LateStartLoses | pkg/sse/v2alpha/sse.go:182-190 | with deliverable messages on both sides of a late start there is a connection without errors after which the client has passed messages that it never received, with a failed second query and with one answered on a stream that retention has just emptied |
| CatchingUp.NextConnection | pkg/sse/v2alpha/sse.go:128-130 | a client that is complete so far has a next connection that completes it up to the end of the log |
| CatchingUp.CatchesUp | pkg/sse/v2alpha/sse.go:128-130 | whatever connections a client has had, and wherever the log and retention have got to since, as long as retention has not passed its ID, there is a next connection from there after which it has shown every deliverable message from its start to the end of the log, once each and in order |
| Session.HeaderAfter | pkg/sse/v2alpha/sse.go:258-268 | the ID of a client on the wire is the last non-zero ID that was sent |
| Session.OnTheWire | pkg/sse/v2alpha/sse.go:119-126 | data events carry their offset plus one, their name and their data; pings are named "ping", carry a position or no ID, and no data; errors are named "error" and carry no ID |
| Session.ErrorsToldApart | pkg/sse/v2alpha/sse.go:107-117 | two error events have the same JSON if and only if they agree in the retry flag and the reason |
| Session.ResponseReceived | pkg/events/events.go:48-59 | of one response, however cut, the client keeps the data events and the last ID of what arrived whole |
| Session.LearnFirst | pkg/sse/v2alpha/sse.go:149-156 | the first connection that gives a client an ID starts its events |
| Session.LearnMore | pkg/sse/v2alpha/sse.go:128-130 | one more connection, resumed at the client's ID, continues its events without gap or duplicate if and only if it skips no deliverable message |
| Session.ExactlyLossless | pkg/sse/v2alpha/sse.go:128-130 | a complete client stays complete over a connection if and only if no deliverable message lies between its ID and the start of the consumer, or its ID did not move |
| Session.CheckedIsLossless | pkg/sse/v2alpha/sse.go:182-190 | a second query that returned an offset is enough for that |
| Session.ExactlyOnce | pkg/sse/v2alpha/sse.go:128-238 | over any number of lossless connections, each cut at any byte and resumed with the last ID received, the data events shown are exactly the deliverable messages from the first start up to the ID it would resume from, once each and in order |
| Session.AlwaysExactly | pkg/sse/v2alpha/sse.go:128-238 | over any session, the client was complete all the time if and only if every connection was lossless |
| Session.CheckedExactlyOnce | pkg/sse/v2alpha/sse.go:128-238 | the same over any connections whose second queries returned an offset |
| SubscriberLoop.Subscribe | pkg/sse/v2alpha/sse.go:193-238 | whatever the loop meets, it sends the data of exactly the deliverable messages taken before it returns, in order, and no ping with an ID that is not above the last one; its lastID is the last ID sent while it runs |
| SubscriberLoop.ReplayMeans | pkg/sse/v2alpha/sse.go:193-238 | the loop runs until a cancellation, an event not taken, or a closed stream, and never returns for a malformed message |
| SubscriberLoop.MachineRunsLoop | pkg/sse/v2alpha/sse.go:193-238 | in every run of a connection that enters the loop, what was sent, the lastID and whether the loop still runs are what this loop makes of the rounds that the run met, with malformed messages, events not taken, errors and cancellation |
| FilterCleaning.CleanFilter | pkg/sse/v2alpha/sse.go:99-105 | each filter of the array becomes its cleaned form, in place |
| FilterCleaning.CleanAgain | pkg/sse/v2alpha/sse.go:99-105 | cleaning twice is cleaning once if and only if the filter has three parts or gets them |
| FilterCleaning.ShortFilterSelects | pkg/sse/v2alpha/sse.go:99-105 | a filter "type.meta" selects exactly that type and meta of the requested run |
| Publishing.InvStep | internal/rabbitmq/rabbitmq.go:160-207 | every step of any goroutine, the broker or a failing connection keeps the publisher's invariants |
| Publishing.ConnectKeeps | internal/rabbitmq/rabbitmq.go:116-150 | a reconnect disturbs no goroutine that holds publishMu |
| Publishing.ConnectOutcomes | internal/rabbitmq/rabbitmq.go:116-150 | an attempt to connect closes the old connection; it leaves what was there if the URL is bad, no connection if dialling fails, a connection without a channel if that cannot be opened, and a closed one if confirms cannot be enabled; only a complete one replaces the confirmations, clears hasOutstanding and can be published on |
| Publishing.ConnectedStays | internal/rabbitmq/rabbitmq.go:117-119 | an open connection with a channel is left as it is |
| Publishing.ReconnectIsReady | internal/rabbitmq/rabbitmq.go:142-170 | after a reconnect the next publish does not wait for a confirmation |
| Publishing.FlagExactly | internal/rabbitmq/rabbitmq.go:101-197 | hasOutstanding becomes set exactly by a publish that was accepted, and clear exactly by reading a confirmation or by a complete reconnect |
| Publishing.AttemptGoesOn | internal/rabbitmq/rabbitmq.go:160-207 | an earlier message that was nacked does not stop an attempt; a refused publish changes nothing; it returns nil exactly if the confirmation it reads is an ack, and an expired context closes the connection |
| Publishing.StaleFlagReached | internal/rabbitmq/rabbitmq.go:166-200 | a reachable state has hasOutstanding set on a connection that owes no confirmation |
| Publishing.ReadClears | internal/rabbitmq/rabbitmq.go:101-114 | a confirmation that is read leaves nothing outstanding and the flag clear, and an ack is for a message that the broker has acked |
| Publishing.NilMeansAcked | internal/rabbitmq/rabbitmq.go:160-207 | for any number of goroutines and any timeouts, losses and reconnects, an attempt returns nil only if the broker has acked its own message |
| Publishing.ConfirmationsBounded | internal/rabbitmq/rabbitmq.go:166-183 | no connection owes and holds more than one confirmation, and with publishMu free the current one has none when hasOutstanding is false |
| Publishing.BrokerNeverBlocks | internal/rabbitmq/rabbitmq.go:144-147 | a confirmation finds its channel of capacity one empty |
| Publishing.OnePublisher | internal/rabbitmq/rabbitmq.go:165-168 | at most one goroutine publishes at a time |
| Publishing.DeadChannelReached | internal/rabbitmq/rabbitmq.go:116-119 | a reachable state has a dead channel on a live connection |
| Publishing.RecoversExactly | internal/rabbitmq/rabbitmq.go:116-150 | in every reachable state, after ensureConnection has returned nil a message can be published if and only if the channel was not dead on a live connection |
| Publishing.DeadChannelStays | internal/rabbitmq/rabbitmq.go:116-119 | over every continuation of a run such a channel stays dead if and only if the connection is neither lost nor closed after a timeout, and nothing is published until then |
| Publishing.ReplacedExactly | internal/rabbitmq/rabbitmq.go:152-164 | after an attempt, the next one replaces the connection if and only if the attempt timed out or the connection or channel was already gone; whether and how it failed does not matter |
| Publishing.NotConnected | internal/rabbitmq/rabbitmq.go:161-163 | an attempt that cannot connect fails and leaves connecting to the next one |
| Publishing.RefusedReached | internal/rabbitmq/rabbitmq.go:194-196 | a reachable state has an attempt that failed in channel.Publish, and a channel on which the next one can publish |
| Publishing.NackTearsNothingDown | internal/rabbitmq/rabbitmq.go:202-205 | a nacked attempt fails and leaves every connection and channel as open as it was |
| Publishing.NackReached | internal/rabbitmq/rabbitmq.go:202-205 | a reachable state has a failed attempt and a connection that the next one will not replace |
| Publishing.NoChannelReached | internal/rabbitmq/rabbitmq.go:139-141 | in a reachable state the holder of publishMu is about to publish on no channel |
| Publishers.Publisher.Close | internal/rabbitmq/rabbitmq.go:67-74 | closes the current connection and its channel, and nothing else |
| Publishers.Publisher.EnsureConnection | internal/rabbitmq/rabbitmq.go:116-150 | leaves an open connection with a channel alone; otherwise replaces it as far as it gets |
| Publishers.Publisher.AwaitConfirmation | internal/rabbitmq/rabbitmq.go:101-114 | fails, or reads one confirmation; if only its own message is owed and the broker answers, that answer |
| Publishers.Publisher.Send | internal/rabbitmq/rabbitmq.go:191-196 | a published message is the only one owed a confirmation on the current connection |
| Publishers.Publisher.TryPublish | internal/rabbitmq/rabbitmq.go:160-207 | is a run of the machine; returns nil only if this very message was acked, with nothing outstanding then, and does so after a reconnect that works, or on an open channel with nothing outstanding or an answer to what is, if the publish is sent and acked |
| Publishers.Publisher.Publish | internal/rabbitmq/rabbitmq.go:84-96 | retries until a try succeeds or the caller's context is done, returns nil only if the message of the last try was acked, and every try before the last one had failed |
| Etcd.Client.Open | internal/database/etcd/etcd.go:63-70 | a new reader over the same store, without the tree prefix |
| Etcd.Client.Write | internal/database/etcd/etcd.go:73-84 | stores the value under the key, or fails and stores nothing |
| Etcd.Client.Read | internal/database/etcd/etcd.go:94-132 | fills the buffer with the next bytes of the value fetched by the first query, in place |
| Etcd.Client.Delete | internal/database/etcd/etcd.go:135-142 | removes the key, or fails and removes nothing |
| Etcd.ReadCounts | internal/database/etcd/etcd.go:94-132 | the number returned is that of the bytes written, and is positive; the end or an error comes without any; what is written and what is left make up what was there |
| Etcd.ReadAgain | internal/database/etcd/etcd.go:101-111 | a first read that fails or finds no key leaves the reader as it was |
| Etcd.Snapshot | internal/database/etcd/etcd.go:94-132 | once a query found a value, the reads return exactly its bytes in order, whatever is written meanwhile |
| Etcd.SnapshotEnd | internal/database/etcd/etcd.go:113-131 | a read reports the end if and only if the value was returned completely or the buffer is empty |
| Etcd.TombstoneReadsAsEnd | internal/database/etcd/etcd.go:102-115 | an empty value and an absent key both read as the end on every call; only the absent key is queried again |
| ExecutionSpaces.NewExecutorSpec | pkg/executionspace/executionspace/executor.go:58-107 | the new specification refers to the map of the request, which gets its ID and the variables of the process that are set |
| ExecutionSpaces.SetHost | pkg/executionspace/executionspace/executor.go:90-105 | the variables of the process are written over those of the map, the proxies in both spellings, unset ones not at all |
| ExecutionSpaces.Overwritten | pkg/executionspace/executionspace/executor.go:89-105 | the variables of the next executor leave no trace of the one before |
| ExecutionSpaces.OwnId | pkg/executionspace/executionspace/executor.go:89 | ENVIRONMENT_ID is the executor's own ID |
| ExecutionSpaces.EnvironmentExactly | pkg/executionspace/executionspace/executor.go:83-105 | name by name: the executor's ID, the variables of the process that are set, the proxies in both spellings, and every other variable exactly as the request had it |
| ExecutionSpaces.VarsExactly | pkg/executionspace/executionspace/executor.go:90-105 | the variables taken from the process are those that are set, and no others |
| ExecutionSpaces.ExecutionSpace.Add | pkg/executionspace/executionspace/executionspace.go:62-65 | appends the executor and its reference |
| Provider.ProviderCore.SaveExecutor | internal/executionspace/provider/provider.go:151-154 | stores the specification with the map as it is at that moment |
| Provider.ProviderCore.Checkout | internal/executionspace/provider/provider.go:99-130 | the store ends with a record that is DONE with all references, FAILED, or left PENDING, whichever write fails, and one specification for each executor saved; in memory all executors share the map of the last one; it panics exactly if only the last write fails |
| Provider.ProviderCore.CheckoutExecutors | internal/executionspace/provider/provider.go:113-120 | the loop stores the executors in order up to the first that fails |
| Provider.ProviderCore.Finish | internal/executionspace/provider/provider.go:121-128 | the last write makes the record DONE; if it fails or an executor failed, the record becomes FAILED, or stays PENDING if that write fails too; if only the last write fails, the code panics after it has written FAILED |
| Provider.ProviderCore.CheckoutOne | internal/executionspace/provider/provider.go:114-119 | one executor is created over the shared map, added and saved |
| Provider.CheckoutRecord | internal/executionspace/provider/provider.go:99-130 | in terms of what fails: the record is DONE with all references if nothing does, FAILED without references if an executor or the last write does and that can be written, and PENDING otherwise; it panics exactly if only the last write fails |
| Provider.CheckoutSpecs | internal/executionspace/provider/provider.go:113-120 | exactly the executors before the first failing one are stored, each with its own environment; nothing else but the record changes |
| Provider.ReadBack | internal/executionspace/provider/provider.go:62-96 | what was saved is read back unchanged, an absent key or a nil write ends at once, and a specification reads as a space without references |
| Provider.StoredOwnIds | internal/executionspace/provider/provider.go:113-120 | although the map is shared and overwritten, each stored specification has its own ID and ENVIRONMENT_ID, the image, no build ID, and every other variable of the request, for any amount |
| Provider.ProviderCore.Status | internal/executionspace/provider/provider.go:62-96 | returns the record with its executors in reference order if all reads find what they look for; otherwise the answer names the space, or the first reference that was not found; a stored specification reads as a space without references |
| Provider.ProviderCore.Checkin | internal/executionspace/provider/provider.go:133-143 | writes a tombstone for each executor in order, up to the first write that fails |
| Checkouts.InvStep | internal/executionspace/provider/provider.go:99-143 | every step of any checkout, start or check-in keeps the invariants of the store |
| Checkouts.RecordStep | internal/executionspace/provider/provider.go:99-130 | in every interleaving a record appears as PENDING and changes once, to DONE or FAILED |
| Checkouts.RecordsAdvance | internal/executionspace/provider/provider.go:99-130 | DONE and FAILED records are final |
| Checkouts.DoneIsComplete | internal/executionspace/provider/provider.go:113-123 | a visible DONE record lists exactly max(Amount, 0) different references, each stored with its own ID and ENVIRONMENT_ID unless checked in |
| Checkouts.StatusSees | internal/executionspace/provider/provider.go:76-94 | until check-in, each reference of a DONE record is found although others run between the reads |
| Checkouts.StatusInRun | internal/executionspace/provider/provider.go:62-96 | so Status at any moments of a run answers with the executors of a DONE record, in reference order |
| Checkouts.CheckoutRuns | internal/executionspace/provider/provider.go:99-130 | what a checkout makes of the store, with any failures, is what a run of the machine makes of it |
| Checkouts.CheckoutInRun | internal/executionspace/provider/provider.go:99-130 | so the provider's Checkout, after any run, leads to the store of a longer run |
| StoredBlobs.Put | internal/database/etcd/etcd.go:73-84 | a write through a client opened for an ID changes that value of the store and no other |
| StoredBlobs.Look | internal/database/etcd/etcd.go:94-132 | a first read through a client ends at once exactly where the provider finds the end: at an absent key, and at the nil write of a check-in |
| StopHandler.Stop | pkg/executionspace/v1alpha/provider.go:278-341 | an undecodable body answers 400; the jobs with a build ID are told to stop, in order and also after a failure; if a lookup or stop fails the store is unchanged and the answer is 500; otherwise all is checked in, and 204 answers exactly if every deletion worked; a specification is tombstoned only if every job of the request with a build ID was stopped without error |
| StopHandler.EveryJobTold | pkg/executionspace/v1alpha/provider.go:300-324 | every job of the request with a build ID whose lookup works is told to stop, whatever fails before it |
| StopHandler.StopCallsJoin | pkg/executionspace/v1alpha/provider.go:300-324 | what one part of a request stops does not depend on the rest, and the calls are in the order of the request |
| StopHandler.StopCallsOne | pkg/executionspace/v1alpha/provider.go:300-324 | each executor gives one call if there is a job to stop, and none otherwise |
| StopHandler.StopFails | pkg/executionspace/v1alpha/provider.go:300-324 | the stop phase fails if and only if a lookup fails or a job that has to be stopped does not stop |
| StopHandler.AllJobsStopped | pkg/executionspace/v1alpha/provider.go:300-324 | if the phase succeeds, every job of the request with a build ID was told to stop and did |
| StopHandler.TombstonedExactly | internal/executionspace/provider/provider.go:133-143 | a check-in tombstones the executors of the request and touches nothing else |
| StopHandler.StopAgain | pkg/executionspace/v1alpha/provider.go:300-316 | once stopped, a request for any of the same executors stops nothing, and succeeds if and only if the lookups do |
| StopHandler.StopTwice | pkg/executionspace/v1alpha/provider.go:278-341 | a second stop answers 204 without stopping anything |
| SubSuites.State.GetSubSuite | pkg/executionspace/v1alpha/executor.go:179-202 | agrees with the lookup without memory, finds the sub suite whenever that would, and fetches the environment and the main suite successfully at most once |
| SubSuites.WaitStart | pkg/executionspace/v1alpha/executor.go:205-232 | succeeds if and only if some attempt finds the sub suite before the job is found dead, with at most one successful fetch of each |
| SubSuites.PlainExactly | pkg/executionspace/v1alpha/executor.go:179-202 | the sub suite is found if and only if the environment, its main suite and the sub suite of that name are there and answered |
| SubSuites.SawEnvExactly | pkg/executionspace/v1alpha/executor.go:205-232 | the environment is remembered if and only if some attempt with a living job has found it |
| SubSuites.SawMainExactly | pkg/executionspace/v1alpha/executor.go:205-232 | the main suite is remembered if and only if some attempt has found it, with the environment found by then |
| Starting.ExecutorStart | pkg/executionspace/v1alpha/executor.go:44-170 | which code is answered, and what is started, cancelled and stopped, for every step that may fail: a run that starts a job and does not answer 204 cancels it if waiting for it failed and stops it otherwise, once; on 204 neither happens and the stored specification has its build ID |
| KubernetesCache.InvStep | internal/kubernetes/kubernetes.go:57-107 | every step of any caller keeps the invariants of the cache |
| KubernetesCache.CachedIsFresh | internal/kubernetes/kubernetes.go:62-73 | for any number of callers, a list from the cache was stamped less than the TTL before the check that returned it |
| KubernetesCache.StoresAreSpaced | internal/kubernetes/kubernetes.go:81-103 | any two lists stored for one key are stamped at least the TTL apart |
| KubernetesCache.AnswersStored | internal/kubernetes/kubernetes.go:57-107 | for any number of callers, a list is returned for a key only if it was fetched for that key and stored under it |
| KubernetesCache.Cache.GetAllJobs | internal/kubernetes/kubernetes.go:57-107 | while no other caller runs: is a run of the machine; returns the cached list if it is fresh, and otherwise fetches, stamps and stores one, or fails and stores nothing |
| KubernetesCache.Cache.CheckCache | internal/kubernetes/kubernetes.go:62-79 | the fast path returns exactly a fresh entry, without the mutex |
| KubernetesCache.Cache.CheckLocked | internal/kubernetes/kubernetes.go:81-89 | the second check is made on an entry loaded under the mutex |
| KubernetesCache.Cache.Fetch | internal/kubernetes/kubernetes.go:91-106 | the list is stamped after the call and stored before the mutex is released |
| JobSelection.KeyPairExists | internal/kubernetes/kubernetes.go:274-281 | true if and only if every pair is among the labels |
| JobSelection.GetJobsByIdentifier | internal/kubernetes/kubernetes.go:230-271 | the jobs with the new or the legacy labels, in order, each once even with both |
| JobSelection.IsFinished | internal/kubernetes/kubernetes.go:284-305 | without a list of jobs no; a job that does not exist is finished; otherwise the first one decides |
| JobSelection.BelongsExactly | internal/kubernetes/kubernetes.go:243-271 | a job belongs to a test run if and only if it has both labels of the new pair or both of the legacy pair |
| JobSelection.SelectedExactly | internal/kubernetes/kubernetes.go:257-264 | every job that belongs is selected once, in the order of the list, and no other |
| JobSelection.FirstDecides | internal/kubernetes/kubernetes.go:296-304 | the first job that belongs decides, and is finished if and only if a pod of it succeeded or failed |
| JobSelection.NoJobIsOver | internal/kubernetes/kubernetes.go:296-300 | a test run without jobs is finished |
| ImageNames.TagOfName | python/src/etos_api/library/docker.py:211-233 | a tag is split off, and neither a port nor a part of the path is taken for one |
| ImageNames.ReferenceOfName | python/src/etos_api/library/docker.py:188-209 | the digest wins over a tag, and "latest" stands in for neither |
| ImageNames.ParsePrint | python/src/etos_api/library/docker.py:188-257 | parsing a composed name gives its registry, path and reference back |
| ImageNames.ParsePrintExactly | python/src/etos_api/library/docker.py:188-257 | it does so if and only if the registry has no '@' |
| ImageNames.ParsePlain | python/src/etos_api/library/docker.py:235-257 | a name without a registry belongs to the default one, and all of it is the path |
| ImageNames.AtInRegistry | python/src/etos_api/library/docker.py:205-209 | with an '@' in the registry the reference is never the one that was printed |
| ImageNames.RegistryExactly | python/src/etos_api/library/docker.py:235-257 | the first part of a name is its registry if and only if it has a dot or a colon; docker.io and no registry both mean index.docker.io |
| ImageNames.Defaults | python/src/etos_api/library/docker.py:211-257 | a bare name is on index.docker.io, and no tag or an empty one means "latest" |
| Names.ConvertIsScan | python/src/etos_api/routers/v1beta1/utilities.py:89-97 | the five passes do the same as one scan of the string |
| Names.ConvertIsRuns | python/src/etos_api/routers/v1beta1/utilities.py:72-97 | the result is the lower-cased maximal alphanumeric runs, joined by single hyphens |
| Names.RunsAreRuns | python/src/etos_api/routers/v1beta1/utilities.py:72-97 | each run is non-empty and of lower-case letters and digits |
| Names.ConvertIdempotent | python/src/etos_api/routers/v1beta1/utilities.py:72-97 | converting twice is converting once |
| Names.ConvertSplit | python/src/etos_api/routers/v1beta1/utilities.py:72-97 | whatever is neither letter nor digit separates: its two sides are converted on their own, and joined by one hyphen if neither is empty |
| Names.ConvertWord | python/src/etos_api/routers/v1beta1/utilities.py:72-97 | letters and digits are kept one by one, with upper case made lower case |
| Names.GeneratedKeeps | python/src/etos_api/routers/v1beta1/testrun.py:163-177 | a generated name is the first 57 characters of the converted name, all of it if it is shorter, and one hyphen |
| Names.GeneratedNameIsLabel | python/src/etos_api/routers/v1beta1/testrun.py:163-177 | with five random characters a generated name has at most 63 characters, and is a label of section 2.1 of RFC 1123 if and only if the test run's name has a letter or digit |

## Where the code and its documentation differ

- `internal/rabbitmq/rabbitmq.go:81-83` says that any error tears the connection down, to be reestablished
  upon the next attempt. The next attempt replaces the connection exactly if the one before timed
  out, or if the connection or channel was already gone (`Publishing.ReplacedExactly`,
  `Publishing.NotConnected`). So neither a nack (`Publishing.NackReached`) nor an error of the
  channel's own Publish (`Publishing.RefusedReached`) tears anything down. And since only the
  connection is looked at, a channel that dies alone is not replaced: it is reachable
  (`Publishing.DeadChannelReached`), it is the one thing that a new attempt does not repair
  (`Publishing.RecoversExactly`), and it lasts exactly as long as its connection
  (`Publishing.DeadChannelStays`).
- `internal/rabbitmq/rabbitmq.go:52` says that hasOutstanding tells whether a message is in flight. It may be left
  set without one, when another goroutine reconnects while a publish is under way
  (`Publishing.StaleFlagReached`). The next publish then waits until it times out or the channel closes.
- `internal/stream/rabbitmq.go:203-205` says that every message below the position was received or
  filtered out. After cancellation that fails exactly if a matching message is dispatched and another one
  after it: `RabbitMQStreams.RabbitMQStream.Consume`, with an instance in
  `RabbitMQStreams.OverstatedPosition`. It is harmless, because nothing is sent any more.
- `pkg/sse/v2alpha/sse.go:182-183` guards against a late start. The guard works unless its query returns no
  offset, because it fails or because retention has emptied the stream: `Retention.UnnoticedExactly`,
  `Retention.GapReached`, `LostEvents.LateStartLoses`.
- `python/src/etos_api/library/docker.py:188-257` splits a name at its first '@'. A registry with
  user information, which contains one, is not recognised: `ImageNames.ParsePrintExactly`.
- `internal/executionspace/provider/provider.go:124-128` means to log an error if a checkout can write neither
  its result nor its failure. It tests the error of the former, so if only the result cannot be written it
  reads the error of the latter, which is nil: the method panics there and does not return
  (`Provider.ProviderCore.Finish`).
- `pkg/events/events.go:48-59` writes names and data as they are: `Framing.FramingExact`.

## Left out

- Session.ExactlyOnce: a safety result, with the exact condition in `Session.ExactlyLossless`; that a client does get everything is stated separately, as the existence of a run (`CatchingUp.CatchesUp`, `Midway.NothingWithheld`), not as a liveness property under fair scheduling.
- Shutdown.ShutdownSchedule: gives one bounded schedule; that only the subscriber is bounded under every schedule is `Shutdown.SubscriberBounded`.
- Shutdown.NobodyStuck: whether the handler ends the response or aborts it when both are ready is not claimed.
- Publishing.NoChannelReached: the model lets a publish without a channel fail like any other; in Go the call on a nil channel panics.
- Publishing.NilMeansAcked: finer interleavings of a reconnect with a goroutine that holds publishMu are not modelled, because lines 133-147 of the source are not guarded by it.
- Publishers.Publisher.Publish: the back-off between tries is not modelled, because it only takes time.
- Provider.ProviderCore.Checkout: a write that fails is taken to store nothing; the log lines are not modelled, except that one of them panics.
- ExecutionSpaces.NewExecutorSpec: the HTTP headers, parameters and timeout of an executor are not modelled; they are constants or copied.
- Provider.ProviderCore.Status: the descriptions of a failed status are not modelled, nor a reference that is no UUID, since references are written from UUIDs.
- Checkouts.StatusSees: starting and checking in the same executor do not overlap, and a check-in names executors, not checkouts.
- Starting.ExecutorStart: the error texts and what the handler logs are not modelled; a Stop of the same executor does not run meanwhile.
- KubernetesCache.Cache.GetAllJobs: `getAllPods` is the same code on its own map and mutex and is not repeated.
- Names.ConvertIsRuns: ASCII input only, because Python's case folding and digit class go further.
- FileStreams.FileStream.Consume: a last line that is only partly written is not modelled; every line ends with a line feed.
- Session.ResponseReceived: the reason texts of error events are abbreviated, because it only matters that they have no line break and differ (`Session.ErrorsToldApart`).
- HTTP routing, headers, status codes of the stream endpoint, metrics, tracing and logging: wiring.
- `pkg/sse/v1` and `pkg/sse/v1alpha`: polling loops, which hold no protocol state beyond an event counter.
- JSON encoding: stored values are decoded blobs, and a JSON codec is taken to be injective.
- Retention, upload and download of the log area: file-system calls.
- Token handling and retries of the registry client, and waiting for artifacts: I/O in loops.
- The pod list and the log listener's address: a second selection like that of jobs.
