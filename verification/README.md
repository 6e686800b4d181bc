# Durable event dispatch, verified

A Dafny model of an agent-to-agent event publisher: an append-only log per topic with retention and
compaction, subscriptions with a durable high-water mark per topic, a paged catch-up loop, inline and
queued retries, dead letters, acks, and a deduplicating receiver at the other end; next to it the
canonical JSON that gets signed, the lease renewer and the rate limiter.

`dafny verify dfyconfig.toml` checks everything.

## How it is built

**The stores** are classes with the source's fields and loops. `EventStore` (the log),
`SubscriptionStore`, `RetryQueue`, `Receiver`, `Limits` and `Lease` hold one class each.
`EventStore.InMemoryEventStore` carries, as ghost state, every event ever appended; each read is proved
to depend on that alone. `Reads` is what the publisher reads from it, the next page and the record at a
cursor; `Replay` is what callers of either can rely on; `Pages` says what a read answers in the words of its
cursors; `PostgresRead` is the other form of the read.

**The protocol** is `Dispatch`: the stores, the dispatch locks and every call in progress form one
`World`. A call is a task that remembers where it is between two store calls, sends or sleeps, and one
event moves one task over exactly one of those. So calls interleave at every await, and a crash may fall
between any two store writes. The transport's answers, retry ids, due times, the authoriser and the
passing of time are inputs of the events. `NoLoss`, `EndToEnd`, `Inline`, `InlineRuns`, `Quiescence`,
`Cutover`, `AckedCursors`, `Chains`, `Verdicts` and `Drops` prove what holds in every run; `Witnesses` holds
the runs that show what does not.

**The publisher's code** is the class `Runtime.Publisher`, over the store classes. It keeps the world its
stores stand for and the events that led there as ghost state, and each store call, send or sleep of its
methods is proved to be the corresponding event of the machine (`Steps` says what each event does;
`Deliveries`, `Retries` and `Calls` what a whole call does to the world). So
whatever holds in every run of the machine holds of the stores; `PublisherRuns` says it of them, and
`WorkerPass` says what a whole pass of the retry worker decides.

**The canonicalizer** is pure: `Numbers` (ECMAScript number layout), `Utf16` (member order) and
`Canonical` (the printer). What its texts are held against is written without it: `NumberLayout` (the layout
told by the value) and `JsonReader` (a reader of the JSON grammar, without insignificant whitespace).

## What the proofs found

- *An event can be lost in two ways: dropped with its retry, or skipped by its start.*
  `runtime/dispatcher.py:9-14` says duplicates are possible and loss is not. After the start, and short of
  retention and of an ack past the event, there is one way. A retry is dropped when its subscription is not
  active (`runtime/publisher.py:803-807`). If the lease lapses while a retry waits, the worker drops it, and
  the subscriber renews afterwards, then an active subscription has passed an event by that nobody will ever
  send (`Witnesses.RenewalAfterLapseLoses` gives such a run). The condition is exact: an event that one retry
  alone owes is still promised after the worker took it up if and only if the subscription was active then
  (`Drops.ReviewDecides` for the machine, `WorkerPass.PassDecides` and `WorkerPass.RunPass` for a whole pass
  of the worker's code), and over any run the history lists an event as dropped if and only if it was once
  taken up while not active (`Drops.DroppedExactly`).
- *The other way: cutover has a window exactly when a start cursor lies past the head.* `_start_offset` takes a cursor's
  offset without comparing it with the log, so events up to it are skipped silently
  (`Cutover.CutoverExact`, an equivalence; `Witnesses.SkippedSilently`, a run).
- *Acked cursors are compared as strings*, so the acked offset can go back. Three equivalences say when. Over
  any stored cursor an explicit ack is safe exactly when its digits denote zero (`AckedCursors.AckBackAnywhere`).
  Over a stored cursor that the log issued, below 10^16, it is safe exactly when its digits are at least sixteen
  or denote zero (`AckedCursors.AckBackExactly`). And a stored cursor is never taken back by an issued one, which a
  delivery or an ack may bring, exactly when it has at most sixteen digits, denotes zero or one, or starts with
  sixteen nines (`AckedCursors.HeldBackExactly`). `Witnesses.UnpaddedAckGoesBack` is a run from 2 to 1 by one
  unpadded ack, `Witnesses.WideAckTakenBack` one from 10 to 2 by an issued ack after one of seventeen digits.
  What a subscriber can rely on: if all explicit acks on a topic carry issued cursors, and its log is within
  10^16 events, the acked offset never goes back (`AckedCursors.IssuedAcksNeverBack`). The padding holds for offsets
  below exactly 10^16 (`Cursors.OrderedExactlyBelow`).
- *The two event stores do not always answer alike*, though `runtime/postgres/event_store.py:252-254` says so,
  because the table compares whole cursors as strings. On every log they agree on a valid start cursor exactly when
  it has sixteen digits, or more that denote zero or start with sixteen nines (`PostgresRead.StartExactly`); reading
  from the start of retention they agree exactly when both refuse the end, or it is absent or has such digits,
  and the limit is at least one (`PostgresRead.EndExactly`). "t:5" skips events (`PostgresRead.ShortCursorSkips`),
  an empty end is refused by one store only (`PostgresRead.EmptyEndRefused`), a limit of zero raises in one
  (`PostgresRead.ZeroLimitRaises`).
- *Integers of 10^21 and more print differently from the equal float*, because integers print exactly
  (`Numbers.IntsMeetFloats`, an equivalence; `Numbers.OneNumberTwoTexts`, the smallest). RFC 8785 would print
  both alike.
- *The lease renewer may call once more after the lease ran out.* A retry is in time exactly when more
  than twice the minimal sleep is left (`Lease.RetryInTime`; `Lease.LateRetry` and `Lease.LateRenewal` are runs
  that are late).

## Model

| member | source | states |
|---|---|---|
| NoLoss.NeverLost | src/a2a_events/runtime/publisher.py:613-830 | in every run, with any interleaving and a crash after any store write, each event past a subscription's start and at or below its high-water mark is a selector miss, delivered or dead-lettered, queued, covered by an explicit ack that wrote the mark, out of retention, or had its retry dropped |
| Witnesses.RenewalAfterLapseLoses | src/a2a_events/runtime/publisher.py:801-807 | a run ends with an active subscription that passed an event by which nobody owes it any more |
| Drops.ReviewDecides | src/a2a_events/runtime/publisher.py:803-807 | when the worker takes up a retry that alone owes a live, matching, unfinished event, the event is still promised a step later if and only if the subscription is active |
| Drops.DroppedExactly | src/a2a_events/runtime/publisher.py:801-807 | over any run, an event is dropped if and only if one of its retries was taken up while its subscription was not active |
| Drops.KeptWhenActive | src/a2a_events/runtime/publisher.py:801-830 | an event whose retries were taken up while active only, and that no ack reaches past, is once passed missed by the selector, finished, queued or out of retention |
| WorkerPass.PassDecides | src/a2a_events/runtime/publisher.py:801-830 | over a whole pass of the worker, each live, matching, unfinished event owed by one claimed item alone is still promised afterwards if and only if its subscription was active before |
| WorkerPass.RunPass | src/a2a_events/runtime/retry_worker.py:53-60 | the same of the worker's code over the stores, for every item it claims |
| Chains.QueuedChains | src/a2a_events/runtime/publisher.py:762-830 | in every crash-free run in which claims are worked on within their lease and due times follow the backoff, with any interleaving: the attempts of each retry id, the inline one first, are at one event, numbered from one without gaps up to at most the ceiling, all retry but the last, waited in all the backoff total of their number, and once the item is gone the last one is final unless it was dropped or aged |
| Chains.EveryRetryChained | src/a2a_events/runtime/publisher.py:762-830 | and every attempt after a first one belongs to the chain of exactly one retry id |
| EndToEnd.ReceivedOnce | src/a2a_events/receiver.py:116-135 | after any run no endpoint holds an id twice, and each id it holds is a published event some subscription of it matches |
| EndToEnd.DeliveredMeansReceived | src/a2a_events/runtime/publisher.py:711-726 | every attempt recorded as delivered names an event that the endpoint really holds |
| EndToEnd.AttemptsBounded | src/a2a_events/runtime/publisher.py:745-830 | in every run, also with crashes and lapsed claims, attempt numbers are between one and the ceiling, and a retried attempt is below it |
| EndToEnd.PassedMeansReceived | src/a2a_events/runtime/publisher.py:613-664 | a live matching event at or below the mark is held by the endpoint unless dead-lettered, queued, acked past, or dropped |
| Verdicts.VerdictsFit | src/a2a_events/runtime/publisher.py:745-830 | in every run, crashes included, an attempt is recorded as delivered if and only if its answer acked it, and as a dead letter if and only if it did not and either allowed no retry or came to the last attempt |
| Verdicts.RefusedEndsChain | src/a2a_events/runtime/publisher.py:762-830 | with a retry queue, an attempt that was answered without ack and without retry is the last of its retry id |
| Verdicts.RefusedEndsInline | src/a2a_events/runtime/publisher.py:745-760 | inline, the next attempt of the subscription at the topic after such an answer is the first of another chain |
| InlineRuns.InlineIsFilter | src/a2a_events/runtime/publisher.py:592-664 | inline, across overlapping dispatches: the finished events are exactly the matching ones handed to the loops, in the same strictly increasing order, each live when its page was read, and whatever was passed but not handed over had left retention |
| InlineRuns.InlineChains | src/a2a_events/runtime/publisher.py:745-760 | the attempts at each event are numbered from one without gaps, only the last is final, and no chain is open once the lock is free |
| Quiescence.QuietMeansCaughtUp | src/a2a_events/runtime/publisher.py:558-611 | when no inline call is in progress, a subscription that was always found active has no live event past its mark |
| Quiescence.QuietMeansDelivered | src/a2a_events/runtime/publisher.py:313-326 | at rest, every live matching event past a subscription's start has exactly one final outcome |
| Cutover.CutoverExact | src/a2a_events/runtime/publisher.py:313-325 | whatever happens between capturing a start offset and adding the subscription, no event appended since is before the first mark, except exactly when the start cursor was past the head |
| AckedCursors.AckedNeverBack | src/a2a_events/runtime/publisher.py:939-942 | over any run the stored acked cursor never goes back as a string, whatever it is, nor as an offset between any two issued cursors it holds |
| AckedCursors.IssuedAcksNeverBack | src/a2a_events/runtime/publisher.py:932-948 | over any run in which all explicit acks on a topic carry cursors its log issues, and the log stays within 10^16 events, every stored acked cursor was issued and its offset never decreases |
| AckedCursors.AckBackAnywhere | src/a2a_events/runtime/publisher.py:452-463 | an explicit ack with given digits never takes the acked offset back, whatever cursor is stored, if and only if the digits denote zero |
| AckedCursors.AckBackExactly | src/a2a_events/runtime/publisher.py:452-463 | over stored cursors that were issued, below 10^16, the same if and only if the digits are at least sixteen or denote zero |
| AckedCursors.HeldBackExactly | src/a2a_events/runtime/publisher.py:939-942 | stored digits are never taken back by an issued cursor, delivered or acked, if and only if they are at most sixteen, denote zero or one, or start with sixteen nines |
| Unissued.SortsLikeExactly | src/a2a_events/cursor.py:21-28 | digits stand to every issued cursor as a string as their number stands to its offset, if and only if they are sixteen, or more that denote zero or start with sixteen nines |
| Unissued.NeverBackAnywhereExactly | src/a2a_events/cursor.py:21-28 | digits are greater as a string than none of a greater number, if and only if they denote zero |
| Witnesses.UnpaddedAckGoesBack | src/a2a_events/runtime/publisher.py:939-942 | a run of subscribe, three publishes and two acks ends with the acked offset moved from two to one |
| Witnesses.WideAckTakenBack | src/a2a_events/runtime/publisher.py:939-942 | a run in which an ack of offset ten in seventeen digits is stored and the issued cursor of offset two then replaces it |
| Witnesses.SkippedSilently | src/a2a_events/runtime/publisher.py:961-978 | a run subscribes with a cursor past the head, and an event published afterwards is never attempted: a whole dispatch changes nothing |
| Runtime.Publisher.AttemptSend | src/a2a_events/runtime/publisher.py:700-709 | the send is one step of the machine; only what the endpoint holds changes |
| Runtime.Publisher.RecordAttempt | src/a2a_events/runtime/publisher.py:856-878 | the attempt is appended to the record: as delivered if and only if the answer acked it, as a dead letter if and only if it did not and either allowed no retry or no attempt is left |
| Runtime.Publisher.Advance | src/a2a_events/runtime/publisher.py:932-948 | the acked cursor moves to a greater string only, then the mark is raised and never lowered |
| Runtime.Publisher.OnDelivered | src/a2a_events/runtime/publisher.py:711-726 | the attempt is recorded, the acked cursor moves if that makes it greater as a string, and the mark is raised to the offset |
| Runtime.Publisher.OnTerminal | src/a2a_events/runtime/publisher.py:728-743 | the attempt is recorded as a dead letter, the mark is set to the offset, and no cursor moves |
| Runtime.Publisher.DeliverOne | src/a2a_events/runtime/publisher.py:745-760 | the events are the answers sent in a row: k is the first attempt whose answer acked or refused a retry, or else the ceiling; delivered says whether that one acked; the waits sum to the backoff total; and the cursor and the mark move for a delivered event, the mark alone for a dead letter |
| Runtime.Publisher.DeliverQueued | src/a2a_events/runtime/publisher.py:762-799 | the one answer decides: over if and only if it acked, refused a retry, or there is only one attempt; otherwise exactly the stated retry item is queued for after the first wait, and the mark passes the event by |
| Runtime.Publisher.CatchUp | src/a2a_events/runtime/publisher.py:613-664 | with log and clock still it ends, returns exactly the number of live events past the position even if that expired, and leaves none |
| Runtime.Publisher.DispatchSubscription | src/a2a_events/runtime/publisher.py:592-611 | an inactive or unauthorised subscription processes nothing; otherwise the result is what was owed on all topics, and nothing else moves |
| Runtime.Publisher.DispatchPending | src/a2a_events/runtime/publisher.py:570-583 | the total is what was owed to the subscriptions that may be served, each known one counted once, and afterwards nothing is owed |
| Runtime.Publisher.DispatchTwice | src/a2a_events/runtime/publisher.py:570-583 | a second dispatch right after the first processes nothing |
| Runtime.Publisher.DispatchTopic | src/a2a_events/runtime/publisher.py:585-590 | afterwards every served subscription of the topic is at its head |
| Runtime.Publisher.IsActive | src/a2a_events/runtime/publisher.py:1034-1044 | a lapsed lease is expired in the store; active if and only if the status is, the lease has not run out and delivery is granted |
| Runtime.Publisher.RecordAt | src/a2a_events/runtime/publisher.py:832-854 | for any cursor: refused if malformed, else exactly the live event it names in that topic, also when the predecessor expired or the offset is zero |
| Runtime.Publisher.Compact | src/a2a_events/runtime/publisher.py:238-240 | no event within its retention is dropped and none beyond is kept, of the chosen topics that have one; the count is the number of stored events that were too old; and the world, so every later answer and delivery, stays |
| Reads.NextEvents | src/a2a_events/runtime/publisher.py:627-641 | the page of the full history after a position, or from the start of retention when that position has expired |
| Reads.RecordAt | src/a2a_events/runtime/publisher.py:832-854 | the record that the full history has at a cursor, whatever was compacted |
| Runtime.Publisher.RetryDelivery | src/a2a_events/runtime/publisher.py:801-830 | attempted if and only if the subscription is active and the event within its retention; delivered if and only if the answer acked, given up if and only if it did not and either refused a retry or no attempt is left; and by how it ended, what becomes of the item, the record, the cursor and the mark |
| Runtime.Publisher.RunOnce | src/a2a_events/runtime/retry_worker.py:53-60 | claims the earliest due items up to the batch; each is given up exactly when its subscription is not active or its event not live, else tried once, one past its attempt; tried ones leave one record each, in order, and those to retry are queued again due after their backoff, the others gone; all else in the queue stays |
| Runtime.Publisher.Ack | src/a2a_events/runtime/publisher.py:452-463 | each refusal in its order, told by status and lease; otherwise the cursor moves if that makes it greater as a string and the mark is raised to the offset, on that topic only |
| Runtime.Publisher.Publish | src/a2a_events/runtime/publisher.py:541-568 | unknown topics are refused; otherwise the event is appended and, unless deferred, every served subscription of the topic is at its head |
| Runtime.Publisher.StartAt | src/a2a_events/runtime/publisher.py:961-978 | in the text of the cursor alone: -1 for "earliest"; the last offset for "latest" and for a topic, a colon and digits of another topic; what the digits denote for its own topic, unless retention has passed it; anything else is refused |
| Runtime.Publisher.Subscribe | src/a2a_events/runtime/publisher.py:253-325 | what the checks before and after the topic lookup refuse, an unknown topic, a malformed cursor and an expired one leave no trace, in this order; otherwise repeated topics count once, the start of each topic is what the text of the cursor says (and, deferred, its first mark), and the subscription is stored as asked and, unless deferred, caught up |
| Calls.DedupedInOrder | src/a2a_events/runtime/publisher.py:265-267 | topics without repeats come in the order in which each was first named |
| PublisherRuns.StoresLoseNothing | src/a2a_events/runtime/publisher.py:613-830 | whatever was called on a publisher, each event up to a mark in its subscription store is accounted for in its stores |
| PublisherRuns.EndpointsHoldOnce | src/a2a_events/runtime/publisher.py:711-726 | whatever was called, endpoints hold ids once and delivered attempts of the store name events they hold |
| PublisherRuns.StoresRecordAnswers | src/a2a_events/runtime/publisher.py:745-830 | whatever was called, the verdict of each attempt in the subscription store is the one its answer and its number call for |
| PublisherRuns.AlwaysReady | src/a2a_events/runtime/publisher.py:269-281 | what the dispatching methods require holds whatever was called before |
| Backoff.TotalBound | src/a2a_events/runtime/publisher.py:880-883 | the waits of k attempts sum to at most initial*(2^(k-1)-1) and at most (k-1)*max |
| Backoff.TotalExact | src/a2a_events/runtime/publisher.py:880-883 | while the maximum is not reached the first bound is met exactly |
| Backoff.DelayDoubles | src/a2a_events/runtime/publisher.py:880-883 | the first wait is the initial one, each next wait twice the one before, and the maximum where that would be more |
| Backoff.TotalCapped | src/a2a_events/runtime/publisher.py:880-883 | from the first wait of the maximum on, each further wait adds the maximum |
| EventStore.InMemoryEventStore.Append | src/a2a_events/runtime/memory/event_store.py:66-95 | the new event gets the next offset of the full history, and nothing older changes |
| EventStore.InMemoryEventStore.Compact | src/a2a_events/runtime/memory/event_store.py:97-110 | of each chosen topic with a retention exactly the events no older than that are kept, every other topic stays as it is, and the count is the number of stored events that were too old |
| EventStore.InMemoryEventStore.LiveEvents | src/a2a_events/runtime/memory/event_store.py:113-119 | the live events are the tail of the full history from the first event on that is no older than the retention |
| EventStore.InMemoryEventStore.OldestAvailableCursor | src/a2a_events/runtime/memory/event_store.py:121-123 | the cursor of the first live offset, or nothing |
| EventStore.InMemoryEventStore.LatestCursor | src/a2a_events/runtime/memory/event_store.py:125-131 | the cursor for one less than the count, or zero, whatever was compacted |
| EventStore.InMemoryEventStore.Count | src/a2a_events/runtime/memory/event_store.py:59-63 | the number of events ever appended |
| EventStore.InMemoryEventStore.Read | src/a2a_events/runtime/memory/event_store.py:133-189 | the page of the full history that the cursors, the limit and the clock name, with every error case |
| Pages.ReadingMeans | src/a2a_events/runtime/memory/event_store.py:133-189 | every read in the words of its cursors: which are refused as invalid or expired, and otherwise the first events in range by offset and age, at most the limit but one at least, and a next cursor if and only if more are in range |
| Pages.BacklogCounts | src/a2a_events/runtime/publisher.py:613-670 | what a subscription is owed is the number of events past its mark that are within retention |
| Replay.NextAdvances | src/a2a_events/runtime/memory/event_store.py:167-189 | a next cursor is valid, not expired, and further on |
| Replay.PagesCompose | src/a2a_events/runtime/memory/event_store.py:167-189 | following next cursors with any limit gives exactly the unlimited read |
| Replay.CompactionInvisible | src/a2a_events/runtime/memory/event_store.py:97-110 | a sequence of calls, the publisher's page reads and record lookups among them, without its compactions is legal too, gets the same answers and leaves the same history |
| Replay.Play | src/a2a_events/runtime/memory/event_store.py:59-189 | a store answers any legal sequence of calls as if nothing had ever been dropped |
| Replay.Compare | src/a2a_events/runtime/memory/event_store.py:97-110 | two stores of which only one is ever compacted give the same answers |
| Replay.AppendedStays | src/a2a_events/runtime/memory/event_store.py:81-95 | an appended event keeps its offset in every later state |
| Replay.OffsetsNeverReused | src/a2a_events/runtime/memory/event_store.py:32-36 | of two appends to a topic the later has the greater offset, whatever was compacted in between |
| PostgresRead.MinCursor | src/a2a_events/runtime/postgres/event_store.py:210-224 | the smallest cursor as a string among the live rows |
| PostgresRead.Read | src/a2a_events/runtime/postgres/event_store.py:236-292 | for any cursors and any limit: the page, the error or the exception that comparing whole cursors as strings gives on the full history, whatever was compacted |
| PostgresRead.SameAnswer | src/a2a_events/runtime/postgres/event_store.py:252-254 | with cursors that are refused or have sixteen digits (or more, as below), no empty end and a limit of at least one, that is what the in-memory store answers, errors included |
| PostgresRead.StartExactly | src/a2a_events/runtime/postgres/event_store.py:249-264 | with such an end and limit, both answer alike after a start cursor on every log if and only if it has sixteen digits, or more that denote zero or start with sixteen nines |
| PostgresRead.EndExactly | src/a2a_events/runtime/postgres/event_store.py:266-291 | from the start of retention, both answer alike on every log if and only if both refuse the end, or it is absent or has such digits and the limit is at least one |
| PostgresRead.ShortCursorSkips | src/a2a_events/runtime/postgres/event_store.py:249-264 | after "t:5" the in-memory store returns the seventh event and the table nothing |
| PostgresRead.EmptyEndRefused | src/a2a_events/runtime/postgres/event_store.py:266-267 | an empty end is no end in one store and an invalid cursor in the other |
| PostgresRead.ZeroLimitRaises | src/a2a_events/runtime/postgres/event_store.py:282-291 | a limit of zero raises in one store and returns an event in the other |
| SubscriptionStore.InMemorySubscriptionStore.DeliveryAttempts | src/a2a_events/runtime/memory/subscription_store.py:64-65 | the loop yields the attempts of one subscription |
| SubscriptionStore.AttemptsCount | src/a2a_events/runtime/memory/subscription_store.py:64-65 | which are all of its attempts, each as often as it was recorded, and no other's |
| SubscriptionStore.AttemptsJoin | src/a2a_events/runtime/memory/subscription_store.py:64-65 | in the order in which they were recorded |
| SubscriptionStore.InMemorySubscriptionStore.DeadLetters | src/a2a_events/runtime/memory/subscription_store.py:67-75 | the loop yields the dead-letter list of the attempts |
| SubscriptionStore.BuriedExactly | src/a2a_events/runtime/memory/subscription_store.py:67-75 | an entry is on it if and only if an attempt at its event was dead-lettered |
| SubscriptionStore.BuriedBySub | src/a2a_events/runtime/memory/subscription_store.py:67-75 | as often as in the list of its own subscription's attempts |
| RetryQueue.InMemoryRetryQueue.Enqueue | src/a2a_events/runtime/memory/retry_queue.py:31-33 | the item is in the queue, in its old place if it was there |
| RetryQueue.InMemoryRetryQueue.ClaimDue | src/a2a_events/runtime/memory/retry_queue.py:35-46 | hands out copies of the earliest due items and hides them until the lease ends |
| RetryQueue.InMemoryRetryQueue.Complete | src/a2a_events/runtime/memory/retry_queue.py:48-50 | the item is gone; the others keep what they hold and their order |
| RetryQueue.InMemoryRetryQueue.Reschedule | src/a2a_events/runtime/memory/retry_queue.py:52-64 | a queued item gets its new time and attempt; an unknown id changes nothing |
| RetryQueue.EarliestFirst | src/a2a_events/runtime/memory/retry_queue.py:35-46 | a claim takes due items only, earliest first, each once, and leaves a due item only when the limit is reached by items no later |
| RetryQueue.TiesInQueueOrder | src/a2a_events/runtime/memory/retry_queue.py:39-42 | items due at the same time are claimed in the order in which they were queued |
| RetryQueue.LeaseHides | src/a2a_events/runtime/memory/retry_queue.py:42-46 | a claimed item is in no claim before its lease ends, unless named by another operation, and is due again from then on |
| RetryQueue.NothingLost | src/a2a_events/runtime/memory/retry_queue.py:31-64 | over any operations only completing an item removes it |
| Receiver.EventReceiver.Accept | src/a2a_events/receiver.py:76-135 | 401 and 403 without a retry for bad credentials and skew, 400 without an id; these change nothing. An acked event is held exactly once; a known id is acked again with 200 and no effect; otherwise the answer is the handler's, or 204 |
| Receiver.EachOnce | src/a2a_events/receiver.py:116-135 | however often ids arrive, each is held once, in order of first arrival, and none is made up |
| Receiver.ResendIsSilent | src/a2a_events/receiver.py:116-118 | sending anything again changes nothing |
| Cursors.SplitEncode | src/a2a_events/cursor.py:24-70 | topic and offset are read back from a cursor for every non-empty topic, colons included |
| Cursors.EmptyTopicRefused | src/a2a_events/cursor.py:37-44 | cursors of an empty topic are refused |
| Cursors.EncodeShape | src/a2a_events/cursor.py:21-28 | a cursor is the topic, a colon and digits that denote the offset: sixteen, or more without a leading zero from 10^16 on |
| Cursors.SplitReads | src/a2a_events/cursor.py:31-44 | splitting succeeds if and only if the text is a non-empty topic, a colon and digits, and gives these |
| Cursors.LessAtDifference | src/a2a_events/runtime/publisher.py:939-942 | cursors compare by their first difference, and a prefix comes first |
| Cursors.EncodeOrder | src/a2a_events/cursor.py:21-28 | below 10^16 string order is offset order |
| Cursors.OrderedExactlyBelow | src/a2a_events/cursor.py:21-28 | string order is offset order below a bound if and only if the bound is at most 10^16 |
| Numbers.BodyDenotes | src/a2a_events/signing.py:42-55 | the text of digits and an exponent denotes exactly the digits times the power of ten |
| Numbers.EsNumberDenotes | src/a2a_events/signing.py:31-57 | the text of a finite float denotes its value; which layout it has is `NumberLayout.LayoutByValue` |
| NumberLayout.LayoutByValue | src/a2a_events/signing.py:42-57 | a minus sign exactly for negative values; an exponent exactly below 10^-6 and from 10^21 on; one non-zero digit, no trailing zero in the fraction, a sign and no leading zero in the exponent there; no leading or trailing zeros otherwise |
| NumberLayout.TextExactly | src/a2a_events/signing.py:31-57 | a text is that of a float if and only if it denotes the value in that layout: nothing is left open |
| NumberLayout.PlainTexts | src/a2a_events/signing.py:35-36 | zero of either sign is "0"; an integer is its digits, with a minus sign if and only if it is negative |
| Numbers.FloatsPrintApart | src/a2a_events/signing.py:31-57 | floats print alike if and only if they are the same normal decimal |
| Numbers.IntsPrintApart | src/a2a_events/signing.py:69-70 | integers print alike if and only if they are equal |
| Numbers.IntsMeetFloats | src/a2a_events/signing.py:69-72 | an integer and a float print alike if and only if they are equal and below 10^21 in size |
| Numbers.OneNumberTwoTexts | src/a2a_events/signing.py:69-72 | 10^21 as an integer and as a float are equal and print differently |
| Utf16.KeyOrderIsUnitOrder | src/a2a_events/signing.py:73-76 | comparing big-endian UTF-16 bytes is comparing code units |
| Utf16.UnitOrderIsNotPointOrder | src/a2a_events/signing.py:74-75 | that order differs from code point order |
| Utf16.BeforeAtDifference | src/a2a_events/signing.py:73-76 | code units compare by their first difference, and a prefix comes first |
| Utf16.UnitsStandFor | src/a2a_events/signing.py:73-76 | the code units of a character are itself or the surrogate pair that stands for it |
| Canonical.TextDetermines | src/a2a_events/signing.py:60-79 | from a text that starts with a value, the value and the rest can be told |
| Canonical.InsertionOrderIrrelevant | src/a2a_events/signing.py:73-76 | objects with the same members print the same whatever the insertion order |
| Canonical.CanonDetermines | src/a2a_events/signing.py:60-84 | two values print alike if and only if they are the same JSON value; that the text is JSON for it is `JsonReader.JsonForValue` |
| JsonReader.UnquoteQuoted | src/a2a_events/signing.py:66-67 | a reader made from the JSON grammar gets every string back from its quoted text |
| JsonReader.QuotedShortest | src/a2a_events/signing.py:66-67 | and no quoted text of the string is shorter: nothing is escaped that need not be, and no long form is used where a short one exists |
| JsonReader.EscapeFits | src/a2a_events/signing.py:66-67 | an escape takes at most six characters and has its hexadecimal digits in lower case |
| JsonReader.JsonForValue | src/a2a_events/signing.py:60-79 | that reader accepts the canonical text of every value and gets back that value: words, strings, numbers, items at their places, members by name with the names in code unit order |
| Lease.AutoLeaseRenewer.RetryPause | src/a2a_events/lease.py:128-134 | false exactly when the lease has lapsed; otherwise it waits the minimal sleep or what is left |
| Lease.AutoLeaseRenewer.Run | src/a2a_events/lease.py:105-126 | the attempts, the ending and the recorded renewals are those of the timed recurrence |
| Lease.InTime | src/a2a_events/lease.py:97-103 | an attempt is before expiry if and only if more than the minimal sleep is left |
| Lease.RetryInTime | src/a2a_events/lease.py:128-134 | after a failure the retry is before expiry if and only if more than twice the minimal sleep is left |
| Lease.LateRenewal | src/a2a_events/lease.py:97-103 | a lease shorter than the minimal sleep is renewed after it ran out, even by a prompt server |
| Lease.LateRetry | src/a2a_events/lease.py:105-134 | a run whose second attempt is made half a second after expiry |
| Lease.AlwaysInTime | src/a2a_events/lease.py:105-126 | with prompt grants every attempt is before expiry and the loop never ends by itself |
| Lease.EvenlySpaced | src/a2a_events/lease.py:97-103 | with prompt grants each attempt comes when the configured fraction of the lease has elapsed, or the minimal sleep if that is longer |
| Lease.EndingMeans | src/a2a_events/lease.py:105-134 | the loop ends as terminal if and only if a call found the subscription gone, which is then the last; as lapsed only after a failed call; and as closed only when it is closed |
| Lease.OutageSurvived | src/a2a_events/lease.py:105-134 | an outage that fits with two minimal sleeps into what is left of the lease when a renewal is due is survived with a grant before expiry |
| Lease.GivesUp | src/a2a_events/lease.py:105-134 | if every call fails, the attempts are bounded by the time left over the minimal sleep |
| Lease.FailureEnds | src/a2a_events/lease.py:128-134 | and the loop then ends because the lease ran out |
| Limits.TokenBucketRateLimiter.Check | src/a2a_events/limits.py:103-116 | admitted if and only if the tokens refilled at the rate, at most the capacity, come to one; they, less the one taken, are what the bucket of the key and operation then holds; no other bucket changes |
| Limits.TokensInRange | src/a2a_events/limits.py:103-116 | tokens stay between zero and the capacity |
| Limits.WindowBound | src/a2a_events/limits.py:103-116 | any stretch of calls admits at most the capacity plus rate times its length |
| Limits.RejectedLeavesNoTrace | src/a2a_events/limits.py:108-115 | leaving a rejected call out of a run changes no later verdict |
| Limits.AdmittedStandAlone | src/a2a_events/limits.py:103-116 | the admitted calls alone would all have been admitted |

## Left out

- HTTP, gRPC and JSON-RPC bindings, agent cards, SSRF checks, quotas, pagination tokens, metrics and schema export: plumbing and table lookups.
- Signatures, hashes, delivery tokens and clock skew: in `Receiver` they are one outcome decided before the dedupe; the UTF-8 encoding of the canonical text is not modelled.
- Selectors: a total predicate on an event's content that does not raise.
- The Postgres stores except the event store's read, which is restated over a table already sorted by cursor, with cursors compared character by character.
- Digit generation for floats: a float is a sign, its shortest digits and an exponent. NaN and infinities are refused.
- Strings with lone surrogates, object keys that are not strings, and values that are not JSON: the canonicalizer's type errors.
- Cursor digits outside ASCII, which Python's `isdigit` accepts.
- Live references: a subscription lives in its store and is read there at every use, which is what a live reference shows; the object itself is not modelled.
- Interleaving and crashes are in the machine `Dispatch`, not in the class `Runtime.Publisher`, whose methods run one at a time; the dispatches that a publish starts run one after the other there, in any interleaving in the machine.
- Topic registration after construction: a publisher starts with its topics declared.
- Renew and delete are events of the machine without a method in `Runtime.Publisher`. A renewal is its one write, which may follow a deletion, as the code reads and writes with an await in between.
- One clock reading per store call; the code takes two in a read. The clock does not go back.
- The audit trail of acks is written by the code and read by nothing, so the machine leaves it out.
- The in-memory retry queue does not survive a process; in the machine, as in the Postgres form, it does.
- Times are integer ticks in the protocol and reals in `Lease` and `Limits`; floating-point rounding is not modelled.
- Chains.QueuedChains: is about runs without a crash in which no worker holds an item past its claim; otherwise two workers may try one item side by side, and its numbers repeat.
- The checks of a subscribe call beside topics and cursor (lease bounds, rate limit, selector, authorisation, quota, delivery mode, replay): their outcomes are parameters of `Runtime.Publisher.Subscribe`.
- Verdicts.RefusedEndsChain: is about the runs of `Chains.QueuedChains`, for the same reason; what the record says of each answer holds in all runs.
- InlineRuns.InlineIsFilter: is about runs without a retry queue, crash or explicit ack, as with them order and exactly-once delivery are not promised.
