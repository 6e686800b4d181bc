/** The plain data records that the stores, the publisher and the workers exchange. */
module Contracts {

  datatype Option<+T> = None | Some(value: T)

  datatype Result<+T, +E> = Success(value: T) | Failure(error: E)

  /** The protocol errors a store or publisher call can answer with. */
  datatype ErrorCode =
    | TopicNotFound
    | InvalidCursor
    | CursorExpired
    | TopicNotAuthorized
    | SubscriptionNotFound
    | SubscriptionExpired
    | RateLimited

  /** What a selector can see of an event. */
  datatype Content = Content(kind: string, subject: Option<string>, data: string)

  /** One logged event. Its public cursor is the encoding of `topic` and `offset`. */
  datatype EventRecord = EventRecord(eventId: string, topic: string, offset: nat, content: Content, createdAt: int)

  datatype AttemptStatus = Delivered | Retry | DeadLetter

  /** One recorded delivery attempt; `topic` and `offset` are the parts of its cursor. */
  datatype DeliveryAttempt = DeliveryAttempt(
    sub: string, eventId: string, topic: string, offset: nat, attempt: nat, status: AttemptStatus)

  /** One event waiting for re-delivery to one subscription. */
  datatype RetryItem = RetryItem(
    retryId: string, sub: string, topic: string, offset: nat, eventId: string, attempt: nat, nextRetryAt: int)

  datatype SubscriptionStatus = Active | Expired | Deleted

  datatype Subscription = Subscription(
    topics: seq<string>,
    selector: Content -> bool,
    endpoint: string,
    status: SubscriptionStatus,
    leaseUntil: int,
    cursors: map<string, string>)

  function Max(a: int, b: int): int { if a > b then a else b }

  function Min(a: int, b: int): int { if a < b then a else b }
}
