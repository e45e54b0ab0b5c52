/** The rows, commands and answers of the messaging module. */
module Domain {
  type Pos = x: int | 0 < x witness 1

  datatype Option<+T> = None | Some(value: T)

  datatype MessageType = TypeOtp | TypeText

  datatype DeliveryMode = Express | Normal

  // The two remaining values of the schema, accepted and rejected, are never stored;
  // rejected appears in the answer of a send only.
  datatype MessageStatus = MessageQueued | MessageSending | MessageSent | MessageFailed | MessageRejected

  datatype ErrorCode = InvalidMobile | InsufficientBalance | ProviderError | OutboxExhausted

  datatype OutboxStatus = OutboxPending | OutboxPublishing | OutboxPublished | OutboxFailed

  // The command of a send. Its idempotency key is not part of the hashed body.
  datatype OtpRecipient = OtpRecipient(mobile: string, variables: map<string, string>)
  datatype OtpPayload = OtpPayload(mode: DeliveryMode, template: string, recipients: seq<OtpRecipient>)
  datatype TextPayload = TextPayload(mode: DeliveryMode, text: string, recipients: seq<string>)
  datatype SendRequest = SendRequest(userId: int, key: string, otp: Option<OtpPayload>, text: Option<TextPayload>)

  // SHA-256 over the JSON body, idealised as an injective function that never yields "".
  datatype Hash = NoHash | Digest(userId: int, otp: Option<OtpPayload>, text: Option<TextPayload>)

  function PayloadHash(cmd: SendRequest): Hash {
    Digest(cmd.userId, cmd.otp, cmd.text)
  }

  // A row of messages; its id is the key under which the table holds it.
  datatype Message = Message(
    requestId: int, userId: int, recipient: string, kind: MessageType, mode: DeliveryMode, text: string,
    cost: int, status: MessageStatus, errorCode: Option<ErrorCode>, updatedAt: int)

  // The columns of a message that no statement updates after the insert.
  datatype Content = Content(
    requestId: int, userId: int, recipient: string, kind: MessageType, mode: DeliveryMode, text: string, cost: int)

  function ContentOf(m: Message): Content {
    Content(m.requestId, m.userId, m.recipient, m.kind, m.mode, m.text, m.cost)
  }

  predicate Terminal(m: Message) {
    m.status.MessageSent? || m.status.MessageFailed?
  }

  // The JSON value of an outbox event and of a Kafka record.
  datatype SmsEvent = SmsEvent(
    messageId: int, requestId: int, userId: int, recipient: string, text: string,
    kind: MessageType, mode: DeliveryMode, cost: int)

  datatype OutboxEvent = OutboxEvent(
    aggregateId: int, topic: string, partitionKey: string, payload: SmsEvent,
    status: OutboxStatus, attempts: int, lastError: Option<string>, publishedAt: Option<int>, lockedAt: Option<int>)

  // One line of the answer of a send; id 0 stands for a recipient that was not stored.
  datatype MessageResult = MessageResult(
    id: int, recipient: string, kind: MessageType, mode: DeliveryMode, status: MessageStatus,
    cost: int, errorCode: Option<ErrorCode>, text: string)

  function ToMessageResult(id: int, m: Message): MessageResult {
    MessageResult(id, m.recipient, m.kind, m.mode, m.status, m.cost, m.errorCode, m.text)
  }

  datatype SendResult = SendResult(
    requestId: int, totalCost: int, acceptedCount: int, rejectedCount: int, skippedCount: int,
    messages: seq<MessageResult>, skipped: seq<MessageResult>)

  datatype Request = Request(
    userId: int, key: string, hash: Hash, totalCost: int, accepted: int, rejected: int, response: Option<SendResult>)

  // How a write ended: done, not done, or done while its caller saw an error.
  datatype Fate = Done | Aborted | Lost

  datatype ClaimOutcome = ClaimAcquired | ClaimAlreadySent | ClaimAlreadyFailed | ClaimInFlight | ClaimNotFound

  // smsCost is 1 and maxAttempts defaults to 10 in the program; every result holds for all values.
  datatype Config = Config(
    smsCost: Pos, maxAttempts: Pos, batchSize: Pos, topicNormal: string, topicExpress: string)
}
