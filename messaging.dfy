/** What the two ad hoc send endpoints share: the request body, the message
    they compose, the address they pick, and the answer they give. */
module Messaging {
  import opened Common

  /** The JSON body of a send request. `token`, `tokens` and `platform` are
      looked at for their JavaScript type and truthiness, so they keep it. */
  datatype SendRequest = SendRequest(
    title: Option<string>,
    body: Option<string>,
    imageUrl: Option<string>,
    data: Option<map<string, string>>,
    token: Option<JsValue>,
    tokens: Option<seq<JsValue>>,
    platform: Option<JsValue>)

  datatype Notification = Notification(
    title: Option<string>,
    body: Option<string>,
    imageUrl: Option<string>)

  datatype Message = Message(notification: Notification, data: map<string, string>)

  /** Exactly one addressing mode per send. A multicast also remembers how
      many tokens the caller submitted before filtering. */
  datatype Address =
    | ToToken(token: string)
    | ToTokens(tokens: seq<string>, totalTokens: nat)
    | ToCondition(condition: string)

  /** The outcome of a request before the provider is called: either one send
      to one address, or an HTTP error and no send. */
  datatype Outcome =
    | Send(address: Address, message: Message)
    | Reject(status: int, error: string)

  const ErrInvalidToken: string := "유효하지 않은 토큰입니다"
  const ErrNoValidTokens: string := "유효한 토큰이 없습니다"
  const ErrInvalidPlatform: string := "유효하지 않은 플랫폼입니다"
  const ErrTargetRequired: string := "토큰 또는 플랫폼 정보가 필요합니다"
  const ErrSendFailed: string := "알림 전송 실패"

  /** What the messaging provider answered: a message id for a single send,
      per-token counts for a multicast, or an exception with its message. */
  datatype ProviderReply =
    | Delivered(messageId: string)
    | MulticastDelivered(successCount: nat, failureCount: nat)
    | Threw(message: string)

  /** A reply of the kind the provider gives for this address. */
  predicate ReplyFits(address: Address, reply: ProviderReply) {
    match reply
    case Delivered(_) => !address.ToTokens?
    case MulticastDelivered(_, _) => address.ToTokens?
    case Threw(_) => true
  }

  datatype Response =
    | SentOne(messageId: string)
    | SentMany(success: nat, failure: nat, totalTokens: nat, validTokens: nat)
    | Failed(status: int, error: string)

  /** The JSON answer of either endpoint, once the provider has replied. A
      provider exception becomes a 500 carrying its message, or a fixed text
      when the message is empty. */
  function Respond(d: Outcome, reply: ProviderReply): (r: Response)
    requires d.Send? ==> ReplyFits(d.address, reply)
    ensures d.Reject? ==> r == Failed(d.status, d.error)
    ensures d.Send? && reply.Threw? ==> r.Failed? && r.status == 500 && r.error != ""
    ensures d.Send? && reply.Threw? ==>
              r.error == (if reply.message != "" then reply.message else ErrSendFailed)
    ensures d.Send? && reply.Delivered? ==> r == SentOne(reply.messageId)
    ensures d.Send? && reply.MulticastDelivered? ==>
              && r.SentMany?
              && r.success == reply.successCount && r.failure == reply.failureCount
              && r.validTokens == |d.address.tokens| && r.totalTokens == d.address.totalTokens
    ensures r.SentMany? ==>
              && d.Send? && d.address.ToTokens?
              && r.validTokens == |d.address.tokens|
              && r.totalTokens == d.address.totalTokens
    ensures r.SentOne? ==> d.Send? && !d.address.ToTokens? && reply == Delivered(r.messageId)
  {
    match d
    case Reject(status, error) => Failed(status, error)
    case Send(address, _) =>
      match reply
      case Threw(msg) => Failed(500, if msg != "" then msg else ErrSendFailed)
      case Delivered(id) => SentOne(id)
      case MulticastDelivered(ok, failed) =>
        SentMany(ok, failed, address.totalTokens, |address.tokens|)
  }
}
