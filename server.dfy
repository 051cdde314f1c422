/** The standalone express server: its own copy of the send endpoint
    (`POST /send-notification`) and the event-automation registration
    (`POST /event-automation`), which writes one rule per event type. */
module Server {
  import opened Common
  import opened Messaging
  import Events
  import NotificationRoute

  /** The server's own token check: a string longer than 20 characters. */
  predicate IsValidFcmToken(v: JsValue) {
    match v
    case JsString(s) => |s| > 20
    case JsOther(_) => false
  }

  /** The server's token check accepts exactly what the web route accepts. */
  lemma SameTokenCheck(v: JsValue)
    ensures IsValidFcmToken(v) <==> NotificationRoute.IsValidFcmToken(v)
  {
  }

  function FilterTokens(ts: seq<JsValue>): seq<string> {
    if ts == [] then []
    else if IsValidFcmToken(ts[0]) then [ts[0].s] + FilterTokens(ts[1..])
    else FilterTokens(ts[1..])
  }

  /** The `/send-notification` handler up to the provider call. */
  function SendNotification(req: SendRequest, now: string): (d: Outcome)
    ensures d.Reject? ==> d.status == 400
  {
    var data := req.data.GetOr(map[]);
    var stamped := data["timestamp" := now];
    var base := Message(
      Notification(req.title, req.body, if Truthy(req.imageUrl) then req.imageUrl else None),
      if "link" in data && data["link"] != "" then stamped["link" := data["link"]] else stamped);
    if req.token.Some? && JsTruthy(req.token.value) then
      if IsValidFcmToken(req.token.value) then Send(ToToken(req.token.value.s), base)
      else Reject(400, ErrInvalidToken)
    else if req.tokens.Some? && |req.tokens.value| > 0 then
      var valid := FilterTokens(req.tokens.value);
      if valid == [] then Reject(400, ErrNoValidTokens)
      else Send(ToTokens(valid, |req.tokens.value|), base)
    else if req.platform.Some? && JsTruthy(req.platform.value) then
      var p := req.platform.value;
      if p !in [JsString("ios"), JsString("android"), JsString("all")] then
        Reject(400, ErrInvalidPlatform)
      else
        Send(ToCondition(
          if p.s == "ios" then "'ios' in topics"
          else if p.s == "android" then "'android' in topics"
          else "'all' in topics"), base)
    else
      Reject(400, ErrTargetRequired)
  }

  lemma {:induction false} FilterTokensAgrees(ts: seq<JsValue>)
    ensures FilterTokens(ts) == NotificationRoute.ValidTokens(ts)
  {
    if ts != [] {
      FilterTokensAgrees(ts[1..]);
    }
  }

  /** Both send endpoints decide alike on every request: the same precedence
      (token, then tokens, then platform), the same error cases and the same
      message. */
  lemma SendNotificationMatchesRoute(req: SendRequest, now: string)
    ensures SendNotification(req, now) == NotificationRoute.Dispatch(req, now)
  {
    if req.tokens.Some? {
      FilterTokensAgrees(req.tokens.value);
    }
  }

  // ---------------------------------------------------------------------------
  // Event automation registration

  /** The `notification` object of a registration: title and body are looked
      at for truthiness; the rest is stored as submitted. */
  datatype NotificationBody = NotificationBody(
    title: Option<JsValue>,
    body: Option<JsValue>,
    imageUrl: Option<string>,
    data: Option<map<string, string>>)

  /** `None` stands for a missing or null field. */
  datatype RegistrationRequest = RegistrationRequest(
    eventType: Option<JsValue>,
    notification: Option<NotificationBody>)

  /** The stored rule document; timestamps are the store's, kept opaque. */
  datatype EventAutomation = EventAutomation(
    eventType: string,
    notification: NotificationBody,
    createdAt: string,
    updatedAt: string)

  datatype Registration =
    | Accepted(eventType: string, notification: NotificationBody)
    | Refused(status: int, error: string)

  const ErrEventFieldsRequired: string := "이벤트 타입과 알림 정보가 필요합니다"
  const ErrTitleBodyRequired: string := "알림의 제목과 내용이 필요합니다"
  const ErrUnknownEventType: string := "유효하지 않은 이벤트 타입입니다"

  predicate Present(v: Option<JsValue>) {
    v.Some? && JsTruthy(v.value)
  }

  /** The three checks of the handler, in order. */
  function Validate(req: RegistrationRequest): (r: Registration)
    ensures r.Refused? ==> r.status == 400
    ensures r.Accepted? ==>
              && req.eventType == Some(JsString(r.eventType))
              && req.notification == Some(r.notification)
              && Events.IsEventType(r.eventType)
              && Present(r.notification.title) && Present(r.notification.body)
    ensures !Present(req.eventType) || req.notification.None? ==>
              r == Refused(400, ErrEventFieldsRequired)
    ensures Present(req.eventType) && req.notification.Some?
            && !(Present(req.notification.value.title) && Present(req.notification.value.body)) ==>
              r == Refused(400, ErrTitleBodyRequired)
    ensures Present(req.eventType) && req.notification.Some?
            && Present(req.notification.value.title) && Present(req.notification.value.body)
            && !(req.eventType.value.JsString? && Events.IsEventType(req.eventType.value.s)) ==>
              r == Refused(400, ErrUnknownEventType)
  {
    if !Present(req.eventType) || req.notification.None? then
      Refused(400, ErrEventFieldsRequired)
    else if !Present(req.notification.value.title) || !Present(req.notification.value.body) then
      Refused(400, ErrTitleBodyRequired)
    else if !(req.eventType.value.JsString? && Events.IsEventType(req.eventType.value.s)) then
      Refused(400, ErrUnknownEventType)
    else
      Accepted(req.eventType.value.s, req.notification.value)
  }

  /** A registration is accepted exactly when both fields are present, title
      and body are truthy, and the event type is a key of the catalog. */
  lemma ValidateAcceptsExactly(req: RegistrationRequest)
    ensures Validate(req).Accepted? <==>
              && req.eventType.Some? && req.eventType.value.JsString?
              && Events.IsEventType(req.eventType.value.s)
              && req.notification.Some?
              && Present(req.notification.value.title)
              && Present(req.notification.value.body)
  {
  }

  /** The title/body check comes before the catalog check: a request with an
      unknown event type and an empty title is refused for the title. */
  lemma TitleCheckedBeforeCatalog(req: RegistrationRequest)
    requires Present(req.eventType) && req.notification.Some?
    requires !Present(req.notification.value.title)
    ensures Validate(req) == Refused(400, ErrTitleBodyRequired)
  {
  }

  /** The store after a registration: an accepted one `set`s the document
      under its event type, replacing whatever was there. */
  function AfterRegister(docs: map<string, EventAutomation>, req: RegistrationRequest, now: string)
    : (r: map<string, EventAutomation>)
    ensures Validate(req).Refused? ==> r == docs
    ensures Validate(req).Accepted? ==>
              && r.Keys == docs.Keys + {Validate(req).eventType}
              && r[Validate(req).eventType].notification == Validate(req).notification
              && forall k :: k in docs && k != Validate(req).eventType ==> r[k] == docs[k]
  {
    match Validate(req)
    case Refused(_, _) => docs
    case Accepted(t, n) => docs[t := EventAutomation(t, n, now, now)]
  }

  /** Every stored document sits under its own event type, which is a key of
      the catalog. */
  ghost predicate Keyed(docs: map<string, EventAutomation>) {
    forall k :: k in docs ==> Events.IsEventType(k) && docs[k].eventType == k
  }

  lemma AfterRegisterKeyed(docs: map<string, EventAutomation>, req: RegistrationRequest, now: string)
    requires Keyed(docs)
    ensures Keyed(AfterRegister(docs, req, now))
  {
  }

  /** Registering twice for the same event type leaves only the second rule. */
  lemma ReRegisterReplaces(docs: map<string, EventAutomation>,
                           first: RegistrationRequest, second: RegistrationRequest,
                           now1: string, now2: string)
    requires Validate(first).Accepted? && Validate(second).Accepted?
    requires Validate(first).eventType == Validate(second).eventType
    ensures AfterRegister(AfterRegister(docs, first, now1), second, now2)
         == AfterRegister(docs, second, now2)
  {
  }

  /** The `event-automations` collection of the server. */
  class EventAutomationStore {
    var docs: map<string, EventAutomation>

    ghost predicate Valid()
      reads this
    {
      Keyed(docs)
    }

    constructor ()
      ensures Valid() && docs == map[]
    {
      docs := map[];
    }

    /** `POST /event-automation`: validate, then `set` the document keyed by
        the event type, and echo what was submitted. */
    method Register(req: RegistrationRequest, now: string) returns (r: Registration)
      requires Valid()
      modifies this
      ensures Valid()
      ensures r == Validate(req)
      ensures docs == AfterRegister(old(docs), req, now)
      ensures r.Refused? ==> docs == old(docs)
      ensures r.Accepted? ==> docs == old(docs)[r.eventType := EventAutomation(r.eventType, r.notification, now, now)]
    {
      r := Validate(req);
      if r.Accepted? {
        docs := docs[r.eventType := EventAutomation(r.eventType, r.notification, now, now)];
      }
      AfterRegisterKeyed(old(docs), req, now);
    }
  }
}
