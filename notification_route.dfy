/** The ad hoc send endpoint of the web application (`POST /api/notification`):
    it composes one message and addresses it by a single token, by a list of
    tokens, or by a platform condition, in that order of precedence. */
module NotificationRoute {
  import opened Common
  import opened Messaging

  const MinTokenLength: nat := 20

  /** A provider token is a string longer than 20 characters. */
  predicate IsValidFcmToken(v: JsValue) {
    v.JsString? && |v.s| > MinTokenLength
  }

  /** `tokens.filter(isValidFCMToken)`: the strings among `ts` that pass. */
  function ValidTokens(ts: seq<JsValue>): (r: seq<string>)
    ensures |r| <= |ts|
    ensures forall i :: 0 <= i < |r| ==> IsValidFcmToken(JsString(r[i]))
    ensures forall t :: t in r <==> JsString(t) in ts && IsValidFcmToken(JsString(t))
  {
    if ts == [] then []
    else
      var rest := ValidTokens(ts[1..]);
      assert forall v :: v in ts <==> v == ts[0] || v in ts[1..];
      if IsValidFcmToken(ts[0]) then [ts[0].s] + rest else rest
  }

  /** Filtering commutes with concatenation: the valid tokens keep the order
      in which they were submitted. */
  lemma {:induction false} ValidTokensAppend(a: seq<JsValue>, b: seq<JsValue>)
    ensures ValidTokens(a + b) == ValidTokens(a) + ValidTokens(b)
  {
    if a == [] {
      assert a + b == b;
    } else {
      assert (a + b)[1..] == a[1..] + b;
      ValidTokensAppend(a[1..], b);
    }
  }

  /** Every submitted string token appears in the filtered list exactly as
      often as it was submitted, or not at all. */
  lemma {:induction false} ValidTokensCount(ts: seq<JsValue>, t: string)
    ensures Count(ValidTokens(ts), t)
         == if IsValidFcmToken(JsString(t)) then Count(ts, JsString(t)) else 0
  {
    if ts != [] {
      ValidTokensCount(ts[1..], t);
    }
  }

  /** `baseMessage`: title and body as given, the image only when truthy, and
      the caller's data with a `timestamp` entry set to `now`. */
  function BaseMessage(req: SendRequest, now: string): (m: Message)
    ensures m.notification.title == req.title && m.notification.body == req.body
    ensures m.notification.imageUrl == if Truthy(req.imageUrl) then req.imageUrl else None
    ensures m.data.Keys == req.data.GetOr(map[]).Keys + {"timestamp"}
    ensures m.data["timestamp"] == now
    ensures forall k :: k in req.data.GetOr(map[]) && k != "timestamp"
              ==> m.data[k] == req.data.GetOr(map[])[k]
  {
    var data := req.data.GetOr(map[]);
    var stamped := data["timestamp" := now];
    Message(
      Notification(req.title, req.body, if Truthy(req.imageUrl) then req.imageUrl else None),
      if "link" in data && data["link"] != "" then stamped["link" := data["link"]] else stamped)
  }

  /** The topic condition for a platform name; any other value is refused. */
  function PlatformCondition(p: JsValue): (c: Option<string>)
    ensures c.Some? <==> p in [JsString("ios"), JsString("android"), JsString("all")]
    ensures c.Some? ==> p.JsString? && c.value == "'" + p.s + "' in topics"
  {
    TopicConditions();
    if p == JsString("ios") then Some("'ios' in topics")
    else if p == JsString("android") then Some("'android' in topics")
    else if p == JsString("all") then Some("'all' in topics")
    else None
  }

  /** The three conditions name their platform between quotes. */
  lemma TopicConditions()
    ensures "'ios' in topics" == "'" + "ios" + "' in topics"
    ensures "'android' in topics" == "'" + "android" + "' in topics"
    ensures "'all' in topics" == "'" + "all" + "' in topics"
  {
  }

  predicate TokenGiven(req: SendRequest) {
    req.token.Some? && JsTruthy(req.token.value)
  }

  predicate TokensGiven(req: SendRequest) {
    req.tokens.Some? && |req.tokens.value| > 0
  }

  predicate PlatformGiven(req: SendRequest) {
    req.platform.Some? && JsTruthy(req.platform.value)
  }

  /** The POST handler up to the provider call. */
  function Dispatch(req: SendRequest, now: string): (d: Outcome)
    ensures d.Reject? ==> d.status == 400
    ensures d.Send? ==> d.message == BaseMessage(req, now)
    ensures TokenGiven(req) ==>
      (d.Send? <==> IsValidFcmToken(req.token.value))
      && (d.Send? ==> d.address == ToToken(req.token.value.s))
      && (d.Reject? ==> d.error == ErrInvalidToken)
    ensures !TokenGiven(req) && TokensGiven(req) ==>
      (d.Send? <==> ValidTokens(req.tokens.value) != [])
      && (d.Send? ==> d.address == ToTokens(ValidTokens(req.tokens.value), |req.tokens.value|))
      && (d.Reject? ==> d.error == ErrNoValidTokens)
    ensures !TokenGiven(req) && !TokensGiven(req) && PlatformGiven(req) ==>
      (d.Send? <==> PlatformCondition(req.platform.value).Some?)
      && (d.Send? ==> d.address == ToCondition(PlatformCondition(req.platform.value).value))
      && (d.Reject? ==> d.error == ErrInvalidPlatform)
    ensures !TokenGiven(req) && !TokensGiven(req) && !PlatformGiven(req) ==>
      d == Reject(400, ErrTargetRequired)
  {
    var base := BaseMessage(req, now);
    if TokenGiven(req) then
      if !IsValidFcmToken(req.token.value) then Reject(400, ErrInvalidToken)
      else Send(ToToken(req.token.value.s), base)
    else if TokensGiven(req) then
      var valid := ValidTokens(req.tokens.value);
      if |valid| == 0 then Reject(400, ErrNoValidTokens)
      else Send(ToTokens(valid, |req.tokens.value|), base)
    else if PlatformGiven(req) then
      match PlatformCondition(req.platform.value)
      case None => Reject(400, ErrInvalidPlatform)
      case Some(condition) => Send(ToCondition(condition), base)
    else
      Reject(400, ErrTargetRequired)
  }

  /** A truthy `token` decides the outcome alone: `tokens` and `platform` are
      never consulted. */
  lemma TokenTakesPrecedence(req: SendRequest, now: string,
                             tokens: Option<seq<JsValue>>, platform: Option<JsValue>)
    requires TokenGiven(req)
    ensures Dispatch(req, now) == Dispatch(req.(tokens := tokens, platform := platform), now)
  {
  }

  /** A non-empty `tokens` list decides the outcome when no token is given:
      `platform` is not consulted. */
  lemma TokensTakePrecedence(req: SendRequest, now: string, platform: Option<JsValue>)
    requires !TokenGiven(req) && TokensGiven(req)
    ensures Dispatch(req, now) == Dispatch(req.(platform := platform), now)
  {
  }

  /** Every send goes to a well-formed address: a valid token, a non-empty
      list of valid tokens no longer than what was submitted, or one of the
      three platform conditions. */
  lemma {:induction false} SendAddressWellFormed(req: SendRequest, now: string)
    requires Dispatch(req, now).Send?
    ensures match Dispatch(req, now).address
      case ToToken(t) => IsValidFcmToken(JsString(t))
      case ToTokens(ts, total) =>
        0 < |ts| <= total && forall i :: 0 <= i < |ts| ==> IsValidFcmToken(JsString(ts[i]))
      case ToCondition(c) => c in ["'ios' in topics", "'android' in topics", "'all' in topics"]
  {
    if TokenGiven(req) {
    } else if TokensGiven(req) {
    } else {
      var p := req.platform.value;
      assert p in [JsString("ios"), JsString("android"), JsString("all")];
    }
  }
}
