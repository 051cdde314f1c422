/** The shared record types of the admin console: the event catalog and the
    automation rule as the web application stores it. */
module Events {
  import opened Common

  /** The event catalog: each key is an event type, each value its label. */
  const EventNotifications: map<string, string> := map[
    "AcademyVerifyView_VIEW" := "아카데미 인증 화면 조회",
    "Appmenu_select" := "앱 메뉴 선택",
    "cardNotRegistered_VIEW" := "카드 미등록 화면 조회"
  ]

  /** `EventType`: the keys of the catalog. */
  predicate IsEventType(s: string) {
    s in EventNotifications
  }

  datatype NotificationPayload = NotificationPayload(
    title: string,
    body: string,
    imageUrl: Option<string>,
    clickAction: Option<string>,
    data: Option<map<string, string>>)

  datatype ScheduleType = Once | Daily | Weekly | Monthly

  datatype Schedule = Schedule(
    kind: ScheduleType,
    startDate: string,
    endDate: Option<string>,
    daysOfWeek: Option<seq<int>>,
    time: Option<string>)

  datatype Target = Target(all: bool, ios: bool, android: bool)

  /** Dates are kept as milliseconds since the epoch, so that they order. */
  datatype AutomationHistory = AutomationHistory(
    id: string,
    timestamp: int,
    success: bool,
    error: Option<string>,
    recipients: Option<nat>)

  datatype AutomationStats = AutomationStats(
    sent: nat,
    success: nat,
    failure: nat,
    clicks: nat,
    conversions: nat)

  /** Who created a rule. */
  datatype Creator = Creator(id: string, email: string, name: string)

  /** `archived` is optional: a stored rule may lack the field altogether. */
  datatype AutomationRule = AutomationRule(
    id: string,
    name: string,
    eventType: string,
    notification: NotificationPayload,
    schedule: Option<Schedule>,
    target: Target,
    enabled: bool,
    archived: Option<bool>,
    createdAt: int,
    updatedAt: int,
    lastTriggered: Option<int>,
    createdBy: Option<Creator>,
    stats: Option<AutomationStats>,
    history: seq<AutomationHistory>)
}
