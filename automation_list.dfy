/** The rule list of the web application (`GET /api/automation/list`): an
    authentication gate, parameter defaults, equality filters and an ordering
    applied by the store, then a case-insensitive search over the result.
    The store is the sequence of rule documents in its default order. */
module AutomationList {
  import opened Common
  import opened Events
  import opened Sorting

  /** The query string; `None` is a missing parameter. */
  datatype ListParams = ListParams(
    status: Option<string>,
    platform: Option<string>,
    search: Option<string>,
    sort: Option<string>,
    order: Option<string>)

  datatype Query = Query(status: string, platform: string, search: string, sort: string, order: string)

  /** `searchParams.get(name) || fallback`. */
  function Param(p: Option<string>, fallback: string): string {
    if Truthy(p) then p.value else fallback
  }

  function WithDefaults(p: ListParams): Query {
    Query(Param(p.status, "all"), Param(p.platform, "all"), Param(p.search, ""),
          Param(p.sort, "createdAt"), Param(p.order, "desc"))
  }

  /** An empty query string means status `all`, platform `all`, no search,
      newest first by `createdAt`. */
  lemma DefaultQuery()
    ensures WithDefaults(ListParams(None, None, None, None, None))
         == Query("all", "all", "", "createdAt", "desc")
  {
  }

  /** The status filter. An equality filter never matches a document that
      lacks the field, so a rule without `archived` is neither active nor
      inactive nor archived. Any other status adds no filter. */
  predicate StatusMatches(status: string, r: AutomationRule) {
    if status == "active" then r.enabled && r.archived == Some(false)
    else if status == "inactive" then !r.enabled && r.archived == Some(false)
    else if status == "archived" then r.archived == Some(true)
    else true
  }

  /** `target.<platform> == true`; a platform that names no target flag
      matches no document. */
  predicate PlatformMatches(platform: string, r: AutomationRule) {
    platform == "all"
    || (platform == "ios" && r.target.ios)
    || (platform == "android" && r.target.android)
  }

  /** A sortable field value, in the store's order of types: booleans, then
      numbers and dates, then strings. */
  datatype SortKey = KBool(b: bool) | KNum(n: int) | KText(s: string)

  function TypeRank(k: SortKey): nat {
    match k
    case KBool(_) => 0
    case KNum(_) => 1
    case KText(_) => 2
  }

  predicate KeyLe(a: SortKey, b: SortKey) {
    if TypeRank(a) != TypeRank(b) then TypeRank(a) < TypeRank(b)
    else match (a, b)
      case (KBool(x), KBool(y)) => !x || y
      case (KNum(x), KNum(y)) => x <= y
      case (KText(x), KText(y)) => StrLe(x, y)
      case _ => true
  }

  function Text(s: Option<string>): Option<SortKey> {
    if s.Some? then Some(KText(s.value)) else None
  }

  function Number(n: Option<int>): Option<SortKey> {
    if n.Some? then Some(KNum(n.value)) else None
  }

  function ScheduleTypeName(t: ScheduleType): string {
    match t
    case Once => "once"
    case Daily => "daily"
    case Weekly => "weekly"
    case Monthly => "monthly"
  }

  /** The value of a top-level or dotted scalar field of a rule; `None` when
      the document lacks it. `__name__` is the document id, which a stored
      rule also carries as its `id` field. Map- and array-valued fields are
      not orderable here. */
  function FieldValue(r: AutomationRule, field: string): Option<SortKey> {
    if field == "__name__" || field == "id" then Some(KText(r.id))
    else if field == "name" then Some(KText(r.name))
    else if field == "eventType" then Some(KText(r.eventType))
    else if field == "createdAt" then Some(KNum(r.createdAt))
    else if field == "updatedAt" then Some(KNum(r.updatedAt))
    else if field == "enabled" then Some(KBool(r.enabled))
    else if field == "archived" then (if r.archived.Some? then Some(KBool(r.archived.value)) else None)
    else if field == "lastTriggered" then Number(r.lastTriggered)
    else if field == "target.all" then Some(KBool(r.target.all))
    else if field == "target.ios" then Some(KBool(r.target.ios))
    else if field == "target.android" then Some(KBool(r.target.android))
    else if field == "notification.title" then Some(KText(r.notification.title))
    else if field == "notification.body" then Some(KText(r.notification.body))
    else if field == "notification.imageUrl" then Text(r.notification.imageUrl)
    else if field == "notification.clickAction" then Text(r.notification.clickAction)
    else if field in ["schedule.type", "schedule.startDate", "schedule.endDate", "schedule.time"] then
      ScheduleField(r.schedule, field)
    else if field in ["createdBy.id", "createdBy.email", "createdBy.name"] then
      CreatorField(r.createdBy, field)
    else StatsField(r.stats, field)
  }

  function ScheduleField(s: Option<Schedule>, field: string): Option<SortKey> {
    if s.None? then None
    else if field == "schedule.type" then Some(KText(ScheduleTypeName(s.value.kind)))
    else if field == "schedule.startDate" then Some(KText(s.value.startDate))
    else if field == "schedule.endDate" then Text(s.value.endDate)
    else if field == "schedule.time" then Text(s.value.time)
    else None
  }

  function CreatorField(c: Option<Creator>, field: string): Option<SortKey> {
    if c.None? then None
    else if field == "createdBy.id" then Some(KText(c.value.id))
    else if field == "createdBy.email" then Some(KText(c.value.email))
    else if field == "createdBy.name" then Some(KText(c.value.name))
    else None
  }

  function StatsField(s: Option<AutomationStats>, field: string): Option<SortKey> {
    if s.None? then None
    else if field == "stats.sent" then Some(KNum(s.value.sent))
    else if field == "stats.success" then Some(KNum(s.value.success))
    else if field == "stats.failure" then Some(KNum(s.value.failure))
    else if field == "stats.clicks" then Some(KNum(s.value.clicks))
    else if field == "stats.conversions" then Some(KNum(s.value.conversions))
    else None
  }

  predicate HasField(field: string, r: AutomationRule) {
    FieldValue(r, field).Some?
  }

  /** `a` comes before or with `b` when ordering by `field` in the given
      direction. Documents without the field never reach the ordering; they
      compare lowest only to make the order total. */
  predicate RuleLe(field: string, descending: bool, a: AutomationRule, b: AutomationRule) {
    var ka := FieldValue(a, field);
    var kb := FieldValue(b, field);
    if ka.None? || kb.None? then ka.None?
    else if descending then KeyLe(kb.value, ka.value)
    else KeyLe(ka.value, kb.value)
  }

  lemma KeyLeTotal(a: SortKey, b: SortKey)
    ensures KeyLe(a, b) || KeyLe(b, a)
  {
    if a.KText? && b.KText? {
      StrLeTotal(a.s, b.s);
    }
  }

  lemma KeyLeTransitive(a: SortKey, b: SortKey, c: SortKey)
    requires KeyLe(a, b) && KeyLe(b, c)
    ensures KeyLe(a, c)
  {
    if a.KText? && b.KText? && c.KText? {
      StrLeTransitive(a.s, b.s, c.s);
    }
  }

  lemma RuleOrderIsTotalPreorder(field: string, descending: bool)
    ensures TotalPreorder((a, b) => RuleLe(field, descending, a, b))
  {
    forall a, b
      ensures RuleLe(field, descending, a, b) || RuleLe(field, descending, b, a)
    {
      var ka, kb := FieldValue(a, field), FieldValue(b, field);
      if ka.Some? && kb.Some? {
        KeyLeTotal(ka.value, kb.value);
      }
    }
    forall a, b, c | RuleLe(field, descending, a, b) && RuleLe(field, descending, b, c)
      ensures RuleLe(field, descending, a, c)
    {
      var ka, kb, kc := FieldValue(a, field), FieldValue(b, field), FieldValue(c, field);
      if ka.Some? && kb.Some? && kc.Some? {
        if descending {
          KeyLeTransitive(kc.value, kb.value, ka.value);
        } else {
          KeyLeTransitive(ka.value, kb.value, kc.value);
        }
      }
    }
  }

  /** `query.orderBy(field, direction)`: the documents that have the field,
      ordered by it. */
  function OrderBy(rules: seq<AutomationRule>, field: string, descending: bool): (r: seq<AutomationRule>)
    ensures forall x :: x in r <==> x in rules && HasField(field, x)
    ensures multiset(r) == multiset(Filter(rules, x => HasField(field, x)))
    ensures SortedBy(r, (a, b) => RuleLe(field, descending, a, b))
  {
    RuleOrderIsTotalPreorder(field, descending);
    var present := Filter(rules, x => HasField(field, x));
    SortByMembers(present, (a, b) => RuleLe(field, descending, a, b));
    SortBy(present, (a, b) => RuleLe(field, descending, a, b))
  }

  /** The lower-cased name or event type contains the lower-cased search. */
  predicate SearchMatches(search: string, r: AutomationRule) {
    var needle := ToLower(search);
    Includes(ToLower(r.name), needle) || Includes(ToLower(r.eventType), needle)
  }

  /** The search filter applied after retrieval. */
  function Search(rules: seq<AutomationRule>, search: string): seq<AutomationRule> {
    Filter(rules, r => SearchMatches(search, r))
  }

  /** The search keeps exactly the matching rules, and only rules it was given. */
  lemma SearchKeepsExactlyMatches(rules: seq<AutomationRule>, search: string)
    ensures forall x :: x in Search(rules, search) <==> x in rules && SearchMatches(search, x)
  {
  }

  /** The search keeps the order of what it keeps: searching a concatenation
      is concatenating the searches. */
  lemma SearchAppend(a: seq<AutomationRule>, b: seq<AutomationRule>, search: string)
    ensures Search(a + b, search) == Search(a, search) + Search(b, search)
  {
    FilterAppend(a, b, r => SearchMatches(search, r));
  }

  /** Searching for the empty string keeps every rule. */
  lemma SearchEmptyKeepsAll(rules: seq<AutomationRule>)
    ensures Search(rules, "") == rules
  {
    forall x | x in rules
      ensures SearchMatches("", x)
    {
      EmptyIncluded(ToLower(x.name));
    }
    FilterAll(rules, r => SearchMatches("", r));
  }

  /** Searching twice for the same text is searching once. */
  lemma SearchIdempotent(rules: seq<AutomationRule>, search: string)
    ensures Search(Search(rules, search), search) == Search(rules, search)
  {
    FilterIdempotent(rules, r => SearchMatches(search, r));
  }

  /** The search ignores the case of the search text. */
  lemma SearchIgnoresCase(rules: seq<AutomationRule>, search: string)
    ensures Search(rules, search) == Search(rules, ToLower(search))
  {
    ToLowerIdempotent(search);
    FilterCongruent(rules, r => SearchMatches(search, r), r => SearchMatches(ToLower(search), r));
  }

  datatype ListResponse =
    | Listed(automations: seq<AutomationRule>)
    | ListFailed(status: int, error: string)

  const ErrUnauthorized: string := "인증이 필요합니다."
  const ErrListFailed: string := "자동화 목록 조회 중 오류가 발생했습니다."

  /** A field path the store accepts in `where` and `orderBy`: non-empty,
      free of `~`, `*`, `/`, `[` and `]`, and without an empty segment
      between its dots. Any other path makes the call throw. */
  predicate ValidFieldPath(path: string) {
    && path != []
    && (forall i :: 0 <= i < |path| ==> path[i] !in "~*/[]")
    && path[0] != '.' && path[|path| - 1] != '.'
    && (forall i :: 0 <= i < |path| - 1 ==> !(path[i] == '.' && path[i + 1] == '.'))
  }

  /** The store lower-cases the direction before checking it. */
  predicate Descending(q: Query) {
    ToLower(q.order) == "desc"
  }

  /** A query the store builds without throwing: the platform filter's path
      (when there is one) and the sort field are valid paths, and the
      direction is `asc` or `desc` in any letter case. */
  predicate WellFormed(q: Query) {
    && (q.platform == "all" || ValidFieldPath("target." + q.platform))
    && ValidFieldPath(q.sort)
    && ToLower(q.order) in ["asc", "desc"]
  }

  /** The GET handler. `signedIn` is whether a session exists; `store` is
      what the read of the collection returns, `None` when it fails. A query
      the store refuses to build, and a failed read, both throw inside the
      `try`, which answers 500. */
  function List(signedIn: bool, params: ListParams, store: Option<seq<AutomationRule>>): (r: ListResponse)
    ensures !signedIn ==> r == ListFailed(401, ErrUnauthorized)
    ensures signedIn && !WellFormed(WithDefaults(params)) ==> r == ListFailed(500, ErrListFailed)
    ensures signedIn && store.None? ==> r == ListFailed(500, ErrListFailed)
    ensures signedIn && WellFormed(WithDefaults(params)) && store.Some? ==> r.Listed?
    ensures r.Listed? ==>
              var q := WithDefaults(params);
              SortedBy(r.automations, (a, b) => RuleLe(q.sort, Descending(q), a, b))
  {
    if !signedIn then ListFailed(401, ErrUnauthorized)
    else
      var q := WithDefaults(params);
      if !WellFormed(q) || store.None? then ListFailed(500, ErrListFailed)
      else
        var filtered := Filter(Filter(store.value, x => StatusMatches(q.status, x)), x => PlatformMatches(q.platform, x));
        var ordered := OrderBy(filtered, q.sort, Descending(q));
        var found := if q.search != "" then Search(ordered, q.search) else ordered;
        FilterKeepsSorted(ordered, x => SearchMatches(q.search, x), (a, b) => RuleLe(q.sort, Descending(q), a, b));
        Listed(found)
  }

  /** With a session, no parameters and a successful read, the rules are
      listed. */
  lemma DefaultQueryLists(store: seq<AutomationRule>)
    ensures List(true, ListParams(None, None, None, None, None), Some(store)).Listed?
  {
    DefaultQueryWellFormed();
  }

  lemma DefaultQueryWellFormed()
    ensures WellFormed(WithDefaults(ListParams(None, None, None, None, None)))
  {
    DefaultQuery();
    var sort := "createdAt";
    forall i | 0 <= i < |sort|
      ensures sort[i] !in "~*/[]" && sort[i] != '.'
    {
    }
    var lower := ToLower("desc");
    assert lower[0] == 'd' && lower[1] == 'e' && lower[2] == 's' && lower[3] == 'c';
    assert lower == "desc";
  }

  /** The direction's letter case does not matter: `DESC` lists what `desc`
      lists, in the same order. */
  lemma DirectionIgnoresCase(signedIn: bool, params: ListParams, store: Option<seq<AutomationRule>>)
    ensures List(signedIn, params.(order := Some("DESC")), store)
         == List(signedIn, params.(order := Some("desc")), store)
  {
  }

  /** A sort field with a `/` in it is refused with 500. */
  lemma SlashedSortFieldFails(params: ListParams, store: Option<seq<AutomationRule>>)
    requires params.sort == Some("a/b")
    ensures List(true, params, store) == ListFailed(500, ErrListFailed)
  {
    assert WithDefaults(params).sort == "a/b";
    assert "a/b"[1] == '/';
  }

  /** The listed rules are exactly the stored rules that pass the status and
      platform filters, have the sort field, and match the search. */
  lemma ListedExactly(signedIn: bool, params: ListParams, store: Option<seq<AutomationRule>>, x: AutomationRule)
    requires List(signedIn, params, store).Listed?
    ensures var q := WithDefaults(params);
            x in List(signedIn, params, store).automations <==>
              && store.Some? && x in store.value
              && StatusMatches(q.status, x)
              && PlatformMatches(q.platform, x)
              && HasField(q.sort, x)
              && SearchMatches(q.search, x)
  {
    var q := WithDefaults(params);
    if q.search == "" {
      EmptyIncluded(ToLower(x.name));
    }
  }

  /** Without a session the answer is 401 whatever the store holds. */
  lemma UnauthorizedIgnoresStore(params: ListParams, a: Option<seq<AutomationRule>>, b: Option<seq<AutomationRule>>)
    ensures List(false, params, a) == List(false, params, b) == ListFailed(401, ErrUnauthorized)
  {
  }
}
