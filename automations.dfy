/** The Cloud Functions back end for audience-targeted rules: the rule
    collection with its create, toggle and delete handlers, the scheduled
    sweep that sends every enabled rule to its audience topic and counts the
    outcome, the test send, and the statistics of the rule list. */
module Automations {
  import opened Common
  import opened Sorting

  datatype RuleNotification = RuleNotification(
    title: string,
    body: string,
    imageUrl: Option<string>,
    data: Option<map<string, string>>)

  /** Delivery counters. A missing counter reads as 0 everywhere it is read,
      so a rule's counters are either all present or the `stats` map is absent. */
  datatype Stats = Stats(sent: nat, success: nat, failure: nat, lastRun: Option<string>)

  /** A rule document of the `automation_rules` collection. `schedule` is a
      cron expression and `createdAt` an ISO date string; both are opaque. */
  datatype Rule = Rule(
    id: string,
    name: string,
    audienceName: string,
    notification: RuleNotification,
    enabled: bool,
    schedule: string,
    createdAt: string,
    stats: Option<Stats>)

  const NoStats: Stats := Stats(0, 0, 0, None)

  function StatsOf(r: Rule): Stats {
    r.stats.GetOr(NoStats)
  }

  // ---------------------------------------------------------------------------
  // Composing the message

  datatype FcmNotification = FcmNotification(title: string, body: string, imageUrl: Option<string>)

  datatype FcmMessage = FcmMessage(notification: FcmNotification, data: Option<map<string, string>>)

  /** The message a rule sends. */
  function MessageFor(rule: Rule): (m: FcmMessage)
    ensures m.notification.title == rule.notification.title
    ensures m.notification.body == rule.notification.body
    ensures m.data == rule.notification.data
    ensures m.notification.imageUrl.Some? <==> Truthy(rule.notification.imageUrl)
    ensures m.notification.imageUrl.Some? ==> m.notification.imageUrl == rule.notification.imageUrl
  {
    var n := rule.notification;
    FcmMessage(FcmNotification(n.title, n.body, if Truthy(n.imageUrl) then n.imageUrl else None), n.data)
  }

  /** `createFcmMessage`: copies title, body and data, then adds the image
      when the rule has a non-empty one. */
  method CreateFcmMessage(rule: Rule) returns (m: FcmMessage)
    ensures m == MessageFor(rule)
  {
    m := FcmMessage(FcmNotification(rule.notification.title, rule.notification.body, None),
                    rule.notification.data);
    if Truthy(rule.notification.imageUrl) {
      m := m.(notification := m.notification.(imageUrl := rule.notification.imageUrl));
    }
  }

  /** An audience-driven rule is sent to the topic named after its audience. */
  function TopicFor(rule: Rule): string {
    "audience_" + rule.audienceName
  }

  datatype Delivery = Delivery(topic: string, message: FcmMessage)

  /** What the provider's `send` did: returned a message id, or threw. */
  datatype SendResult = Accepted(messageId: string) | Threw

  // ---------------------------------------------------------------------------
  // Counting one delivery attempt

  /** The counters after one attempt, as the sweep writes them: an accepted
      send increments `sent`, increments `success` when the returned id is
      truthy, and stamps `lastRun`; a send that throws increments `failure`
      alone. A missing counter is incremented from 0. */
  function AfterAttempt(stats: Option<Stats>, result: SendResult, now: string): Stats {
    var s := stats.GetOr(NoStats);
    match result
    case Accepted(id) =>
      s.(sent := s.sent + 1,
         success := if id != "" then s.success + 1 else s.success,
         lastRun := Some(now))
    case Threw =>
      s.(failure := s.failure + 1)
  }

  /** Each attempt is counted once: `sent + failure` grows by exactly one,
      `success` by at most one and only with `sent`; an accepted send adds one
      to `sent`, one to `success` exactly when its id is non-empty, and stamps
      `lastRun`, while a send that throws adds one to `failure` alone. */
  lemma AttemptCountedOnce(stats: Option<Stats>, result: SendResult, now: string)
    ensures var before, after := stats.GetOr(NoStats), AfterAttempt(stats, result, now);
            && after.sent + after.failure == before.sent + before.failure + 1
            && before.success <= after.success <= before.success + 1
            && (after.success > before.success ==> after.sent > before.sent)
            && (result.Threw? <==> after.failure > before.failure)
            && (result.Threw? ==> after == before.(failure := before.failure + 1))
            && (result.Accepted? ==>
                  after == before.(sent := before.sent + 1,
                                   success := before.success + (if result.messageId != "" then 1 else 0),
                                   lastRun := Some(now)))
  {
  }

  /** `success <= sent` holds of every rule and is kept by every attempt. */
  predicate SuccessBounded(s: Stats) {
    s.success <= s.sent
  }

  lemma AttemptKeepsSuccessBounded(stats: Option<Stats>, result: SendResult, now: string)
    requires SuccessBounded(stats.GetOr(NoStats))
    ensures SuccessBounded(AfterAttempt(stats, result, now))
  {
  }

  /** `sent == success + failure` is not kept: from any balanced counters, a
      failed send counts a failure without counting a send, and an accepted
      send with an empty id counts a send without counting a success. */
  lemma FailureBreaksSentBalance(stats: Option<Stats>, now: string)
    requires var before := stats.GetOr(NoStats); before.sent == before.success + before.failure
    ensures var after := AfterAttempt(stats, Threw, now); after.sent != after.success + after.failure
    ensures var after := AfterAttempt(stats, Accepted(""), now); after.sent != after.success + after.failure
  {
  }

  // ---------------------------------------------------------------------------
  // The sweep, as a function of the collection

  /** One rule after a sweep; `provider(key, delivery)` is the provider's
      answer to the send made for the rule stored under `key`. */
  function SweptRule(key: string, r: Rule, provider: (string, Delivery) -> SendResult, now: string): Rule {
    if r.enabled then
      r.(stats := Some(AfterAttempt(r.stats, provider(key, Delivery(TopicFor(r), MessageFor(r))), now)))
    else r
  }

  function Swept(rules: map<string, Rule>, provider: (string, Delivery) -> SendResult, now: string)
    : map<string, Rule>
  {
    map k | k in rules :: SweptRule(k, rules[k], provider, now)
  }

  /** A sweep keeps the collection's keys, leaves disabled rules untouched,
      changes only the counters of enabled ones, and counts one attempt for
      each enabled rule. */
  lemma {:induction false} SweepTouchesOnlyEnabledStats(
    rules: map<string, Rule>, provider: (string, Delivery) -> SendResult, now: string, k: string)
    requires k in rules
    ensures var after := Swept(rules, provider, now);
            && after.Keys == rules.Keys
            && (!rules[k].enabled ==> after[k] == rules[k])
            && after[k].(stats := rules[k].stats) == rules[k]
            && (rules[k].enabled ==>
                  StatsOf(after[k]).sent + StatsOf(after[k]).failure
                  == StatsOf(rules[k]).sent + StatsOf(rules[k]).failure + 1)
  {
    var after := Swept(rules, provider, now);
    assert after[k] == SweptRule(k, rules[k], provider, now);
    if rules[k].enabled {
      AttemptCountedOnce(rules[k].stats, provider(k, Delivery(TopicFor(rules[k]), MessageFor(rules[k]))), now);
    }
  }

  /** Rules are isolated: a rule's outcome depends only on that rule and on
      the provider's answer to its own send, never on the other rules or on
      how their sends went. */
  lemma SweepIsolatesRules(
    rules: map<string, Rule>, p1: (string, Delivery) -> SendResult,
    p2: (string, Delivery) -> SendResult, now: string, k: string)
    requires k in rules
    requires p1(k, Delivery(TopicFor(rules[k]), MessageFor(rules[k])))
          == p2(k, Delivery(TopicFor(rules[k]), MessageFor(rules[k])))
    ensures Swept(rules, p1, now)[k] == Swept(rules, p2, now)[k]
  {
  }

  /** Every id matches the key its document is stored under. */
  ghost predicate IdsMatchKeys(rules: map<string, Rule>) {
    forall k :: k in rules ==> rules[k].id == k
  }

  ghost predicate AllSuccessBounded(rules: map<string, Rule>) {
    forall k :: k in rules ==> SuccessBounded(StatsOf(rules[k]))
  }

  lemma SweepKeepsInvariants(rules: map<string, Rule>, provider: (string, Delivery) -> SendResult, now: string)
    requires IdsMatchKeys(rules) && AllSuccessBounded(rules)
    ensures IdsMatchKeys(Swept(rules, provider, now)) && AllSuccessBounded(Swept(rules, provider, now))
  {
    forall k | k in rules
      ensures SuccessBounded(StatsOf(Swept(rules, provider, now)[k]))
    {
      if rules[k].enabled {
        AttemptKeepsSuccessBounded(rules[k].stats, provider(k, Delivery(TopicFor(rules[k]), MessageFor(rules[k]))), now);
      }
    }
  }

  // ---------------------------------------------------------------------------
  // Creating a rule

  /** The fields a caller submits. */
  datatype RuleInput = RuleInput(
    name: string,
    audienceName: string,
    notification: RuleNotification,
    schedule: string)

  /** A new rule: stored under its own id, disabled, with zeroed counters. */
  function NewRule(id: string, input: RuleInput, now: string): (r: Rule)
    ensures r.id == id && !r.enabled && r.stats == Some(NoStats)
    ensures r.name == input.name && r.audienceName == input.audienceName
    ensures r.notification == input.notification && r.schedule == input.schedule
    ensures r.createdAt == now
  {
    Rule(id, input.name, input.audienceName, input.notification, false, input.schedule, now,
         Some(Stats(0, 0, 0, None)))
  }

  /** A rule just created is skipped by the next sweep. */
  lemma NewRuleSkippedBySweep(rules: map<string, Rule>, id: string, input: RuleInput, now: string,
                              provider: (string, Delivery) -> SendResult, later: string)
    ensures Swept(rules[id := NewRule(id, input, now)], provider, later)[id] == NewRule(id, input, now)
  {
  }

  // ---------------------------------------------------------------------------
  // Toggling

  /** Only `enabled` changes. */
  function WithEnabled(r: Rule, enabled: bool): (t: Rule)
    ensures t.enabled == enabled
    ensures t.(enabled := r.enabled) == r
  {
    r.(enabled := enabled)
  }

  /** Toggling back restores the rule, and toggling twice to the same value
      is toggling once. */
  lemma ToggleRoundTrip(r: Rule, e1: bool, e2: bool)
    ensures WithEnabled(WithEnabled(r, e1), r.enabled) == r
    ensures WithEnabled(WithEnabled(r, e1), e2) == WithEnabled(r, e2)
  {
  }

  // ---------------------------------------------------------------------------
  // The handlers over the collection

  datatype HandlerResponse =
    | RuleBody(rule: Rule)
    | Done
    | NoContent
    | HttpError(status: int, error: string)
    | StoreError  // a 500 carrying the store's own message

  const ErrMethodNotAllowed: string := "Method Not Allowed"
  const ErrRuleIdRequired: string := "Rule ID is required"
  const ErrTokenRequired: string := "Token is required"

  /** The `automation_rules` collection. */
  class RuleStore {
    var rules: map<string, Rule>

    ghost predicate Valid()
      reads this
    {
      IdsMatchKeys(rules) && AllSuccessBounded(rules)
    }

    constructor ()
      ensures Valid() && rules == map[]
    {
      rules := map[];
    }

    /** `createAutomationRule`: POST only; `newId` is the key the store
        generates for the new document. */
    method CreateAutomationRule(httpMethod: string, newId: string, input: RuleInput, now: string)
      returns (resp: HandlerResponse)
      requires Valid()
      modifies this
      ensures Valid()
      ensures httpMethod != "POST" ==> resp == HttpError(405, ErrMethodNotAllowed) && rules == old(rules)
      ensures httpMethod == "POST" ==>
                && resp == RuleBody(NewRule(newId, input, now))
                && rules == old(rules)[newId := NewRule(newId, input, now)]
    {
      if httpMethod != "POST" {
        return HttpError(405, ErrMethodNotAllowed);
      }
      var rule := NewRule(newId, input, now);
      rules := rules[newId := rule];
      resp := RuleBody(rule);
    }

    /** `toggleAutomationRule`: PATCH only; a missing id is refused; an
        update of a missing document fails in the store. */
    method ToggleAutomationRule(httpMethod: string, ruleId: Option<string>, enabled: bool)
      returns (resp: HandlerResponse)
      requires Valid()
      modifies this
      ensures Valid()
      ensures httpMethod != "PATCH" ==> resp == HttpError(405, ErrMethodNotAllowed)
      ensures httpMethod == "PATCH" && !Truthy(ruleId) ==> resp == HttpError(400, ErrRuleIdRequired)
      ensures !resp.RuleBody? ==> rules == old(rules)
      ensures resp.RuleBody? <==> httpMethod == "PATCH" && Truthy(ruleId) && ruleId.value in old(rules)
      ensures httpMethod == "PATCH" && Truthy(ruleId) && ruleId.value !in old(rules) ==> resp == StoreError
      ensures resp.RuleBody? ==>
                && rules == old(rules)[ruleId.value := WithEnabled(old(rules)[ruleId.value], enabled)]
                && resp.rule == rules[ruleId.value]
    {
      if httpMethod != "PATCH" {
        return HttpError(405, ErrMethodNotAllowed);
      }
      if !Truthy(ruleId) {
        return HttpError(400, ErrRuleIdRequired);
      }
      var id := ruleId.value;
      if id !in rules {
        return StoreError;
      }
      rules := rules[id := WithEnabled(rules[id], enabled)];
      resp := RuleBody(rules[id]);
    }

    /** `deleteAutomationRule`: DELETE only; a missing id is refused; deleting
        an absent document succeeds. */
    method DeleteAutomationRule(httpMethod: string, ruleId: Option<string>)
      returns (resp: HandlerResponse)
      requires Valid()
      modifies this
      ensures Valid()
      ensures httpMethod != "DELETE" ==> resp == HttpError(405, ErrMethodNotAllowed) && rules == old(rules)
      ensures httpMethod == "DELETE" && !Truthy(ruleId) ==> resp == HttpError(400, ErrRuleIdRequired) && rules == old(rules)
      ensures httpMethod == "DELETE" && Truthy(ruleId) ==> resp == Done && rules == old(rules) - {ruleId.value}
    {
      if httpMethod != "DELETE" {
        return HttpError(405, ErrMethodNotAllowed);
      }
      if !Truthy(ruleId) {
        return HttpError(400, ErrRuleIdRequired);
      }
      rules := rules - {ruleId.value};
      resp := Done;
    }

    /** `processAutomationRules`: every enabled rule is sent to its audience
        topic and its counters updated; a failed send is counted and the
        sweep goes on. `attempted` lists the keys in the order visited. */
    method ProcessAutomationRules(provider: (string, Delivery) -> SendResult, now: string)
      returns (attempted: seq<string>)
      requires Valid()
      modifies this
      ensures Valid()
      ensures rules == Swept(old(rules), provider, now)
      ensures forall k :: k in attempted <==> k in old(rules) && old(rules)[k].enabled
      ensures forall i, j :: 0 <= i < j < |attempted| ==> attempted[i] != attempted[j]
    {
      ghost var start := rules;
      var pending := set k | k in rules && rules[k].enabled;
      attempted := [];
      while pending != {}
        invariant forall k :: k in pending ==> k in start && start[k].enabled && k !in attempted
        invariant forall k :: k in attempted <==> k in start && start[k].enabled && k !in pending
        invariant forall i, j :: 0 <= i < j < |attempted| ==> attempted[i] != attempted[j]
        invariant rules == PartlySwept(start, attempted, provider, now)
        decreases pending
      {
        var key :| key in pending;
        var rule := rules[key];
        var message := CreateFcmMessage(rule);
        var result := provider(key, Delivery(TopicFor(rule), message));
        PartlySweptStep(start, attempted, key, provider, now);
        rules := rules[key := rule.(stats := Some(AfterAttempt(rule.stats, result, now)))];
        pending := pending - {key};
        attempted := attempted + [key];
      }
      PartlySweptComplete(start, attempted, provider, now);
      SweepKeepsInvariants(start, provider, now);
    }
  }

  /** The collection part-way through a sweep: the rules under `done` are
      swept, the others as they were. */
  ghost function PartlySwept(rules: map<string, Rule>, done: seq<string>,
                             provider: (string, Delivery) -> SendResult, now: string)
    : map<string, Rule>
  {
    map k | k in rules :: if k in done then SweptRule(k, rules[k], provider, now) else rules[k]
  }

  lemma PartlySweptStep(rules: map<string, Rule>, done: seq<string>, key: string,
                        provider: (string, Delivery) -> SendResult, now: string)
    requires key in rules && rules[key].enabled && key !in done
    ensures PartlySwept(rules, done + [key], provider, now)
         == PartlySwept(rules, done, provider, now)[key := SweptRule(key, rules[key], provider, now)]
  {
  }

  lemma PartlySweptComplete(rules: map<string, Rule>, done: seq<string>,
                            provider: (string, Delivery) -> SendResult, now: string)
    requires forall k :: k in rules && rules[k].enabled ==> k in done
    ensures PartlySwept(rules, done, provider, now) == Swept(rules, provider, now)
  {
  }

  // ---------------------------------------------------------------------------
  // The test send

  /** `testAutomationRule`: POST only; a token is required; the message
      carries title, body and data but never an image. A missing
      `notification` object fails when it is read, giving a 500 whose text
      (the runtime's own message) is left empty here. */
  function TestSend(httpMethod: string, notification: Option<RuleNotification>, token: Option<string>)
    : (r: Result)
    ensures httpMethod != "POST" ==> r == Refused(405, ErrMethodNotAllowed)
    ensures httpMethod == "POST" && !Truthy(token) ==> r == Refused(400, ErrTokenRequired)
    ensures httpMethod == "POST" && Truthy(token) ==> (r.SendTo? <==> notification.Some?)
    ensures httpMethod == "POST" && Truthy(token) && notification.None? ==> r.Refused? && r.status == 500
    ensures r.SendTo? ==>
              && r.token == token.value && notification.Some?
              && r.message.notification.title == notification.value.title
              && r.message.notification.body == notification.value.body
              && r.message.notification.imageUrl.None?
              && r.message.data == notification.value.data
  {
    if httpMethod != "POST" then Refused(405, ErrMethodNotAllowed)
    else if !Truthy(token) then Refused(400, ErrTokenRequired)
    else if notification.None? then Refused(500, "")
    else
      var n := notification.value;
      SendTo(token.value, FcmMessage(FcmNotification(n.title, n.body, None), n.data))
  }

  datatype Result = SendTo(token: string, message: FcmMessage) | Refused(status: int, error: string)

  // ---------------------------------------------------------------------------
  // Statistics of the rule list

  function SentOf(r: Rule): int { StatsOf(r).sent }
  function SuccessOf(r: Rule): int { StatsOf(r).success }

  /** `Math.round(100 * success / sent)` over exact rationals: halves round up. */
  function RoundedPercent(success: nat, sent: nat): nat
    requires sent > 0
  {
    (200 * success + sent) / (2 * sent)
  }

  /** The rounded percentage is the nearest integer to `100 * success / sent`,
      halves going up. */
  lemma RoundedPercentNearest(success: nat, sent: nat)
    requires sent > 0
    ensures var p := RoundedPercent(success, sent);
            2 * p * sent <= 200 * success + sent < 2 * p * sent + 2 * sent
  {
  }

  /** `calculateSuccessRate`. */
  function SuccessRate(rules: seq<Rule>): (rate: nat)
    ensures SumBy(rules, SentOf) == 0 ==> rate == 0
    ensures var sent, success := SumBy(rules, SentOf), SumBy(rules, SuccessOf);
            sent > 0 ==> 2 * rate * sent <= 200 * success + sent < 2 * rate * sent + 2 * sent
  {
    SumsNonNegative(rules);
    var sent := SumBy(rules, SentOf);
    var success := SumBy(rules, SuccessOf);
    if sent > 0 then
      RoundedPercentNearest(success, sent);
      RoundedPercent(success, sent)
    else 0
  }

  lemma {:induction false} SumsNonNegative(rules: seq<Rule>)
    ensures 0 <= SumBy(rules, SuccessOf) && 0 <= SumBy(rules, SentOf)
  {
    if rules != [] {
      SumsNonNegative(rules[1..]);
    }
  }

  lemma {:induction false} SuccessSumBounded(rules: seq<Rule>)
    requires forall r :: r in rules ==> SuccessBounded(StatsOf(r))
    ensures SumBy(rules, SuccessOf) <= SumBy(rules, SentOf)
  {
    if rules != [] {
      SuccessSumBounded(rules[1..]);
    }
  }

  /** The success rate is a percentage whenever no rule counts more
      successes than sends. */
  lemma SuccessRateIsPercentage(rules: seq<Rule>)
    requires forall r :: r in rules ==> SuccessBounded(StatsOf(r))
    ensures SuccessRate(rules) <= 100
  {
    SumsNonNegative(rules);
    SuccessSumBounded(rules);
    var sent := SumBy(rules, SentOf);
    if sent > 0 {
      RoundedPercentAtMost100(SumBy(rules, SuccessOf), sent);
    }
  }

  lemma RoundedPercentAtMost100(success: nat, sent: nat)
    requires 0 < sent && success <= sent
    ensures RoundedPercent(success, sent) <= 100
  {
    RoundedPercentNearest(success, sent);
  }

  datatype ListStats = ListStats(total: nat, active: nat, todaySent: int, successRate: nat)

  datatype RulesResponse =
    | RulesListed(rules: seq<Rule>, stats: ListStats)
    | RulesNoContent
    | RulesRefused(status: int, error: string)

  /** Newest first by the `createdAt` string. */
  predicate CreatedLater(a: Rule, b: Rule) {
    StrLe(b.createdAt, a.createdAt)
  }

  lemma CreatedLaterIsTotalPreorder()
    ensures TotalPreorder(CreatedLater)
  {
    forall a: Rule, b: Rule
      ensures CreatedLater(a, b) || CreatedLater(b, a)
    {
      StrLeTotal(a.createdAt, b.createdAt);
    }
    forall a: Rule, b: Rule, c: Rule | CreatedLater(a, b) && CreatedLater(b, c)
      ensures CreatedLater(a, c)
    {
      StrLeTransitive(c.createdAt, b.createdAt, a.createdAt);
    }
  }

  /** `getAutomationRules` over the documents of the collection. */
  function GetAutomationRules(httpMethod: string, docs: seq<Rule>): (r: RulesResponse)
    ensures httpMethod == "OPTIONS" ==> r == RulesNoContent
    ensures httpMethod !in ["OPTIONS", "GET"] ==> r == RulesRefused(405, ErrMethodNotAllowed)
    ensures r.RulesListed? ==> multiset(r.rules) == multiset(docs) && SortedBy(r.rules, CreatedLater)
  {
    if httpMethod == "OPTIONS" then RulesNoContent
    else if httpMethod != "GET" then RulesRefused(405, ErrMethodNotAllowed)
    else
      CreatedLaterIsTotalPreorder();
      var rules := SortBy(docs, CreatedLater);
      RulesListed(rules, ListStats(|rules|, |Filter(rules, (x: Rule) => x.enabled)|,
                                   SumBy(rules, SentOf), SuccessRate(rules)))
  }

  function CountEnabled(docs: seq<Rule>): nat {
    if docs == [] then 0 else (if docs[0].enabled then 1 else 0) + CountEnabled(docs[1..])
  }

  lemma {:induction false} FilterEnabledCount(docs: seq<Rule>)
    ensures |Filter(docs, (x: Rule) => x.enabled)| == CountEnabled(docs)
  {
    if docs != [] {
      FilterEnabledCount(docs[1..]);
    }
  }

  lemma {:induction false} CountEnabledPermutation(a: seq<Rule>, b: seq<Rule>)
    requires multiset(a) == multiset(b)
    ensures CountEnabled(a) == CountEnabled(b)
  {
    CountEnabledIsSum(a);
    CountEnabledIsSum(b);
    SumByPermutation(a, b, (x: Rule) => if x.enabled then 1 else 0);
  }

  lemma {:induction false} CountEnabledIsSum(a: seq<Rule>)
    ensures CountEnabled(a) == SumBy(a, (x: Rule) => if x.enabled then 1 else 0)
  {
    if a != [] {
      CountEnabledIsSum(a[1..]);
    }
  }

  /** The list statistics describe the whole collection, whatever its order:
      `total` counts every rule, `active` the enabled ones, `todaySent` sums
      the sent counters with a missing one read as 0, and `successRate` is
      the rounded percentage of those sums. */
  lemma ListStatsDescribeCollection(docs: seq<Rule>)
    ensures var r := GetAutomationRules("GET", docs);
            && r.RulesListed?
            && r.stats.total == |docs|
            && r.stats.active == CountEnabled(docs)
            && r.stats.todaySent == SumBy(docs, SentOf)
            && r.stats.successRate == SuccessRate(docs)
  {
    CreatedLaterIsTotalPreorder();
    var rules := SortBy(docs, CreatedLater);
    SortByLength(docs, CreatedLater);
    FilterEnabledCount(rules);
    CountEnabledPermutation(rules, docs);
    SumByPermutation(rules, docs, SentOf);
    SumByPermutation(rules, docs, SuccessOf);
  }
}
