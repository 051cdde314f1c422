/** The segment list of the Cloud Functions back end (`getAnalyticsSegments`):
    the built-in segments followed by the audiences the analytics provider
    lists, built-in ones first and each group ordered by name. */
module AudienceSegments {
  import opened Common
  import opened Sorting

  datatype SegmentKind = Default | Custom

  datatype SegmentInfo = SegmentInfo(
    name: string,
    count: int,
    description: Option<string>,
    id: Option<string>,
    kind: SegmentKind,
    lastUpdated: Option<string>)

  const DefaultSegments: seq<SegmentInfo> := [
    SegmentInfo("7일간 활동이 없는 사용자", 143114, Some("최근 7일간 앱을 실행하지 않은 사용자"),
                Some("inactive_7days"), Default, None),
    SegmentInfo("30일간 활동이 없는 사용자", 118060, Some("최근 30일간 앱을 실행하지 않은 사용자"),
                Some("inactive_30days"), Default, None),
    SegmentInfo("맵&QR 눌렀으나 미탑승", 443070, Some("맵이나 QR을 확인했으나 실제 탑승으로 이어지지 않은 사용자"),
                Some("map_qr_no_ride"), Default, None),
    SegmentInfo("비구매자", 1121117, Some("아직 구매 이력이 없는 사용자"),
                Some("no_purchase"), Default, None),
    SegmentInfo("user_is_test_server_user", 86, Some("테스트 서버 사용자"),
                Some("test_user"), Default, None)
  ]

  /** An audience as the analytics admin API lists it. */
  datatype Audience = Audience(
    name: Option<string>,
    displayName: Option<string>,
    description: Option<string>,
    membershipDurationDays: Option<int>)

  /** What listing the audiences did: returned them, or threw. */
  datatype AudienceFetch = Fetched(audiences: seq<Audience>) | FetchFailed

  /** `s.split('/').pop()`: what follows the last slash, or all of `s`. */
  function LastPathSegment(s: string): (r: string)
    ensures '/' !in r
    ensures |r| <= |s| && r == s[|s| - |r|..]
    ensures |r| < |s| ==> s[|s| - |r| - 1] == '/'
  {
    if s == [] then []
    else if s[|s| - 1] == '/' then []
    else
      var prefix := LastPathSegment(s[..|s| - 1]);
      assert s[..|s| - 1][|s| - 1 - |prefix|..] == s[|s| - 1 - |prefix|..|s| - 1];
      prefix + [s[|s| - 1]]
  }

  /** One listed audience as a custom segment: the display name or "", the
      number read from `membershipDurationDays` or 0, the description and the
      last part of the resource name only when they are not empty. */
  function ToSegment(a: Audience, now: string): (seg: SegmentInfo)
    ensures seg.kind == Custom
    ensures seg.name == a.displayName.GetOr("")
    ensures seg.count == a.membershipDurationDays.GetOr(0)
    ensures seg.description.Some? <==> Truthy(a.description)
    ensures seg.description.Some? ==> seg.description == a.description
    ensures seg.id.Some? <==> a.name.Some? && LastPathSegment(a.name.value) != ""
    ensures seg.id.Some? ==> seg.id.value == LastPathSegment(a.name.value) && '/' !in seg.id.value
    ensures seg.lastUpdated == Some(now)
  {
    var id := if a.name.Some? then LastPathSegment(a.name.value) else "";
    SegmentInfo(a.displayName.GetOr(""), a.membershipDurationDays.GetOr(0),
                if Truthy(a.description) then a.description else None,
                if id != "" then Some(id) else None, Custom, Some(now))
  }

  function ToSegments(audiences: seq<Audience>, now: string): (r: seq<SegmentInfo>)
    ensures |r| == |audiences|
    ensures forall i :: 0 <= i < |r| ==> r[i] == ToSegment(audiences[i], now)
  {
    if audiences == [] then [] else [ToSegment(audiences[0], now)] + ToSegments(audiences[1..], now)
  }

  /** `getAnalyticsAudiences`: any failure, including a missing property id,
      yields no custom segment. */
  function CustomSegments(propertyId: Option<string>, fetch: AudienceFetch, now: string)
    : (r: seq<SegmentInfo>)
    ensures !Truthy(propertyId) || fetch.FetchFailed? ==> r == []
    ensures Truthy(propertyId) && fetch.Fetched? ==> r == ToSegments(fetch.audiences, now)
    ensures forall s :: s in r ==> s.kind == Custom
  {
    if !Truthy(propertyId) then []
    else match fetch
      case FetchFailed => []
      case Fetched(audiences) => ToSegments(audiences, now)
  }

  /** The comparator of the merge: built-in before custom, then by name. */
  predicate SegmentLe(a: SegmentInfo, b: SegmentInfo) {
    if a.kind != b.kind then a.kind == Default else StrLe(a.name, b.name)
  }

  lemma SegmentOrderIsTotalPreorder()
    ensures TotalPreorder(SegmentLe)
  {
    forall a: SegmentInfo, b: SegmentInfo
      ensures SegmentLe(a, b) || SegmentLe(b, a)
    {
      StrLeTotal(a.name, b.name);
    }
    forall a: SegmentInfo, b: SegmentInfo, c: SegmentInfo | SegmentLe(a, b) && SegmentLe(b, c)
      ensures SegmentLe(a, c)
    {
      if a.kind == b.kind == c.kind {
        StrLeTransitive(a.name, b.name, c.name);
      }
    }
  }

  datatype SegmentStats = SegmentStats(total: nat, defaultCount: nat, customCount: nat, totalUsers: int)

  datatype SegmentsResponse =
    | SegmentList(segments: seq<SegmentInfo>, stats: SegmentStats)
    | SegmentsRefused(status: int, error: string)

  function CountOf(s: SegmentInfo): int { s.count }

  /** `getAnalyticsSegments`: GET only. */
  function GetAnalyticsSegments(httpMethod: string, propertyId: Option<string>, fetch: AudienceFetch, now: string)
    : (r: SegmentsResponse)
    ensures httpMethod != "GET" ==> r == SegmentsRefused(405, "Method Not Allowed")
    ensures r.SegmentList? ==>
              var custom := CustomSegments(propertyId, fetch, now);
              && multiset(r.segments) == multiset(DefaultSegments + custom)
              && SortedBy(r.segments, SegmentLe)
              && r.stats.total == |r.segments|
              && r.stats.defaultCount == |DefaultSegments|
              && r.stats.customCount == |custom|
              && r.stats.totalUsers == SumBy(r.segments, CountOf)
  {
    if httpMethod != "GET" then SegmentsRefused(405, "Method Not Allowed")
    else
      var custom := CustomSegments(propertyId, fetch, now);
      SegmentOrderIsTotalPreorder();
      var all := SortBy(DefaultSegments + custom, SegmentLe);
      SegmentList(all, SegmentStats(|all|, |DefaultSegments|, |custom|, SumBy(all, CountOf)))
  }

  /** Built-in segments come first, each group is ordered by name, the total
      is the sum of the two group sizes, and the user total is the sum of
      every segment's count. */
  lemma {:induction false} MergedSegments(propertyId: Option<string>, fetch: AudienceFetch, now: string)
    ensures var r := GetAnalyticsSegments("GET", propertyId, fetch, now);
            var custom := CustomSegments(propertyId, fetch, now);
            && r.SegmentList?
            && (forall i, j :: 0 <= i < j < |r.segments| ==>
                  !(r.segments[i].kind == Custom && r.segments[j].kind == Default))
            && (forall i, j :: 0 <= i < j < |r.segments| && r.segments[i].kind == r.segments[j].kind ==>
                  StrLe(r.segments[i].name, r.segments[j].name))
            && r.stats.total == r.stats.defaultCount + r.stats.customCount == 5 + |custom|
            && r.stats.totalUsers == SumBy(DefaultSegments, CountOf) + SumBy(custom, CountOf)
  {
    var r := GetAnalyticsSegments("GET", propertyId, fetch, now);
    var custom := CustomSegments(propertyId, fetch, now);
    assert |multiset(r.segments)| == |multiset(DefaultSegments + custom)|;
    forall i, j | 0 <= i < j < |r.segments|
      ensures !(r.segments[i].kind == Custom && r.segments[j].kind == Default)
    {
      assert SegmentLe(r.segments[i], r.segments[j]);
    }
    SumByPermutation(r.segments, DefaultSegments + custom, CountOf);
    SumByAppend(DefaultSegments, custom, CountOf);
  }

  /** When the provider fails, the list is the built-in segments alone. */
  lemma FailedFetchListsDefaultsOnly(propertyId: Option<string>, now: string)
    ensures var r := GetAnalyticsSegments("GET", propertyId, FetchFailed, now);
            && r.SegmentList?
            && multiset(r.segments) == multiset(DefaultSegments)
            && r.stats.customCount == 0
  {
    assert DefaultSegments + [] == DefaultSegments;
  }
}
