/**
 * The vendor's endpoint table, read off a request's version and path: which
 * resource a private call addresses. It is written per endpoint,
 * independently of the builders, and serves as the reference the builders' paths are checked
 * against: a builder targets the resource it claims when its path splits
 * into the segments this table expects, with the identifier in its place.
 */
module Routes {
  import opened Wrappers
  import opened Text
  import opened ApiHelper

  /** The resources of the v1 and v2 APIs that the SDK calls. */
  datatype Resource =
    | ListIndex                                  // v2 lists
    | ListById(listId: string)                   // v2 list/{id}
    | ListSubscriptions(listId: string)          // v2 list/{id}/subscribe
    | ListMembership(listId: string)             // v2 list/{id}/members
    | ListExclusions(listId: string)             // v2 list/{id}/exclusions/all
    | GroupMembers(groupId: string)              // v2 group/{id}/members/all
    | DeletionRequest                            // v2 data-privacy/deletion-request
    | SegmentMembership(segmentId: string)       // v1 segment/{id}/members
    | MetricIndex                                // v1 metrics
    | MetricsTimeline                            // v1 metrics/timeline
    | MetricTimeline(metricId: string)           // v1 metric/{id}/timeline
    | MetricExport(metricId: string)             // v1 metric/{id}/export
    | Person(personId: string)                   // v1 person/{id}
    | PersonTimeline(personId: string)           // v1 person/{id}/metrics/timeline
    | PersonMetricTimeline(personId: string, metricId: string)  // v1 person/{id}/metric/{id}/timeline
    | CampaignIndex                              // v1 campaigns
    | CampaignRecipients(campaignId: string)     // v1 campaign/{id}/recipients

  /**
   * The resource that a path of the given API version addresses, if any,
   * decided by the first segment and then by the rest.
   */
  function Route(api: ApiVersion, path: string): Option<Resource>
  {
    var s := Split(path, '/');
    var head := s[0];
    match api
    case V2 =>
      if head == "lists" then
        if |s| == 1 then Some(ListIndex) else None
      else if head == "list" then
        if |s| == 2 then Some(ListById(s[1]))
        else if |s| == 3 && s[2] == "subscribe" then Some(ListSubscriptions(s[1]))
        else if |s| == 3 && s[2] == "members" then Some(ListMembership(s[1]))
        else if |s| == 4 && s[2] == "exclusions" && s[3] == "all" then Some(ListExclusions(s[1]))
        else None
      else if head == "group" then
        if |s| == 4 && s[2] == "members" && s[3] == "all" then Some(GroupMembers(s[1])) else None
      else if head == "data-privacy" then
        if |s| == 2 && s[1] == "deletion-request" then Some(DeletionRequest) else None
      else None
    case V1 =>
      if head == "segment" then
        if |s| == 3 && s[2] == "members" then Some(SegmentMembership(s[1])) else None
      else if head == "metrics" then
        if |s| == 1 then Some(MetricIndex)
        else if |s| == 2 && s[1] == "timeline" then Some(MetricsTimeline)
        else None
      else if head == "metric" then
        if |s| == 3 && s[2] == "timeline" then Some(MetricTimeline(s[1]))
        else if |s| == 3 && s[2] == "export" then Some(MetricExport(s[1]))
        else None
      else if head == "person" then
        if |s| == 2 then Some(Person(s[1]))
        else if |s| == 4 && s[2] == "metrics" && s[3] == "timeline" then Some(PersonTimeline(s[1]))
        else if |s| == 5 && s[2] == "metric" && s[4] == "timeline" then Some(PersonMetricTimeline(s[1], s[3]))
        else None
      else if head == "campaigns" then
        if |s| == 1 then Some(CampaignIndex) else None
      else if head == "campaign" then
        if |s| == 3 && s[2] == "recipients" then Some(CampaignRecipients(s[1])) else None
      else None
  }

  /** The resource a built call addresses. */
  function Target(call: ApiCall): Option<Resource>
  {
    Route(call.api, call.path)
  }

  /** A path segment the SDK formats into a path without escaping it. */
  predicate Segment(id: string)
  {
    '/' !in id
  }

  /** Joining slash-free segments with `/` gives back exactly those segments. */
  lemma PathSegments(parts: seq<string>)
    ensures |parts| >= 1 && (forall i :: 0 <= i < |parts| ==> Segment(parts[i]))
            ==> Split(Join(parts, '/'), '/') == parts
  {
    if |parts| >= 1 && (forall i :: 0 <= i < |parts| ==> Segment(parts[i])) {
      SplitJoin(parts, '/');
    }
  }

  // One lemma per endpoint: a path whose segments are the endpoint's
  // addresses that resource. The builders use these instead of unfolding
  // the table on their own paths.

  lemma RouteListIndex(path: string)
    requires Split(path, '/') == ["lists"]
    ensures Route(V2, path) == Some(ListIndex)
  {
  }

  lemma RouteListById(path: string, listId: string)
    requires Split(path, '/') == ["list", listId]
    ensures Route(V2, path) == Some(ListById(listId))
  {
    assert Split(path, '/')[0] != "lists";
  }

  lemma RouteListSection(path: string, listId: string, section: string)
    requires section in {"subscribe", "members"}
    requires Split(path, '/') == ["list", listId, section]
    ensures section == "subscribe" ==> Route(V2, path) == Some(ListSubscriptions(listId))
    ensures section == "members" ==> Route(V2, path) == Some(ListMembership(listId))
  {
    assert Split(path, '/')[0] != "lists";
  }

  lemma RouteListExclusions(path: string, listId: string)
    requires Split(path, '/') == ["list", listId, "exclusions", "all"]
    ensures Route(V2, path) == Some(ListExclusions(listId))
  {
    assert Split(path, '/')[0] != "lists";
  }

  lemma RouteGroupMembers(path: string, groupId: string)
    requires Split(path, '/') == ["group", groupId, "members", "all"]
    ensures Route(V2, path) == Some(GroupMembers(groupId))
  {
    var s := Split(path, '/');
    assert s[0] != "lists" && s[0] != "list";
  }

  lemma RouteDeletionRequest(path: string)
    requires Split(path, '/') == ["data-privacy", "deletion-request"]
    ensures Route(V2, path) == Some(DeletionRequest)
  {
    var s := Split(path, '/');
    assert s[0] != "lists" && s[0] != "list" && s[0] != "group";
  }

  lemma RouteSegmentMembership(path: string, segmentId: string)
    requires Split(path, '/') == ["segment", segmentId, "members"]
    ensures Route(V1, path) == Some(SegmentMembership(segmentId))
  {
  }

  lemma RouteMetricIndex(path: string)
    requires Split(path, '/') == ["metrics"]
    ensures Route(V1, path) == Some(MetricIndex)
  {
    assert Split(path, '/')[0] != "segment";
  }

  lemma RouteMetricsTimeline(path: string)
    requires Split(path, '/') == ["metrics", "timeline"]
    ensures Route(V1, path) == Some(MetricsTimeline)
  {
    assert Split(path, '/')[0] != "segment";
  }

  lemma RouteMetricSection(path: string, metricId: string, section: string)
    requires section in {"timeline", "export"}
    requires Split(path, '/') == ["metric", metricId, section]
    ensures section == "timeline" ==> Route(V1, path) == Some(MetricTimeline(metricId))
    ensures section == "export" ==> Route(V1, path) == Some(MetricExport(metricId))
  {
    var s := Split(path, '/');
    assert s[0] != "segment" && s[0] != "metrics";
  }

  lemma RoutePerson(path: string, personId: string)
    requires Split(path, '/') == ["person", personId]
    ensures Route(V1, path) == Some(Person(personId))
  {
    var s := Split(path, '/');
    assert s[0] != "segment" && s[0] != "metrics" && s[0] != "metric";
  }

  lemma RoutePersonTimeline(path: string, personId: string)
    requires Split(path, '/') == ["person", personId, "metrics", "timeline"]
    ensures Route(V1, path) == Some(PersonTimeline(personId))
  {
    var s := Split(path, '/');
    assert s[0] != "segment" && s[0] != "metrics" && s[0] != "metric";
  }

  lemma RoutePersonMetricTimeline(path: string, personId: string, metricId: string)
    requires Split(path, '/') == ["person", personId, "metric", metricId, "timeline"]
    ensures Route(V1, path) == Some(PersonMetricTimeline(personId, metricId))
  {
    var s := Split(path, '/');
    assert s[0] != "segment" && s[0] != "metrics" && s[0] != "metric";
  }

  lemma RouteCampaignIndex(path: string)
    requires Split(path, '/') == ["campaigns"]
    ensures Route(V1, path) == Some(CampaignIndex)
  {
    var s := Split(path, '/');
    assert s[0] != "segment" && s[0] != "metrics" && s[0] != "metric" && s[0] != "person";
  }

  lemma RouteCampaignRecipients(path: string, campaignId: string)
    requires Split(path, '/') == ["campaign", campaignId, "recipients"]
    ensures Route(V1, path) == Some(CampaignRecipients(campaignId))
  {
    var s := Split(path, '/');
    assert s[0] != "segment" && s[0] != "metrics" && s[0] != "metric" && s[0] != "person" && s[0] != "campaigns";
  }
}
