/**
 * The `Profiles` resource: read and update one person, and the person's
 * event timelines, all on the v1 API.
 */
module Profiles {
  import opened Wrappers
  import opened PyValues
  import opened Text
  import opened Http
  import opened ApiHelper
  import opened Routes

  const PERSON := "person"

  /** The path `person/<id>` of one profile. */
  function PersonPath(profileId: string): (path: string)
    ensures path == "person/" + profileId
    ensures Segment(profileId) ==> Route(V1, path) == Some(Person(profileId))
  {
    JoinTwo(PERSON, profileId, '/');
    PathSegments([PERSON, profileId]);
    var path := Join([PERSON, profileId], '/');
    if Segment(profileId) then RoutePerson(path, profileId); path else path
  }

  /** `get_profile`. */
  function GetProfile(profileId: string): (call: ApiCall)
    ensures call.api == V1 && call.verb == Get && call.path == "person/" + profileId && call.params == map[]
    ensures Segment(profileId) ==> Target(call) == Some(Person(profileId))
  {
    ApiCall(V1, Get, PersonPath(profileId), map[])
  }

  /** `update_profile`: PUT the properties, as they are, as the parameters. */
  function UpdateProfile(profileId: string, properties: map<string, Value> := map[]): (call: ApiCall)
    ensures call.api == V1 && call.verb == Put && call.path == "person/" + profileId
    ensures call.params == properties
    ensures Segment(profileId) ==> Target(call) == Some(Person(profileId))
  {
    ApiCall(V1, Put, PersonPath(profileId), properties)
  }

  /**
   * `update_profile` as it runs: the caller's own `properties` dictionary is
   * what `_v1_request` receives, so `api_key` is written into it and the
   * caller sees the private token there afterwards.
   */
  method UpdateProfileCall(c: Client, profileId: string, properties: Dict, response: HttpResponse)
    returns (d: Dispatch<ApiResponse>)
    modifies properties
    ensures properties.entries == old(properties.entries)[API_KEY := c.privateToken]
    ensures d == Request(c, Put, Url(ApiUrl(c.apiServer, V1, "person/" + profileId), None),
                         Some(properties.entries), None, Private, response)
  {
    d := Execute(c, UpdateProfile(profileId, properties.entries), properties, response);
  }

  /** The path `person/<id>/metrics/timeline` of one person's events. */
  function PersonTimelinePath(profileId: string): (path: string)
    ensures path == "person/" + profileId + "/metrics/timeline"
    ensures Segment(profileId) ==> Route(V1, path) == Some(PersonTimeline(profileId))
  {
    JoinFour(PERSON, profileId, METRICS, TIMELINE, '/');
    PathSegments([PERSON, profileId, METRICS, TIMELINE]);
    var path := Join([PERSON, profileId, METRICS, TIMELINE], '/');
    if Segment(profileId) then RoutePersonTimeline(path, profileId); path else path
  }

  /** The path `person/<id>/metric/<id>/timeline` of one person's events for one metric. */
  function PersonMetricTimelinePath(profileId: string, metricId: string): (path: string)
    ensures path == "person/" + profileId + "/metric/" + metricId + "/timeline"
    ensures Segment(profileId) && Segment(metricId) ==>
              Route(V1, path) == Some(PersonMetricTimeline(profileId, metricId))
  {
    JoinFive(PERSON, profileId, METRIC, metricId, TIMELINE, '/');
    PathSegments([PERSON, profileId, METRIC, metricId, TIMELINE]);
    var path := Join([PERSON, profileId, METRIC, metricId, TIMELINE], '/');
    if Segment(profileId) && Segment(metricId) then RoutePersonMetricTimeline(path, profileId, metricId); path
    else path
  }

  /** `get_profile_metrics_timeline`: the events of one person, across metrics. */
  function GetProfileMetricsTimeline(profileId: string, since: Value := VNone, count: Value := VInt(100),
                                     sort: Value := VStr(SORT_DESC)): (call: ApiCall)
    ensures call.api == V1 && call.verb == Get && call.path == "person/" + profileId + "/metrics/timeline"
    ensures call.params.Keys <= {"count", "sort", "since"}
    ensures SentUnlessNone(call.params, "count", count) && SentUnlessNone(call.params, "sort", sort)
    ensures SentUnlessNone(call.params, "since", since)
    ensures Segment(profileId) ==> Target(call) == Some(PersonTimeline(profileId))
  {
    ApiCall(V1, Get, PersonTimelinePath(profileId), TimelineParams(since, count, sort))
  }

  /** `get_profile_metrics_timeline_by_id`: the events of one person for one metric. */
  function GetProfileMetricsTimelineById(profileId: string, metricId: string, since: Value := VNone,
                                         count: Value := VInt(100), sort: Value := VStr(SORT_DESC)): (call: ApiCall)
    ensures call.api == V1 && call.verb == Get
    ensures call.path == "person/" + profileId + "/metric/" + metricId + "/timeline"
    ensures call.params.Keys <= {"count", "sort", "since"}
    ensures SentUnlessNone(call.params, "count", count) && SentUnlessNone(call.params, "sort", sort)
    ensures SentUnlessNone(call.params, "since", since)
    ensures Segment(profileId) && Segment(metricId) ==>
              Target(call) == Some(PersonMetricTimeline(profileId, metricId))
  {
    ApiCall(V1, Get, PersonMetricTimelinePath(profileId, metricId), TimelineParams(since, count, sort))
  }

  /**
   * The two per-person timelines address different resources whatever the
   * ids, as long as they hold no `/`: the `metrics` and `metric` segments
   * keep them apart.
   */
  lemma PersonTimelinesDiffer(profileId: string, metricId: string)
    requires Segment(profileId) && Segment(metricId)
    ensures Target(GetProfileMetricsTimeline(profileId)) != Target(GetProfileMetricsTimelineById(profileId, metricId))
    ensures Target(GetProfile(profileId)) != Target(GetProfileMetricsTimeline(profileId))
  {
  }
}
