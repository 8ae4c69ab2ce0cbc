/**
 * The `Lists` resource: the v2 list, subscription, membership and exclusion
 * endpoints, and the v1 segment membership check. Each method builds the
 * call it hands to the dispatch layer.
 */
module Lists {
  import opened Wrappers
  import opened PyValues
  import opened Text
  import opened Http
  import opened ApiHelper
  import opened Routes

  const LIST := "list"
  const LISTS := "lists"
  const SEGMENT := "segment"
  const SUBSCRIBE := "subscribe"
  const MEMBERS := "members"
  const ALL := "all"
  const LIST_NAME := "list_name"

  /** `get_lists`. */
  function GetLists(): (call: ApiCall)
    ensures call.api == V2 && call.verb == Get && call.path == "lists" && call.params == map[]
    ensures Target(call) == Some(ListIndex)
  {
    assert '/' !in LISTS;
    SplitNoSeparator(LISTS, '/');
    RouteListIndex(LISTS);
    ApiCall(V2, Get, LISTS, map[])
  }

  /** `create_list`. */
  function CreateList(listName: Value): (call: ApiCall)
    ensures call.api == V2 && call.verb == Post && call.path == "lists"
    ensures call.params == map["list_name" := listName]
    ensures Target(call) == Some(ListIndex)
  {
    assert '/' !in LISTS;
    SplitNoSeparator(LISTS, '/');
    RouteListIndex(LISTS);
    ApiCall(V2, Post, LISTS, map[LIST_NAME := listName])
  }

  /** The path of one list: `list/<id>`. */
  function ListPath(listId: string): (path: string)
    ensures path == "list/" + listId
    ensures Segment(listId) ==> Route(V2, path) == Some(ListById(listId))
  {
    JoinTwo(LIST, listId, '/');
    PathSegments([LIST, listId]);
    var path := Join([LIST, listId], '/');
    if Segment(listId) then RouteListById(path, listId); path else path
  }

  /** `get_list_by_id`. */
  function GetListById(listId: string): (call: ApiCall)
    ensures call.api == V2 && call.verb == Get && call.path == "list/" + listId && call.params == map[]
    ensures Segment(listId) ==> Target(call) == Some(ListById(listId))
  {
    ApiCall(V2, Get, ListPath(listId), map[])
  }

  /** `update_list_name_by_id`. */
  function UpdateListNameById(listId: string, listName: Value): (call: ApiCall)
    ensures call.api == V2 && call.verb == Put && call.path == "list/" + listId
    ensures call.params == map["list_name" := listName]
    ensures Segment(listId) ==> Target(call) == Some(ListById(listId))
  {
    ApiCall(V2, Put, ListPath(listId), map[LIST_NAME := listName])
  }

  /** `delete_list`. */
  function DeleteList(listId: string): (call: ApiCall)
    ensures call.api == V2 && call.verb == Delete && call.path == "list/" + listId && call.params == map[]
    ensures Segment(listId) ==> Target(call) == Some(ListById(listId))
  {
    ApiCall(V2, Delete, ListPath(listId), map[])
  }

  /** The path `list/<id>/<section>` of a list's subscriptions or members. */
  function ListSectionPath(listId: string, section: string): (path: string)
    requires section in {SUBSCRIBE, MEMBERS}
    ensures path == "list/" + listId + "/" + section
    ensures Segment(listId) && section == SUBSCRIBE ==> Route(V2, path) == Some(ListSubscriptions(listId))
    ensures Segment(listId) && section == MEMBERS ==> Route(V2, path) == Some(ListMembership(listId))
  {
    JoinThree(LIST, listId, section, '/');
    PathSegments([LIST, listId, section]);
    var path := Join([LIST, listId, section], '/');
    if Segment(listId) then RouteListSection(path, listId, section); path else path
  }

  /** `add_subscribers_to_list`: POST the profiles to the subscribe endpoint. */
  function AddSubscribersToList(listId: string, profiles: Value): (call: ApiCall)
    ensures call.api == V2 && call.verb == Post && call.path == "list/" + listId + "/subscribe"
    ensures call.params == map["profiles" := profiles]
    ensures Segment(listId) ==> Target(call) == Some(ListSubscriptions(listId))
  {
    ApiCall(V2, Post, ListSectionPath(listId, SUBSCRIBE), map[PROFILES := profiles])
  }

  /** `get_subscribers_from_list`: GET with the emails to check. */
  function GetSubscribersFromList(listId: string, emails: Value): (call: ApiCall)
    ensures call.api == V2 && call.verb == Get && call.path == "list/" + listId + "/subscribe"
    ensures call.params == map["emails" := emails]
    ensures Segment(listId) ==> Target(call) == Some(ListSubscriptions(listId))
  {
    ApiCall(V2, Get, ListSectionPath(listId, SUBSCRIBE), map[EMAILS := emails])
  }

  /** `delete_subscribers_from_list`: DELETE with the emails to remove. */
  function DeleteSubscribersFromList(listId: string, emails: Value): (call: ApiCall)
    ensures call.api == V2 && call.verb == Delete && call.path == "list/" + listId + "/subscribe"
    ensures call.params == map["emails" := emails]
    ensures Segment(listId) ==> Target(call) == Some(ListSubscriptions(listId))
  {
    ApiCall(V2, Delete, ListSectionPath(listId, SUBSCRIBE), map[EMAILS := emails])
  }

  /** `add_members_to_list`: POST the profiles to the members endpoint. */
  function AddMembersToList(listId: string, profiles: Value): (call: ApiCall)
    ensures call.api == V2 && call.verb == Post && call.path == "list/" + listId + "/members"
    ensures call.params == map["profiles" := profiles]
    ensures Segment(listId) ==> Target(call) == Some(ListMembership(listId))
  {
    ApiCall(V2, Post, ListSectionPath(listId, MEMBERS), map[PROFILES := profiles])
  }

  /** `get_members_from_list`: GET with the emails to check. */
  function GetMembersFromList(listId: string, emails: Value): (call: ApiCall)
    ensures call.api == V2 && call.verb == Get && call.path == "list/" + listId + "/members"
    ensures call.params == map["emails" := emails]
    ensures Segment(listId) ==> Target(call) == Some(ListMembership(listId))
  {
    ApiCall(V2, Get, ListSectionPath(listId, MEMBERS), map[EMAILS := emails])
  }

  /** `remove_members_from_list`: DELETE with the emails to remove. */
  function RemoveMembersFromList(listId: string, emails: Value): (call: ApiCall)
    ensures call.api == V2 && call.verb == Delete && call.path == "list/" + listId + "/members"
    ensures call.params == map["emails" := emails]
    ensures Segment(listId) ==> Target(call) == Some(ListMembership(listId))
  {
    ApiCall(V2, Delete, ListSectionPath(listId, MEMBERS), map[EMAILS := emails])
  }

  /** The path `list/<id>/exclusions/all` of a list's exclusions. */
  function ExclusionsPath(listId: string): (path: string)
    ensures path == "list/" + listId + "/exclusions/all"
    ensures Segment(listId) ==> Route(V2, path) == Some(ListExclusions(listId))
  {
    JoinFour(LIST, listId, "exclusions", ALL, '/');
    PathSegments([LIST, listId, "exclusions", ALL]);
    var path := Join([LIST, listId, "exclusions", ALL], '/');
    if Segment(listId) then RouteListExclusions(path, listId); path else path
  }

  /** The path `group/<id>/members/all` of every member of a list or segment. */
  function GroupMembersPath(groupId: string): (path: string)
    ensures path == "group/" + groupId + "/members/all"
    ensures Segment(groupId) ==> Route(V2, path) == Some(GroupMembers(groupId))
  {
    JoinFour("group", groupId, MEMBERS, ALL, '/');
    PathSegments(["group", groupId, MEMBERS, ALL]);
    var path := Join(["group", groupId, MEMBERS, ALL], '/');
    if Segment(groupId) then RouteGroupMembers(path, groupId); path else path
  }

  /** The path `segment/<id>/members` of a segment's membership check. */
  function SegmentMembersPath(segmentId: string): (path: string)
    ensures path == "segment/" + segmentId + "/members"
    ensures Segment(segmentId) ==> Route(V1, path) == Some(SegmentMembership(segmentId))
  {
    JoinThree(SEGMENT, segmentId, MEMBERS, '/');
    PathSegments([SEGMENT, segmentId, MEMBERS]);
    var path := Join([SEGMENT, segmentId, MEMBERS], '/');
    if Segment(segmentId) then RouteSegmentMembership(path, segmentId); path else path
  }

  /** `get_list_exclusions`: the marker, when truthy, is the only parameter. */
  function GetListExclusions(listId: string, marker: Value := VNone): (call: ApiCall)
    ensures call.api == V2 && call.verb == Get && call.path == "list/" + listId + "/exclusions/all"
    ensures call.params == MarkerParam(marker)
    ensures Segment(listId) ==> Target(call) == Some(ListExclusions(listId))
  {
    ApiCall(V2, Get, ExclusionsPath(listId), MarkerParam(marker))
  }

  /** `get_all_members`: every member of a list or segment, page by page. */
  function GetAllMembers(groupId: string, marker: Value := VNone): (call: ApiCall)
    ensures call.api == V2 && call.verb == Get && call.path == "group/" + groupId + "/members/all"
    ensures call.params == MarkerParam(marker)
    ensures Segment(groupId) ==> Target(call) == Some(GroupMembers(groupId))
  {
    ApiCall(V2, Get, GroupMembersPath(groupId), MarkerParam(marker))
  }

  /**
   * `get_members_from_segment`: a v1 GET whose one parameter `email` is the
   * emails joined with commas; splitting it at the commas gives the emails
   * back when none of them holds a comma.
   */
  function GetMembersFromSegment(segmentId: string, emails: seq<string>): (call: ApiCall)
    ensures call.api == V1 && call.verb == Get && call.path == "segment/" + segmentId + "/members"
    ensures call.params.Keys == {"email"} && call.params["email"].VStr?
    ensures |emails| >= 1 && (forall i :: 0 <= i < |emails| ==> ',' !in emails[i])
            ==> Split(call.params["email"].s, ',') == emails
    ensures Segment(segmentId) ==> Target(call) == Some(SegmentMembership(segmentId))
  {
    var call := ApiCall(V1, Get, SegmentMembersPath(segmentId), map[EMAIL := VStr(Join(emails, ','))]);
    if |emails| >= 1 && (forall i :: 0 <= i < |emails| ==> ',' !in emails[i]) then
      SplitJoin(emails, ',');
      call
    else
      call
  }

  /**
   * Ids go into paths unescaped, so an id holding `/` can address another
   * endpoint: fetching the list `<id>/exclusions/all` is the same call as
   * fetching the exclusions of list `<id>`.
   */
  lemma UnescapedIdsCollide(listId: string)
    ensures GetListById(listId + "/exclusions/all") == GetListExclusions(listId)
  {
    assert "list/" + (listId + "/exclusions/all") == "list/" + listId + "/exclusions/all";
  }
}
