/**
 * The `Campaigns` resource: the v1 campaign listing and a campaign's
 * recipients. Neither filters its parameters.
 */
module Campaigns {
  import opened Wrappers
  import opened PyValues
  import opened Text
  import opened Http
  import opened ApiHelper
  import opened Routes

  const CAMPAIGNS := "campaigns"
  const CAMPAIGN := "campaign"
  const RECIPIENTS := "recipients"
  const OFFSET := "offset"

  /** `get_campaigns`. */
  function GetCampaigns(page: Value := VInt(0), count: Value := VInt(50)): (call: ApiCall)
    ensures call.api == V1 && call.verb == Get && call.path == "campaigns"
    ensures call.params == map["page" := page, "count" := count]
    ensures Target(call) == Some(CampaignIndex)
  {
    assert '/' !in CAMPAIGNS;
    SplitNoSeparator(CAMPAIGNS, '/');
    RouteCampaignIndex(CAMPAIGNS);
    ApiCall(V1, Get, CAMPAIGNS, map[PAGE := page, COUNT := count])
  }

  /**
   * `get_campaign_recipients`: count, sort and offset are all sent, `None`
   * or empty ones included.
   */
  function GetCampaignRecipients(campaignId: string, count: Value := VInt(5000), offset: Value := VStr(""),
                                 sort: Value := VStr(SORT_ASC)): (call: ApiCall)
    ensures call.api == V1 && call.verb == Get && call.path == "campaign/" + campaignId + "/recipients"
    ensures call.params == map["count" := count, "sort" := sort, "offset" := offset]
    ensures Segment(campaignId) ==> Target(call) == Some(CampaignRecipients(campaignId))
  {
    JoinThree(CAMPAIGN, campaignId, RECIPIENTS, '/');
    PathSegments([CAMPAIGN, campaignId, RECIPIENTS]);
    var path := Join([CAMPAIGN, campaignId, RECIPIENTS], '/');
    var params := map[COUNT := count, SORT := sort, OFFSET := offset];
    if Segment(campaignId) then RouteCampaignRecipients(path, campaignId); ApiCall(V1, Get, path, params)
    else ApiCall(V1, Get, path, params)
  }

  /**
   * The first page of recipients sends an empty offset, which the timeline
   * calls' filtering would have kept as well (it drops only `None`), but
   * a `None` offset is sent here too.
   */
  lemma RecipientsAreNotFiltered(campaignId: string)
    ensures GetCampaignRecipients(campaignId).params["offset"] == VStr("")
    ensures "offset" in GetCampaignRecipients(campaignId, offset := VNone).params
    ensures FilterParams(GetCampaignRecipients(campaignId, offset := VNone).params)
            != GetCampaignRecipients(campaignId, offset := VNone).params
  {
    var p := GetCampaignRecipients(campaignId, offset := VNone).params;
    assert "offset" !in FilterParams(p);
  }
}
