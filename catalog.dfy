/** Looking up actions and shaping the answers given to the agent
    (client.py:287-421): every failure becomes an envelope with
    `success = false`, never an exception. */
module Catalog {
  import opened Wrappers
  import opened Text
  import opened Models
  import opened Http

  const AllActionsFailure := "Failed to fetch all available actions"
  const ActionFailure := "Failed to fetch action"

  /** The base query of `get_all_available_actions` (client.py:298-301),
      before the paginator adds `skip` and `limit`. */
  function AllActionsParams(platform: string): (params: map<string, Value>)
    ensures params.Keys == {"supported", "connectionPlatform"}
    ensures params["supported"] == VStr("true") && params["connectionPlatform"] == VStr(platform)
  {
    map["supported" := VStr("true"), "connectionPlatform" := VStr(platform)]
  }

  /** The request of `get_single_action` (client.py:325-332). */
  function SingleActionRequest(baseUrl: string, secret: string, actionId: string): (r: GetRequest)
    ensures r.url == KnowledgeUrl(baseUrl) && r.headers == GenerateHeaders(secret)
    ensures r.params.Keys == {"_id"} && r.params["_id"] == VStr(actionId)
  {
    GetRequest(KnowledgeUrl(baseUrl), map["_id" := VStr(actionId)], GenerateHeaders(secret))
  }

  /** What `get_single_action` makes of the response: the first row, or the
      generic failure when the call failed or brought no rows; the "not found"
      text it raises first is replaced by the generic one (client.py:341-351). */
  function SingleAction(outcome: GetOutcome<AvailableAction>): (r: Result<AvailableAction>)
    ensures r.Ok? <==> outcome.Rows? && outcome.rows != []
    ensures r.Ok? ==> r.value == outcome.rows[0]
    ensures r.Err? ==> r.error == ActionFailure
  {
    match outcome
    case Rows(rows, _) => if rows != [] then Ok(rows[0]) else Err(ActionFailure)
    case Failed(_) => Err(ActionFailure)
  }

  /** What `get_all_available_actions` makes of the paginated result: the rows,
      or the generic failure whatever went wrong (client.py:297-311). */
  function AllActions(walked: Result<seq<AvailableAction>>): (r: Result<seq<AvailableAction>>)
    ensures walked.Ok? ==> r == walked
    ensures walked.Err? ==> r == Err(AllActionsFailure)
  {
    match walked
    case Ok(rows) => Ok(rows)
    case Err(_) => Err(AllActionsFailure)
  }

  /** The `{_id, title, tags}` entry reported for one action (client.py:367-374).
      The id is the row's `_id`, which the source reads from the dumped model
      when the private attribute of that name is unset. */
  function Summarize(a: AvailableAction): (s: ActionSummary)
    ensures s.id == a.id && s.title == a.title && s.tags == a.tags
  {
    ActionSummary(a.id, a.title, a.tags)
  }

  /** `get_available_actions` (client.py:363-391). */
  function ActionsEnvelope(platform: string, actions: Result<seq<AvailableAction>>): (r: ActionsResponse)
    ensures r.success <==> actions.Ok?
    ensures r.success ==>
      && r.actions.Some? && |r.actions.value| == |actions.value|
      && (forall i :: 0 <= i < |actions.value| ==> r.actions.value[i] == Summarize(actions.value[i]))
      && r.platform == Some(platform)
      && r.content == Some("Found " + NatToString(|actions.value|) + " available actions for " + platform)
      && r.message.None? && r.raw.None? && r.title.None?
    ensures !r.success ==>
      && r.title == Some("Failed to get available actions")
      && r.message == Some(actions.error) && r.raw == Some(actions.error)
      && r.content.None? && r.actions.None? && r.platform.None?
  {
    match actions
    case Ok(all) =>
      var summaries := seq(|all|, i requires 0 <= i < |all| => Summarize(all[i]));
      ActionsResponse(true, Some("Found " + NatToString(|summaries|) + " available actions for " + platform),
                      None, None, None, Some(summaries), Some(platform))
    case Err(e) =>
      ActionsResponse(false, None, Some(e), Some(e), Some("Failed to get available actions"), None, None)
  }

  /** `get_action_knowledge` (client.py:404-421): on failure the platform is
      still reported, since the envelope requires it. */
  function KnowledgeEnvelope(platform: string, action: Result<AvailableAction>): (r: ActionKnowledgeResponse)
    ensures r.success <==> action.Ok?
    ensures r.platform == platform
    ensures r.success ==>
      && r.action == Some(action.value)
      && r.content == Some("Found knowledge for action: " + OptStr(action.value.title))
      && r.message.None? && r.raw.None? && r.title.None?
    ensures !r.success ==>
      && r.title == Some("Failed to get action knowledge")
      && r.message == Some(action.error) && r.raw == Some(action.error)
      && r.content.None? && r.action.None?
  {
    match action
    case Ok(a) =>
      ActionKnowledgeResponse(true, Some("Found knowledge for action: " + OptStr(a.title)), None, None, None,
                              platform, Some(a))
    case Err(e) =>
      ActionKnowledgeResponse(false, None, Some(e), Some(e), Some("Failed to get action knowledge"), platform, None)
  }

  /** Whatever the paginated walk gives, the actions envelope of
      `get_available_actions` is well formed, and a failure always reports the
      one generic message. */
  lemma ActionsFailureMessage(platform: string, walked: Result<seq<AvailableAction>>)
    ensures !ActionsEnvelope(platform, AllActions(walked)).success ==>
      ActionsEnvelope(platform, AllActions(walked)).message == Some(AllActionsFailure)
    ensures ActionsEnvelope(platform, AllActions(walked)).success <==> walked.Ok?
  {
  }

  /** Whatever the lookup answers, the knowledge envelope fails exactly when no
      row came back, and then with the one generic message. */
  lemma KnowledgeFailureMessage(platform: string, outcome: GetOutcome<AvailableAction>)
    ensures !KnowledgeEnvelope(platform, SingleAction(outcome)).success <==>
      (outcome.Failed? || outcome.rows == [])
    ensures !KnowledgeEnvelope(platform, SingleAction(outcome)).success ==>
      KnowledgeEnvelope(platform, SingleAction(outcome)).message == Some(ActionFailure)
  {
  }
}
