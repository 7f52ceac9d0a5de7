/** deploy/deploy_connect.py: map the environment to its contact flow name, then update that
    flow's content in the Connect instance when a flow of that name is listed, or create it. */
module DeployConnect {
  import opened Basics

  const InstanceId := "125d4a4f-946b-4b2d-aae7-7f7ee3be569c"
  const ContactFlowType := "CONTACT_FLOW"
  const ContactFlowNames: map<string, string> := map["dev" := "test-dev", "uat" := "test-uat", "prod" := "test-prod"]

  /** `CONTACT_FLOW_NAMES.get(env)` followed by `if not flow_name`. */
  function FlowNameFor(env: string): (r: Option<string>)
    ensures r.Some? <==> env == "dev" || env == "uat" || env == "prod"
    ensures r.Some? ==> r.value == "test-" + env
  {
    if env in ContactFlowNames && ContactFlowNames[env] != "" then Some(ContactFlowNames[env]) else None
  }

  function FlowDescription(flowName: string): string
  {
    flowName + " flow created via deploy script"
  }

  datatype FlowSummary = FlowSummary(name: string, id: string)

  function FlowNameOf(f: FlowSummary): string
  {
    f.name
  }

  /** What the instance holds: the summary list its listing call returns (None when the
      response carries no ContactFlowSummaryList) and the content of each flow by id. */
  datatype ConnectState = ConnectState(summaries: Option<seq<FlowSummary>>, contents: map<string, string>)

  /** `response.get("ContactFlowSummaryList", [])`. */
  function Listed(st: ConnectState): seq<FlowSummary>
  {
    match st.summaries
    case None => []
    case Some(flows) => flows
  }

  datatype ConnectRequest =
    | ListContactFlows(instanceId: string)
    | UpdateContactFlowContent(instanceId: string, contactFlowId: string, content: string)
    | CreateContactFlow(instanceId: string, name: string, flowType: string, content: string, description: string)

  /** The effect of one request; `assignedId` is the id the service gives a flow it creates. */
  function Effect(st: ConnectState, r: ConnectRequest, assignedId: string): ConnectState
  {
    match r
    case ListContactFlows(_) => st
    case UpdateContactFlowContent(_, id, content) => st.(contents := st.contents[id := content])
    case CreateContactFlow(_, name, _, content, _) =>
      ConnectState(Some(Listed(st) + [FlowSummary(name, assignedId)]), st.contents[assignedId := content])
  }

  function Apply(st: ConnectState, rs: seq<ConnectRequest>, assignedId: string): ConnectState
  {
    if rs == [] then st else Effect(Apply(st, rs[..|rs| - 1], assignedId), rs[|rs| - 1], assignedId)
  }

  /** The id of the flow the run deploys to, or None when it exits; and the requests it issues. */
  datatype Deployment = Deployment(contactFlowId: Option<string>, issued: seq<ConnectRequest>)

  /** What a run does, given the environment, the instance and the flow content. */
  function Deploy(env: string, st: ConnectState, content: string, assignedId: string): Deployment
  {
    match FlowNameFor(env)
    case None => Deployment(None, [])
    case Some(flowName) =>
      var flows := Listed(st);
      match FindByName(flows, FlowNameOf, flowName)
      case Some(i) =>
        Deployment(Some(flows[i].id), [ListContactFlows(InstanceId), UpdateContactFlowContent(InstanceId, flows[i].id, content)])
      case None =>
        Deployment(Some(assignedId),
                   [ListContactFlows(InstanceId),
                    CreateContactFlow(InstanceId, flowName, ContactFlowType, content, FlowDescription(flowName))])
  }

  lemma ApplyPair(st: ConnectState, a: ConnectRequest, b: ConnectRequest, assignedId: string)
    ensures Apply(st, [a, b], assignedId) == Effect(Effect(st, a, assignedId), b, assignedId)
  {
    assert [a, b][..1] == [a];
    assert Apply(st, [a], assignedId) == Effect(st, a, assignedId) by {
      assert [a][..0] == [];
    }
  }

  /** After a run for a known environment, the instance lists a flow with the environment's
      name whose id is the one the run reports, and that flow holds the deployed content. An
      unknown environment issues nothing and changes nothing. */
  lemma DeployedFlowHoldsContent(env: string, st: ConnectState, content: string, assignedId: string)
    ensures var d := Deploy(env, st, content, assignedId);
            d.contactFlowId.None? <==> d.issued == []
    ensures var d := Deploy(env, st, content, assignedId);
            var st' := Apply(st, d.issued, assignedId);
            d.contactFlowId.Some? ==>
              && FlowNameFor(env).Some?
              && FindByName(Listed(st'), FlowNameOf, FlowNameFor(env).value).Some?
              && Listed(st')[FindByName(Listed(st'), FlowNameOf, FlowNameFor(env).value).value].id == d.contactFlowId.value
              && d.contactFlowId.value in st'.contents
              && st'.contents[d.contactFlowId.value] == content
  {
    var d := Deploy(env, st, content, assignedId);
    if d.contactFlowId.Some? {
      var flowName := FlowNameFor(env).value;
      ApplyPair(st, d.issued[0], d.issued[1], assignedId);
      if FindByName(Listed(st), FlowNameOf, flowName).None? {
        FindByNameAppend(Listed(st), FlowNameOf, flowName, FlowSummary(flowName, assignedId));
      }
    }
  }

  /** Deploying again, whatever the content and whatever id the service would assign, updates
      the flow the first run deployed to and creates nothing. */
  lemma RedeployUpdatesInPlace(env: string, st: ConnectState, content1: string, id1: string, content2: string, id2: string)
    requires FlowNameFor(env).Some?
    ensures var d1 := Deploy(env, st, content1, id1);
            var d2 := Deploy(env, Apply(st, d1.issued, id1), content2, id2);
            && d2.contactFlowId == d1.contactFlowId
            && d2.issued == [ListContactFlows(InstanceId), UpdateContactFlowContent(InstanceId, d1.contactFlowId.value, content2)]
  {
    var d1 := Deploy(env, st, content1, id1);
    DeployedFlowHoldsContent(env, st, content1, id1);
  }

  /** A response without a ContactFlowSummaryList is read as an empty list. */
  lemma MissingSummaryListIsEmpty(env: string, contents: map<string, string>, content: string, assignedId: string)
    ensures Deploy(env, ConnectState(None, contents), content, assignedId) == Deploy(env, ConnectState(Some([]), contents), content, assignedId)
    ensures FlowNameFor(env).Some? ==>
              Deploy(env, ConnectState(None, contents), content, assignedId).issued[1] ==
                CreateContactFlow(InstanceId, FlowNameFor(env).value, "CONTACT_FLOW", content, FlowNameFor(env).value + " flow created via deploy script")
  {
  }

  /** The Connect instance the script deploys to. */
  class ConnectInstance {
    var summaries: Option<seq<FlowSummary>>
    var contents: map<string, string>
    var log: seq<ConnectRequest>

    function State(): ConnectState
      reads this
    {
      ConnectState(summaries, contents)
    }

    constructor (initial: ConnectState)
      ensures State() == initial && log == []
    {
      summaries, contents := initial.summaries, initial.contents;
      log := [];
    }

    method ListContactFlows(instanceId: string) returns (response: Option<seq<FlowSummary>>)
      modifies this`log
      ensures response == summaries && log == old(log) + [ConnectRequest.ListContactFlows(instanceId)]
    {
      response := summaries;
      log := log + [ConnectRequest.ListContactFlows(instanceId)];
    }

    method UpdateContactFlowContent(instanceId: string, contactFlowId: string, content: string)
      modifies this`contents, this`log
      ensures contents == old(contents)[contactFlowId := content]
      ensures log == old(log) + [ConnectRequest.UpdateContactFlowContent(instanceId, contactFlowId, content)]
    {
      contents := contents[contactFlowId := content];
      log := log + [ConnectRequest.UpdateContactFlowContent(instanceId, contactFlowId, content)];
    }

    /** Returns the id the service assigns to the new flow. */
    method CreateContactFlow(instanceId: string, name: string, flowType: string, content: string, description: string,
                             assignedId: string)
      returns (contactFlowId: string)
      modifies this`summaries, this`contents, this`log
      ensures contactFlowId == assignedId
      ensures summaries == Some(Listed(old(State())) + [FlowSummary(name, assignedId)])
      ensures contents == old(contents)[assignedId := content]
      ensures log == old(log) + [ConnectRequest.CreateContactFlow(instanceId, name, flowType, content, description)]
    {
      summaries := Some(Listed(State()) + [FlowSummary(name, assignedId)]);
      contents := contents[assignedId := content];
      log := log + [ConnectRequest.CreateContactFlow(instanceId, name, flowType, content, description)];
      contactFlowId := assignedId;
    }
  }

  /** The whole script against the instance: the flow it deploys to, the requests it issued and
      what the instance holds afterwards are those of Deploy. */
  method Run(connect: ConnectInstance, env: string, content: string, assignedId: string) returns (contactFlowId: Option<string>)
    modifies connect
    ensures contactFlowId == Deploy(env, old(connect.State()), content, assignedId).contactFlowId
    ensures connect.log == old(connect.log) + Deploy(env, old(connect.State()), content, assignedId).issued
    ensures connect.State() == Apply(old(connect.State()), Deploy(env, old(connect.State()), content, assignedId).issued, assignedId)
  {
    ghost var st := connect.State();
    var flowName := FlowNameFor(env);
    if flowName.None? {
      return None;
    }
    var response := connect.ListContactFlows(InstanceId);
    var flows := match response case None => [] case Some(fs) => fs;
    var matchingFlow := FindByName(flows, FlowNameOf, flowName.value);
    var id: string;
    if matchingFlow.Some? {
      id := flows[matchingFlow.value].id;
      connect.UpdateContactFlowContent(InstanceId, id, content);
    } else {
      id := connect.CreateContactFlow(InstanceId, flowName.value, ContactFlowType, content, FlowDescription(flowName.value), assignedId);
    }
    contactFlowId := Some(id);
    ghost var d := Deploy(env, st, content, assignedId);
    ApplyPair(st, d.issued[0], d.issued[1], assignedId);
  }
}
