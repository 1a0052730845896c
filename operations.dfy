/** The operations menu of the service detail screen and the link back to
    the cluster's service list. Each operation publishes one named action
    with its payload when clicked; only the internet-access editor has a
    visibility rule. */
module Operations {
  import opened Text
  import opened ServiceTypes

  /** The screen's module, used in the list link. */
  const ModuleName := "services"

  /** The screen's resource name, sent (before translation) as the `type` of
      some payloads. */
  const ResourceName := "Service"

  /** The kind of action the menu shows an operation as. */
  datatype ActionKind = EditAction | DeleteAction

  /** Whether an operation has a visibility rule. */
  datatype Visibility = NoRule | WhenVirtualIp

  /** Which action an operation publishes when clicked. */
  datatype Trigger = EditBaseInfo | EditService | EditGateway | EditYaml | DeleteResource

  /** `text` is the label before translation. */
  datatype Operation = Operation(
    key: string, icon: string, text: string, action: ActionKind,
    visibility: Visibility, onClick: Trigger)

  /** Payloads of the published actions. `refetchOnSuccess` stands for the
      success callback that runs the fetch again. */
  datatype Payload =
    | BaseInfoPayload(typeName: string, detail: Service, refetchOnSuccess: bool)
    | DetailPayload(detail: Service)
    | DeletePayload(typeName: string, resource: string)

  datatype Event = Event(name: string, payload: Payload)

  function Keys(ops: seq<Operation>): seq<string>
  {
    seq(|ops|, i requires 0 <= i < |ops| => ops[i].key)
  }

  /** The five operations, in menu order. */
  function GetOperations(): (ops: seq<Operation>)
    ensures Keys(ops) == ["edit", "editService", "editGateway", "editYaml", "delete"]
    ensures forall i :: 0 <= i < |ops| ==> (ops[i].visibility == WhenVirtualIp <==> ops[i].key == "editGateway")
    ensures forall i :: 0 <= i < |ops| ==> (ops[i].action == DeleteAction <==> ops[i].key == "delete")
    ensures forall i, j :: 0 <= i < j < |ops| ==> ops[i].onClick != ops[j].onClick
    ensures |ops| == 5
      && ops[0].onClick == EditBaseInfo && ops[1].onClick == EditService
      && ops[2].onClick == EditGateway && ops[3].onClick == EditYaml
      && ops[4].onClick == DeleteResource
  {
    [
      Operation("edit", "pen", "Edit Info", EditAction, NoRule, EditBaseInfo),
      Operation("editService", "network-router", "Edit Service", EditAction, NoRule, EditService),
      Operation("editGateway", "ip", "Edit Internet Access", EditAction, WhenVirtualIp, EditGateway),
      Operation("editYaml", "pen", "Edit YAML", EditAction, NoRule, EditYaml),
      Operation("delete", "trash", "Delete", DeleteAction, NoRule, DeleteResource)
    ]
  }

  /** The visibility rule applied to a record: None for an operation without
      a rule, otherwise whether the record's type is the virtual-IP type
      (whose value is the console's constant, passed in). */
  function Show(op: Operation, record: Service, virtualIpType: string): (shown: Option<bool>)
    ensures shown.Some? <==> op.visibility == WhenVirtualIp
    ensures shown == Some(true) <==> op.visibility == WhenVirtualIp && record.kind == virtualIpType
  {
    match op.visibility
    case NoRule => None
    case WhenVirtualIp => Some(record.kind == virtualIpType)
  }

  /** The action published on a click. `detail` is the store's snapshot and
      `item` the record the menu was opened for; only the internet-access
      editor is given the record, the others the snapshot. */
  function OnClick(trigger: Trigger, detail: Service, item: Service): (e: Event)
    ensures trigger == EditBaseInfo ==>
      e == Event("resource.baseinfo.edit", BaseInfoPayload(ResourceName, detail, true))
    ensures trigger == EditService ==> e == Event("service.edit", DetailPayload(detail))
    ensures trigger == EditGateway ==> e == Event("service.gateway.edit", DetailPayload(item))
    ensures trigger == EditYaml ==> e == Event("resource.yaml.edit", DetailPayload(detail))
    ensures trigger == DeleteResource ==> e == Event("resource.delete", DeletePayload(ResourceName, detail.name))
  {
    match trigger
    case EditBaseInfo => Event("resource.baseinfo.edit", BaseInfoPayload(ResourceName, detail, true))
    case EditService => Event("service.edit", DetailPayload(detail))
    case EditGateway => Event("service.gateway.edit", DetailPayload(item))
    case EditYaml => Event("resource.yaml.edit", DetailPayload(detail))
    case DeleteResource => Event("resource.delete", DeletePayload(ResourceName, detail.name))
  }

  /** Every operation of the menu publishes an action of its own. */
  lemma EventNamesDistinct(detail: Service, item: Service)
    ensures var ops := GetOperations();
      forall i, j :: 0 <= i < j < |ops| ==>
        OnClick(ops[i].onClick, detail, item).name != OnClick(ops[j].onClick, detail, item).name
  {
  }

  /** `/clusters/${cluster}/services` */
  function ListUrl(params: RouteParams): string
  {
    "/clusters/" + params.cluster + "/" + ModuleName
  }

  /** Reads the cluster back from a list link. */
  function ClusterOfListUrl(url: string): Option<string>
  {
    var prefix, suffix := "/clusters/", "/" + ModuleName;
    if |url| >= |prefix| + |suffix| && url[..|prefix|] == prefix && url[|url| - |suffix|..] == suffix
    then Some(url[|prefix|..|url| - |suffix|])
    else None
  }

  /** The list link names the route's cluster. */
  lemma ListUrlRoundTrip(params: RouteParams)
    ensures ClusterOfListUrl(ListUrl(params)) == Some(params.cluster)
  {
    var url := ListUrl(params);
    var prefix, suffix := "/clusters/", "/" + ModuleName;
    assert url == prefix + params.cluster + suffix;
    assert url[..|prefix|] == prefix;
    assert url[|url| - |suffix|..] == suffix;
    assert url[|prefix|..|url| - |suffix|] == params.cluster;
  }
}
