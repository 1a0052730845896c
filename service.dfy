/** The records the service detail screen reads: the Service snapshot held
    by the store, the route parameters, and the three related collections
    (workloads, pods, endpoint subsets) with their loading flags. */
module ServiceTypes {
  import opened Text

  /** Label key to label value. */
  type Selector = map<string, string>

  /** The Service snapshot. `kind` is the record's `type` field (for example
      "ClusterIP", "ExternalName" or "Headless(ExternalName)"); `specType` is
      the type taken from the resource's spec. A field the record lacks is
      the empty string, and `externalIPs` is None when the record has no
      such array. */
  datatype Service = Service(
    name: string,
    namespace: string,
    kind: string,
    specType: string,
    clusterIP: string,
    externalName: string,
    externalIPs: Option<seq<string>>,
    loadBalancerIngress: string,
    selector: Selector,
    sessionAffinity: string,
    application: string,
    annotations: map<string, string>,
    description: string,
    createTime: string,
    updateTime: string,
    creator: string)

  /** Parameters of the route that opened the screen. */
  datatype RouteParams = RouteParams(cluster: string, namespace: string, name: string)

  /** One address of an endpoint subset; "" stands for a missing ip. */
  datatype Address = Address(ip: string)

  /** One port of an endpoint subset; 0 stands for a missing port. */
  datatype EndpointPort = EndpointPort(port: int)

  datatype Subset = Subset(addresses: seq<Address>, ports: seq<EndpointPort>)

  datatype EndpointsState = EndpointsState(isLoading: bool, data: seq<Subset>)

  /** `kind` is the store's `workloads.type`, the kind of the workloads found
      by the selector (for example "statefulsets"). */
  datatype WorkloadsState = WorkloadsState(isLoading: bool, kind: string)

  datatype Pod = Pod(uid: string, name: string)

  datatype PodsState = PodsState(isLoading: bool, data: seq<Pod>)
}
