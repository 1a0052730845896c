/** The attribute list of the service detail screen's side panel: nothing
    while the detail snapshot is empty, otherwise thirteen labelled values in
    a fixed order, among them the external IP chosen by a fixed precedence,
    the type label, the DNS names and the endpoints. */
module Attributes {
  import opened Text
  import opened ServiceTypes
  import Dns
  import Endpoints

  /** The annotation that records the console's own sub-type of a service. */
  const ServiceTypeAnnotation := "kubesphere.io/serviceType"

  /** The labels of the attributes, in the order they are shown (before
      translation). */
  const AttrNames: seq<string> := [
    "Cluster", "Project", "Type", "Application", "Virtual IP", "External IP",
    "Session Affinity", "Selector", "DNS", "Endpoints", "Created Time",
    "Updated Time", "Creator"]

  /** How the Type attribute is labelled: by the translation key built from
      the sub-type annotation, or as a custom creation; either way followed
      by the raw `type` in parentheses. */
  datatype TypeLabel =
    | Annotated(translationKey: string, raw: string)
    | CustomCreation(raw: string)

  datatype AttrValue =
    | TextValue(text: string)
    | Blank
    | TypeValue(typeLabel: TypeLabel)
    | DnsValue(dns: Dns.DnsView)
    | EndpointsValue(view: Endpoints.View)

  datatype Attr = Attr(name: string, value: AttrValue)

  /** The precedence of the External IP attribute: the external name of an
      ExternalName service; else the ingress address of a service whose spec
      type is LoadBalancer; else the external IPs joined by ", " when the
      array is there (an empty array joins to ""); else nothing. */
  predicate ExternalIpRule(detail: Service, externalIP: Option<string>)
  {
    if detail.kind == "ExternalName" then externalIP == Some(detail.externalName)
    else if detail.specType == "LoadBalancer" then externalIP == Some(detail.loadBalancerIngress)
    else if detail.externalIPs.Some? then externalIP == Some(Join(detail.externalIPs.value, ", "))
    else externalIP == None
  }

  /** The if/else chain that assigns the external IP. */
  method SelectExternalIp(detail: Service) returns (externalIP: Option<string>)
    ensures ExternalIpRule(detail, externalIP)
  {
    externalIP := None;
    if detail.kind == "ExternalName" {
      externalIP := Some(detail.externalName);
    } else if detail.specType == "LoadBalancer" {
      externalIP := Some(detail.loadBalancerIngress);
    } else if detail.externalIPs.Some? {
      externalIP := Some(Join(detail.externalIPs.value, ", "));
    }
  }

  /** The precedence leaves no choice: at most one value satisfies it. */
  lemma ExternalIpRuleUnique(detail: Service, a: Option<string>, b: Option<string>)
    requires ExternalIpRule(detail, a) && ExternalIpRule(detail, b)
    ensures a == b
  {
  }

  /** The Type attribute: a present, non-empty sub-type annotation selects the
      key `SERVICE_TYPE_` followed by the annotation upper-cased; otherwise
      the label is the custom-creation one. The raw type is kept. */
  function TypeLabelOf(detail: Service): (r: TypeLabel)
    ensures r.raw == detail.kind
    ensures r.Annotated? <==>
      ServiceTypeAnnotation in detail.annotations && detail.annotations[ServiceTypeAnnotation] != ""
    ensures r.Annotated? ==>
      |r.translationKey| == |"SERVICE_TYPE_"| + |detail.annotations[ServiceTypeAnnotation]|
      && r.translationKey[..|"SERVICE_TYPE_"|] == "SERVICE_TYPE_"
      && r.translationKey[|"SERVICE_TYPE_"|..] == ToUpper(detail.annotations[ServiceTypeAnnotation])
  {
    var serviceType := if ServiceTypeAnnotation in detail.annotations
      then detail.annotations[ServiceTypeAnnotation] else "";
    if serviceType != "" then Annotated("SERVICE_TYPE_" + ToUpper(serviceType), detail.kind)
    else CustomCreation(detail.kind)
  }

  /** Annotations that differ only in the case of their letters give the same
      label. */
  lemma TypeLabelIgnoresCase(d1: Service, d2: Service)
    requires d1.kind == d2.kind
    requires ServiceTypeAnnotation in d1.annotations && ServiceTypeAnnotation in d2.annotations
    requires d2.annotations[ServiceTypeAnnotation] == ToUpper(d1.annotations[ServiceTypeAnnotation])
    ensures TypeLabelOf(d1) == TypeLabelOf(d2)
  {
  }

  function ValueOf(o: Option<string>): AttrValue
  {
    if o.Some? then TextValue(o.value) else Blank
  }

  /** The thirteen attributes of a non-empty snapshot, given the chosen
      external IP and the rendered endpoints. */
  function Panel(
    d: Service, params: RouteParams, workloads: WorkloadsState, pods: PodsState,
    externalIP: Option<string>, view: Endpoints.View,
    joinSelector: Selector -> string, formatTime: string -> string): seq<Attr>
  {
    [
      Attr("Cluster", TextValue(params.cluster)),
      Attr("Project", TextValue(params.namespace)),
      Attr("Type", TypeValue(TypeLabelOf(d))),
      Attr("Application", TextValue(d.application)),
      Attr("Virtual IP", TextValue(d.clusterIP)),
      Attr("External IP", ValueOf(externalIP)),
      Attr("Session Affinity", TextValue(d.sessionAffinity)),
      Attr("Selector", TextValue(joinSelector(d.selector))),
      Attr("DNS", DnsValue(Dns.RenderDns(d, workloads, pods))),
      Attr("Endpoints", EndpointsValue(view)),
      Attr("Created Time", TextValue(formatTime(d.createTime))),
      Attr("Updated Time", TextValue(formatTime(d.updateTime))),
      Attr("Creator", TextValue(d.creator))
    ]
  }

  /** The panel always carries the thirteen labels in their fixed order. */
  lemma PanelLabels(
    d: Service, params: RouteParams, workloads: WorkloadsState, pods: PodsState,
    externalIP: Option<string>, view: Endpoints.View,
    joinSelector: Selector -> string, formatTime: string -> string)
    ensures var attrs := Panel(d, params, workloads, pods, externalIP, view, joinSelector, formatTime);
      |attrs| == |AttrNames| && forall i :: 0 <= i < |attrs| ==> attrs[i].name == AttrNames[i]
  {
  }

  /** The attributes of the side panel: nothing for an empty snapshot,
      otherwise the panel with the external IP chosen by its precedence and
      the endpoints rendered with their short cuts. The label selector and
      the local-time formatting are the console's utilities, passed in as
      functions. */
  method GetAttrs(
    detail: Option<Service>, params: RouteParams,
    workloads: WorkloadsState, pods: PodsState, endpoints: EndpointsState,
    joinSelector: Selector -> string, formatTime: string -> string)
    returns (attrs: Option<seq<Attr>>)
    ensures attrs.None? <==> detail.None?
    ensures attrs.Some? ==> exists externalIP, view ::
      && ExternalIpRule(detail.value, externalIP)
      && Endpoints.ShowsEndpoints(detail.value.kind, endpoints, view)
      && attrs.value == Panel(detail.value, params, workloads, pods, externalIP, view, joinSelector, formatTime)
  {
    if detail.None? {
      return None;
    }
    var d := detail.value;
    var externalIP := SelectExternalIp(d);
    var view := Endpoints.RenderEndpoints(d.kind, endpoints);
    attrs := Some(Panel(d, params, workloads, pods, externalIP, view, joinSelector, formatTime));
  }
}
