/** The DNS attribute of the service detail screen: the service's cluster
    name `name.namespace`, or, for a service in front of a StatefulSet whose
    pods are known, one stable per-pod name `pod.name.namespace` per pod. */
module Dns {
  import opened ServiceTypes

  /** The kind of workload whose pods get stable network names. */
  const StatefulSets := "statefulsets"

  /** The single cluster name, or one line per pod. */
  datatype DnsView = ClusterName(name: string) | PodNames(lines: seq<string>)

  /** `${service.name}.${service.namespace}` */
  function ServiceDnsName(service: Service): string
  {
    service.name + "." + service.namespace
  }

  /** The DNS attribute. The single cluster name is shown while either
      collection is loading, when the workloads are not StatefulSets and when
      there are no pods; otherwise each pod, in order, gets its own name
      below the service's. */
  function RenderDns(service: Service, workloads: WorkloadsState, pods: PodsState): (r: DnsView)
    ensures r.ClusterName? <==>
      workloads.isLoading || workloads.kind != StatefulSets || pods.isLoading || |pods.data| == 0
    ensures r.ClusterName? ==> r.name == ServiceDnsName(service)
    ensures r.PodNames? ==> |r.lines| == |pods.data| > 0
    ensures r.PodNames? ==> forall i :: 0 <= i < |r.lines| ==>
      r.lines[i] == pods.data[i].name + "." + ServiceDnsName(service)
  {
    if workloads.isLoading || workloads.kind != StatefulSets || pods.isLoading || |pods.data| == 0 then
      ClusterName(ServiceDnsName(service))
    else
      PodNames(seq(|pods.data|, i requires 0 <= i < |pods.data| =>
        pods.data[i].name + "." + ServiceDnsName(service)))
  }

  /** The text before the first dot. */
  function FirstLabel(s: string): (r: string)
    ensures |r| <= |s| && r == s[..|r|]
  {
    if |s| == 0 || s[0] == '.' then "" else [s[0]] + FirstLabel(s[1..])
  }

  lemma {:induction false} FirstLabelOf(x: string, y: string)
    requires forall i :: 0 <= i < |x| ==> x[i] != '.'
    ensures FirstLabel(x + "." + y) == x
  {
    if |x| > 0 {
      FirstLabelOf(x[1..], y);
      assert (x + "." + y)[1..] == x[1..] + "." + y;
    }
  }

  /** A per-pod name is the pod's name (a DNS label, so without dots) on top
      of the service's cluster name: both are read back from the line. */
  lemma PodLineNamesPod(service: Service, workloads: WorkloadsState, pods: PodsState, i: nat)
    requires RenderDns(service, workloads, pods).PodNames?
    requires i < |pods.data|
    requires forall c :: 0 <= c < |pods.data[i].name| ==> pods.data[i].name[c] != '.'
    ensures var line := RenderDns(service, workloads, pods).lines[i];
      FirstLabel(line) == pods.data[i].name
      && line[|pods.data[i].name| + 1..] == ServiceDnsName(service)
  {
    var name := pods.data[i].name;
    var line := RenderDns(service, workloads, pods).lines[i];
    FirstLabelOf(name, ServiceDnsName(service));
    assert line == name + "." + ServiceDnsName(service);
    assert line[|name| + 1..] == ServiceDnsName(service);
  }
}
