# Service detail screen of the KubeSphere console, modelled in Dafny

The console's detail screen for a Kubernetes Service
(`src/pages/clusters/containers/Workload/Services/Detail/index.jsx`) fetches
the Service and its related workloads, pods and endpoints from the store,
derives the attributes of its side panel and offers five operations. This
project models the derivations and the fetch orchestration without React or
MobX:

- `endpoints.dfy` (module `Endpoints`): `renderEndpoints`. The short cuts
  (a `Headless(ExternalName)` service shows nothing, a loading store a
  spinner, an empty subset list a dash) and the three nested `forEach` loops
  that push `ip:port` for every present ip and present port of the same
  subset. The loops are methods proved equal to the specification function
  `Flatten`. Lemmas about `Flatten` give exact membership (both directions),
  subset order, address-major order inside a subset, the exact count (no
  de-duplication) and its bound, and that each line can be read back as its
  ip and port.
- `dns.dfy` (module `Dns`): `renderDNS`, the cluster name `name.namespace`
  or one stable name `pod.name.namespace` per StatefulSet pod.
- `attributes.dfy` (module `Attributes`): `getAttrs`. The empty-snapshot
  guard, the external-IP precedence, the type label and the thirteen
  attributes in their order.
- `fetch.dfy` (module `Fetch`): `fetchData`, as requests appended to a log
  held by a `RequestLog` object.
- `operations.dfy` (module `Operations`): `getOperations`, the visibility
  rule, the action each click publishes, and `listUrl`.
- `text.dfy` (module `Text`) and `service.dfy` (module `ServiceTypes`):
  JavaScript string helpers (`join`, number rendering, `toUpperCase`) and
  the records the screen reads.

Points where the code's behaviour is easy to misread, and which the model
keeps as written:

- The ingress address is chosen when `detail.specType === 'LoadBalancer'`
  (line 137); no annotation is consulted.
- `detail.externalIPs` is tested for truthiness, so an empty array still
  selects the third branch and shows the empty string.
- When the subset list is non-empty but no pair has both an ip and a port,
  the code renders an empty list, not the dash. The model keeps this
  (`Lines([])`).

In `fetchData`, the workloads and pods requests are issued in the
continuation of the detail request. That continuation runs only after the
synchronous call that issues the endpoints request. So the log is always
detail, endpoints, and then possibly workloads and pods.

JavaScript truthiness of missing values is modelled with sentinels: a
missing `ip` is `""`, a missing `port` is `0`, and a missing `externalIPs`
array is `None`.

## Model

| member | source | states |
|---|---|---|
| `Endpoints.RenderEndpoints` | src/pages/clusters/containers/Workload/Services/Detail/index.jsx:229-255 | The short cuts apply in order. `Headless(ExternalName)` gives `Null` whatever the endpoint data or loading flag. Otherwise loading gives `Spinner`. Otherwise an empty subset list gives `Dash`. Otherwise the result is `Lines(Flatten(data))`, proved for the loop over the subsets. |
| `Endpoints.PushSubset` | src/pages/clusters/containers/Workload/Services/Detail/index.jsx:245-253 | The per-subset callback appends exactly the subset's lines, address by address, to what was already pushed. |
| `Endpoints.PushAddress` | src/pages/clusters/containers/Workload/Services/Detail/index.jsx:246-252 | The per-address callback appends `ip:port` for each port in order, and only when both the ip and the port are truthy. |
| `Endpoints.FlattenMember` | src/pages/clusters/containers/Workload/Services/Detail/index.jsx:244-254 | A line is emitted if and only if it is `ip + ":" + port` for a truthy ip and a non-zero port of the same subset. Every emitted line comes from such a pair, and every such pair is emitted. |
| `Endpoints.FlattenAppend` | src/pages/clusters/containers/Workload/Services/Detail/index.jsx:245-253 | Subset order is kept: the lines of `a + b` are the lines of `a` followed by those of `b`. |
| `Endpoints.SubsetOrder` | src/pages/clusters/containers/Workload/Services/Detail/index.jsx:246-252 | Inside a subset the order is address-major. With `ips` its truthy ips and `ps` its non-zero ports, both in their own order, line `j * P + k` of the subset, where P is the number of such ports, is `ips[j] + ":" + ps[k]`. |
| `Endpoints.FlattenCount` | src/pages/clusters/containers/Workload/Services/Detail/index.jsx:244-254 | There is no de-duplication: the number of lines equals the sum over subsets of (truthy ips) * (non-zero ports). That is at most the sum over subsets of the number of addresses times the number of ports. |
| `Endpoints.EndpointTextSplits` | src/pages/clusters/containers/Workload/Services/Detail/index.jsx:249 | A line `${ip}:${port}` is read back, splitting at its last colon, as exactly that ip and port. This also holds for ips that contain colons. |
| `Endpoints.ZeroPortSkipped` | src/pages/clusters/containers/Workload/Services/Detail/index.jsx:248-250 | The address `10.0.0.1` with ports 80 and 0 yields the single line `10.0.0.1:80`. |
| `Endpoints.RepeatedAddressKept` | src/pages/clusters/containers/Workload/Services/Detail/index.jsx:244-253 | An address listed twice yields its line twice. |
| `Text.IntToStringRoundTrip` | src/pages/clusters/containers/Workload/Services/Detail/index.jsx:249 | The decimal rendering of the port is read back as the same number. |
| `Text.IntToStringHasNoColon` | src/pages/clusters/containers/Workload/Services/Detail/index.jsx:249 | The rendering of a port contains no colon, so the colon added before it is the last one in the line. |
| `Dns.RenderDns` | src/pages/clusters/containers/Workload/Services/Detail/index.jsx:210-227 | The result is the single name `name.namespace` exactly when the workloads are loading, their kind is not `statefulsets`, the pods are loading or there are no pods. Otherwise there is one line per pod, in pod order, each the pod's name followed by `.` and the service's cluster name. |
| `Dns.PodLineNamesPod` | src/pages/clusters/containers/Workload/Services/Detail/index.jsx:222-226 | For a pod name without dots, the first label of the pod's line is the pod name and the rest is the service's `name.namespace`. |
| `Attributes.GetAttrs` | src/pages/clusters/containers/Workload/Services/Detail/index.jsx:126-208 | There are no attributes exactly when the snapshot is empty. Otherwise the attributes are the panel built with an external IP that obeys the precedence and with endpoints rendered with their short cuts. |
| `Attributes.PanelLabels` | src/pages/clusters/containers/Workload/Services/Detail/index.jsx:145-207 | There are thirteen attributes, labelled in the fixed order from Cluster to Creator. |
| `Attributes.SelectExternalIp` | src/pages/clusters/containers/Workload/Services/Detail/index.jsx:134-141 | Precedence: type `ExternalName` gives the external name, whatever the other fields hold. Otherwise spec type `LoadBalancer` gives the ingress, even when external IPs are set. Otherwise present external IPs give those IPs joined with `", "`. Otherwise there is no value. |
| `Attributes.ExternalIpRuleUnique` | src/pages/clusters/containers/Workload/Services/Detail/index.jsx:134-141 | The precedence determines a single value. |
| `Text.JoinLength` | src/pages/clusters/containers/Workload/Services/Detail/index.jsx:140 | The joined string is as long as all the IPs together plus one separator between each pair of neighbours. |
| `Text.JoinSlices` | src/pages/clusters/containers/Workload/Services/Detail/index.jsx:140 | Each IP appears unchanged in the joined string at its offset (the IPs before it, each followed by a separator), and the separator follows every IP but the last. |
| `Attributes.TypeLabelOf` | src/pages/clusters/containers/Workload/Services/Detail/index.jsx:143-165 | A present, non-empty `kubesphere.io/serviceType` annotation gives the key `SERVICE_TYPE_` plus the annotation upper-cased. Otherwise the label is Custom Creation. Either way the raw `type` is kept for the parenthesis. |
| `Attributes.TypeLabelIgnoresCase` | src/pages/clusters/containers/Workload/Services/Detail/index.jsx:158-161 | Annotations that differ only in letter case give the same label. |
| `Text.ToUpperIdempotent` | src/pages/clusters/containers/Workload/Services/Detail/index.jsx:160 | Upper-casing an upper-cased annotation changes nothing. |
| `Fetch.FetchData` | src/pages/clusters/containers/Workload/Services/Detail/index.jsx:57-67 | One run appends exactly `FetchPlan` to the request log. |
| `Fetch.FetchPlan` | src/pages/clusters/containers/Workload/Services/Detail/index.jsx:57-67 | The detail request and then the endpoints request, both with the route params, are always issued first. A workloads request is issued if and only if the detail resolved and its joined selector is non-empty. In that case exactly one workloads request and then one pods request follow, both with the detail's namespace and that label selector, so a run makes four requests. Otherwise it makes only the two. |
| `Fetch.RequestLog.Issue` | src/pages/clusters/containers/Workload/Services/Detail/index.jsx:58-66 | A store call appends its request to the log. |
| `Fetch.Runs` | src/pages/clusters/containers/Workload/Services/Detail/index.jsx:40-42 | Repeated runs, as on mount and after each successful edit, log as many detail requests, and as many endpoints requests, for the route as there are runs, and so at least two requests per run. |
| `Fetch.EmptySelectorNeverFetchesPods` | src/pages/clusters/containers/Workload/Services/Detail/index.jsx:59-64 | With an empty label selector, no run ever requests workloads or pods. Only detail and endpoints requests appear. |
| `Operations.GetOperations` | src/pages/clusters/containers/Workload/Services/Detail/index.jsx:69-124 | There are exactly five operations, keyed `edit`, `editService`, `editGateway`, `editYaml`, `delete` in that order. Only `editGateway` has a visibility rule. Only `delete` has the `delete` action, and all others have `edit`. The click actions are, in order, the info editor, the service editor, the internet-access editor, the YAML editor and delete, so each has its own. |
| `Operations.Show` | src/pages/clusters/containers/Workload/Services/Detail/index.jsx:97 | Only an operation with a rule has a visibility answer. The answer is true exactly when the record's type equals the virtual-IP type. |
| `Operations.OnClick` | src/pages/clusters/containers/Workload/Services/Detail/index.jsx:75-122 | The actions published are `resource.baseinfo.edit`, `service.edit`, `service.gateway.edit`, `resource.yaml.edit` and `resource.delete`. The gateway editor receives the clicked record. The service and YAML editors receive the store's snapshot. The info editor receives the `Service` type, the snapshot and the refetch callback. Delete receives the type and the snapshot's name. |
| `Operations.EventNamesDistinct` | src/pages/clusters/containers/Workload/Services/Detail/index.jsx:75-122 | The five operations publish five distinct action names. |
| `Operations.ListUrlRoundTrip` | src/pages/clusters/containers/Workload/Services/Detail/index.jsx:52-55 | The list link `/clusters/{cluster}/services` names the route's cluster, which can be read back from it. |

## Left out

- Rendering is not modelled: JSX, the `Loading` spinner component, `DetailPage`, `render()` with its page-level spinner, breadcrumbs and `getDisplayName`, and the `key` props of the rendered lines. Results are tagged values (`Null`, `Spinner`, `Dash`, `Lines`, `ClusterName`, `PodNames`).
- MobX observation, `toJS`, and the `@inject`, `@observer` and `@trigger` decorators are not modelled. The action bus is represented only by the published `Event` (name and payload).
- The promise chain is not modelled. Whether the detail request resolves is the `DetailOutcome` parameter. Concurrency between requests and fetch failures are not modelled.
- `joinSelector` and `getLocalTime(...).format(...)` are the console's utilities and are passed in as function parameters. Their code is not part of this model.
- `SERVICE_TYPES.VirtualIP` is a parameter of `Operations.Show`, because its value is not part of this model.
- `t()` translation is not modelled: labels and texts are kept as their untranslated keys.
- Attributes.TypeLabelOf: upper-cases ASCII letters only, because JavaScript's full Unicode `toUpperCase` mapping is not modelled.
- Attributes.GetAttrs: does not say that the DNS and endpoints helpers are not evaluated for an empty snapshot, because they have no side effects in the model.
- Endpoints.RenderEndpoints: ports are integers. A `NaN` or fractional port, and `null` or `undefined` ips and ports, are represented only through the `""` and `0` sentinels.
- Endpoints.RenderEndpoints: a subset without an `addresses` or a `ports` array (Kubernetes leaves both optional, e.g. a subset with only `notReadyAddresses`), on which the screen fails with a TypeError, is not represented: every subset has both sequences.
- Dns.RenderDns: names that JavaScript would render as `undefined` are not distinguished from strings.
- Fetch.FetchData: the outcome of the store calls is not modelled, only the requests they issue.
