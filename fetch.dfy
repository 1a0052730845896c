/** Fetching for the service detail screen. The store's requests are recorded
    in a log in the order they are issued: the detail and the endpoints at
    once, then, when the detail has arrived and its selector gives a
    non-empty label selector, the workloads and the pods of that selector. */
module Fetch {
  import opened ServiceTypes

  /** Query for the resources matched by a label selector in a namespace. */
  datatype Query = Query(namespace: string, labelSelector: string)

  datatype Request =
    | DetailRequest(params: RouteParams)
    | EndpointsRequest(params: RouteParams)
    | WorkloadsRequest(query: Query)
    | PodsRequest(query: Query)

  /** How the detail request ends: with the fetched snapshot, or not at all
      (still pending, or failed). */
  datatype DetailOutcome = Resolved(detail: Service) | Unresolved

  /** The store, seen as the list of requests made to it. */
  class RequestLog {
    var requests: seq<Request>

    constructor ()
      ensures requests == []
    {
      requests := [];
    }

    method Issue(r: Request)
      modifies this
      ensures requests == old(requests) + [r]
    {
      requests := requests + [r];
    }
  }

  /** The requests one run of the fetch makes, in order. */
  function FetchPlan(params: RouteParams, outcome: DetailOutcome, joinSelector: Selector -> string): (plan: seq<Request>)
    ensures |plan| >= 2 && plan[0] == DetailRequest(params) && plan[1] == EndpointsRequest(params)
    ensures (exists q :: WorkloadsRequest(q) in plan) <==>
      outcome.Resolved? && joinSelector(outcome.detail.selector) != ""
    ensures forall q :: WorkloadsRequest(q) in plan <==> PodsRequest(q) in plan
    ensures forall q :: WorkloadsRequest(q) in plan ==>
      outcome.Resolved? && q == Query(outcome.detail.namespace, joinSelector(outcome.detail.selector))
    ensures forall r :: r in plan[2..] ==> r.WorkloadsRequest? || r.PodsRequest?
    ensures multiset(plan)[DetailRequest(params)] == 1 && multiset(plan)[EndpointsRequest(params)] == 1
    ensures outcome.Resolved? && joinSelector(outcome.detail.selector) != "" ==>
      var q := Query(outcome.detail.namespace, joinSelector(outcome.detail.selector));
      plan[2..] == [WorkloadsRequest(q), PodsRequest(q)]
    ensures !(outcome.Resolved? && joinSelector(outcome.detail.selector) != "") ==> |plan| == 2
  {
    var first := [DetailRequest(params), EndpointsRequest(params)];
    if outcome.Resolved? && joinSelector(outcome.detail.selector) != "" then
      var q := Query(outcome.detail.namespace, joinSelector(outcome.detail.selector));
      first + [WorkloadsRequest(q), PodsRequest(q)]
    else
      first
  }

  /** The fetch: the detail request, whose continuation runs only once the
      detail has arrived, and the endpoints request, issued right after the
      detail request and so before anything the continuation issues. */
  method FetchData(log: RequestLog, params: RouteParams, outcome: DetailOutcome, joinSelector: Selector -> string)
    modifies log
    ensures log.requests == old(log.requests) + FetchPlan(params, outcome, joinSelector)
  {
    log.Issue(DetailRequest(params));
    log.Issue(EndpointsRequest(params));
    if outcome.Resolved? {
      var detail := outcome.detail;
      var labelSelector := joinSelector(detail.selector);
      if labelSelector != "" {
        log.Issue(WorkloadsRequest(Query(detail.namespace, labelSelector)));
        log.Issue(PodsRequest(Query(detail.namespace, labelSelector)));
      }
    }
  }

  /** A service whose selector gives an empty label selector never has its
      workloads or pods requested, however often the fetch runs. */
  lemma {:induction false} EmptySelectorNeverFetchesPods(
    params: RouteParams, outcomes: seq<DetailOutcome>, joinSelector: Selector -> string)
    requires forall i :: 0 <= i < |outcomes| ==>
      outcomes[i].Resolved? ==> joinSelector(outcomes[i].detail.selector) == ""
    ensures forall r :: r in Runs(params, outcomes, joinSelector) ==>
      r.DetailRequest? || r.EndpointsRequest?
  {
    if |outcomes| > 0 {
      var init := outcomes[..|outcomes| - 1];
      EmptySelectorNeverFetchesPods(params, init, joinSelector);
      var plan := FetchPlan(params, outcomes[|outcomes| - 1], joinSelector);
      assert |plan| == 2;
    }
  }

  /** The requests of several runs of the fetch, as after each successful
      edit, in order: every run asks once for the detail and once for the
      endpoints. */
  function Runs(params: RouteParams, outcomes: seq<DetailOutcome>, joinSelector: Selector -> string): (log: seq<Request>)
    ensures multiset(log)[DetailRequest(params)] == |outcomes|
    ensures multiset(log)[EndpointsRequest(params)] == |outcomes|
    ensures |log| >= 2 * |outcomes|
  {
    if |outcomes| == 0 then []
    else Runs(params, outcomes[..|outcomes| - 1], joinSelector) + FetchPlan(params, outcomes[|outcomes| - 1], joinSelector)
  }
}
