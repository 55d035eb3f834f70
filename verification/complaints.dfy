/**
 * The administrator's complaint list: the filtered query, loading, deleting
 * (which only a 204 reply completes), resolving, the prefilled resolve form, and
 * the coloured tags for priority, status and type.
 */
module Complaints {
  import opened Common
  import opened Http

  /** The three list filters; an empty one is not applied. */
  datatype Filters = Filters(status: string, priority: string, kind: string)

  /** The three query keys; `KeyName` is the text `URLSearchParams` writes for each. */
  datatype FilterKey = StatusKey | PriorityKey | TypeKey

  function KeyName(k: FilterKey): string {
    match k
    case StatusKey => "status"
    case PriorityKey => "priority"
    case TypeKey => "type"
  }

  const FilterKeys: seq<FilterKey> := [StatusKey, PriorityKey, TypeKey]

  /** The value of the filter a query key names. */
  function FilterValue(f: Filters, key: FilterKey): string {
    match key
    case StatusKey => f.status
    case PriorityKey => f.priority
    case TypeKey => f.kind
  }

  function Keys(pairs: seq<(FilterKey, string)>): (keys: seq<FilterKey>)
    ensures |keys| == |pairs| && forall i :: 0 <= i < |pairs| ==> keys[i] == pairs[i].0
  {
    if pairs == [] then [] else [pairs[0].0] + Keys(pairs[1..])
  }

  /** The keys among `keys` whose filter is set, in the order of `keys`. */
  function SetKeys(f: Filters, keys: seq<FilterKey>): (r: seq<FilterKey>)
    ensures forall k :: k in r <==> k in keys && FilterValue(f, k) != ""
  {
    if keys == [] then [] else (if FilterValue(f, keys[0]) != "" then [keys[0]] else []) + SetKeys(f, keys[1..])
  }

  /** The keys of the filters that are set, in the order status, priority, type. */
  function QueryKeys(f: Filters): seq<FilterKey> {
    SetKeys(f, FilterKeys)
  }

  lemma QueryKeysUnfold(f: Filters)
    ensures QueryKeys(f) ==
      (if f.status != "" then [StatusKey] else []) + (if f.priority != "" then [PriorityKey] else []) +
      (if f.kind != "" then [TypeKey] else [])
  {
    var last := if f.kind != "" then [TypeKey] else [];
    assert FilterKeys[1..] == [PriorityKey, TypeKey];
    assert FilterKeys[1..][1..] == [TypeKey];
    assert SetKeys(f, [TypeKey]) == last + SetKeys(f, []);
    assert SetKeys(f, [TypeKey]) == last;
    assert SetKeys(f, [PriorityKey, TypeKey]) == (if f.priority != "" then [PriorityKey] else []) + last;
  }

  /** Appending a pair appends its key. */
  lemma {:induction false} KeysSnoc(pairs: seq<(FilterKey, string)>, p: (FilterKey, string))
    ensures Keys(pairs + [p]) == Keys(pairs) + [p.0]
  {
    if pairs != [] {
      assert (pairs + [p])[1..] == pairs[1..] + [p];
      KeysSnoc(pairs[1..], p);
    }
  }

  /** Every pair holds the non-empty value of the filter its key names. */
  predicate CarriesFilters(f: Filters, params: seq<(FilterKey, string)>) {
    forall i :: 0 <= i < |params| ==> params[i].1 == FilterValue(f, params[i].0) && params[i].1 != ""
  }

  /** The keys and the filters fix the query: two queries with the same keys that both carry the
      filters are the same query. */
  lemma QueryDetermined(f: Filters, a: seq<(FilterKey, string)>, b: seq<(FilterKey, string)>)
    requires Keys(a) == Keys(b) && CarriesFilters(f, a) && CarriesFilters(f, b)
    ensures a == b
  {
    assert |a| == |Keys(a)| == |b|;
    forall i | 0 <= i < |a|
      ensures a[i] == b[i]
    {
      assert a[i].0 == Keys(a)[i] == Keys(b)[i] == b[i].0;
    }
  }

  /** `params.append(key, value)` for a set filter: the keys grow by that key and every pair
      still carries its filter's value. */
  method Append(f: Filters, params: seq<(FilterKey, string)>, key: FilterKey) returns (r: seq<(FilterKey, string)>)
    requires CarriesFilters(f, params) && FilterValue(f, key) != ""
    ensures Keys(r) == Keys(params) + [key]
    ensures CarriesFilters(f, r)
  {
    r := params + [(key, FilterValue(f, key))];
    KeysSnoc(params, (key, FilterValue(f, key)));
  }

  /** The `URLSearchParams` `fetchComplaints` builds: a pair for each non-empty filter, in the
      order status, priority, type, each holding that filter's value. */
  method BuildQuery(f: Filters) returns (params: seq<(FilterKey, string)>)
    ensures Keys(params) == QueryKeys(f)
    ensures CarriesFilters(f, params)
  {
    params := [];
    assert Keys(params) == [];
    if f.status != "" {
      params := Append(f, params, StatusKey);
    }
    if f.priority != "" {
      params := Append(f, params, PriorityKey);
    }
    if f.kind != "" {
      params := Append(f, params, TypeKey);
    }
    QueryKeysUnfold(f);
  }

  /** With no filter set the query is empty; with all three set it lists all three. */
  lemma QueryExamples()
    ensures QueryKeys(Filters("", "", "")) == []
    ensures QueryKeys(Filters("WAITING", "HIGH", "FEE")) == FilterKeys
  {
    QueryKeysUnfold(Filters("", "", ""));
    QueryKeysUnfold(Filters("WAITING", "HIGH", "FEE"));
  }

  /** A complaint row; a null `response` is `None`. */
  datatype Complaint = Complaint(id: int, title: string, response: Option<string>, priority: string,
                                 status: string, kind: string)

  /** The values the resolve form starts with. */
  datatype ResolveForm = ResolveForm(response: string, priority: string, status: string)

  /** `openResolveModal`'s prefill: the complaint's response or "", and its priority and status. */
  function Prefill(c: Complaint): (r: ResolveForm)
    ensures r.priority == c.priority && r.status == c.status
    ensures c.response.Some? ==> r.response == c.response.value
    ensures c.response.None? ==> r.response == ""
  {
    ResolveForm(if c.response.Some? then Or(c.response.value, "") else "", c.priority, c.status)
  }

  /** An antd `Tag`: its colour and its text. */
  datatype Tag = Tag(color: string, text: string)

  const Priorities: seq<string> := ["HIGH", "MEDIUM", "LOW"]
  const Statuses: seq<string> := ["WAITING", "IN_PROGRESS", "RESOLVED"]
  const Kinds: seq<string> := ["FACILITY", "FEE", "SECURITY"]

  /** `getPriorityTag` */
  function PriorityTag(p: string): (t: Tag)
    ensures t.text == p
    ensures p !in Priorities <==> t.color == "default"
  {
    match p
    case "HIGH" => Tag("red", p)
    case "MEDIUM" => Tag("orange", p)
    case "LOW" => Tag("green", p)
    case _ => Tag("default", p)
  }

  /** `getStatusTag` */
  function StatusTag(s: string): (t: Tag)
    ensures t.text == s
    ensures s !in Statuses <==> t.color == "default"
  {
    match s
    case "WAITING" => Tag("blue", s)
    case "IN_PROGRESS" => Tag("orange", s)
    case "RESOLVED" => Tag("green", s)
    case _ => Tag("default", s)
  }

  /** `getTypeTag` */
  function TypeTag(k: string): (t: Tag)
    ensures t.text == k
    ensures k !in Kinds <==> t.color == "default"
  {
    match k
    case "FACILITY" => Tag("purple", k)
    case "FEE" => Tag("cyan", k)
    case "SECURITY" => Tag("magenta", k)
    case _ => Tag("default", k)
  }

  /** Within each mapper the colour tells the known values apart: two known values never share
      a colour. */
  lemma TagColoursDistinct(a: string, b: string)
    ensures a in Priorities && b in Priorities && a != b ==> PriorityTag(a).color != PriorityTag(b).color
    ensures a in Statuses && b in Statuses && a != b ==> StatusTag(a).color != StatusTag(b).color
    ensures a in Kinds && b in Kinds && a != b ==> TypeTag(a).color != TypeTag(b).color
  {
  }

  datatype Request =
    | GetComplaints(query: seq<(FilterKey, string)>)                         // GET /demo/admin/complains?…
    | DeleteComplaint(id: int)                                            // DELETE /demo/admin/complains/{id}
    | Resolve(id: int, response: string, priority: string, status: string) // PUT …/complains/{id}/resolve?…

  /** `complaints.filter(complaint => complaint.id !== id)` */
  function WithoutComplaint(complaints: seq<Complaint>, id: int): seq<Complaint> {
    Filter(complaints, (c: Complaint) => c.id != id)
  }

  /** Deleting removes exactly the complaints with that id and keeps the rest in order. */
  lemma WithoutComplaintCorrect(complaints: seq<Complaint>, id: int)
    ensures forall c :: c in WithoutComplaint(complaints, id) <==> c in complaints && c.id != id
    ensures Subsequence(WithoutComplaint(complaints, id), complaints)
    ensures forall c :: multiset(WithoutComplaint(complaints, id))[c] == if c.id != id then multiset(complaints)[c] else 0
  {
    FilterExactly(complaints, (c: Complaint) => c.id != id);
  }

  const FetchFailedMessage := "Failed to fetch complaints"
  const DeleteFailedMessage := "Failed to delete complaint"
  const NullSelectionMessage := "Cannot read properties of null (reading 'id')"

  /** The fields of a refused resolve reply the handler reads; a body that is not JSON counts
      as `{}`. */
  datatype ErrorBody = ErrorBody(message: string)

  /** The message a failed resolve shows. */
  function ResolveFailure(reply: Reply<ErrorBody>): (m: string)
    requires !Ok(reply)
    ensures reply.Response? && reply.body.Json? && reply.body.value.message != "" ==>
      m == reply.body.value.message
    ensures reply.Response? && (reply.body.Unparsable? || reply.body.value.message == "") ==>
      m == "Request failed with status " + StatusText(reply)
    ensures reply.NetworkError? ==> m == Or(reply.reason, "Failed to update complaint")
  {
    match reply
    case NetworkError(reason) => Or(reason, "Failed to update complaint")
    case Response(_, _, body) =>
      var message := if body.Json? then body.value.message else "";
      Or(message, "Request failed with status " + StatusText(reply))
  }

  class ComplaintBoard {
    var complaints: seq<Complaint>
    var loading: bool
    var error: Option<string>
    var filters: Filters
    var selectedComplaint: Option<Complaint>
    var resolveModalOpen: bool
    var resolveForm: ResolveForm
    var toasts: seq<Toast>
    var requests: seq<Request>

    constructor ()
      ensures complaints == [] && !loading && error.None? && filters == Filters("", "", "")
      ensures selectedComplaint.None? && !resolveModalOpen && toasts == [] && requests == []
    {
      complaints := [];
      loading := false;
      error := None;
      filters := Filters("", "", "");
      selectedComplaint := None;
      resolveModalOpen := false;
      resolveForm := ResolveForm("", "", "");
      toasts := [];
      requests := [];
    }

    /** `fetchComplaints`: the list is requested with the current filters; a good reply replaces
        it and clears the error, any failure keeps it and reports. */
    method FetchComplaints(reply: Reply<seq<Complaint>>)
      modifies this`complaints, this`loading, this`error, this`toasts, this`requests
      ensures |requests| == |old(requests)| + 1 && requests[..|old(requests)|] == old(requests)
      ensures requests[|old(requests)|].GetComplaints? &&
        Keys(requests[|old(requests)|].query) == QueryKeys(filters) &&
        CarriesFilters(filters, requests[|old(requests)|].query)
      ensures !loading
      ensures Ok(reply) && reply.body.Json? ==>
        complaints == reply.body.value && error.None? && toasts == old(toasts)
      ensures !(Ok(reply) && reply.body.Json?) ==>
        complaints == old(complaints) && toasts == old(toasts) + [ErrorToast(FetchFailedMessage)] &&
        error == Some(if reply.NetworkError? then reply.reason
                      else if !Ok(reply) then FetchFailedMessage else reply.body.syntaxError)
    {
      loading := true;
      var query := BuildQuery(filters);
      var request := GetComplaints(query);
      assert Keys(request.query) == QueryKeys(filters) && CarriesFilters(filters, request.query);
      requests := requests + [request];
      assert requests[|old(requests)|] == request;
      if Ok(reply) && reply.body.Json? {
        complaints := reply.body.value;
        error := None;
      } else {
        error := Some(if reply.NetworkError? then reply.reason
                      else if !Ok(reply) then FetchFailedMessage else reply.body.syntaxError);
        toasts := toasts + [ErrorToast(FetchFailedMessage)];
      }
      loading := false;
    }

    /** `handleDelete(id)`: only a 204 reply removes the complaints with that id; any other
        status, 200 included, is reported and changes nothing. */
    method HandleDelete(id: int, reply: Reply<()>)
      modifies this`complaints, this`toasts, this`requests
      ensures requests == old(requests) + [DeleteComplaint(id)]
      ensures reply.Response? && reply.status == 204 ==>
        complaints == WithoutComplaint(old(complaints), id) &&
        toasts == old(toasts) + [SuccessToast("Complaint deleted successfully")]
      ensures !(reply.Response? && reply.status == 204) ==>
        complaints == old(complaints) &&
        toasts == old(toasts) + [ErrorToast(if reply.NetworkError? then reply.reason else DeleteFailedMessage)]
    {
      requests := requests + [DeleteComplaint(id)];
      if reply.Response? && reply.status == 204 {
        toasts := toasts + [SuccessToast("Complaint deleted successfully")];
        complaints := WithoutComplaint(complaints, id);
      } else {
        toasts := toasts + [ErrorToast(if reply.NetworkError? then reply.reason else DeleteFailedMessage)];
      }
    }

    /** `openResolveModal(complaint)` */
    method OpenResolveModal(c: Complaint)
      modifies this`selectedComplaint, this`resolveForm, this`resolveModalOpen
      ensures selectedComplaint == Some(c) && resolveModalOpen
      ensures resolveForm == Prefill(c)
    {
      selectedComplaint := Some(c);
      resolveForm := Prefill(c);
      resolveModalOpen := true;
    }

    /** `handleResolve(values)`: the selected complaint is resolved with the form's values; an
        ok reply closes the dialog and reloads the list (its reply is applied by
        `FetchComplaints`). With nothing selected the handler fails before any request. */
    method HandleResolve(values: ResolveForm, reply: Reply<ErrorBody>)
      modifies this`resolveModalOpen, this`toasts, this`requests
      ensures old(selectedComplaint).None? ==>
        requests == old(requests) && resolveModalOpen == old(resolveModalOpen) &&
        toasts == old(toasts) + [ErrorToast(NullSelectionMessage)]
      ensures old(selectedComplaint).Some? ==>
        var sent := Resolve(old(selectedComplaint).value.id, values.response, values.priority, values.status);
        |requests| >= |old(requests)| + 1 && requests[..|old(requests)| + 1] == old(requests) + [sent]
      ensures old(selectedComplaint).Some? && Ok(reply) ==>
        !resolveModalOpen && toasts == old(toasts) + [SuccessToast("Complaint updated successfully")] &&
        |requests| == |old(requests)| + 2 && requests[|old(requests)| + 1].GetComplaints? &&
        Keys(requests[|old(requests)| + 1].query) == QueryKeys(filters) &&
        CarriesFilters(filters, requests[|old(requests)| + 1].query)
      ensures old(selectedComplaint).Some? && !Ok(reply) ==>
        |requests| == |old(requests)| + 1 && resolveModalOpen == old(resolveModalOpen) &&
        toasts == old(toasts) + [ErrorToast(ResolveFailure(reply))]
    {
      if selectedComplaint.None? {
        toasts := toasts + [ErrorToast(NullSelectionMessage)];
        return;
      }
      requests := requests + [Resolve(selectedComplaint.value.id, values.response, values.priority, values.status)];
      if Ok(reply) {
        toasts := toasts + [SuccessToast("Complaint updated successfully")];
        resolveModalOpen := false;
        var query := BuildQuery(filters);
        var reload := GetComplaints(query);
        assert Keys(reload.query) == QueryKeys(filters) && CarriesFilters(filters, reload.query);
        requests := requests + [reload];
        assert requests[|old(requests)| + 1] == reload;
      } else {
        toasts := toasts + [ErrorToast(ResolveFailure(reply))];
      }
    }
  }
}
