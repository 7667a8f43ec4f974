/// `Server/handler/zone.go`: adding zones (`BatchAddZones`,
/// `addZoneToCloudflare`), deleting them (`BatchDeleteZones`,
/// `deleteZoneFromCloudflare`) and exporting every zone of an account page by
/// page (`ExportZones`, `fetchAllZones`).
module ZoneHandler {
  import opened Text
  import opened HandlerCommon

  /// The JSON bodies `BatchAddZoneRequest` and `BatchDeleteZoneRequest`.
  datatype ZonesRequest = ZonesRequest(accountId: string, domains: seq<string>)

  /// `ZoneResult`; the name servers are omitted (empty) on failure.
  datatype ZoneResult = ZoneResult(domain: string, success: bool, message: string, nameServers: seq<string>)

  /// Cloudflare's answer to `POST /zones`: status, `errors[].message` and
  /// `result.name_servers` as decoded from the body.
  datatype CreateReply = CreateReply(status: int, errors: seq<string>, nameServers: seq<string>)

  predicate Created(status: int) {
    status == 200 || status == 201
  }

  /// `addZoneToCloudflare`: `None` is a request that never got an answer.
  function AddZoneOutcome(reply: Option<CreateReply>): (r: (bool, string, seq<string>))
    ensures r.0 <==> reply.Some? && Created(reply.value.status)
    ensures r.0 ==> r.1 == "Success" && r.2 == reply.value.nameServers
    ensures !r.0 ==> r.2 == []
    ensures reply.None? ==> r.1 == "Request failed"
    ensures reply.Some? && !r.0 && reply.value.errors != [] ==> r.1 == reply.value.errors[0]
    ensures reply.Some? && !r.0 && reply.value.errors == [] ==>
      r.1 == (if reply.value.status == 403 then "Auth failed (403)"
              else "HTTP " + IntToString(reply.value.status))
  {
    match reply
    case None => (false, "Request failed", [])
    case Some(rep) =>
      if Created(rep.status) then (true, "Success", rep.nameServers)
      else if rep.errors != [] then (false, rep.errors[0], [])
      else if rep.status == 403 then (false, "Auth failed (403)", [])
      else (false, "HTTP " + IntToString(rep.status), [])
  }

  /// `BatchAddZones`: 404 for an unknown account, otherwise one result per
  /// domain at its index.
  function BatchAddZones(accounts: seq<Account>, req: ZonesRequest, reply: nat -> Option<CreateReply>)
    : (r: BatchResponse<ZoneResult>)
    ensures r.AccountNotFound? <==> FindAccount(accounts, req.accountId).None?
    ensures !r.BadRequest?
    ensures r.Answered? ==> |r.results| == |req.domains|
    ensures r.Answered? ==> forall i :: 0 <= i < |req.domains| ==>
      r.results[i].domain == req.domains[i]
      && (r.results[i].success, r.results[i].message, r.results[i].nameServers) == AddZoneOutcome(reply(i))
  {
    if FindAccount(accounts, req.accountId).None? then AccountNotFound
    else Answered(RunBatch(req.domains, (i: nat, d: string) =>
      var o := AddZoneOutcome(reply(i));
      ZoneResult(d, o.0, o.1, o.2)))
  }

  /// `deleteZoneFromCloudflare`: the zone lookup, then `DELETE /zones/<id>`
  /// (`None` is a request that never got an answer).  Only a 200 counts.
  function DeleteZoneOutcome(lookup: ZoneLookup, del: Option<ApiReply>): (r: (bool, string))
    ensures r.0 <==> ZoneIdOf(lookup).Ok? && del.Some? && del.value.status == 200
    ensures ZoneIdOf(lookup).Err? ==> r.1 == ZoneIdOf(lookup).message
    ensures ZoneIdOf(lookup).Ok? && del.None? ==> r.1 == "Delete request failed"
    ensures r.0 ==> r.1 == "Success"
    ensures ZoneIdOf(lookup).Ok? && del.Some? && !r.0 ==> r.1 == ApiErrorMessage(del.value)
  {
    match ZoneIdOf(lookup)
    case Err(m) => (false, m)
    case Ok(_) =>
      match del
      case None => (false, "Delete request failed")
      case Some(rep) =>
        if rep.status == 200 then (true, "Success") else (false, ApiErrorMessage(rep))
  }

  /// Apart from a bare 403, adding and deleting report a rejected call the
  /// same way.
  lemma RejectionMessagesAgree(rep: ApiReply, ns: seq<string>)
    requires !Created(rep.status)
    requires rep.errors != [] || rep.status != 403
    ensures AddZoneOutcome(Some(CreateReply(rep.status, rep.errors, ns))).1
         == DeleteZoneOutcome(LookupAnswered(["zone"]), Some(rep)).1
  {
  }

  /// `BatchDeleteZones`: 404 for an unknown account, otherwise one result per
  /// domain at its index.
  function BatchDeleteZones(accounts: seq<Account>, req: ZonesRequest, lookup: nat -> ZoneLookup,
                            del: nat -> Option<ApiReply>): (r: BatchResponse<DomainResult>)
    ensures r.AccountNotFound? <==> FindAccount(accounts, req.accountId).None?
    ensures r.Answered? ==> |r.results| == |req.domains|
    ensures r.Answered? ==> forall i :: 0 <= i < |req.domains| ==>
      r.results[i].domain == req.domains[i]
      && (r.results[i].success, r.results[i].message) == DeleteZoneOutcome(lookup(i), del(i))
  {
    DomainBatch(accounts, req.accountId, req.domains, (i: nat, d: string) => DeleteZoneOutcome(lookup(i), del(i)))
  }

  /// `ExportZoneResult`.
  datatype ExportedZone = ExportedZone(domain: string, status: string, nameServers: seq<string>, createdOn: string)

  /// One page of `GET /zones?page=<p>&per_page=50` as decoded: the zones and
  /// `result_info.total_pages`.  The status code is not looked at, so an
  /// error body decodes as a page with no zones and zero pages.
  datatype ZonePage = ZonePage(zones: seq<ExportedZone>, totalPages: int)

  const PerPage := 50

  /// The loop goes on after page `p` only when page `p` was answered and
  /// reports more pages than `p`.
  predicate Continues(reply: Option<ZonePage>, p: nat) {
    reply.Some? && p < reply.value.totalPages
  }

  /// `p` is the page at which the loop stops.
  predicate LastPage(pages: nat -> Option<ZonePage>, p: nat) {
    p >= 1 && !Continues(pages(p), p) && forall q :: 1 <= q < p ==> Continues(pages(q), q)
  }

  /// The zones of pages `1 .. n`, in page order.
  function Collected(pages: nat -> Option<ZonePage>, n: nat): (r: seq<ExportedZone>)
    ensures n > 0 && pages(n).Some? ==> |r| >= |pages(n).value.zones|
  {
    if n == 0 then []
    else Collected(pages, n - 1) + (if pages(n).Some? then pages(n).value.zones else [])
  }

  /// At most one page ends the loop.
  lemma LastPageUnique(pages: nat -> Option<ZonePage>, p: nat, q: nat)
    requires LastPage(pages, p) && LastPage(pages, q)
    ensures p == q
  {
  }

  /// `fetchAllZones`: fetch pages `1, 2, ...` until a page reports no more
  /// pages, failing on the first request that gets no answer.  `pages(p)` is
  /// the answer to page `p`.  The source loops for as long as Cloudflare
  /// keeps reporting more pages; the requires says some page ends it.
  method FetchAllZones(pages: nat -> Option<ZonePage>) returns (r: Result<seq<ExportedZone>>)
    requires exists p :: p >= 1 && !Continues(pages(p), p)
    ensures r.Err? ==> r.message == "Request failed"
    ensures r.Err? <==> exists p :: LastPage(pages, p) && pages(p).None?
    ensures r.Ok? ==> exists p :: LastPage(pages, p) && r.value == Collected(pages, p)
  {
    ghost var stop :| stop >= 1 && !Continues(pages(stop), stop);
    var all: seq<ExportedZone> := [];
    var page: nat := 1;
    while true
      invariant 1 <= page <= stop
      invariant forall q :: 1 <= q < page ==> Continues(pages(q), q)
      invariant all == Collected(pages, page - 1)
      decreases stop - page
    {
      var reply := pages(page);
      if reply.None? {
        assert LastPage(pages, page);
        return Err("Request failed");
      }
      all := all + reply.value.zones;
      if page >= reply.value.totalPages {
        assert LastPage(pages, page);
        return Ok(all);
      }
      page := page + 1;
    }
  }

  /// An error body (no zones, zero pages) on the first page ends the export
  /// at once with an empty list, not with an error.
  lemma ErrorBodyExportsNothing(pages: nat -> Option<ZonePage>)
    requires pages(1) == Some(ZonePage([], 0))
    ensures LastPage(pages, 1) && Collected(pages, 1) == []
  {
  }

  /// What `ExportZones` answers.
  datatype ExportResponse = ExportAccountNotFound | ExportFailed(error: string) | Exported(zones: seq<ExportedZone>)

  /// `ExportZones`: 404 for an unknown account, 500 with the fetch error, or
  /// every zone collected.
  method ExportZones(accounts: seq<Account>, accountId: string, pages: nat -> Option<ZonePage>)
    returns (r: ExportResponse)
    requires exists p :: p >= 1 && !Continues(pages(p), p)
    ensures r.ExportAccountNotFound? <==> FindAccount(accounts, accountId).None?
    ensures r.ExportFailed? ==> (r.error == "Request failed"
      && exists p :: LastPage(pages, p) && pages(p).None?)
    ensures r.Exported? ==> exists p :: LastPage(pages, p) && pages(p).Some? && r.zones == Collected(pages, p)
  {
    if FindAccount(accounts, accountId).None? {
      return ExportAccountNotFound;
    }
    var fetched := FetchAllZones(pages);
    match fetched
    case Err(m) => r := ExportFailed(m);
    case Ok(zones) =>
      r := Exported(zones);
  }
}
