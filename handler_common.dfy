/// Pieces every batch handler of the Go server shares: the stored account
/// record, the first-match account lookup each handler performs, the
/// `GET /zones?name=<domain>` zone-id lookup, and the fan-out that answers
/// with one result per requested domain at the domain's own index.
module HandlerCommon {
  import opened Text

  datatype Option<T> = None | Some(value: T)

  datatype Result<T> = Ok(value: T) | Err(message: string)

  /// A Cloudflare account as stored by the server (id, e-mail, API key, display name).
  datatype Account = Account(id: string, email: string, key: string, name: string)

  /// `accounts[i]` is the first stored account whose id is `id`.
  predicate FirstWithId(accounts: seq<Account>, id: string, i: int) {
    0 <= i < |accounts| && accounts[i].id == id
    && forall j :: 0 <= j < i ==> accounts[j].id != id
  }

  /// The handlers' `for _, a := range models.Accounts { if a.ID == id { ...; break } }`:
  /// the first stored account with the id, if there is one.
  function FindAccount(accounts: seq<Account>, id: string): (r: Option<Account>)
    ensures r.None? <==> forall i :: 0 <= i < |accounts| ==> accounts[i].id != id
    ensures r.Some? ==> exists i :: FirstWithId(accounts, id, i) && accounts[i] == r.value
  {
    if accounts == [] then None
    else if accounts[0].id == id then (assert FirstWithId(accounts, id, 0); Some(accounts[0]))
    else
      var r := FindAccount(accounts[1..], id);
      assert r.Some? ==> exists i :: FirstWithId(accounts, id, i) && accounts[i] == r.value by {
        if r.Some? {
          var i :| FirstWithId(accounts[1..], id, i) && accounts[1..][i] == r.value;
          assert FirstWithId(accounts, id, i + 1) by {
            forall j | 0 <= j < i + 1 ensures accounts[j].id != id {
              if j > 0 {
                assert accounts[j] == accounts[1..][j - 1];
              }
            }
          }
        }
      }
      r
  }

  /// What the zone lookup `GET /zones?name=<domain>` answered: either the
  /// request itself failed, or a (possibly empty) list of matching zone ids.
  datatype ZoneLookup = LookupFailed | LookupAnswered(zoneIds: seq<string>)

  /// The zone-id lookup shared by every handler: a failed request, then an
  /// empty result, then the first zone's id.
  function ZoneIdOf(lookup: ZoneLookup): (r: Result<string>)
    ensures r.Ok? <==> lookup.LookupAnswered? && lookup.zoneIds != []
    ensures r.Err? ==> r.message in {"Request failed", "Zone not found"}
    ensures lookup.LookupFailed? ==> r == Err("Request failed")
    ensures lookup.LookupAnswered? && lookup.zoneIds == [] ==> r == Err("Zone not found")
    ensures r.Ok? ==> r.value == lookup.zoneIds[0]
  {
    match lookup
    case LookupFailed => Err("Request failed")
    case LookupAnswered(ids) => if ids == [] then Err("Zone not found") else Ok(ids[0])
  }

  /// The per-domain result most handlers answer with.
  datatype DomainResult = DomainResult(domain: string, success: bool, message: string)

  /// The HTTP answer of a batch handler: 404 for an unknown account, 400 with
  /// an error text, or 200 with the per-input results.
  datatype BatchResponse<R> = AccountNotFound | BadRequest(error: string) | Answered(results: seq<R>)

  /// The goroutine fan-out `results[idx] = work(idx, dom)`: one result per
  /// input, written at that input's index.
  function RunBatch<R>(domains: seq<string>, work: (nat, string) -> R): (r: seq<R>)
    ensures |r| == |domains|
    ensures forall i :: 0 <= i < |domains| ==> r[i] == work(i, domains[i])
  {
    seq(|domains|, i requires 0 <= i < |domains| => work(i, domains[i]))
  }

  /// The common shape of the domain-list handlers: 404 when the account is
  /// unknown, otherwise one `DomainResult` per domain, at that domain's index,
  /// computed from the domain and its index alone.
  function DomainBatch(accounts: seq<Account>, accountId: string, domains: seq<string>,
                       work: (nat, string) -> (bool, string)): (r: BatchResponse<DomainResult>)
    ensures r.AccountNotFound? <==> FindAccount(accounts, accountId).None?
    ensures !r.BadRequest?
    ensures r.Answered? ==> |r.results| == |domains|
    ensures r.Answered? ==> forall i :: 0 <= i < |domains| ==>
      r.results[i].domain == domains[i]
      && (r.results[i].success, r.results[i].message) == work(i, domains[i])
  {
    if FindAccount(accounts, accountId).None? then AccountNotFound
    else Answered(RunBatch(domains, (i: nat, d: string) => DomainResult(d, work(i, d).0, work(i, d).1)))
  }

  /// A call the handlers count as done: Cloudflare answered 200 (`None`
  /// stands for a transport error).
  predicate CallSucceeded(status: Option<int>) {
    status == Some(200)
  }

  /// How many of the calls `0 .. n-1` were answered 200.
  function OkCount(n: nat, status: nat -> Option<int>): (r: nat)
    ensures r <= n
    ensures r > 0 <==> exists i :: 0 <= i < n && CallSucceeded(status(i))
  {
    if n == 0 then 0
    else OkCount(n - 1, status) + (if CallSucceeded(status(n - 1)) then 1 else 0)
  }

  /// A Cloudflare answer with a status code and the `errors[].message` list of its body.
  datatype ApiReply = ApiReply(status: int, errors: seq<string>)

  /// The error text the handlers report for a rejected call: the first API
  /// error message when the body has one, otherwise `HTTP <status>`.
  function ApiErrorMessage(reply: ApiReply): string {
    if reply.errors != [] then reply.errors[0] else "HTTP " + IntToString(reply.status)
  }
}
