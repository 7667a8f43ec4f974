/// `Server/handler/cache.go`: `BatchCacheSettings` and `applyCacheSettings`.
/// An optional full purge plus four optional cache settings per domain.
module CacheHandler {
  import opened Seqs
  import opened HandlerCommon
  import opened ZoneSettings

  /// The JSON body `BatchCacheRequest`; `browserTtl` stays a string.
  datatype Request = Request(accountId: string, domains: seq<string>, purgeCache: bool,
                             cacheLevel: string, browserTtl: string, alwaysOnline: string,
                             developmentMode: string)

  const FailMessage: string := "No operations performed"

  /// Name under which the purge call (`POST /zones/<id>/purge_cache`) is
  /// looked up in the call oracle.
  const PurgeCall: string := "purge_cache"

  /// The handler's five conditional blocks: the purge, requested by the
  /// checkbox, then the four settings, requested when non-empty.  The browser
  /// TTL is forwarded as the string it arrived as.
  function Operations(req: Request): seq<Operation> {
    [ Operation(PurgeCall, "", req.purgeCache),
      FieldOperation("cache_level", req.cacheLevel),
      FieldOperation("browser_cache_ttl", req.browserTtl),
      FieldOperation("always_online", req.alwaysOnline),
      FieldOperation("development_mode", req.developmentMode) ]
  }

  /// `applyCacheSettings` for one domain; `calls(name)` is the status of the
  /// purge or of the PATCH of that setting.
  function DomainOutcome(req: Request, lookup: ZoneLookup, calls: string -> Option<int>): (bool, string) {
    Outcome(lookup, Operations(req), (op: Operation) => CallSucceeded(calls(op.setting)), FailMessage)
  }

  /// `BatchCacheSettings`: one result per domain, at the domain's index.
  function BatchCacheSettings(accounts: seq<Account>, req: Request, lookup: nat -> ZoneLookup,
                              calls: nat -> string -> Option<int>): (r: BatchResponse<DomainResult>)
    ensures r.AccountNotFound? <==> FindAccount(accounts, req.accountId).None?
    ensures r.Answered? ==> |r.results| == |req.domains|
    ensures r.Answered? ==> forall i :: 0 <= i < |req.domains| ==>
      r.results[i].domain == req.domains[i]
      && (r.results[i].success, r.results[i].message) == DomainOutcome(req, lookup(i), calls(i))
  {
    DomainBatch(accounts, req.accountId, req.domains,
      (i: nat, d: string) => DomainOutcome(req, lookup(i), calls(i)))
  }

  /// totalOperations counts the purge flag as one operation: it is one more
  /// than the number of non-empty setting fields when the flag is set.
  lemma PurgeCounts(req: Request)
    ensures |Requested(Operations(req))| ==
      (if req.purgeCache then 1 else 0) + |Requested(Operations(req)[1..])|
  {
    var ops := Operations(req);
    assert ops == [ops[0]] + ops[1..];
    FilterAppend([ops[0]], ops[1..], IsRequested);
  }

  /// The handler attempts nothing exactly when the purge box is unchecked
  /// and the four settings are empty.
  lemma NothingRequestedIff(req: Request)
    ensures |Requested(Operations(req))| == 0 <==>
      (!req.purgeCache && req.cacheLevel == "" && req.browserTtl == ""
       && req.alwaysOnline == "" && req.developmentMode == "")
  {
    var ops := Operations(req);
    NothingRequested(ops);
    assert (forall i :: 0 <= i < |ops| ==> !ops[i].requested) <==>
      !ops[0].requested && !ops[1].requested && !ops[2].requested && !ops[3].requested
      && !ops[4].requested;
  }

  /// The purge and each setting are sent at most once per domain.
  lemma CallsDistinct(req: Request)
    ensures NoDuplicates(SettingNames(Operations(req)))
  {
  }
}
