/// `Server/handler/ssl.go`: `BatchSSLSettings` and `applySSLSettings`.  Five
/// optional SSL/TLS settings are PATCHed per domain; the empty string leaves
/// a setting unchanged.
module SslHandler {
  import opened Seqs
  import opened HandlerCommon
  import opened ZoneSettings

  /// The JSON body `BatchSSLSettingsRequest`; field names are its JSON keys.
  datatype Request = Request(accountId: string, domains: seq<string>, sslMode: string,
                             minTlsVersion: string, alwaysUseHttps: string,
                             automaticHttps: string, opportunisticEnc: string)

  const FailMessage: string := "Failed to update settings"

  /// The handler's five conditional blocks, in source order, with the
  /// Cloudflare setting each one PATCHes.
  function Operations(req: Request): seq<Operation> {
    [ FieldOperation("ssl", req.sslMode),
      FieldOperation("min_tls_version", req.minTlsVersion),
      FieldOperation("always_use_https", req.alwaysUseHttps),
      FieldOperation("automatic_https_rewrites", req.automaticHttps),
      FieldOperation("opportunistic_encryption", req.opportunisticEnc) ]
  }

  /// `applySSLSettings` for one domain; `calls(setting)` is the status the
  /// PATCH of that setting got.
  function DomainOutcome(req: Request, lookup: ZoneLookup, calls: string -> Option<int>): (bool, string) {
    Outcome(lookup, Operations(req), (op: Operation) => CallSucceeded(calls(op.setting)), FailMessage)
  }

  /// `BatchSSLSettings`: one result per domain, at the domain's index.
  function BatchSslSettings(accounts: seq<Account>, req: Request, lookup: nat -> ZoneLookup,
                            calls: nat -> string -> Option<int>): (r: BatchResponse<DomainResult>)
    ensures r.AccountNotFound? <==> FindAccount(accounts, req.accountId).None?
    ensures r.Answered? ==> |r.results| == |req.domains|
    ensures r.Answered? ==> forall i :: 0 <= i < |req.domains| ==>
      r.results[i].domain == req.domains[i]
      && (r.results[i].success, r.results[i].message) == DomainOutcome(req, lookup(i), calls(i))
  {
    DomainBatch(accounts, req.accountId, req.domains,
      (i: nat, d: string) => DomainOutcome(req, lookup(i), calls(i)))
  }

  /// The handler attempts nothing exactly when all five fields are empty.
  lemma NothingRequestedIff(req: Request)
    ensures |Requested(Operations(req))| == 0 <==>
      (req.sslMode == "" && req.minTlsVersion == "" && req.alwaysUseHttps == ""
       && req.automaticHttps == "" && req.opportunisticEnc == "")
  {
    var ops := Operations(req);
    NothingRequested(ops);
    assert (forall i :: 0 <= i < |ops| ==> !ops[i].requested) <==>
      !ops[0].requested && !ops[1].requested && !ops[2].requested && !ops[3].requested
      && !ops[4].requested;
  }

  /// Each Cloudflare setting is PATCHed at most once per domain.
  lemma SettingsDistinct(req: Request)
    ensures NoDuplicates(SettingNames(Operations(req)))
  {
  }
}
