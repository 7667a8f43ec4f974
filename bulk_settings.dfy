/// `Server/handler/bulk_settings.go`: `BatchBulkSettings` and
/// `applyBulkSettings`.  Sixteen optional security and network settings per
/// domain.
module BulkSettingsHandler {
  import opened Seqs
  import opened HandlerCommon
  import opened ZoneSettings

  /// The JSON body `BatchBulkSettingsRequest`.
  datatype Request = Request(accountId: string, domains: seq<string>, securityLevel: string,
                             challengePassage: string, browserIntegrity: string,
                             hotlinkProtection: string, emailObfuscation: string,
                             serverSideExcludes: string, waf: string, privacyPass: string,
                             automaticPlatform: string, orangeToOrange: string,
                             proxyReadTimeout: string, prefetchPreload: string,
                             responseBuffering: string, sortQueryString: string,
                             trueClientIp: string, crawlerHints: string)

  const FailMessage: string := "No operations performed"

  /// The sixteen conditional blocks in source order with the Cloudflare
  /// setting each one PATCHes (`challengePassage` is `challenge_ttl`,
  /// `sortQueryString` is `sort_query_string_for_cache`, ...).
  function Operations(req: Request): seq<Operation> {
    [ FieldOperation("security_level", req.securityLevel),
      FieldOperation("challenge_ttl", req.challengePassage),
      FieldOperation("browser_check", req.browserIntegrity),
      FieldOperation("hotlink_protection", req.hotlinkProtection),
      FieldOperation("email_obfuscation", req.emailObfuscation),
      FieldOperation("server_side_exclude", req.serverSideExcludes),
      FieldOperation("waf", req.waf),
      FieldOperation("privacy_pass", req.privacyPass),
      FieldOperation("automatic_platform_optimization", req.automaticPlatform),
      FieldOperation("orange_to_orange", req.orangeToOrange),
      FieldOperation("proxy_read_timeout", req.proxyReadTimeout),
      FieldOperation("prefetch_preload", req.prefetchPreload),
      FieldOperation("response_buffering", req.responseBuffering),
      FieldOperation("sort_query_string_for_cache", req.sortQueryString),
      FieldOperation("true_client_ip_header", req.trueClientIp),
      FieldOperation("crawler_hints", req.crawlerHints) ]
  }

  /// `applyBulkSettings` for one domain.
  function DomainOutcome(req: Request, lookup: ZoneLookup, calls: string -> Option<int>): (bool, string) {
    Outcome(lookup, Operations(req), (op: Operation) => CallSucceeded(calls(op.setting)), FailMessage)
  }

  /// `BatchBulkSettings`: one result per domain, at the domain's index.
  function BatchBulkSettings(accounts: seq<Account>, req: Request, lookup: nat -> ZoneLookup,
                             calls: nat -> string -> Option<int>): (r: BatchResponse<DomainResult>)
    ensures r.AccountNotFound? <==> FindAccount(accounts, req.accountId).None?
    ensures r.Answered? ==> |r.results| == |req.domains|
    ensures r.Answered? ==> forall i :: 0 <= i < |req.domains| ==>
      r.results[i].domain == req.domains[i]
      && (r.results[i].success, r.results[i].message) == DomainOutcome(req, lookup(i), calls(i))
  {
    DomainBatch(accounts, req.accountId, req.domains,
      (i: nat, d: string) => DomainOutcome(req, lookup(i), calls(i)))
  }

  /// The handler attempts nothing exactly when all sixteen fields are empty.
  lemma NothingRequestedIff(req: Request)
    ensures |Requested(Operations(req))| == 0 <==>
      (req.securityLevel == "" && req.challengePassage == "" && req.browserIntegrity == ""
       && req.hotlinkProtection == "" && req.emailObfuscation == ""
       && req.serverSideExcludes == "" && req.waf == "" && req.privacyPass == ""
       && req.automaticPlatform == "" && req.orangeToOrange == "" && req.proxyReadTimeout == ""
       && req.prefetchPreload == "" && req.responseBuffering == "" && req.sortQueryString == ""
       && req.trueClientIp == "" && req.crawlerHints == "")
  {
    NoneOfSixteen(Operations(req));
  }

  /// Each setting is PATCHed at most once per domain.
  lemma SettingsDistinct(req: Request)
    ensures NoDuplicates(SettingNames(Operations(req)))
  {
  }
}
