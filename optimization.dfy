/// `Server/handler/optimization.go`: `BatchOptimization`,
/// `applyOptimization` and `updateMinifySetting`.  Twelve optional
/// performance settings per domain; minify takes a keyword that is turned
/// into a css/html/js on-off triple.
module OptimizationHandler {
  import opened Seqs
  import opened HandlerCommon
  import opened ZoneSettings

  /// The JSON body `BatchOptimizationRequest`.
  datatype Request = Request(accountId: string, domains: seq<string>, minify: string,
                             brotli: string, earlyHints: string, http2: string, http3: string,
                             zeroRtt: string, ipv6: string, webSockets: string,
                             pseudoIpv4: string, rocketLoader: string, mirage: string,
                             polish: string)

  const FailMessage: string := "No operations performed"

  /// The minify payload: which of css, html and js are switched "on".
  datatype Minify = Minify(css: bool, html: bool, js: bool)

  /// `updateMinifySetting`'s switch: the payload for a known keyword, and
  /// nothing (the call fails without a request) for any other value.
  function MinifyConfig(value: string): (r: Option<Minify>)
    ensures r.Some? <==> value in {"all", "css", "html", "js", "off"}
    ensures r.Some? ==> (r.value.css <==> value in {"all", "css"})
    ensures r.Some? ==> (r.value.html <==> value in {"all", "html"})
    ensures r.Some? ==> (r.value.js <==> value in {"all", "js"})
  {
    match value
    case "all" => Some(Minify(true, true, true))
    case "css" => Some(Minify(true, false, false))
    case "html" => Some(Minify(false, true, false))
    case "js" => Some(Minify(false, false, true))
    case "off" => Some(Minify(false, false, false))
    case _ => None
  }

  /// A single keyword turns exactly that part on; "all" turns all three on
  /// and "off" none.
  lemma MinifyOnCount(value: string)
    requires value in {"all", "css", "html", "js", "off"}
    ensures var m := MinifyConfig(value).value;
      var on := (if m.css then 1 else 0) + (if m.html then 1 else 0) + (if m.js then 1 else 0);
      (value == "all" ==> on == 3) && (value == "off" ==> on == 0)
      && (value in {"css", "html", "js"} ==> on == 1)
  {
  }

  /// The twelve conditional blocks in source order with their Cloudflare
  /// setting names (`zeroRtt` is `0rtt`, `pseudoIpv4` is `pseudo_ipv4`).
  function Operations(req: Request): seq<Operation> {
    [ FieldOperation("minify", req.minify),
      FieldOperation("brotli", req.brotli),
      FieldOperation("early_hints", req.earlyHints),
      FieldOperation("http2", req.http2),
      FieldOperation("http3", req.http3),
      FieldOperation("0rtt", req.zeroRtt),
      FieldOperation("ipv6", req.ipv6),
      FieldOperation("websockets", req.webSockets),
      FieldOperation("pseudo_ipv4", req.pseudoIpv4),
      FieldOperation("rocket_loader", req.rocketLoader),
      FieldOperation("mirage", req.mirage),
      FieldOperation("polish", req.polish) ]
  }

  /// Whether one block's call succeeded: minify needs a known keyword and a
  /// 200 answer, every other setting just a 200 answer.
  predicate Succeeded(calls: string -> Option<int>, op: Operation) {
    if op.setting == "minify" then MinifyConfig(op.value).Some? && CallSucceeded(calls("minify"))
    else CallSucceeded(calls(op.setting))
  }

  /// `applyOptimization` for one domain.
  function DomainOutcome(req: Request, lookup: ZoneLookup, calls: string -> Option<int>): (bool, string) {
    Outcome(lookup, Operations(req), (op: Operation) => Succeeded(calls, op), FailMessage)
  }

  /// `BatchOptimization`: one result per domain, at the domain's index.
  function BatchOptimization(accounts: seq<Account>, req: Request, lookup: nat -> ZoneLookup,
                             calls: nat -> string -> Option<int>): (r: BatchResponse<DomainResult>)
    ensures r.AccountNotFound? <==> FindAccount(accounts, req.accountId).None?
    ensures r.Answered? ==> |r.results| == |req.domains|
    ensures r.Answered? ==> forall i :: 0 <= i < |req.domains| ==>
      r.results[i].domain == req.domains[i]
      && (r.results[i].success, r.results[i].message) == DomainOutcome(req, lookup(i), calls(i))
  {
    DomainBatch(accounts, req.accountId, req.domains,
      (i: nat, d: string) => DomainOutcome(req, lookup(i), calls(i)))
  }

  /// An unknown minify keyword is counted as attempted but can never succeed,
  /// whatever Cloudflare would have answered.
  lemma UnknownMinifyFails(req: Request, calls: string -> Option<int>)
    requires req.minify != "" && req.minify !in {"all", "css", "html", "js", "off"}
    ensures Operations(req)[0].requested && !Succeeded(calls, Operations(req)[0])
  {
  }

  /// The handler attempts nothing exactly when all twelve fields are empty.
  lemma NothingRequestedIff(req: Request)
    ensures |Requested(Operations(req))| == 0 <==>
      (req.minify == "" && req.brotli == "" && req.earlyHints == "" && req.http2 == ""
       && req.http3 == "" && req.zeroRtt == "" && req.ipv6 == "" && req.webSockets == ""
       && req.pseudoIpv4 == "" && req.rocketLoader == "" && req.mirage == "" && req.polish == "")
  {
    NoneOfTwelve(Operations(req));
  }

  /// Each setting is PATCHed at most once per domain.
  lemma SettingsDistinct(req: Request)
    ensures NoDuplicates(SettingNames(Operations(req)))
  {
  }
}
