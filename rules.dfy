/// `Server/handler/rules.go`: copying page rules, firewall rules and rate
/// limits from a source zone to target zones (`BatchCopyRules`,
/// `copyRulesToDomain`, `copyPageRules`, ...) and deleting them
/// (`BatchDeleteRules`, `deleteRulesFromDomain`, `deletePageRules`, ...).
module RulesHandler {
  import opened Text
  import opened HandlerCommon

  /// The JSON body `BatchCopyRulesRequest`.
  datatype CopyRequest = CopyRequest(accountId: string, sourceDomain: string,
                                     targetDomains: seq<string>, ruleTypes: seq<string>)

  /// The JSON body `BatchDeleteRulesRequest`.
  datatype DeleteRequest = DeleteRequest(accountId: string, domains: seq<string>, ruleTypes: seq<string>)

  /// A rule as fetched from Cloudflare: a JSON object, its values kept as
  /// their JSON text.
  type Rule = map<string, string>

  /// The rule types the switch knows; any other entry is skipped.
  predicate KnownRuleType(ruleType: string) {
    ruleType == "page_rules" || ruleType == "firewall_rules" || ruleType == "rate_limiting"
  }

  /// The keys Cloudflare assigns, removed before a rule is re-created.
  const ServerKeys: set<string> := {"id", "created_on", "modified_on"}

  /// The three `delete(rule, ...)` calls before a rule is POSTed to the
  /// target zone.
  method StripServerKeys(rule: Rule) returns (stripped: Rule)
    ensures stripped.Keys == rule.Keys - ServerKeys
    ensures forall k :: k in stripped ==> stripped[k] == rule[k]
  {
    stripped := rule;
    stripped := stripped - {"id"};
    stripped := stripped - {"created_on"};
    stripped := stripped - {"modified_on"};
  }

  /// What one per-type copy or delete call achieved: nothing when the rule
  /// listing failed, otherwise the number of listed rules whose POST or
  /// DELETE was answered 200.
  function TypeCount<T>(listing: Option<seq<T>>, status: nat -> Option<int>): (r: nat)
    ensures listing.None? ==> r == 0
    ensures listing.Some? ==> r <= |listing.value|
  {
    match listing
    case None => 0
    case Some(rules) => OkCount(|rules|, status)
  }

  /// The per-type loop (`copyPageRules`, `deletePageRules`, ...): one call
  /// per listed rule, counting 200 answers.
  method CountRuleCalls<T>(listing: Option<seq<T>>, status: nat -> Option<int>) returns (count: nat)
    ensures count == TypeCount(listing, status)
  {
    count := 0;
    if listing.None? {
      return;
    }
    var rules := listing.value;
    var i := 0;
    while i < |rules|
      invariant 0 <= i <= |rules|
      invariant count == OkCount(i, status)
    {
      if CallSucceeded(status(i)) {
        count := count + 1;
      }
      i := i + 1;
    }
  }

  /// The copy loop of `copyPageRules`, `copyFirewallRules` and
  /// `copyRateLimitRules`: each listed rule is stripped of its server keys and
  /// POSTed to the target zone; `bodies` are the payloads sent, in order.
  method CopyListedRules(listing: Option<seq<Rule>>, status: nat -> Option<int>)
    returns (count: nat, bodies: seq<Rule>)
    ensures count == TypeCount(listing, status)
    ensures listing.None? ==> bodies == []
    ensures listing.Some? ==> |bodies| == |listing.value|
    ensures listing.Some? ==> forall i :: 0 <= i < |bodies| ==>
      bodies[i].Keys == listing.value[i].Keys - ServerKeys
      && forall k :: k in bodies[i] ==> bodies[i][k] == listing.value[i][k]
  {
    count, bodies := 0, [];
    if listing.None? {
      return;
    }
    var rules := listing.value;
    var i := 0;
    while i < |rules|
      invariant 0 <= i <= |rules|
      invariant count == OkCount(i, status)
      invariant |bodies| == i
      invariant forall j :: 0 <= j < i ==>
        bodies[j].Keys == rules[j].Keys - ServerKeys
        && forall k :: k in bodies[j] ==> bodies[j][k] == rules[j][k]
    {
      var body := StripServerKeys(rules[i]);
      bodies := bodies + [body];
      if CallSucceeded(status(i)) {
        count := count + 1;
      }
      i := i + 1;
    }
  }

  /// The sum over the first `n` entries of the rule-type list; entry `j`
  /// ran with `listing(j)` and `status(j)`.  Unknown entries add nothing,
  /// repeated ones run again.
  function RuleTypesTotal<T>(ruleTypes: seq<string>, n: nat, listing: nat -> Option<seq<T>>,
                             status: nat -> nat -> Option<int>): (r: nat)
    requires n <= |ruleTypes|
    ensures r > 0 <==> (exists j :: 0 <= j < n && KnownRuleType(ruleTypes[j])
                                   && TypeCount(listing(j), status(j)) > 0)
  {
    if n == 0 then 0
    else
      var last := if KnownRuleType(ruleTypes[n - 1]) then TypeCount(listing(n - 1), status(n - 1)) else 0;
      RuleTypesTotal(ruleTypes, n - 1, listing, status) + last
  }

  /// The loop over `ruleTypes` with its switch.
  method SumRuleTypes<T>(ruleTypes: seq<string>, listing: nat -> Option<seq<T>>,
                         status: nat -> nat -> Option<int>) returns (total: nat)
    ensures total == RuleTypesTotal(ruleTypes, |ruleTypes|, listing, status)
  {
    total := 0;
    var j := 0;
    while j < |ruleTypes|
      invariant 0 <= j <= |ruleTypes|
      invariant total == RuleTypesTotal(ruleTypes, j, listing, status)
    {
      if KnownRuleType(ruleTypes[j]) {
        var count := CountRuleCalls(listing(j), status(j));
        total := total + count;
      }
      j := j + 1;
    }
  }

  /// No more rules are counted than the known entries listed.
  lemma {:induction false} TotalBound<T>(ruleTypes: seq<string>, n: nat, listing: nat -> Option<seq<T>>,
                                         status: nat -> nat -> Option<int>, bound: nat)
    requires n <= |ruleTypes|
    requires forall j :: 0 <= j < n ==> listing(j).Some? ==> |listing(j).value| <= bound
    ensures RuleTypesTotal(ruleTypes, n, listing, status) <= n * bound
  {
    if n > 0 {
      TotalBound(ruleTypes, n - 1, listing, status, bound);
    }
  }

  /// `copyRulesToDomain`'s answer (success, message, count).
  function CopyOutcome(targetLookup: ZoneLookup, ruleTypes: seq<string>,
                       listing: nat -> Option<seq<Rule>>, status: nat -> nat -> Option<int>)
    : (r: (bool, string, nat))
    ensures ZoneIdOf(targetLookup).Err? ==> r == (false, "Target zone not found", 0)
    ensures r.0 <==> r.2 > 0
    ensures r.0 <==> (ZoneIdOf(targetLookup).Ok? && exists j :: (0 <= j < |ruleTypes|
      && KnownRuleType(ruleTypes[j]) && TypeCount(listing(j), status(j)) > 0))
    ensures ZoneIdOf(targetLookup).Ok? && !r.0 ==> r.1 == "No rules copied"
    ensures r.0 ==> r.1 == "Copied " + NatToString(r.2) + " rules"
  {
    if ZoneIdOf(targetLookup).Err? then (false, "Target zone not found", 0)
    else
      var total := RuleTypesTotal(ruleTypes, |ruleTypes|, listing, status);
      if total > 0 then (true, "Copied " + NatToString(total) + " rules", total)
      else (false, "No rules copied", 0)
  }

  /// `copyRulesToDomain` for one target.
  method CopyRulesToDomain(targetLookup: ZoneLookup, ruleTypes: seq<string>,
                           listing: nat -> Option<seq<Rule>>, status: nat -> nat -> Option<int>)
    returns (success: bool, message: string, count: nat)
    ensures (success, message, count) == CopyOutcome(targetLookup, ruleTypes, listing, status)
  {
    if ZoneIdOf(targetLookup).Err? {
      return false, "Target zone not found", 0;
    }
    var total := SumRuleTypes(ruleTypes, listing, status);
    if total > 0 {
      return true, "Copied " + NatToString(total) + " rules", total;
    }
    return false, "No rules copied", 0;
  }

  /// `deleteRulesFromDomain`'s answer (success, message, count); the
  /// listings hold the ids of the rules found.
  function DeleteOutcome(lookup: ZoneLookup, ruleTypes: seq<string>,
                         listing: nat -> Option<seq<string>>, status: nat -> nat -> Option<int>)
    : (r: (bool, string, nat))
    ensures ZoneIdOf(lookup).Err? ==> r == (false, "Zone not found", 0)
    ensures r.0 <==> r.2 > 0
    ensures r.0 <==> (ZoneIdOf(lookup).Ok? && exists j :: (0 <= j < |ruleTypes|
      && KnownRuleType(ruleTypes[j]) && TypeCount(listing(j), status(j)) > 0))
    ensures ZoneIdOf(lookup).Ok? && !r.0 ==> r.1 == "No rules found"
    ensures r.0 ==> r.1 == "Deleted " + NatToString(r.2) + " rules"
  {
    if ZoneIdOf(lookup).Err? then (false, "Zone not found", 0)
    else
      var total := RuleTypesTotal(ruleTypes, |ruleTypes|, listing, status);
      if total > 0 then (true, "Deleted " + NatToString(total) + " rules", total)
      else (false, "No rules found", 0)
  }

  /// `deleteRulesFromDomain` for one domain.
  method DeleteRulesFromDomain(lookup: ZoneLookup, ruleTypes: seq<string>,
                               listing: nat -> Option<seq<string>>, status: nat -> nat -> Option<int>)
    returns (success: bool, message: string, count: nat)
    ensures (success, message, count) == DeleteOutcome(lookup, ruleTypes, listing, status)
  {
    if ZoneIdOf(lookup).Err? {
      return false, "Zone not found", 0;
    }
    var total := SumRuleTypes(ruleTypes, listing, status);
    if total > 0 {
      return true, "Deleted " + NatToString(total) + " rules", total;
    }
    return false, "No rules found", 0;
  }

  /// A rule-type list with no known entry never copies anything.
  lemma UnknownTypesCopyNothing(targetLookup: ZoneLookup, ruleTypes: seq<string>,
                                listing: nat -> Option<seq<Rule>>, status: nat -> nat -> Option<int>)
    requires forall j :: 0 <= j < |ruleTypes| ==> !KnownRuleType(ruleTypes[j])
    ensures !CopyOutcome(targetLookup, ruleTypes, listing, status).0
  {
  }

  /// `CopyRulesResult` / `DeleteRulesResult`.
  datatype CountResult = CountResult(domain: string, success: bool, message: string, count: nat)

  /// `BatchCopyRules`: 404 for an unknown account, 400 when the source zone
  /// cannot be resolved (before any target is touched), otherwise one result
  /// per target at its index.  Oracles are indexed by target, then by
  /// rule-type entry.
  function BatchCopyRules(accounts: seq<Account>, req: CopyRequest, sourceLookup: ZoneLookup,
                          targetLookup: nat -> ZoneLookup, listing: nat -> nat -> Option<seq<Rule>>,
                          status: nat -> nat -> nat -> Option<int>): (r: BatchResponse<CountResult>)
    ensures r.AccountNotFound? <==> FindAccount(accounts, req.accountId).None?
    ensures r.BadRequest? <==> FindAccount(accounts, req.accountId).Some? && ZoneIdOf(sourceLookup).Err?
    ensures r.BadRequest? ==> r.error == "Source domain not found"
    ensures r.Answered? ==> |r.results| == |req.targetDomains|
    ensures r.Answered? ==> forall i :: 0 <= i < |req.targetDomains| ==>
      r.results[i].domain == req.targetDomains[i]
      && (r.results[i].success, r.results[i].message, r.results[i].count)
         == CopyOutcome(targetLookup(i), req.ruleTypes, listing(i), status(i))
  {
    if FindAccount(accounts, req.accountId).None? then AccountNotFound
    else if ZoneIdOf(sourceLookup).Err? then BadRequest("Source domain not found")
    else Answered(RunBatch(req.targetDomains, (i: nat, d: string) =>
      var o := CopyOutcome(targetLookup(i), req.ruleTypes, listing(i), status(i));
      CountResult(d, o.0, o.1, o.2)))
  }

  /// `BatchDeleteRules`: 404 for an unknown account, otherwise one result per
  /// domain at its index (an empty list gives an empty answer).
  function BatchDeleteRules(accounts: seq<Account>, req: DeleteRequest, lookup: nat -> ZoneLookup,
                            listing: nat -> nat -> Option<seq<string>>,
                            status: nat -> nat -> nat -> Option<int>): (r: BatchResponse<CountResult>)
    ensures r.AccountNotFound? <==> FindAccount(accounts, req.accountId).None?
    ensures !r.BadRequest?
    ensures r.Answered? ==> |r.results| == |req.domains|
    ensures r.Answered? ==> forall i :: 0 <= i < |req.domains| ==>
      r.results[i].domain == req.domains[i]
      && (r.results[i].success, r.results[i].message, r.results[i].count)
         == DeleteOutcome(lookup(i), req.ruleTypes, listing(i), status(i))
  {
    if FindAccount(accounts, req.accountId).None? then AccountNotFound
    else Answered(RunBatch(req.domains, (i: nat, d: string) =>
      var o := DeleteOutcome(lookup(i), req.ruleTypes, listing(i), status(i));
      CountResult(d, o.0, o.1, o.2)))
  }
}
