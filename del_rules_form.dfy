/// `Frontend/src/modules/del_rules.js`: the rule deletion form
/// (`deleteRules`).
module DelRulesForm {
  import opened Text
  import opened DomainList
  import opened Forms
  import RulesHandler

  /// `deleteRules`.  The guards run in order: account, blank text, rule
  /// types, empty list, then the confirmation, whose prompt states the
  /// number of domains (`confirm(n)` is the user's answer to it).  The
  /// domains are posted untouched by deduplication.
  function DeleteRules(accountId: string, text: string, checks: RuleChecks, confirm: nat -> bool)
    : (r: Submission<RulesHandler.DeleteRequest>)
    ensures accountId == "" ==> r == Alerted(AccountMissing)
    ensures accountId != "" && IsBlank(text) ==> r == Alerted(DomainsMissing)
    ensures accountId != "" && !IsBlank(text) && SelectedRuleTypes(checks) == [] ==>
      r == Alerted(RuleTypesMissing)
    ensures r != Alerted(DomainsEmpty)
    ensures r.Declined? <==> accountId != "" && !IsBlank(text) && SelectedRuleTypes(checks) != []
                              && !confirm(|ParseLines(text)|)
    ensures r.Sent? <==> accountId != "" && !IsBlank(text) && SelectedRuleTypes(checks) != []
                          && confirm(|ParseLines(text)|)
    ensures r.Sent? ==> r.body == RulesHandler.DeleteRequest(accountId, ParseLines(text), SelectedRuleTypes(checks))
  {
    if accountId == "" then Alerted(AccountMissing)
    else if IsBlank(text) then Alerted(DomainsMissing)
    else
      var ruleTypes := SelectedRuleTypes(checks);
      if ruleTypes == [] then Alerted(RuleTypesMissing)
      else
        var domains := ParseLines(text);
        NonBlankGivesEntries(text);
        if domains == [] then Alerted(DomainsEmpty)
        else if !confirm(|domains|) then Declined
        else Sent(RulesHandler.DeleteRequest(accountId, domains, ruleTypes))
  }

  /// A posted request names at least one rule type, each a type the
  /// server deletes, with no type twice.
  lemma PostedRuleTypesKnown(accountId: string, text: string, checks: RuleChecks, confirm: nat -> bool)
    requires DeleteRules(accountId, text, checks, confirm).Sent?
    ensures var body := DeleteRules(accountId, text, checks, confirm).body;
      body.ruleTypes != [] && (forall t :: t in body.ruleTypes ==> RulesHandler.KnownRuleType(t))
  {
    SelectedRuleTypesKnown(checks);
  }
}
