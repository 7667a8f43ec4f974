/// `Frontend/src/modules/copy_rules.js`: the rule copy form (`copyRules`).
module CopyRulesForm {
  import opened Text
  import opened DomainList
  import opened Forms
  import RulesHandler

  const SourceMissing := "请输入源域名"
  const TargetsMissing := "请输入目标域名列表"
  const TargetsEmpty := "目标域名列表为空"

  /// `copyRules`.  The source domain is trimmed; the guards run in order:
  /// account, source, blank target text (before the rule types are read),
  /// rule types, empty target list.
  function CopyRules(accountId: string, sourceText: string, targetsText: string, checks: RuleChecks)
    : (r: Submission<RulesHandler.CopyRequest>)
    ensures accountId == "" ==> r == Alerted(AccountMissing)
    ensures accountId != "" && IsBlank(sourceText) ==> r == Alerted(SourceMissing)
    ensures accountId != "" && !IsBlank(sourceText) && IsBlank(targetsText) ==> r == Alerted(TargetsMissing)
    ensures accountId != "" && !IsBlank(sourceText) && !IsBlank(targetsText) && SelectedRuleTypes(checks) == [] ==>
      r == Alerted(RuleTypesMissing)
    ensures r != Alerted(TargetsEmpty) && !r.Declined?
    ensures r.Sent? <==> accountId != "" && !IsBlank(sourceText) && !IsBlank(targetsText)
                          && SelectedRuleTypes(checks) != []
    ensures r.Sent? ==> r.body == RulesHandler.CopyRequest(accountId, Trim(sourceText), ParseLines(targetsText),
                                                           SelectedRuleTypes(checks))
    ensures r.Sent? ==> r.body.sourceDomain != "" && IsTrimmed(r.body.sourceDomain)
  {
    var sourceDomain := Trim(sourceText);
    if accountId == "" then Alerted(AccountMissing)
    else if sourceDomain == "" then Alerted(SourceMissing)
    else if IsBlank(targetsText) then Alerted(TargetsMissing)
    else
      var ruleTypes := SelectedRuleTypes(checks);
      if ruleTypes == [] then Alerted(RuleTypesMissing)
      else
        var targets := ParseLines(targetsText);
        NonBlankGivesEntries(targetsText);
        if targets == [] then Alerted(TargetsEmpty)
        else Sent(RulesHandler.CopyRequest(accountId, sourceDomain, targets, ruleTypes))
  }
}
