/// What the bulk forms of `Frontend/src/modules/` have in common: the
/// outcome of a click on a form's submit button, and the rule-type list the
/// two rule forms build from their checkboxes.
module Forms {
  import opened Seqs
  import RulesHandler

  /// A click either stops at a guard with an alert, stops because the user
  /// declined the confirmation, or posts a request body.
  datatype Submission<B> = Alerted(message: string) | Declined | Sent(body: B)

  const AccountMissing := "请选择操作账号"
  const DomainsMissing := "请输入域名列表"
  const DomainsEmpty := "域名列表为空"
  const RuleTypesMissing := "请至少选择一种规则类型"
  const SettingsMissing := "请至少选择一项要修改的设置"

  // ---------------------------------------------------------------------
  // Rule types

  /// The state of the three rule-type checkboxes.
  datatype RuleChecks = RuleChecks(pageRules: bool, firewallRules: bool, rateLimiting: bool)

  /// The checkboxes in page order, each with the type it adds.
  function Boxes(checks: RuleChecks): seq<(string, bool)> {
    [("page_rules", checks.pageRules), ("firewall_rules", checks.firewallRules),
     ("rate_limiting", checks.rateLimiting)]
  }

  /// The types of the checked boxes, in box order.
  function CheckedTypes(boxes: seq<(string, bool)>): (r: seq<string>)
    ensures |r| <= |boxes|
    ensures forall t :: t in r <==> exists i :: 0 <= i < |boxes| && boxes[i] == (t, true)
  {
    if boxes == [] then []
    else
      var rest := CheckedTypes(boxes[1..]);
      assert forall t :: (exists i :: 1 <= i < |boxes| && boxes[i] == (t, true))
                         <==> (exists i :: 0 <= i < |boxes[1..]| && boxes[1..][i] == (t, true)) by {
        forall t | exists i :: 0 <= i < |boxes[1..]| && boxes[1..][i] == (t, true)
          ensures exists i :: 1 <= i < |boxes| && boxes[i] == (t, true)
        {
          var i :| 0 <= i < |boxes[1..]| && boxes[1..][i] == (t, true);
          assert boxes[i + 1] == (t, true);
        }
      }
      (if boxes[0].1 then [boxes[0].0] else []) + rest
  }

  /// The rule types whose box is checked, in the fixed page order.
  function SelectedRuleTypes(checks: RuleChecks): (r: seq<string>)
    ensures |r| <= 3
  {
    CheckedTypes(Boxes(checks))
  }

  /// `ruleTypes` as the forms build it: an empty array and one `push` per
  /// checked box.
  method CollectRuleTypes(checks: RuleChecks) returns (ruleTypes: seq<string>)
    ensures ruleTypes == SelectedRuleTypes(checks)
  {
    ruleTypes := [];
    if checks.pageRules {
      ruleTypes := ruleTypes + ["page_rules"];
    }
    if checks.firewallRules {
      ruleTypes := ruleTypes + ["firewall_rules"];
    }
    if checks.rateLimiting {
      ruleTypes := ruleTypes + ["rate_limiting"];
    }
    SelectedRuleTypesValue(checks);
  }

  /// The list spelled out box by box.
  lemma SelectedRuleTypesValue(checks: RuleChecks)
    ensures SelectedRuleTypes(checks)
      == (if checks.pageRules then ["page_rules"] else [])
       + (if checks.firewallRules then ["firewall_rules"] else [])
       + (if checks.rateLimiting then ["rate_limiting"] else [])
  {
    var b := Boxes(checks);
    var r3 := if checks.rateLimiting then ["rate_limiting"] else [];
    var r2 := (if checks.firewallRules then ["firewall_rules"] else []) + r3;
    var r1 := (if checks.pageRules then ["page_rules"] else []) + r2;
    assert CheckedTypes(b[1..][1..][1..]) == [];
    assert CheckedTypes(b[1..][1..]) == r3;
    assert CheckedTypes(b[1..]) == r2;
  }

  /// A type is in the list exactly when its box is checked; each type
  /// appears at most once, every one a type the server handles, and the
  /// list is empty only when no box is checked.
  lemma SelectedRuleTypesKnown(checks: RuleChecks)
    ensures "page_rules" in SelectedRuleTypes(checks) <==> checks.pageRules
    ensures "firewall_rules" in SelectedRuleTypes(checks) <==> checks.firewallRules
    ensures "rate_limiting" in SelectedRuleTypes(checks) <==> checks.rateLimiting
    ensures forall t :: t in SelectedRuleTypes(checks) ==> RulesHandler.KnownRuleType(t)
    ensures NoDuplicates(SelectedRuleTypes(checks))
    ensures SelectedRuleTypes(checks) == [] <==>
      !checks.pageRules && !checks.firewallRules && !checks.rateLimiting
  {
    SelectedRuleTypesValue(checks);
    assert "page_rules"[0] != "firewall_rules"[0] && "page_rules"[0] != "rate_limiting"[0]
      && "firewall_rules"[0] != "rate_limiting"[0];
  }
}
