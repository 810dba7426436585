/** The approval-rule hook: the rule list with its loading and error state, the
    load operation with its built-in fallback rule, and the bulk update. */
module RulesStore {
  import opened Common
  import opened FrontendTypes

  /** The rule used when the rules cannot be loaded: the manager approves first,
      then the finance, director and CFO users, of whom only finance is required,
      in sequence, with 60 percent of approvals needed. */
  const BuiltInRule := ApprovalRule(
    "rule-1",
    "Approval rule for miscellaneous expenses",
    "This rule applies to all miscellaneous expenses submitted by employees.",
    None,
    true,
    [RuleApprover("user-6", true), RuleApprover("user-7", false), RuleApprover("user-8", false)],
    true,
    60)

  /** The fallback rule is well formed: its approvers are distinct, exactly the first
      is required, and its percentage is a percentage. */
  lemma BuiltInRuleWellFormed()
    ensures var a := BuiltInRule.approvers;
      && |a| == 3
      && (forall i, j | 0 <= i < j < |a| :: a[i].userId != a[j].userId)
      && (forall i | 0 <= i < |a| :: a[i].isRequired <==> i == 0)
      && 0 <= BuiltInRule.minApprovalPercentage <= 100
  {
  }

  class RulesHook {
    var rules: seq<ApprovalRule>
    var loading: bool
    var error: Option<string>

    constructor ()
      ensures rules == [] && !loading && error == None
    {
      rules := [];
      loading := false;
      error := None;
    }

    /** The start of `fetchRules`, before its `await`. */
    method BeginFetch()
      modifies this
      ensures loading && error == None && rules == old(rules)
    {
      loading := true;
      error := None;
    }

    /** The rest of `fetchRules`: the fetched rules, or the built-in rule alone. */
    method FinishFetch(reply: Outcome<seq<ApprovalRule>>)
      modifies this
      ensures !loading && error == old(error)
      ensures rules == if reply.Returned? then reply.value else [BuiltInRule]
    {
      rules := if reply.Returned? then reply.value else [BuiltInRule];
      loading := false;
    }

    /** `updateRules`: the whole list is replaced by the server's answer, or by the
        submitted list when the call fails, and that list is returned. */
    method UpdateRules(ruleData: seq<ApprovalRule>, reply: Outcome<seq<ApprovalRule>>)
      returns (updated: seq<ApprovalRule>)
      modifies this
      ensures updated == if reply.Returned? then reply.value else ruleData
      ensures rules == updated
      ensures error == None && loading == old(loading)
    {
      error := None;
      updated := if reply.Returned? then reply.value else ruleData;
      rules := updated;
    }
  }
}
