/**
  * Feedback-driven rule optimisation (src/utils/email_prompt_optimizer.py).
  * The model is asked for improved rule texts and its JSON object reply is
  * written back through `update_rules`, but only for the four rule names the
  * system knows. The model is an oracle: given the current (name, rule)
  * listing it returns the reply's items in order, or `None` when the call
  * fails or the reply is not a JSON object.
  */
module Optimizer {
  import opened Wrappers
  import opened Mail
  import opened Rules

  /** The record `optimize_rules` returns per updated rule: {content, version}. */
  datatype Updated = Updated(content: string, version: int)

  /** `{p['name']: p['prompt']}` for the rules asked about, in order. */
  function RulesListing(rules: EmailRulesManager, asked: seq<string>): (r: seq<(string, string)>)
    reads rules
    requires rules.Valid()
    ensures |r| == |asked|
    ensures forall k :: 0 <= k < |asked| ==> r[k] == (asked[k], rules.GetRules(asked[k]))
  {
    seq(|asked|, k requires 0 <= k < |asked| && rules.Valid() reads rules => (asked[k], rules.GetRules(asked[k])))
  }

  /** `{name: get_rules(name)}` for the rules asked about. */
  function RulesMap(rules: EmailRulesManager, asked: seq<string>): (m: map<string, string>)
    reads rules
    requires rules.Valid()
    ensures forall t :: t in m <==> t in asked
    ensures forall t :: t in m ==> m[t] == rules.GetRules(t)
  {
    map t | t in asked :: rules.GetRules(t)
  }

  /** The write `optimize_rules` makes for one reply item: a whitelisted item
      appends the next version of its rule and records it; any other item is
      skipped. */
  function ApplyItem(rows: seq<RuleRow>, user: Option<int>, updated: map<string, Updated>, item: (string, string))
    : (seq<RuleRow>, map<string, Updated>)
  {
    if item.0 in StandardTypes then
      var version := MaxVersion(rows, item.0, user) + 1;
      (rows + [RuleRow(item.0, item.1, version, user)], updated[item.0 := Updated(item.1, version)])
    else (rows, updated)
  }

  /** The writes `optimize_rules` makes for the reply items `items`, in
      order, starting from table `rows` and result `updated`. */
  function ApplyUpdates(rows: seq<RuleRow>, user: Option<int>, updated: map<string, Updated>, items: seq<(string, string)>)
    : (seq<RuleRow>, map<string, Updated>)
    decreases |items|
  {
    if |items| == 0 then (rows, updated)
    else
      var next := ApplyItem(rows, user, updated, items[0]);
      ApplyUpdates(next.0, user, next.1, items[1..])
  }

  /** The reply items whose name is one of the four rule names. */
  function Whitelisted(items: seq<(string, string)>): (r: seq<(string, string)>)
    ensures |r| <= |items|
    ensures forall k :: 0 <= k < |r| ==> r[k].0 in StandardTypes && r[k] in items
    decreases |items|
  {
    if |items| == 0 then []
    else if items[0].0 in StandardTypes then [items[0]] + Whitelisted(items[1..])
    else Whitelisted(items[1..])
  }

  /** Only whitelisted names matter: the other items change nothing. */
  lemma {:induction false} OnlyWhitelistedApplied(rows: seq<RuleRow>, user: Option<int>, updated: map<string, Updated>,
                                                  items: seq<(string, string)>)
    ensures ApplyUpdates(rows, user, updated, items) == ApplyUpdates(rows, user, updated, Whitelisted(items))
    decreases |items|
  {
    if |items| > 0 {
      var next := ApplyItem(rows, user, updated, items[0]);
      OnlyWhitelistedApplied(next.0, user, next.1, items[1..]);
      if items[0].0 in StandardTypes {
        assert ([items[0]] + Whitelisted(items[1..]))[1..] == Whitelisted(items[1..]);
      }
    }
  }

  /** The table only grows: one row per whitelisted item, for this user, and
      every added row is one of the four rule types. */
  lemma UpdatesAppendOnly(rows: seq<RuleRow>, user: Option<int>, updated: map<string, Updated>,
                          items: seq<(string, string)>)
    ensures var rows' := ApplyUpdates(rows, user, updated, items).0;
            && |rows'| == |rows| + |Whitelisted(items)|
            && rows'[..|rows|] == rows
            && forall row :: row in rows'[|rows|..] ==> row.ruleType in StandardTypes && row.userId == user
  {
    AppliedExtends(rows, user, updated, items);
    AppliedRowsAreRules(rows, user, updated, items);
  }

  /** The table after the updates extends the one before by one row per whitelisted item. */
  lemma {:induction false} AppliedExtends(rows: seq<RuleRow>, user: Option<int>, updated: map<string, Updated>,
                                          items: seq<(string, string)>)
    ensures var rows' := ApplyUpdates(rows, user, updated, items).0;
            |rows'| == |rows| + |Whitelisted(items)| && rows'[..|rows|] == rows
    decreases |items|
  {
    if |items| > 0 {
      var next := ApplyItem(rows, user, updated, items[0]);
      AppliedExtends(next.0, user, next.1, items[1..]);
      if items[0].0 in StandardTypes {
        var rows' := ApplyUpdates(rows, user, updated, items).0;
        assert Whitelisted(items) == [items[0]] + Whitelisted(items[1..]);
        assert rows'[..|rows|] == rows'[..|next.0|][..|rows|];
      }
    }
  }

  /** Every row the updates add is a rule of one of the four types, for this user. */
  lemma {:induction false} AppliedRowsAreRules(rows: seq<RuleRow>, user: Option<int>, updated: map<string, Updated>,
                                               items: seq<(string, string)>)
    ensures var rows' := ApplyUpdates(rows, user, updated, items).0;
            |rows| <= |rows'| && forall row :: row in rows'[|rows|..] ==> row.ruleType in StandardTypes && row.userId == user
    decreases |items|
  {
    if |items| > 0 {
      var next := ApplyItem(rows, user, updated, items[0]);
      AppliedRowsAreRules(next.0, user, next.1, items[1..]);
      if items[0].0 in StandardTypes {
        AppliedExtends(next.0, user, next.1, items[1..]);
        var rows' := ApplyUpdates(rows, user, updated, items).0;
        assert rows'[|rows|] == rows'[..|next.0|][|rows|] == next.0[|rows|];
        assert rows'[|rows|..] == [rows'[|rows|]] + rows'[|next.0|..];
      }
    }
  }

  /** The names a reply records: those of its whitelisted items. */
  function RecordedNames(items: seq<(string, string)>): (names: set<string>)
    ensures forall t :: t in names ==> t in StandardTypes
    decreases |items|
  {
    if |items| == 0 then {}
    else if items[0].0 in StandardTypes then {items[0].0} + RecordedNames(items[1..])
    else RecordedNames(items[1..])
  }

  /** The names recorded are those recorded before and those of the
      whitelisted items. */
  lemma {:induction false} RecordedKeys(rows: seq<RuleRow>, user: Option<int>, updated: map<string, Updated>,
                                        items: seq<(string, string)>)
    ensures ApplyUpdates(rows, user, updated, items).1.Keys == updated.Keys + RecordedNames(items)
    decreases |items|
  {
    if |items| > 0 {
      var next := ApplyItem(rows, user, updated, items[0]);
      RecordedKeys(next.0, user, next.1, items[1..]);
    }
  }

  /** The table invariant holds and the latest row of each recorded rule
      carries the content and the version recorded. */
  ghost predicate RecordsCurrent(rows: seq<RuleRow>, user: Option<int>, updated: map<string, Updated>) {
    && RowsValid(rows)
    && forall t :: t in updated ==> LatestRow(rows, t, user) == Some(RuleRow(t, updated[t].content, updated[t].version, user))
  }

  /** Writing one item keeps the table invariant and every recorded entry
      current, and makes a newly recorded entry current. */
  lemma RecordStep(rows: seq<RuleRow>, user: Option<int>, updated: map<string, Updated>, item: (string, string))
    requires RecordsCurrent(rows, user, updated) && user.Some?
    ensures var next := ApplyItem(rows, user, updated, item);
            RecordsCurrent(next.0, user, next.1)
  {
    if item.0 in StandardTypes {
      var version := MaxVersion(rows, item.0, user) + 1;
      assert ApplyItem(rows, user, updated, item)
             == (rows + [RuleRow(item.0, item.1, version, user)], updated[item.0 := Updated(item.1, version)]);
      AppendNextVersionValid(rows, user, item.0, item.1);
      WriteKeepsRecordsCurrent(rows, user, updated, item.0, item.1);
    }
  }

  /** Appending the next version of `name` keeps every recorded entry current
      and makes the new one current. */
  lemma WriteKeepsRecordsCurrent(rows: seq<RuleRow>, user: Option<int>, updated: map<string, Updated>,
                                 name: string, content: string)
    requires user.Some?
    requires forall t :: t in updated ==> LatestRow(rows, t, user) == Some(RuleRow(t, updated[t].content, updated[t].version, user))
    ensures var version := MaxVersion(rows, name, user) + 1;
            var next := rows + [RuleRow(name, content, version, user)];
            var nextUpdated := updated[name := Updated(content, version)];
            forall t :: t in nextUpdated ==>
              LatestRow(next, t, user) == Some(RuleRow(t, nextUpdated[t].content, nextUpdated[t].version, user))
  {
    var version := MaxVersion(rows, name, user) + 1;
    var next := rows + [RuleRow(name, content, version, user)];
    var nextUpdated := updated[name := Updated(content, version)];
    forall t | t in nextUpdated
      ensures LatestRow(next, t, user) == Some(RuleRow(t, nextUpdated[t].content, nextUpdated[t].version, user))
    {
      UpdateThenGet(rows, user, name, content, if t == name then name + "'" else t);
    }
  }

  /** Every recorded entry is what the table now says: for a manager with a
      user, the latest row of each recorded rule carries the content and the
      version recorded (so `get_rules` and `get_rule_version` read them back). */
  lemma {:induction false} RecordedIsCurrent(rows: seq<RuleRow>, user: Option<int>, updated: map<string, Updated>,
                                             items: seq<(string, string)>)
    requires RecordsCurrent(rows, user, updated) && user.Some?
    ensures var result := ApplyUpdates(rows, user, updated, items);
            RecordsCurrent(result.0, user, result.1)
    decreases |items|
  {
    if |items| > 0 {
      var next := ApplyItem(rows, user, updated, items[0]);
      RecordStep(rows, user, updated, items[0]);
      RecordedIsCurrent(next.0, user, next.1, items[1..]);
    }
  }

  class EmailPromptOptimizer {
    /** The rules table the optimiser writes to (the same table the agent and
        the triage manager read). */
    const rules: EmailRulesManager

    constructor (rulesManager: EmailRulesManager)
      ensures rules == rulesManager
    {
      rules := rulesManager;
    }

    /** `optimize_rules(feedback)`: asks the model about the rules named in
        `rulesToUpdate` (all four when absent), then applies the whitelisted
        items of its reply in order; a failed call changes nothing and gives
        the empty result. */
    method OptimizeRules(rulesToUpdate: Option<seq<string>>,
                         llm: seq<(string, string)> -> Option<seq<(string, string)>>)
      returns (updatedRules: map<string, Updated>)
      requires rules.Valid()
      modifies rules
      ensures rules.Valid()
      ensures var reply := llm(old(RulesListing(rules, rulesToUpdate.GetOr(StandardTypes))));
              if reply.None? then rules.rows == old(rules.rows) && updatedRules == map[]
              else (rules.rows, updatedRules) == ApplyUpdates(old(rules.rows), rules.userId, map[], reply.value)
    {
      var asked := if rulesToUpdate.Some? then rulesToUpdate.value else StandardTypes;
      var promptsToOptimize := ListRules(asked);
      var optimized := llm(promptsToOptimize);
      if optimized.None? {
        return map[];
      }
      updatedRules := ApplyReply(optimized.value);
    }

    /** The listing loop of `optimize_rules`: each rule asked about, with its
        current text. */
    method ListRules(asked: seq<string>) returns (promptsToOptimize: seq<(string, string)>)
      requires rules.Valid()
      ensures promptsToOptimize == RulesListing(rules, asked)
    {
      promptsToOptimize := [];
      var i := 0;
      while i < |asked|
        invariant 0 <= i <= |asked|
        invariant |promptsToOptimize| == i
        invariant forall k :: 0 <= k < i ==> promptsToOptimize[k] == (asked[k], rules.GetRules(asked[k]))
      {
        var currentRule := rules.GetRules(asked[i]);
        promptsToOptimize := promptsToOptimize + [(asked[i], currentRule)];
        i := i + 1;
      }
    }

    /** The update loop of `optimize_rules`: each whitelisted item of the
        reply is written with `update_rules` and recorded with the version it
        got; other items are skipped. */
    method ApplyReply(items: seq<(string, string)>) returns (updatedRules: map<string, Updated>)
      requires rules.Valid()
      modifies rules
      ensures rules.Valid()
      ensures (rules.rows, updatedRules) == ApplyUpdates(old(rules.rows), rules.userId, map[], items)
    {
      updatedRules := map[];
      var j := 0;
      while j < |items|
        invariant 0 <= j <= |items|
        invariant rules.Valid()
        invariant ApplyUpdates(rules.rows, rules.userId, updatedRules, items[j..])
                  == ApplyUpdates(old(rules.rows), rules.userId, map[], items)
      {
        var (ruleName, ruleContent) := items[j];
        assert items[j..][1..] == items[j + 1..];
        ghost var next := ApplyItem(rules.rows, rules.userId, updatedRules, items[j]);
        if ruleName in StandardTypes {
          var version := rules.UpdateRules(ruleName, ruleContent);
          updatedRules := updatedRules[ruleName := Updated(ruleContent, version)];
        }
        assert (rules.rows, updatedRules) == next;
        j := j + 1;
      }
    }

    /** `optimize_single_rule(rule_type, ...)`: `optimize_rules` for that one rule. */
    method OptimizeSingleRule(ruleType: string, llm: seq<(string, string)> -> Option<seq<(string, string)>>)
      returns (updatedRules: map<string, Updated>)
      requires rules.Valid()
      modifies rules
      ensures rules.Valid()
      ensures var reply := llm([(ruleType, old(rules.GetRules(ruleType)))]);
              if reply.None? then rules.rows == old(rules.rows) && updatedRules == map[]
              else (rules.rows, updatedRules) == ApplyUpdates(old(rules.rows), rules.userId, map[], reply.value)
    {
      assert RulesListing(rules, [ruleType]) == [(ruleType, rules.GetRules(ruleType))];
      updatedRules := OptimizeRules(Some([ruleType]), llm);
    }

    /** `get_optimization_suggestions(feedback)`: the model's parsed reply to
        the current rules, or `{}` on failure; no rule is written. */
    method GetOptimizationSuggestions(rulesToCheck: Option<seq<string>>, llm: map<string, string> -> Option<Json>)
      returns (suggestions: Json)
      requires rules.Valid()
      ensures var asked := rulesToCheck.GetOr(StandardTypes);
              suggestions == llm(RulesMap(rules, asked)).GetOr(JObj(map[]))
    {
      var asked := if rulesToCheck.Some? then rulesToCheck.value else StandardTypes;
      var currentRules: map<string, string> := map[];
      var i := 0;
      while i < |asked|
        invariant 0 <= i <= |asked|
        invariant forall t :: t in currentRules <==> t in asked[..i]
        invariant forall t :: t in currentRules ==> currentRules[t] == rules.GetRules(t)
      {
        assert asked[..i + 1] == asked[..i] + [asked[i]];
        currentRules := currentRules[asked[i] := rules.GetRules(asked[i])];
        i := i + 1;
      }
      assert asked[..i] == asked;
      assert currentRules == RulesMap(rules, asked);
      var reply := llm(currentRules);
      if reply.None? {
        return JObj(map[]);
      }
      return reply.value;
    }
  }
}
