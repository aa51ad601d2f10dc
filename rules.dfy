/**
  * The versioned rules table (src/utils/email_rules_manager.py). The SQL table
  * `email_rules` is an append-only sequence of rows; an update never changes a
  * row, it appends the next version. A row's `userId` is `None` when the
  * manager was built without a user: SQL's `user_id = NULL` matches no row, so
  * such a manager never finds its own rows.
  */
module Rules {
  import opened Wrappers

  const StandardTypes := ["ignore_rules", "notify_rules", "respond_rules", "agent_instructions"]

  /** The built-in text of each standard rule type. */
  datatype DefaultTexts = DefaultTexts(ignore: string, notify: string, respond: string, agentInstructions: string)

  /** The texts `_get_default_rules` returns. */
  const BuiltInDefaults := DefaultTexts(
    "Spam, promotional emails, mass announcements, no action needed",
    "Important information that user should know but doesn't need a response (e.g., system notifications, status updates)",
    "Emails that need a direct response (e.g., questions, meeting requests, action items)",
    "Use these tools when appropriate to help manage tasks efficiently. Generate professional, courteous email responses.")

  datatype RuleRow = RuleRow(ruleType: string, content: string, version: int, userId: Option<int>)

  /** `_get_default_rules(rule_type)` over the texts `d`: the text of the
      four standard types, and '' for any other type. */
  function DefaultRules(d: DefaultTexts, ruleType: string): (r: string)
    ensures ruleType !in StandardTypes ==> r == ""
    ensures ruleType in StandardTypes ==> r in [d.ignore, d.notify, d.respond, d.agentInstructions]
  {
    if ruleType == "ignore_rules" then d.ignore
    else if ruleType == "notify_rules" then d.notify
    else if ruleType == "respond_rules" then d.respond
    else if ruleType == "agent_instructions" then d.agentInstructions
    else ""
  }

  /** Every standard type has a non-empty built-in text. */
  lemma BuiltInDefaultsNonEmpty(ruleType: string)
    ensures DefaultRules(BuiltInDefaults, ruleType) != "" <==> ruleType in StandardTypes
  {
  }

  /** `WHERE rule_type = ? AND user_id = ?`: a NULL user matches nothing. */
  predicate Matches(row: RuleRow, ruleType: string, user: Option<int>) {
    user.Some? && row.userId == user && row.ruleType == ruleType
  }

  /** `SELECT MAX(version) ...`, with SQL NULL (no matching row) read as 0. */
  function MaxVersion(rows: seq<RuleRow>, ruleType: string, user: Option<int>): (m: int)
    ensures m >= 0
    decreases |rows|
  {
    if |rows| == 0 then 0
    else
      var rest := MaxVersion(rows[..|rows| - 1], ruleType, user);
      var last := rows[|rows| - 1];
      if Matches(last, ruleType, user) && last.version > rest then last.version else rest
  }

  /** `MaxVersion` bounds every matching row's version and, when positive, is
      the version of one of them. */
  lemma {:induction false} MaxVersionIsMax(rows: seq<RuleRow>, ruleType: string, user: Option<int>)
    ensures var m := MaxVersion(rows, ruleType, user);
            && (forall i :: 0 <= i < |rows| && Matches(rows[i], ruleType, user) ==> rows[i].version <= m)
            && (m > 0 ==> exists i :: 0 <= i < |rows| && Matches(rows[i], ruleType, user) && rows[i].version == m)
    decreases |rows|
  {
    if |rows| > 0 {
      var init := rows[..|rows| - 1];
      MaxVersionIsMax(init, ruleType, user);
      assert forall i :: 0 <= i < |init| ==> init[i] == rows[i];
      var m := MaxVersion(rows, ruleType, user);
      if m > 0 && m != MaxVersion(init, ruleType, user) {
        assert Matches(rows[|rows| - 1], ruleType, user) && rows[|rows| - 1].version == m;
      }
    }
  }

  /** The most recently appended row for (type, user), if any. */
  function LatestRow(rows: seq<RuleRow>, ruleType: string, user: Option<int>): (r: Option<RuleRow>)
    ensures r.Some? ==> exists i :: 0 <= i < |rows| && rows[i] == r.value && Matches(r.value, ruleType, user)
    ensures r.None? <==> forall i :: 0 <= i < |rows| ==> !Matches(rows[i], ruleType, user)
    decreases |rows|
  {
    if |rows| == 0 then None
    else if Matches(rows[|rows| - 1], ruleType, user) then Some(rows[|rows| - 1])
    else
      assert forall i :: 0 <= i < |rows| - 1 ==> rows[..|rows| - 1][i] == rows[i];
      LatestRow(rows[..|rows| - 1], ruleType, user)
  }

  /** The table invariant every update keeps: versions start at 1 and, for one
      (type, user), grow strictly in the order rows were appended. */
  ghost predicate RowsValid(rows: seq<RuleRow>) {
    && (forall i :: 0 <= i < |rows| && rows[i].userId.Some? ==> rows[i].version >= 1)
    && (forall i, j :: 0 <= i < j < |rows| && rows[i].userId.Some? && rows[i].userId == rows[j].userId
                       && rows[i].ruleType == rows[j].ruleType
                       ==> rows[i].version < rows[j].version)
  }

  /** Under the invariant, the last appended row is the unique highest-version
      row: `ORDER BY version DESC LIMIT 1` picks exactly it. */
  lemma {:induction false} LatestRowHasMaxVersion(rows: seq<RuleRow>, ruleType: string, user: Option<int>)
    requires RowsValid(rows)
    ensures LatestRow(rows, ruleType, user).None? <==> MaxVersion(rows, ruleType, user) == 0
    ensures LatestRow(rows, ruleType, user).Some? ==>
              && LatestRow(rows, ruleType, user).value.version == MaxVersion(rows, ruleType, user)
              && forall i :: (0 <= i < |rows| && Matches(rows[i], ruleType, user)
                   && rows[i].version == MaxVersion(rows, ruleType, user)) ==> rows[i] == LatestRow(rows, ruleType, user).value
    decreases |rows|
  {
    if |rows| > 0 {
      var init := rows[..|rows| - 1];
      var last := rows[|rows| - 1];
      PrefixValid(rows);
      LatestRowHasMaxVersion(init, ruleType, user);
      UnfoldLast(rows, ruleType, user);
      if Matches(last, ruleType, user) {
        LastIsNewest(rows, ruleType, user);
      } else {
        forall i | 0 <= i < |rows| - 1
          ensures rows[i] == init[i]
        {
        }
      }
    }
  }

  /** `LatestRow` and `MaxVersion` of a non-empty table, in terms of its last
      row and the rows before it. */
  lemma UnfoldLast(rows: seq<RuleRow>, ruleType: string, user: Option<int>)
    requires |rows| > 0
    ensures var init, last := rows[..|rows| - 1], rows[|rows| - 1];
            && LatestRow(rows, ruleType, user) == (if Matches(last, ruleType, user) then Some(last) else LatestRow(init, ruleType, user))
            && MaxVersion(rows, ruleType, user)
               == (if Matches(last, ruleType, user) && last.version > MaxVersion(init, ruleType, user) then last.version
                   else MaxVersion(init, ruleType, user))
  {
  }

  /** Dropping the last row keeps the table invariant. */
  lemma PrefixValid(rows: seq<RuleRow>)
    requires RowsValid(rows) && |rows| > 0
    ensures RowsValid(rows[..|rows| - 1])
  {
    var init := rows[..|rows| - 1];
    assert forall i :: 0 <= i < |init| ==> init[i] == rows[i];
  }

  /** A matching last row has a positive version above every earlier matching row's. */
  lemma LastIsNewest(rows: seq<RuleRow>, ruleType: string, user: Option<int>)
    requires RowsValid(rows) && |rows| > 0 && Matches(rows[|rows| - 1], ruleType, user)
    ensures rows[|rows| - 1].version >= 1
    ensures forall i :: 0 <= i < |rows| - 1 && Matches(rows[i], ruleType, user) ==> rows[i].version < rows[|rows| - 1].version
  {
    var n := |rows| - 1;
    forall i | 0 <= i < n && Matches(rows[i], ruleType, user)
      ensures rows[i].version < rows[n].version
    {
      assert rows[i].userId.Some? && rows[i].userId == rows[n].userId && rows[i].ruleType == rows[n].ruleType;
    }
  }

  /** Rows of `user` that carry the highest version of their type: the result
      of `get_all_rules`' GROUP BY query, in table order. */
  function LatestRowsOfUser(rows: seq<RuleRow>, user: Option<int>): (r: seq<RuleRow>)
    ensures forall k :: 0 <= k < |r| ==> (r[k] in rows && Matches(r[k], r[k].ruleType, user)
              && r[k].version == MaxVersion(rows, r[k].ruleType, user))
    ensures forall i :: (0 <= i < |rows| && Matches(rows[i], rows[i].ruleType, user)
              && rows[i].version == MaxVersion(rows, rows[i].ruleType, user)) ==> rows[i] in r
  {
    Filter(rows, rows, user)
  }

  function Filter(rows: seq<RuleRow>, table: seq<RuleRow>, user: Option<int>): (r: seq<RuleRow>)
    ensures forall k :: 0 <= k < |r| ==> (r[k] in rows && Matches(r[k], r[k].ruleType, user)
              && r[k].version == MaxVersion(table, r[k].ruleType, user))
    ensures forall i :: (0 <= i < |rows| && Matches(rows[i], rows[i].ruleType, user)
              && rows[i].version == MaxVersion(table, rows[i].ruleType, user)) ==> rows[i] in r
    decreases |rows|
  {
    if |rows| == 0 then []
    else
      var rest := Filter(rows[1..], table, user);
      if Matches(rows[0], rows[0].ruleType, user) && rows[0].version == MaxVersion(table, rows[0].ruleType, user)
      then [rows[0]] + rest
      else rest
  }

  class EmailRulesManager {
    /** The `email_rules` table, in insertion order. */
    var rows: seq<RuleRow>
    const userId: Option<int>
    /** The texts read for a type without rows. */
    const defaults: DefaultTexts

    ghost predicate Valid()
      reads this
    {
      RowsValid(rows)
    }

    /** A manager over an existing table, such as the one seeded with a
        version-1 row per standard type. */
    constructor (table: seq<RuleRow>, user: Option<int>)
      requires RowsValid(table)
      ensures Valid() && rows == table && userId == user && defaults == BuiltInDefaults
    {
      rows := table;
      userId := user;
      defaults := BuiltInDefaults;
    }

    /** `get_rules(rule_type)`: the content of the highest-version row of this
        type and user, or the default when there is none. */
    function GetRules(ruleType: string): (r: string)
      reads this
      requires Valid()
      ensures MaxVersion(rows, ruleType, userId) == 0 ==> r == DefaultRules(defaults, ruleType)
      ensures MaxVersion(rows, ruleType, userId) > 0 ==>
                exists i :: 0 <= i < |rows| && Matches(rows[i], ruleType, userId)
                  && rows[i].version == MaxVersion(rows, ruleType, userId) && rows[i].content == r
    {
      LatestRowHasMaxVersion(rows, ruleType, userId);
      MaxVersionIsMax(rows, ruleType, userId);
      CurrentRule(rows, defaults, ruleType, userId)
    }

    /** `get_rule_version(rule_type)`: the highest version, 0 when there is none. */
    function GetRuleVersion(ruleType: string): (v: int)
      reads this
      ensures v >= 0
      ensures forall i :: 0 <= i < |rows| && Matches(rows[i], ruleType, userId) ==> rows[i].version <= v
      ensures v > 0 ==> exists i :: 0 <= i < |rows| && Matches(rows[i], ruleType, userId) && rows[i].version == v
    {
      MaxVersionIsMax(rows, ruleType, userId);
      MaxVersion(rows, ruleType, userId)
    }

    /** `update_rules(rule_type, rule_content)`: appends one row at the next
        version and returns that version; existing rows are left as they were. */
    method UpdateRules(ruleType: string, ruleContent: string) returns (next: int)
      requires Valid()
      modifies this
      ensures Valid()
      ensures next == MaxVersion(old(rows), ruleType, userId) + 1
      ensures rows == old(rows) + [RuleRow(ruleType, ruleContent, next, userId)]
    {
      AppendNextVersionValid(rows, userId, ruleType, ruleContent);
      next := MaxVersion(rows, ruleType, userId) + 1;
      rows := rows + [RuleRow(ruleType, ruleContent, next, userId)];
    }

    /** `get_all_rules()`: the latest content of every type this user has rows
        for, with the four standard types filled from the defaults when absent.
        Every entry agrees with `get_rules` for its key. */
    method GetAllRules() returns (m: map<string, string>)
      requires Valid()
      ensures forall t :: t in StandardTypes ==> t in m
      ensures forall t :: t in m <==> (t in StandardTypes || HasRow(rows, t, userId))
      ensures forall t :: t in m ==> m[t] == GetRules(t)
    {
      var results := LatestRowsOfUser(rows, userId);
      m := CollectLatest(results);
      m := FillDefaults(m);
    }

    /** The `GROUP BY` rows read into a dictionary: one entry per type the
        user has rows for, holding the rule in force. */
    method CollectLatest(results: seq<RuleRow>) returns (m: map<string, string>)
      requires Valid() && results == LatestRowsOfUser(rows, userId)
      ensures forall t :: t in m <==> HasRow(rows, t, userId)
      ensures forall t :: t in m ==> m[t] == CurrentRule(rows, defaults, t, userId)
    {
      m := map[];
      var k := 0;
      while k < |results|
        invariant 0 <= k <= |results|
        invariant forall t :: t in m <==> TypeAmong(results, k, t)
        invariant forall t :: t in m ==> m[t] == CurrentRule(rows, defaults, t, userId)
      {
        ResultIsLatest(rows, defaults, userId, results[k]);
        TypeAmongStep(results, k);
        m := m[results[k].ruleType := results[k].content];
        k := k + 1;
      }
      PresentTypes(rows, userId);
    }

    /** The standard types missing from `m0` added with their default text. */
    method FillDefaults(m0: map<string, string>) returns (m: map<string, string>)
      requires Valid()
      requires forall t :: t in m0 <==> HasRow(rows, t, userId)
      requires forall t :: t in m0 ==> m0[t] == CurrentRule(rows, defaults, t, userId)
      ensures forall t :: t in m <==> (t in m0 || t in StandardTypes)
      ensures forall t :: t in m ==> m[t] == CurrentRule(rows, defaults, t, userId)
    {
      m := m0;
      var s := 0;
      while s < |StandardTypes|
        invariant 0 <= s <= |StandardTypes|
        invariant forall t :: t in m <==> (t in m0 || t in StandardTypes[..s])
        invariant forall t :: t in m ==> m[t] == CurrentRule(rows, defaults, t, userId)
      {
        var t := StandardTypes[s];
        assert StandardTypes[..s + 1] == StandardTypes[..s] + [t];
        if t !in m {
          NoRowReadsDefault(rows, defaults, t, userId);
          m := m[t := DefaultRules(defaults, t)];
        }
        s := s + 1;
      }
      assert StandardTypes[..s] == StandardTypes;
    }
  }

  /** Some row among the first `k` has type `t`. */
  predicate TypeAmong(rs: seq<RuleRow>, k: int, t: string)
    requires 0 <= k <= |rs|
  {
    exists j :: 0 <= j < k && rs[j].ruleType == t
  }

  lemma TypeAmongStep(rs: seq<RuleRow>, k: int)
    requires 0 <= k < |rs|
    ensures forall t :: TypeAmong(rs, k + 1, t) <==> (TypeAmong(rs, k, t) || t == rs[k].ruleType)
  {
    forall t | TypeAmong(rs, k + 1, t) && t != rs[k].ruleType
      ensures TypeAmong(rs, k, t)
    {
      var j :| 0 <= j < k + 1 && rs[j].ruleType == t;
    }
    forall t | TypeAmong(rs, k, t) || t == rs[k].ruleType
      ensures TypeAmong(rs, k + 1, t)
    {
      if t == rs[k].ruleType {
        assert 0 <= k < k + 1 && rs[k].ruleType == t;
      } else {
        var j :| 0 <= j < k && rs[j].ruleType == t;
        assert 0 <= j < k + 1 && rs[j].ruleType == t;
      }
    }
  }

  predicate HasRow(rows: seq<RuleRow>, t: string, user: Option<int>) {
    exists i :: 0 <= i < |rows| && Matches(rows[i], t, user)
  }

  /** The rule text in force: the latest row's content, else the default. */
  function CurrentRule(rows: seq<RuleRow>, d: DefaultTexts, t: string, user: Option<int>): string {
    match LatestRow(rows, t, user)
    case Some(row) => row.content
    case None => DefaultRules(d, t)
  }

  /** A type without rows reads as its default text. */
  lemma NoRowReadsDefault(rows: seq<RuleRow>, d: DefaultTexts, t: string, user: Option<int>)
    requires !HasRow(rows, t, user)
    ensures CurrentRule(rows, d, t, user) == DefaultRules(d, t)
  {
    assert forall i :: 0 <= i < |rows| ==> !Matches(rows[i], t, user);
  }

  lemma ResultIsLatest(rows: seq<RuleRow>, d: DefaultTexts, user: Option<int>, row: RuleRow)
    requires RowsValid(rows) && row in LatestRowsOfUser(rows, user)
    ensures HasRow(rows, row.ruleType, user)
    ensures CurrentRule(rows, d, row.ruleType, user) == row.content
  {
    var i :| 0 <= i < |rows| && rows[i] == row;
    LatestRowHasMaxVersion(rows, row.ruleType, user);
  }

  /** The types in the GROUP BY result are exactly the types the user has rows for. */
  lemma PresentTypes(rows: seq<RuleRow>, user: Option<int>)
    requires RowsValid(rows)
    ensures forall t :: TypeAmong(LatestRowsOfUser(rows, user), |LatestRowsOfUser(rows, user)|, t) <==> HasRow(rows, t, user)
  {
    var results := LatestRowsOfUser(rows, user);
    forall t | HasRow(rows, t, user)
      ensures TypeAmong(results, |results|, t)
    {
      LatestRowHasMaxVersion(rows, t, user);
      var latest := LatestRow(rows, t, user).value;
      var i :| 0 <= i < |rows| && rows[i] == latest;
      assert latest in results;
      var j :| 0 <= j < |results| && results[j] == latest;
    }
    forall j | 0 <= j < |results|
      ensures HasRow(rows, results[j].ruleType, user)
    {
      ResultIsLatest(rows, BuiltInDefaults, user, results[j]);
    }
  }

  /** After `update_rules(t, c)` by a manager with a user, `get_rules(t)` is `c`
      and `get_rule_version(t)` is the version returned; every other type reads
      as before. */
  lemma UpdateThenGet(rows: seq<RuleRow>, user: Option<int>, t: string, c: string, other: string)
    requires user.Some? && other != t
    ensures var next := MaxVersion(rows, t, user) + 1;
            var rows' := rows + [RuleRow(t, c, next, user)];
            && LatestRow(rows', t, user) == Some(RuleRow(t, c, next, user))
            && MaxVersion(rows', t, user) == next
            && LatestRow(rows', other, user) == LatestRow(rows, other, user)
            && MaxVersion(rows', other, user) == MaxVersion(rows, other, user)
  {
    var next := MaxVersion(rows, t, user) + 1;
    var rows' := rows + [RuleRow(t, c, next, user)];
    assert rows'[..|rows'| - 1] == rows;
    UnfoldLast(rows', t, user);
    UnfoldLast(rows', other, user);
  }

  /** Appending the next version of `t` for `user` keeps the table invariant. */
  lemma AppendNextVersionValid(rows: seq<RuleRow>, user: Option<int>, t: string, c: string)
    requires RowsValid(rows)
    ensures RowsValid(rows + [RuleRow(t, c, MaxVersion(rows, t, user) + 1, user)])
  {
    MaxVersionIsMax(rows, t, user);
    var rows' := rows + [RuleRow(t, c, MaxVersion(rows, t, user) + 1, user)];
    forall i, j | 0 <= i < j < |rows'| && rows'[i].userId.Some? && rows'[i].userId == rows'[j].userId
                  && rows'[i].ruleType == rows'[j].ruleType
      ensures rows'[i].version < rows'[j].version
    {
      assert rows'[i] == rows[i];
      if j < |rows| {
        assert rows'[j] == rows[j];
      } else {
        assert Matches(rows[i], t, user);
      }
    }
  }

  /** Without a user, nothing the manager writes is ever read back: every
      update returns version 1 and `get_rules` keeps returning the default. */
  lemma UpdateWithoutUser(rows: seq<RuleRow>, t: string, c: string)
    ensures var rows' := rows + [RuleRow(t, c, MaxVersion(rows, t, None) + 1, None)];
            && MaxVersion(rows, t, None) + 1 == 1
            && LatestRow(rows', t, None).None?
  {
  }
}
