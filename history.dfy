/**
  * Email history and summary bookkeeping (src/utils/email_history_manager.py).
  * The manager keeps an in-memory window of history entries, appended in
  * (email, response) pairs and trimmed to the last `2 * max_history_pairs`;
  * a counter of pairs since the last summary gates when a stored summary is
  * written. The `email_history` and `summary` SQL tables are sequences of rows
  * in insertion order, which the model takes as timestamp order. The language
  * model and the token counter are oracles.
  */
module History {
  import opened Wrappers
  import opened Strings
  import opened Mail

  /** One item of `self.email_history`: `{"email": ...}`, `{"response": ...}`
      (the response may be `None`), or an object the summariser produced. */
  datatype Entry =
    | EmailEntry(email: Email)
    | ResponseEntry(text: Option<string>)
    | ObjectEntry(fields: map<string, Json>)

  /** A row of the `email_history` table; a `None` response is SQL NULL. */
  datatype HistoryRow = HistoryRow(
    userId: int,
    emailId: string,
    sender: string,
    subject: string,
    body: string,
    response: Option<string>,
    sessionId: string,
    classification: Option<string>,
    confidence: Option<real>)

  /** A row of the `summary` table. */
  datatype SummaryRow = SummaryRow(userId: int, sessionId: string, text: string)

  /** Python's `not user_id`. */
  predicate UserFalsy(user: Option<int>) {
    user.None? || user.value == 0
  }

  /** Python's `xs[k:]` for any integer `k`, negative ones counting from the end. */
  function SliceFrom<T>(xs: seq<T>, k: int): (r: seq<T>)
    ensures |r| <= |xs| && r == xs[|xs| - |r|..]
    ensures k < 0 ==> |r| == (if -k < |xs| then -k else |xs|)
    ensures k >= 0 ==> |r| == (if k < |xs| then |xs| - k else 0)
  {
    if k < 0 then (if -k < |xs| then xs[|xs| + k..] else xs)
    else if k < |xs| then xs[k..] else []
  }

  /** Python's `xs[:k]` for a negative `k`. */
  function SliceToNegative<T>(xs: seq<T>, k: int): (r: seq<T>)
    requires k < 0
    ensures |r| == (if -k < |xs| then |xs| + k else 0) && r == xs[..|r|]
  {
    if -k < |xs| then xs[..|xs| + k] else []
  }

  /** `if len(h) > 2 * max: h = h[-max * 2:]`. With `max == 0` the slice is
      `h[-0:]`, the whole list, so nothing is trimmed. */
  function Trim(h: seq<Entry>, maxHistoryPairs: int): (r: seq<Entry>)
    ensures |r| <= |h| && r == h[|h| - |r|..]
    ensures |h| <= 2 * maxHistoryPairs ==> r == h
    ensures maxHistoryPairs >= 1 && |h| > 2 * maxHistoryPairs ==> |r| == 2 * maxHistoryPairs
  {
    if |h| > maxHistoryPairs * 2 then SliceFrom(h, -maxHistoryPairs * 2) else h
  }

  /** With `max >= 1` the window is the last `min(|h|, 2 * max)` entries. */
  lemma TrimKeepsLatest(h: seq<Entry>, maxHistoryPairs: int)
    requires maxHistoryPairs >= 1
    ensures var r := Trim(h, maxHistoryPairs);
            && |r| == (if |h| < 2 * maxHistoryPairs then |h| else 2 * maxHistoryPairs)
            && r == h[|h| - |r|..]
  {
  }

  /** With `max == 0` the `[-0:]` slice keeps every entry. */
  lemma TrimZeroKeepsAll(h: seq<Entry>)
    ensures Trim(h, 0) == h
  {
  }

  /** The summariser's parsed reply as history entries: an object is wrapped in
      a list; the list is accepted only when every item is an object with both
      'email' and 'response' keys. `None` stands for a failed call, a reply
      that is not JSON, or any other shape. */
  function AsSummary(parsed: Option<Json>): (r: Option<seq<Entry>>)
    ensures r.Some? ==> forall k :: 0 <= k < |r.value| ==>
              r.value[k].ObjectEntry? && "email" in r.value[k].fields && "response" in r.value[k].fields
  {
    match parsed
    case Some(JObj(m)) => if "email" in m && "response" in m then Some([ObjectEntry(m)]) else None
    case Some(JArr(items)) =>
      if forall k :: 0 <= k < |items| ==> items[k].JObj? && "email" in items[k].fields && "response" in items[k].fields
      then Some(ObjectEntries(items))
      else None
    case _ => None
  }

  function ObjectEntries(items: seq<Json>): (r: seq<Entry>)
    requires forall k :: 0 <= k < |items| ==> items[k].JObj?
    ensures |r| == |items| && forall k :: 0 <= k < |items| ==> r[k] == ObjectEntry(items[k].fields)
    decreases |items|
  {
    if |items| == 0 then [] else [ObjectEntry(items[0].fields)] + ObjectEntries(items[1..])
  }

  /** `summarize_email_history` on history `h`: everything but the last pair is
      replaced by the accepted summary; no change when there is nothing before
      the last pair or the reply is not accepted. */
  function Summarized(h: seq<Entry>, parsed: Option<Json>): (r: seq<Entry>)
    ensures AsSummary(parsed).None? ==> r == h
    ensures |h| >= 2 ==> |r| >= 2 && r[|r| - 2..] == h[|h| - 2..]
  {
    if |SliceToNegative(h, -2)| == 0 then h
    else match AsSummary(parsed)
      case None => h
      case Some(items) => items + SliceFrom(h, -2)
  }

  /** Summarising keeps the last pair: the result ends with the input's last
      two entries, and is the input itself when the input has at most two
      entries or the reply is not accepted. */
  lemma SummarizedKeepsLastPair(h: seq<Entry>, parsed: Option<Json>)
    ensures |h| <= 2 || AsSummary(parsed).None? ==> Summarized(h, parsed) == h
    ensures |h| > 2 && AsSummary(parsed).Some? ==> Summarized(h, parsed) == AsSummary(parsed).value + h[|h| - 2..]
    ensures var r := Summarized(h, parsed);
            |h| >= 2 ==> |r| >= 2 && r[|r| - 2..] == h[|h| - 2..]
  {
    var r := Summarized(h, parsed);
    if |h| > 2 && AsSummary(parsed).Some? {
      assert r[|r| - 2..] == SliceFrom(h, -2);
    }
  }

  /** The history after `add_to_history`: the pair appended, the window
      trimmed, then summarised only when the counted tokens exceed the budget.
      With at least one pair allowed the window keeps at most that many pairs,
      unless it was replaced by an accepted summary followed by the last pair. */
  function NextHistory(h: seq<Entry>, email: Email, response: Option<string>, maxHistoryPairs: int,
                       countTokens: seq<Entry> -> nat, maxTokens: int, parsed: Option<Json>): (r: seq<Entry>)
    ensures maxHistoryPairs >= 1 ==>
              || |r| <= 2 * maxHistoryPairs
              || (AsSummary(parsed).Some? && |r| >= 2 && r == AsSummary(parsed).value + r[|r| - 2..])
  {
    var trimmed := Trim(WithPair(h, email, response), maxHistoryPairs);
    if countTokens(trimmed) > maxTokens then
      SummarizedKeepsLastPair(trimmed, parsed);
      Summarized(trimmed, parsed)
    else trimmed
  }

  /** The two `append` calls of `add_to_history`. */
  function WithPair(h: seq<Entry>, email: Email, response: Option<string>): (r: seq<Entry>)
    ensures |r| == |h| + 2 && r[..|h|] == h && r[|h|..] == [EmailEntry(email), ResponseEntry(response)]
  {
    h + [EmailEntry(email), ResponseEntry(response)]
  }

  /** After `add_to_history` with `max >= 1` the last two entries are the email
      and response just added, whether or not summarisation ran; under the
      token budget nothing but the append and the trim happens. */
  lemma AddToHistoryEndsWithPair(h: seq<Entry>, email: Email, response: Option<string>, maxHistoryPairs: int,
                                 countTokens: seq<Entry> -> nat, maxTokens: int, parsed: Option<Json>)
    requires maxHistoryPairs >= 1
    ensures var r := NextHistory(h, email, response, maxHistoryPairs, countTokens, maxTokens, parsed);
            |r| >= 2 && r[|r| - 2..] == [EmailEntry(email), ResponseEntry(response)]
    ensures var trimmed := Trim(WithPair(h, email, response), maxHistoryPairs);
            countTokens(trimmed) <= maxTokens ==>
              NextHistory(h, email, response, maxHistoryPairs, countTokens, maxTokens, parsed) == trimmed
  {
    var pair := [EmailEntry(email), ResponseEntry(response)];
    var added := WithPair(h, email, response);
    assert added[|added| - 2..] == pair;
    var trimmed := Trim(added, maxHistoryPairs);
    TrimKeepsLastPair(added, maxHistoryPairs);
    assert |trimmed| >= 2 && trimmed[|trimmed| - 2..] == pair;
    var r := NextHistory(h, email, response, maxHistoryPairs, countTokens, maxTokens, parsed);
    if countTokens(trimmed) > maxTokens {
      assert r == Summarized(trimmed, parsed);
      SummarizedKeepsLastPair(trimmed, parsed);
    } else {
      assert r == trimmed;
    }
  }

  /** With at least one pair allowed, trimming keeps the last pair. */
  lemma TrimKeepsLastPair(h: seq<Entry>, maxHistoryPairs: int)
    requires maxHistoryPairs >= 1 && |h| >= 2
    ensures var r := Trim(h, maxHistoryPairs);
            |r| >= 2 && r[|r| - 2..] == h[|h| - 2..]
  {
    var r := Trim(h, maxHistoryPairs);
    TrimKeepsLatest(h, maxHistoryPairs);
    var d := |h| - |r|;
    assert r == h[d..];
    assert r[|r| - 2..] == h[d..][|r| - 2..];
  }

  /** `SELECT email_body, response_text ... WHERE session_id = ?`, oldest
      first: exactly the pairs of the session's rows. */
  function SessionPairs(rows: seq<HistoryRow>, sessionId: string): (r: seq<(string, Option<string>)>)
    ensures |r| <= |rows|
    ensures forall p :: p in r <==>
              exists k :: 0 <= k < |rows| && rows[k].sessionId == sessionId && p == (rows[k].body, rows[k].response)
    decreases |rows|
  {
    if |rows| == 0 then []
    else
      var rest := SessionPairs(rows[..|rows| - 1], sessionId);
      var last := rows[|rows| - 1];
      if last.sessionId == sessionId then rest + [(last.body, last.response)] else rest
  }

  function Reverse<T>(xs: seq<T>): (r: seq<T>)
    ensures |r| == |xs|
    ensures forall k :: 0 <= k < |xs| ==> r[k] == xs[|xs| - 1 - k]
  {
    seq(|xs|, k requires 0 <= k < |xs| => xs[|xs| - 1 - k])
  }

  /** SQLite's `LIMIT n`: a negative limit means no limit. */
  function Limit<T>(xs: seq<T>, n: int): (r: seq<T>)
    ensures |r| == (if n < 0 || n >= |xs| then |xs| else n)
    ensures r == xs[..|r|]
  {
    if n < 0 || n >= |xs| then xs else xs[..n]
  }

  /** The summary texts of one session, oldest first: exactly the texts of
      the session's rows. */
  function SessionSummaries(rows: seq<SummaryRow>, sessionId: string): (r: seq<string>)
    ensures |r| <= |rows|
    ensures forall t :: t in r <==> exists k :: 0 <= k < |rows| && rows[k].sessionId == sessionId && t == rows[k].text
    decreases |rows|
  {
    if |rows| == 0 then []
    else
      var rest := SessionSummaries(rows[..|rows| - 1], sessionId);
      var last := rows[|rows| - 1];
      if last.sessionId == sessionId then rest + [last.text] else rest
  }

  /** The prompt `generate_the_new_summary` builds for the fetched pairs. */
  function SummaryPrompt(emailData: seq<(string, Option<string>)>, previousSummary: Option<string>): string {
    SummaryHeader + PreviousBlock(previousSummary) + PairBlocks(emailData) + SummaryFooter
  }

  /** The summary prompt opens with the request to summarise and closes with
      the instruction to keep the important details. */
  lemma SummaryPromptFramed(emailData: seq<(string, Option<string>)>, previousSummary: Option<string>)
    ensures var prompt := SummaryPrompt(emailData, previousSummary);
            && |prompt| >= |SummaryHeader| + |SummaryFooter|
            && OccursAt(prompt, SummaryHeader, 0)
            && OccursAt(prompt, SummaryFooter, |prompt| - |SummaryFooter|)
  {
    var prev := PreviousBlock(previousSummary);
    Framed(SummaryHeader, prev, PairBlocks(emailData), SummaryFooter);
    assert SummaryPrompt(emailData, previousSummary) == SummaryHeader + prev + (PairBlocks(emailData) + SummaryFooter);
  }

  const SummaryHeader := "Summarize the following email conversations:\n\n"
  const SummaryFooter := "Provide a concise summary while keeping important details."

  const PreviousLead := "Previous summary:\n"
  const BlockEnd := "\n\n"

  /** The "Previous summary" block, present only for a non-empty previous summary. */
  function PreviousBlock(previousSummary: Option<string>): string {
    if previousSummary.Some? && previousSummary.value != "" then PreviousLead + previousSummary.value + BlockEnd else ""
  }

  /** One pair's block; a NULL response prints as "None". */
  function PairBlock(pair: (string, Option<string>)): string {
    "Email: " + pair.0 + "\nResponse: " + Formatted(pair.1) + "\n\n"
  }

  /** One "Email/Response" block per pair, in order. */
  function PairBlocks(emailData: seq<(string, Option<string>)>): string
    decreases |emailData|
  {
    if |emailData| == 0 then "" else PairBlock(emailData[0]) + PairBlocks(emailData[1..])
  }

  lemma {:induction false} PairBlocksSnoc(emailData: seq<(string, Option<string>)>, pair: (string, Option<string>))
    ensures PairBlocks(emailData + [pair]) == PairBlocks(emailData) + PairBlock(pair)
    decreases |emailData|
  {
    if |emailData| == 0 {
      assert emailData + [pair] == [pair];
      assert [pair][1..] == [];
    } else {
      assert (emailData + [pair])[1..] == emailData[1..] + [pair];
      PairBlocksSnoc(emailData[1..], pair);
    }
  }

  /** The blocks of a list split at `k` are the blocks of the two halves. */
  lemma {:induction false} PairBlocksSplit(emailData: seq<(string, Option<string>)>, k: nat)
    requires k <= |emailData|
    ensures PairBlocks(emailData) == PairBlocks(emailData[..k]) + PairBlocks(emailData[k..])
    decreases k
  {
    if k > 0 {
      assert emailData[..k][1..] == emailData[1..][..k - 1];
      assert emailData[k..] == emailData[1..][k - 1..];
      PairBlocksSplit(emailData[1..], k - 1);
    }
  }

  /** Pair `k`'s block sits after the blocks of the pairs before it,
      whatever text surrounds the blocks. */
  lemma BlockQuoted(head: string, emailData: seq<(string, Option<string>)>, footer: string, k: nat)
    requires k < |emailData|
    ensures OccursAt(head + PairBlocks(emailData) + footer, PairBlock(emailData[k]), |head + PairBlocks(emailData[..k])|)
  {
    PairBlocksSplit(emailData, k);
    var before := PairBlocks(emailData[..k]);
    var block := PairBlock(emailData[k]);
    var after := PairBlocks(emailData[k + 1..]);
    assert emailData[k..][1..] == emailData[k + 1..];
    assert PairBlocks(emailData[k..]) == block + after;
    var s := head + PairBlocks(emailData) + footer;
    assert s == (head + before) + block + (after + footer);
    assert s[|head + before|..|head + before| + |block|] == block;
  }

  /** Every fetched pair is quoted in the summary prompt as its own
      "Email/Response" block, and pair `k` comes after the blocks of the pairs
      before it; a non-empty previous summary is quoted right after the header. */
  lemma SummaryPromptQuotesPairs(emailData: seq<(string, Option<string>)>, previousSummary: Option<string>, k: nat)
    requires k < |emailData|
    ensures var prompt := SummaryPrompt(emailData, previousSummary);
            var at := |SummaryHeader + PreviousBlock(previousSummary) + PairBlocks(emailData[..k])|;
            OccursAt(prompt, PairBlock(emailData[k]), at)
  {
    var prompt := SummaryPrompt(emailData, previousSummary);
    assert prompt == SummaryHeader + PreviousBlock(previousSummary) + PairBlocks(emailData) + SummaryFooter;
    BlockQuoted(SummaryHeader + PreviousBlock(previousSummary), emailData, SummaryFooter, k);
  }

  /** A non-empty previous summary is quoted right after the request. */
  lemma SummaryPromptQuotesPrevious(emailData: seq<(string, Option<string>)>, previousSummary: Option<string>)
    ensures previousSummary.Some? && previousSummary.value != "" ==>
              OccursAt(SummaryPrompt(emailData, previousSummary), PreviousLead + previousSummary.value + BlockEnd, |SummaryHeader|)
  {
    var prev := PreviousBlock(previousSummary);
    Placed(SummaryHeader, prev, PairBlocks(emailData) + SummaryFooter);
    assert SummaryPrompt(emailData, previousSummary) == SummaryHeader + prev + (PairBlocks(emailData) + SummaryFooter);
  }

  /** `get_latest_email_pairs(n)` over the table `rows`: the session's rows
      newest first, at most `2 * n` of them, reversed back to oldest first. */
  function LatestPairs(rows: seq<HistoryRow>, sessionId: string, numPairs: int): seq<(string, Option<string>)> {
    Reverse(Limit(Reverse(SessionPairs(rows, sessionId)), numPairs * 2))
  }

  /** `get_latest_summary()` over the table `rows`: the session's newest summary. */
  function LatestSummary(rows: seq<SummaryRow>, sessionId: string): Option<string> {
    var texts := SessionSummaries(rows, sessionId);
    if |texts| == 0 then None else Some(texts[|texts| - 1])
  }

  /** The summary table and the counter after `update_email_summary(max)`
      from counter `pairs` over the tables `emailRows` and `summaryRows`: a
      summary of the latest pairs is stored (for a truthy user) and the
      counter reset only when at least `max` pairs were added since the last
      summary, more than `max` rows were fetched and the model returned a
      non-empty text; otherwise both stay as they are. */
  function SummaryUpdate(pairs: int, emailRows: seq<HistoryRow>, summaryRows: seq<SummaryRow>, userId: Option<int>,
                         sessionId: string, maxHistoryPairs: int, llm: string -> Option<string>): (r: (seq<SummaryRow>, int))
    ensures r.1 == pairs || r.1 == 0
    ensures |summaryRows| <= |r.0| <= |summaryRows| + 1 && r.0[..|summaryRows|] == summaryRows
    ensures |r.0| > |summaryRows| ==>
              && r.1 == 0 && !UserFalsy(userId)
              && r.0[|summaryRows|].userId == userId.value && r.0[|summaryRows|].sessionId == sessionId
  {
    var data := LatestPairs(emailRows, sessionId, maxHistoryPairs);
    var text := if |data| == 0 then None else llm(SummaryPrompt(data, LatestSummary(summaryRows, sessionId)));
    if pairs >= maxHistoryPairs && |data| > maxHistoryPairs && text.Some? && text.value != "" then
      (summaryRows + (if UserFalsy(userId) then [] else [SummaryRow(userId.value, sessionId, text.value)]), 0)
    else
      (summaryRows, pairs)
  }

  /** A summary needs history: the counter and the summary table change only
      when `max >= 1`, at least `max` pairs were added since the last summary
      and the session holds more than `max` rows, and then the counter is 0.
      Conversely, in that case a truthy user whose model returns a non-empty
      text gets exactly that summary stored. */
  lemma SummaryNeedsHistory(pairs: int, emailRows: seq<HistoryRow>, summaryRows: seq<SummaryRow>, userId: Option<int>,
                            sessionId: string, maxHistoryPairs: int, llm: string -> Option<string>)
    requires maxHistoryPairs >= 0
    ensures var r := SummaryUpdate(pairs, emailRows, summaryRows, userId, sessionId, maxHistoryPairs, llm);
            r != (summaryRows, pairs) ==>
              && maxHistoryPairs >= 1 && pairs >= maxHistoryPairs
              && |SessionPairs(emailRows, sessionId)| > maxHistoryPairs && r.1 == 0
    ensures var data := LatestPairs(emailRows, sessionId, maxHistoryPairs);
            var text := llm(SummaryPrompt(data, LatestSummary(summaryRows, sessionId)));
            && maxHistoryPairs >= 1 && pairs >= maxHistoryPairs && |SessionPairs(emailRows, sessionId)| > maxHistoryPairs
            && !UserFalsy(userId) && text.Some? && text.value != "" ==>
              SummaryUpdate(pairs, emailRows, summaryRows, userId, sessionId, maxHistoryPairs, llm)
              == (summaryRows + [SummaryRow(userId.value, sessionId, text.value)], 0)
  {
    LatestPairsAreNewestInOrder(SessionPairs(emailRows, sessionId), maxHistoryPairs);
  }

  /** SQLite rejects the insert of `row` into `rows`: `response_text` is
      declared NOT NULL and `email_id` UNIQUE. */
  predicate InsertFails(rows: seq<HistoryRow>, row: HistoryRow) {
    row.response.None? || exists k :: 0 <= k < |rows| && rows[k].emailId == row.emailId
  }

  /** The constraints of the `email_history` table: no NULL `response_text`
      and no `email_id` stored twice. */
  predicate TableConstraints(rows: seq<HistoryRow>) {
    && (forall k :: 0 <= k < |rows| ==> rows[k].response.Some?)
    && (forall i, j :: 0 <= i < j < |rows| ==> rows[i].emailId != rows[j].emailId)
  }

  class EmailHistoryManager {
    /** `self.email_history`. */
    var emailHistory: seq<Entry>
    /** `self.pairs_since_last_summary`. */
    var pairsSinceLastSummary: int
    /** The `email_history` table (every session). */
    var emailRows: seq<HistoryRow>
    /** The `summary` table (every session). */
    var summaryRows: seq<SummaryRow>
    const userId: Option<int>
    const sessionId: string
    const maxTokens: int

    /** A fresh manager over the existing tables: empty window, counter 0. */
    constructor (user: Option<int>, session: string, tokenBudget: int, storedEmails: seq<HistoryRow>, storedSummaries: seq<SummaryRow>)
      ensures emailHistory == [] && pairsSinceLastSummary == 0
      ensures emailRows == storedEmails && summaryRows == storedSummaries
      ensures userId == user && sessionId == session && maxTokens == tokenBudget
    {
      emailHistory := [];
      pairsSinceLastSummary := 0;
      emailRows := storedEmails;
      summaryRows := storedSummaries;
      userId := user;
      sessionId := session;
      maxTokens := tokenBudget;
    }

    /** The row `save_to_db` inserts for this manager's user and session. */
    function RowFor(email: Email, responseText: Option<string>): HistoryRow
      requires !UserFalsy(userId)
    {
      HistoryRow(userId.value, email.emailId.GetOr(""), email.sender, email.subject, email.body,
                 responseText, sessionId, email.classification, email.confidence)
    }

    /** `save_to_db` on the table `rows` raises: there is a user and the
        database rejects the row. */
    predicate SaveRaises(rows: seq<HistoryRow>, email: Email, responseText: Option<string>) {
      !UserFalsy(userId) && InsertFails(rows, RowFor(email, responseText))
    }

    /** The rows `save_to_db` adds to the table `rows`: one for a user whose
        row the database accepts, none otherwise. */
    function Inserted(rows: seq<HistoryRow>, email: Email, responseText: Option<string>): (r: seq<HistoryRow>)
      ensures |r| <= 1
      ensures |r| == 1 <==> !UserFalsy(userId) && !SaveRaises(rows, email, responseText)
      ensures |r| == 1 ==> r[0].response == responseText && r[0].sessionId == sessionId && r[0].body == email.body
                           && forall k :: 0 <= k < |rows| ==> rows[k].emailId != r[0].emailId
    {
      if UserFalsy(userId) || InsertFails(rows, RowFor(email, responseText)) then [] else [RowFor(email, responseText)]
    }

    /** Whatever `save_to_db` is asked to store, the table keeps its
        constraints: a rejected row is never added. */
    lemma InsertedKeepsTableConstraints(rows: seq<HistoryRow>, email: Email, responseText: Option<string>)
      requires TableConstraints(rows)
      ensures TableConstraints(rows + Inserted(rows, email, responseText))
    {
    }

    /** `save_to_db(email_data, response_text)`: inserts one row, or nothing
        when there is no user; `raised` stands for the exception the
        database raises when it rejects the row. */
    method SaveToDb(email: Email, responseText: Option<string>) returns (raised: bool)
      modifies this
      ensures raised == SaveRaises(old(emailRows), email, responseText)
      ensures emailRows == old(emailRows) + Inserted(old(emailRows), email, responseText)
      ensures emailHistory == old(emailHistory) && pairsSinceLastSummary == old(pairsSinceLastSummary)
      ensures summaryRows == old(summaryRows)
    {
      if UserFalsy(userId) {
        return false;
      }
      var row := RowFor(email, responseText);
      if InsertFails(emailRows, row) {
        return true;
      }
      emailRows := emailRows + [row];
      return false;
    }

    /** `add_to_history(email_data, response_text, max_history_pairs)`: appends
        the pair, trims, saves one row, counts one more pair, and summarises
        the window when its token count (`countTokens` of `str(history)`)
        exceeds the budget; `parsed` is the summariser's reply. When the save
        raises (`raised`), the exception leaves the method right after the
        trim: no count, no summary. */
    method AddToHistory(email: Email, responseText: Option<string>, maxHistoryPairs: int,
                        countTokens: seq<Entry> -> nat, parsed: Option<Json>)
      returns (raised: bool)
      modifies this
      ensures raised == SaveRaises(old(emailRows), email, responseText)
      ensures emailHistory
              == if raised then Trim(WithPair(old(emailHistory), email, responseText), maxHistoryPairs)
                 else NextHistory(old(emailHistory), email, responseText, maxHistoryPairs, countTokens, maxTokens, parsed)
      ensures pairsSinceLastSummary == old(pairsSinceLastSummary) + (if raised then 0 else 1)
      ensures emailRows == old(emailRows) + Inserted(old(emailRows), email, responseText)
      ensures summaryRows == old(summaryRows)
    {
      emailHistory := emailHistory + [EmailEntry(email)];
      emailHistory := emailHistory + [ResponseEntry(responseText)];
      assert emailHistory == WithPair(old(emailHistory), email, responseText);
      if |emailHistory| > maxHistoryPairs * 2 {
        emailHistory := SliceFrom(emailHistory, -maxHistoryPairs * 2);
      }
      ghost var trimmed := emailHistory;
      assert trimmed == Trim(WithPair(old(emailHistory), email, responseText), maxHistoryPairs);
      raised := SaveToDb(email, responseText);
      if raised {
        return;
      }
      pairsSinceLastSummary := pairsSinceLastSummary + 1;
      var tokenCount := countTokens(emailHistory);
      if tokenCount > maxTokens {
        SummarizeEmailHistory(parsed);
      }
    }

    /** `summarize_email_history()`, the summariser's parsed reply being `parsed`. */
    method SummarizeEmailHistory(parsed: Option<Json>)
      modifies this
      ensures emailHistory == Summarized(old(emailHistory), parsed)
      ensures pairsSinceLastSummary == old(pairsSinceLastSummary)
      ensures emailRows == old(emailRows) && summaryRows == old(summaryRows)
    {
      var pairsToSummarize := SliceToNegative(emailHistory, -2);
      if |pairsToSummarize| == 0 {
        return;
      }
      var summarized := AsSummary(parsed);
      if summarized.Some? {
        emailHistory := summarized.value + SliceFrom(emailHistory, -2);
      }
    }

    /** `get_latest_email_pairs(num_pairs)`: the session's rows newest first,
        at most `2 * num_pairs` of them, reversed back to oldest first. */
    function GetLatestEmailPairs(numPairs: int): (r: seq<(string, Option<string>)>)
      reads this
      ensures numPairs >= 0 ==> |r| <= 2 * numPairs
      ensures var pairs := SessionPairs(emailRows, sessionId);
              && |r| == (if 0 <= 2 * numPairs < |pairs| then 2 * numPairs else |pairs|)
              && r == pairs[|pairs| - |r|..]
    {
      LatestPairsAreNewestInOrder(SessionPairs(emailRows, sessionId), numPairs);
      LatestPairs(emailRows, sessionId, numPairs)
    }

    /** `get_latest_summary()`: the newest summary of this session, if any. */
    function GetLatestSummary(): (r: Option<string>)
      reads this
      ensures r.None? <==> |SessionSummaries(summaryRows, sessionId)| == 0
      ensures r.Some? ==> r.value == SessionSummaries(summaryRows, sessionId)[|SessionSummaries(summaryRows, sessionId)| - 1]
    {
      LatestSummary(summaryRows, sessionId)
    }

    /** `save_summary_to_db(summary_text)`: nothing without a user or for an empty text. */
    method SaveSummaryToDb(summaryText: string)
      modifies this
      ensures UserFalsy(userId) || summaryText == "" ==> summaryRows == old(summaryRows)
      ensures !UserFalsy(userId) && summaryText != "" ==>
                summaryRows == old(summaryRows) + [SummaryRow(userId.value, sessionId, summaryText)]
      ensures emailRows == old(emailRows) && emailHistory == old(emailHistory)
      ensures pairsSinceLastSummary == old(pairsSinceLastSummary)
    {
      if UserFalsy(userId) || summaryText == "" {
        return;
      }
      summaryRows := summaryRows + [SummaryRow(userId.value, sessionId, summaryText)];
    }

    /** `generate_the_new_summary(...)`: `None` for no data; otherwise the
        model's reply to the prompt, built block by block. */
    method GenerateTheNewSummary(emailData: seq<(string, Option<string>)>, previousSummary: Option<string>,
                                 llm: string -> Option<string>)
      returns (r: Option<string>)
      ensures |emailData| == 0 ==> r.None?
      ensures |emailData| > 0 ==> r == llm(SummaryPrompt(emailData, previousSummary))
    {
      if |emailData| == 0 {
        return None;
      }
      var summaryPrompt := SummaryHeader;
      if previousSummary.Some? && previousSummary.value != "" {
        summaryPrompt := summaryPrompt + PreviousBlock(previousSummary);
      }
      assert summaryPrompt == SummaryHeader + PreviousBlock(previousSummary);
      summaryPrompt := AppendPairBlocks(summaryPrompt, emailData);
      summaryPrompt := summaryPrompt + SummaryFooter;
      return llm(summaryPrompt);
    }

    /** The loop of `generate_the_new_summary` that appends one block per
        pair to `head`. */
    static method AppendPairBlocks(head: string, emailData: seq<(string, Option<string>)>) returns (summaryPrompt: string)
      ensures summaryPrompt == head + PairBlocks(emailData)
    {
      summaryPrompt := head;
      var i := 0;
      while i < |emailData|
        invariant 0 <= i <= |emailData|
        invariant summaryPrompt == head + PairBlocks(emailData[..i])
      {
        var block := PairBlock(emailData[i]);
        PairBlocksSnoc(emailData[..i], emailData[i]);
        assert emailData[..i + 1] == emailData[..i] + [emailData[i]];
        assert (head + PairBlocks(emailData[..i])) + block == head + (PairBlocks(emailData[..i]) + block);
        summaryPrompt := summaryPrompt + block;
        i := i + 1;
      }
      assert emailData[..i] == emailData;
    }

    /** `update_email_summary(max_history_pairs)`: the summary table and the
        counter become `SummaryUpdate` of the old state; the window and the
        email table do not change. */
    method UpdateEmailSummary(maxHistoryPairs: int, llm: string -> Option<string>)
      modifies this
      ensures (summaryRows, pairsSinceLastSummary)
              == SummaryUpdate(old(pairsSinceLastSummary), old(emailRows), old(summaryRows), userId, sessionId,
                               maxHistoryPairs, llm)
      ensures emailRows == old(emailRows) && emailHistory == old(emailHistory)
    {
      if pairsSinceLastSummary < maxHistoryPairs {
        return;
      }
      var emailData := GetLatestEmailPairs(maxHistoryPairs);
      var previousSummary := GetLatestSummary();
      if |emailData| <= maxHistoryPairs {
        return;
      }
      var summaryText := GenerateTheNewSummary(emailData, previousSummary, llm);
      if summaryText.Some? && summaryText.value != "" {
        ghost var added := if UserFalsy(userId) then [] else [SummaryRow(userId.value, sessionId, summaryText.value)];
        SaveSummaryToDb(summaryText.value);
        assert summaryRows == old(summaryRows) + added;
        pairsSinceLastSummary := 0;
      }
    }
  }

  /** The pairs `get_latest_email_pairs(n)` returns are the session's last
      `2n` pairs in chronological order: all of them when there are fewer,
      or when `n` is negative and `LIMIT` does not limit. */
  lemma LatestPairsAreNewestInOrder(pairs: seq<(string, Option<string>)>, numPairs: int)
    ensures var r := Reverse(Limit(Reverse(pairs), numPairs * 2));
            && |r| == (if 0 <= 2 * numPairs < |pairs| then 2 * numPairs else |pairs|)
            && r == pairs[|pairs| - |r|..]
  {
    var r := Reverse(Limit(Reverse(pairs), numPairs * 2));
    forall k | 0 <= k < |r| ensures r[k] == pairs[|pairs| - |r|..][k] {
    }
  }
}
