/**
  * The email agent (src/utils/email_agent_v4.py, `EmailAgent`): classifies an
  * incoming email, records ignored and notified emails, and otherwise
  * assembles memory, runs the generation loop and persists the reply. The
  * vector store, the classifier's and generator's language model, the token
  * counter, `uuid` and the rendering of numbers and of the history list are
  * oracles gathered in `Oracles`.
  */
module Agent {
  import opened Wrappers
  import opened Strings
  import opened Mail
  import opened EmailTools
  import Memory
  import Generation
  import History
  import Rules
  import Triage
  import SystemPrompt

  /** The history text written when an email is ignored. */
  const IgnoredNote := "IGNORED - Email classified as ignore, no response needed."
  /** The history text written when an email is only notified. */
  const NotifiedNote := "NOTIFIED - Email classified as notify, user has been notified."
  /** The answers for an ignored and a notified email, around the confidence. */
  const IgnoredAnswer := "Email classified as IGNORE (confidence: "
  const IgnoredAnswerEnd := "). No response generated."
  const NotifiedAnswer := "Email classified as NOTIFY (confidence: "
  const NotifiedAnswerEnd := "). User has been notified. No response generated."
  const IgnoreLabel := "ignore"
  const NotifyLabel := "notify"
  const RespondLabel := "respond"
  const AgentInstructionsType := "agent_instructions"

  /** `process_email`'s validation of the classifier's result: a label
      outside the three categories, or a classifier that raised (`None`),
      becomes `respond` with confidence 0.5; a valid result is kept. */
  function CoerceClassification(result: Option<(string, real)>): (r: (string, real))
    ensures r.0 in Triage.Categories
    ensures result.Some? && result.value.0 in Triage.Categories ==> r == result.value
    ensures result.None? || result.value.0 !in Triage.Categories ==> r == (RespondLabel, Triage.FallbackConfidence)
  {
    if result.Some? && result.value.0 in Triage.Categories then result.value
    else (RespondLabel, Triage.FallbackConfidence)
  }

  /** Everything the agent consults but does not model. */
  datatype Oracles = Oracles(
    newId: string,                                               // str(uuid.uuid4())
    classifierRaises: bool,                                      // classify_email raised
    poolSearch: (string, nat) -> Triage.QueryResult,             // triage pool queries
    classifierModel: string -> Option<string>,                   // the fallback classifier's reply
    fixed2: real -> string,                                      // f"{confidence:.2f}"
    memorySearch: (string, nat) -> Option<seq<Option<string>>>,  // the vector store's query
    historyText: seq<History.Entry> -> string,                   // str(self.email_history)
    countTokens: string -> Option<nat>,                          // count_number_of_tokens
    summarize: string -> Option<string>,                         // the memory summariser
    userInfo: Option<string>,                                    // user_manager.user_info
    refreshedUserInfo: Option<string>,                           // user_info after a refresh
    services: Generation.Services,                               // search_vector_db, add_user_info
    replies: seq<Generation.Reply>,                              // the generator's replies, in order
    historyTokens: seq<History.Entry> -> nat,                    // tokens of the history window
    parsedSummary: Option<Json>,                                 // summarize_email_history's reply
    summaryModel: string -> Option<string>,                      // update_email_summary's model
    vectorSaveFails: bool)                                       // update_vector_db raised

  const FromLead := "From: "
  const SubjectLead := "\nSubject: "
  const BodyLead := "\n\n"

  /** The message the generator answers: the sender and the subject, each
      after its label, then the body at the end. */
  function UserMessage(email: Email): (r: string)
    ensures OccursAt(r, FromLead + email.sender + SubjectLead, 0)
    ensures OccursAt(r, email.subject, |FromLead + email.sender + SubjectLead|)
    ensures |r| >= |email.body| && OccursAt(r, email.body, |r| - |email.body|)
  {
    var head := FromLead + email.sender + SubjectLead;
    Framed(head, email.subject, BodyLead, email.body);
    head + email.subject + (BodyLead + email.body)
  }

  const PairLead := "email: "
  const PairMid := ", response: "

  /** The document stored in the vector store for an answered email: the
      user message after its label, the response at the end. */
  function MessagePair(userMessage: string, response: string): (r: string)
    ensures OccursAt(r, PairLead, 0) && OccursAt(r, userMessage, |PairLead|)
    ensures |r| >= |response| && OccursAt(r, response, |r| - |response|)
  {
    Framed(PairLead, userMessage, PairMid, response);
    PairLead + userMessage + (PairMid + response)
  }

  /** `_load_memory_from_vectordb(email_data, max_results=5)`: no memory
      exactly when the search fails or returns no usable document. */
  function Recall(email: Email, search: (string, nat) -> Option<seq<Option<string>>>): (r: string)
    ensures var found := search(Memory.MemoryQuery(email), Memory.DefaultMaxResults);
            r == "" <==> found.None? || forall i :: 0 <= i < |found.value| ==> !Memory.Usable(found.value[i])
  {
    match search(Memory.MemoryQuery(email), Memory.DefaultMaxResults)
    case None => ""
    case Some(docs) =>
      Memory.JoinedMemoriesEmpty(docs);
      Join(Memory.Memories(docs), "\n")
  }

  /** The history and VectorDB memory the loop starts from: deduplicated,
      and, when the history is over the token limit, deduplicated again
      against a summarised recall. */
  function PreparedMemory(historyText: string, recall: string, maxTokens: int, o: Oracles): (r: (string, string))
    ensures var first := Memory.Deduplicated(historyText, recall);
            && (!Memory.CheckTokenLimit(first.0, Some(maxTokens), maxTokens, o.countTokens(first.0)) ==> r == first)
            && (Memory.CheckTokenLimit(first.0, Some(maxTokens), maxTokens, o.countTokens(first.0)) ==>
                  r == Memory.Deduplicated(historyText, Memory.SummarizeMemory(recall, maxTokens, o.summarize)))
  {
    var first := Memory.Deduplicated(historyText, recall);
    if Memory.CheckTokenLimit(first.0, Some(maxTokens), maxTokens, o.countTokens(first.0)) then
      Memory.Deduplicated(historyText, Memory.SummarizeMemory(recall, maxTokens, o.summarize))
    else first
  }

  /** What the generation loop reads for one email. */
  function LoopEnv(template: SystemPrompt.Template, email: Email, previousSummary: Option<string>,
                   agentInstructions: string, vectorMemory: string, maxTokens: int, o: Oracles): Generation.Env {
    Generation.Env(template, previousSummary, Some(agentInstructions), o.refreshedUserInfo, UserMessage(email),
                   vectorMemory, maxTokens, o.countTokens, o.summarize, o.services)
  }

  /** What the generation of a reply reads from the managers. */
  datatype LoopView = LoopView(window: seq<History.Entry>, summary: Option<string>, instructions: string)

  /** The agent's memory at one moment. */
  datatype Snapshot = Snapshot(
    window: seq<History.Entry>,
    pairsSinceLastSummary: int,
    emailRows: seq<History.HistoryRow>,
    summaryRows: seq<History.SummaryRow>,
    vectorDocs: seq<string>)

  /** `after` is `before` with at most one element appended. */
  predicate AppendsAtMostOne<T(==)>(before: seq<T>, after: seq<T>) {
    |before| <= |after| <= |before| + 1 && after[..|before|] == before
  }

  /** The agent's tables only grow: the history table, the summary table and
      the vector store each gain at most one entry, and nothing is removed. */
  predicate Grows(before: Snapshot, after: Snapshot) {
    && AppendsAtMostOne(before.emailRows, after.emailRows)
    && AppendsAtMostOne(before.summaryRows, after.summaryRows)
    && AppendsAtMostOne(before.vectorDocs, after.vectorDocs)
  }

  class EmailAgent {
    const historyManager: History.EmailHistoryManager
    const rulesManager: Rules.EmailRulesManager
    const triageManager: Triage.EmailTriageManager
    /** `cfg.max_history_pairs`. */
    const maxHistoryPairs: int
    /** `cfg.max_tokens`. */
    const maxTokens: int
    /** The template of the system prompt. */
    const template: SystemPrompt.Template
    /** The documents the agent added to the vector store, in order. */
    var savedToVectorDb: seq<string>

    /** The managers serve one user: the history manager's, and the rules
        manager's. The triage manager opens its own rules manager over the
        same table exactly when that user is truthy. */
    ghost predicate Valid()
      reads rulesManager, triageManager, triageManager.rulesManager
    {
      && rulesManager.Valid() && triageManager.Valid()
      && historyManager.userId == rulesManager.userId
      && (triageManager.rulesManager == null <==> History.UserFalsy(rulesManager.userId))
      && (triageManager.rulesManager != null ==>
            triageManager.rulesManager.rows == rulesManager.rows
            && triageManager.rulesManager.userId == rulesManager.userId)
    }

    constructor (history: History.EmailHistoryManager, rules: Rules.EmailRulesManager,
                 triage: Triage.EmailTriageManager, pairs: int, tokens: int)
      requires rules.Valid() && triage.Valid() && history.userId == rules.userId
      requires triage.rulesManager == null <==> History.UserFalsy(rules.userId)
      requires triage.rulesManager != null ==> triage.rulesManager.rows == rules.rows && triage.rulesManager.userId == rules.userId
      ensures Valid() && savedToVectorDb == []
      ensures historyManager == history && rulesManager == rules && triageManager == triage
      ensures maxHistoryPairs == pairs && maxTokens == tokens
      ensures template == SystemPrompt.EmailAgentTemplate
    {
      historyManager := history;
      rulesManager := rules;
      triageManager := triage;
      maxHistoryPairs := pairs;
      maxTokens := tokens;
      template := SystemPrompt.EmailAgentTemplate;
      savedToVectorDb := [];
    }

    /** What `_generate_response` reads from the managers: the history
        window, the latest stored summary and the agent instructions. */
    function View(): LoopView
      reads historyManager, rulesManager
      requires rulesManager.Valid()
    {
      LoopView(historyManager.emailHistory, historyManager.GetLatestSummary(), rulesManager.GetRules(AgentInstructionsType))
    }

    /** The environment and starting history of the loop for `email`. */
    function LoopInput(email: Email, o: Oracles, view: LoopView): (Generation.Env, string) {
      var historyText := if |view.window| > 0 then o.historyText(view.window) else "";
      var memory := PreparedMemory(historyText, Recall(email, o.memorySearch), maxTokens, o);
      (LoopEnv(template, email, view.summary, view.instructions, memory.1, maxTokens, o), memory.0)
    }

    /** The loop's run for `email`. */
    function Generated(email: Email, o: Oracles, view: LoopView): Generation.RunResult {
      var (env, combinedHistory) := LoopInput(email, o, view);
      Generation.Run(env, Generation.Start(o.userInfo, combinedHistory), o.replies)
    }

    /** Steps 1 to 4 of `_generate_response`: the SQL history and summary,
        the VectorDB recall, deduplication and the token check. */
    method PrepareLoop(email: Email, o: Oracles) returns (env: Generation.Env, combinedHistory: string)
      requires rulesManager.Valid()
      ensures (env, combinedHistory) == LoopInput(email, o, View())
    {
      var emailHistory := historyManager.emailHistory;
      var previousSummary := historyManager.GetLatestSummary();
      var vectordbMemory := Memory.LoadMemoryFromVectorDb(email, Memory.DefaultMaxResults, o.memorySearch);
      assert vectordbMemory == Recall(email, o.memorySearch);
      var historyText := if |emailHistory| > 0 then o.historyText(emailHistory) else "";
      var filteredVectordbMemory;
      combinedHistory, filteredVectordbMemory := Memory.DeduplicateMemory(historyText, vectordbMemory);
      if Memory.CheckTokenLimit(combinedHistory, Some(maxTokens), maxTokens, o.countTokens(combinedHistory)) {
        vectordbMemory := Memory.SummarizeMemory(vectordbMemory, maxTokens, o.summarize);
        combinedHistory, filteredVectordbMemory := Memory.DeduplicateMemory(historyText, vectordbMemory);
      }
      var agentInstructions := rulesManager.GetRules(AgentInstructionsType);
      env := LoopEnv(template, email, previousSummary, agentInstructions, filteredVectordbMemory, maxTokens, o);
    }

    /** The state the agent's memory updates touch: the history manager's
        window, counter and tables, and the documents added to the vector store. */
    function Memories(): Snapshot
      reads this, historyManager
    {
      Snapshot(historyManager.emailHistory, historyManager.pairsSinceLastSummary, historyManager.emailRows,
               historyManager.summaryRows, savedToVectorDb)
    }

    /** What `add_to_history` and the vector-store save of `response` (`None`
        for a tool-free completion without content) change from `before` to
        `after`: the pair goes into the window, which is then trimmed and,
        when the row was saved, summarised over budget; the history table
        gains the row the database accepts; the vector store gains the
        "email: ..., response: ..." document unless it raises. */
    predicate Stored(before: Snapshot, after: Snapshot, email: Email, o: Oracles, response: Option<string>)
      reads historyManager
    {
      && after.window
         == (if historyManager.SaveRaises(before.emailRows, email, response)
             then History.Trim(History.WithPair(before.window, email, response), maxHistoryPairs)
             else History.NextHistory(before.window, email, response, maxHistoryPairs,
                                      o.historyTokens, historyManager.maxTokens, o.parsedSummary))
      && after.emailRows == before.emailRows + historyManager.Inserted(before.emailRows, email, response)
      && after.vectorDocs
         == before.vectorDocs + (if o.vectorSaveFails then [] else [MessagePair(UserMessage(email), Formatted(response))])
    }

    /** What persisting `outcome` changes from `before` to `after`. A reply
        is stored, and when its row was saved it counts one more pair and
        the summary update runs on the new state. A tool-free completion's
        content, even `None`, is stored the same way but never updates the
        summary. No other outcome changes anything. */
    predicate Persisted(before: Snapshot, after: Snapshot, email: Email, o: Oracles, outcome: Generation.Outcome)
      reads historyManager
    {
      match outcome
      case Replied(text) =>
        && Stored(before, after, email, o, Some(text))
        && (after.summaryRows, after.pairsSinceLastSummary)
           == (if historyManager.SaveRaises(before.emailRows, email, Some(text))
               then (before.summaryRows, before.pairsSinceLastSummary)
               else History.SummaryUpdate(before.pairsSinceLastSummary + 1,
                                          before.emailRows + historyManager.Inserted(before.emailRows, email, Some(text)),
                                          before.summaryRows, historyManager.userId, historyManager.sessionId,
                                          maxHistoryPairs, o.summaryModel))
      case FallbackReplied(content) =>
        && Stored(before, after, email, o, content)
        && after.summaryRows == before.summaryRows
        && after.pairsSinceLastSummary
           == before.pairsSinceLastSummary + (if historyManager.SaveRaises(before.emailRows, email, content) then 0 else 1)
      case _ => after == before
    }

    /** Storing a pair appends at most one history row, which carries the
        response, and at most one document, which records the email. */
    lemma StoredOnlyAppends(before: Snapshot, after: Snapshot, email: Email, o: Oracles, response: Option<string>)
      requires Stored(before, after, email, o, response)
      ensures AppendsAtMostOne(before.emailRows, after.emailRows)
      ensures |after.emailRows| > |before.emailRows| ==> after.emailRows[|before.emailRows|].response == response
      ensures AppendsAtMostOne(before.vectorDocs, after.vectorDocs)
      ensures |after.vectorDocs| > |before.vectorDocs| ==>
                OccursAt(after.vectorDocs[|before.vectorDocs|], UserMessage(email), |PairLead|)
    {
      var added := historyManager.Inserted(before.emailRows, email, response);
      assert after.emailRows[..|before.emailRows|] == before.emailRows;
      assert after.vectorDocs[..|before.vectorDocs|] == before.vectorDocs;
      if |after.emailRows| > |before.emailRows| {
        assert after.emailRows[|before.emailRows|] == added[0];
      }
    }

    /** Persisting any outcome only grows the tables, and the counter is
        reset, left alone, or counts the one new pair. */
    lemma PersistedOnlyAppends(before: Snapshot, after: Snapshot, email: Email, o: Oracles, outcome: Generation.Outcome)
      requires Persisted(before, after, email, o, outcome)
      ensures Grows(before, after)
      ensures after.pairsSinceLastSummary in {0, before.pairsSinceLastSummary, before.pairsSinceLastSummary + 1}
    {
      match outcome
      case Replied(text) =>
        StoredOnlyAppends(before, after, email, o, Some(text));
        if !historyManager.SaveRaises(before.emailRows, email, Some(text)) {
          var u := History.SummaryUpdate(before.pairsSinceLastSummary + 1,
                                         before.emailRows + historyManager.Inserted(before.emailRows, email, Some(text)),
                                         before.summaryRows, historyManager.userId, historyManager.sessionId,
                                         maxHistoryPairs, o.summaryModel);
          assert (after.summaryRows, after.pairsSinceLastSummary) == u;
        }
      case FallbackReplied(content) =>
        StoredOnlyAppends(before, after, email, o, content);
      case _ =>
    }

    /** The memory updates of `_generate_response` after the loop's outcome;
        an exception of `add_to_history` skips the summary update. */
    method Persist(email: Email, o: Oracles, outcome: Generation.Outcome)
      modifies this, historyManager
      ensures Persisted(old(Memories()), Memories(), email, o, outcome)
    {
      match outcome {
        case Replied(assistantResponse) => PersistReply(email, o, assistantResponse);
        case FallbackReplied(assistantResponse) => PersistFallback(email, o, assistantResponse);
        case _ =>
      }
    }

    /** The memory updates after the model's first reply with content. */
    method PersistReply(email: Email, o: Oracles, assistantResponse: string)
      modifies this, historyManager
      ensures Persisted(old(Memories()), Memories(), email, o, Generation.Replied(assistantResponse))
    {
      var raised := historyManager.AddToHistory(email, Some(assistantResponse), maxHistoryPairs,
                                                o.historyTokens, o.parsedSummary);
      if !raised {
        historyManager.UpdateEmailSummary(maxHistoryPairs, o.summaryModel);
      }
      SaveToVectorDb(MessagePair(UserMessage(email), assistantResponse), o.vectorSaveFails);
    }

    /** The memory updates after the tool-free completion. */
    method PersistFallback(email: Email, o: Oracles, assistantResponse: Option<string>)
      modifies this, historyManager
      ensures Persisted(old(Memories()), Memories(), email, o, Generation.FallbackReplied(assistantResponse))
    {
      var _ := historyManager.AddToHistory(email, assistantResponse, maxHistoryPairs, o.historyTokens, o.parsedSummary);
      SaveToVectorDb(MessagePair(UserMessage(email), Formatted(assistantResponse)), o.vectorSaveFails);
    }

    /** `_generate_response(email_data)`: returns the loop's text, whether or
        not the vector store accepted the reply, and persists the reply. */
    method GenerateResponse(email: Email, o: Oracles) returns (reply: Option<string>)
      requires Valid()
      modifies this, historyManager
      ensures reply == Generation.OutcomeText(Generated(email, o, old(View())).outcome)
      ensures Persisted(old(Memories()), Memories(), email, o, Generated(email, o, old(View())).outcome)
    {
      var env, combinedHistory := PrepareLoop(email, o);
      var outcome, _, _ := Generation.GenerationLoop(env, o.userInfo, combinedHistory, o.replies);
      Persist(email, o, outcome);
      reply := Generation.OutcomeText(outcome);
    }

    /** `update_vector_db(msg_pair)`: adds one document unless the store raises. */
    method SaveToVectorDb(document: string, fails: bool)
      modifies this
      ensures savedToVectorDb == old(savedToVectorDb) + (if fails then [] else [document])
    {
      if !fails {
        savedToVectorDb := savedToVectorDb + [document];
      }
    }

    /** The email with an id: its own, or a fresh one. */
    static function WithId(email: Email, newId: string): (r: Email)
      ensures r == email.(emailId := if email.emailId.Some? then email.emailId else Some(newId))
    {
      if email.emailId.Some? then email else email.(emailId := Some(newId))
    }

    /** The classification `process_email` acts on: the triage manager's,
        coerced, or `respond`/0.5 when the classifier raises. */
    function Classified(email: Email, o: Oracles): (r: (string, real))
      reads triageManager, triageManager.rulesManager
      requires triageManager.Valid()
      ensures r.0 in Triage.Categories
    {
      CoerceClassification(
        if o.classifierRaises then None
        else Some(Triage.Decide(triageManager.PoolScores(o.poolSearch), triageManager.ClassifyWithLlm(email, o.classifierModel),
                                triageManager.threshold)))
    }

    /** `email_data` once `process_email` has written the id, the label and
        the confidence into it; the rest of the email is untouched. */
    function Labelled(email: Email, o: Oracles): (r: Email)
      reads triageManager, triageManager.rulesManager
      requires triageManager.Valid()
      ensures r.sender == email.sender && r.subject == email.subject && r.body == email.body
      ensures r.emailId == if email.emailId.Some? then email.emailId else Some(o.newId)
      ensures r.classification.Some? && r.classification.value in Triage.Categories && r.confidence.Some?
    {
      var e := WithId(email, o.newId);
      var (classification, confidence) := Classified(e, o);
      e.(classification := Some(classification), confidence := Some(confidence))
    }

    /** Steps before the dispatch of `process_email`: the id and the
        classification. */
    method Label(email: Email, o: Oracles) returns (processed: Email)
      requires triageManager.Valid()
      ensures processed == Labelled(email, o)
    {
      processed := email;
      if processed.emailId.None? {
        processed := processed.(emailId := Some(o.newId));
      }
      var classified: Option<(string, real)> := None;
      if !o.classifierRaises {
        var classification, confidence := triageManager.ClassifyEmail(processed, o.poolSearch, o.classifierModel);
        classified := Some((classification, confidence));
      }
      var (classification, confidence) := CoerceClassification(classified);
      processed := processed.(classification := Some(classification), confidence := Some(confidence));
    }

    /** The one change an ignored or notified email makes: a history row
        with `note`, unless there is no user or the database rejects the row
        (an email id already stored), whose exception `process_email` catches. */
    predicate Noted(before: Snapshot, after: Snapshot, email: Email, note: string)
      reads historyManager
    {
      after == before.(emailRows := before.emailRows + historyManager.Inserted(before.emailRows, email, Some(note)))
    }

    /** The answer for an ignored or notified email. */
    static function ClassificationMessage(kind: string, confidence: string): string {
      if kind == IgnoreLabel then IgnoredAnswer + confidence + IgnoredAnswerEnd
      else NotifiedAnswer + confidence + NotifiedAnswerEnd
    }

    /** What answering a labelled email does, from memory `before` to memory
        `after`, given the loop's run `run` for it: an ignored or notified
        email gets a fixed answer and at most one history row with a fixed note, a
        `respond` email gets the loop's text and its reply is persisted. */
    predicate Answered(before: Snapshot, after: Snapshot, processed: Email, o: Oracles, reply: Option<string>,
                       run: Generation.RunResult)
      reads historyManager
      requires processed.classification.Some? && processed.confidence.Some?
    {
      var kind := processed.classification.value;
      if kind == IgnoreLabel || kind == NotifyLabel then
        && reply == Some(ClassificationMessage(kind, o.fixed2(processed.confidence.value)))
        && Noted(before, after, processed, if kind == IgnoreLabel then IgnoredNote else NotifiedNote)
      else
        && reply == Generation.OutcomeText(run.outcome)
        && Persisted(before, after, processed, o, run.outcome)
    }

    /** Answering a labelled email only grows the tables; an ignored or
        notified email leaves the window, the counter and the vector store
        as they were. */
    lemma AnsweredOnlyAppends(before: Snapshot, after: Snapshot, processed: Email, o: Oracles, reply: Option<string>,
                              run: Generation.RunResult)
      requires processed.classification.Some? && processed.confidence.Some?
      requires Answered(before, after, processed, o, reply, run)
      ensures Grows(before, after)
      ensures processed.classification.value in {IgnoreLabel, NotifyLabel} ==>
                after.window == before.window && after.pairsSinceLastSummary == before.pairsSinceLastSummary
                && after.vectorDocs == before.vectorDocs
    {
      var kind := processed.classification.value;
      if kind == IgnoreLabel || kind == NotifyLabel {
        var note := if kind == IgnoreLabel then IgnoredNote else NotifiedNote;
        assert after.emailRows == before.emailRows + historyManager.Inserted(before.emailRows, processed, Some(note));
        assert after.emailRows[..|before.emailRows|] == before.emailRows;
      } else {
        PersistedOnlyAppends(before, after, processed, o, run.outcome);
      }
    }

    /** The branch of `process_email` for an ignored or notified email:
        at most one history row with the fixed note, and the fixed answer. */
    method Acknowledge(processed: Email, o: Oracles, kind: string, note: string) returns (reply: Option<string>)
      requires processed.confidence.Some?
      modifies historyManager
      ensures reply == Some(ClassificationMessage(kind, o.fixed2(processed.confidence.value)))
      ensures Noted(old(Memories()), Memories(), processed, note)
    {
      var _ := historyManager.SaveToDb(processed, Some(note));
      reply := Some(ClassificationMessage(kind, o.fixed2(processed.confidence.value)));
    }

    /** The dispatch of `process_email` on the label of `processed`. */
    method Dispatch(processed: Email, o: Oracles) returns (reply: Option<string>)
      requires Valid() && processed.classification.Some? && processed.confidence.Some?
      modifies this, historyManager
      ensures Valid()
      ensures Answered(old(Memories()), Memories(), processed, o, reply, Generated(processed, o, old(View())))
    {
      var classification := processed.classification.value;
      if classification == IgnoreLabel {
        reply := Acknowledge(processed, o, classification, IgnoredNote);
      } else if classification == NotifyLabel {
        reply := Acknowledge(processed, o, classification, NotifiedNote);
      } else {
        reply := GenerateResponse(processed, o);
      }
    }

    /** `process_email(email_data)`: labels the email, then answers it. */
    method ProcessEmail(email: Email, o: Oracles) returns (reply: Option<string>, processed: Email)
      requires Valid()
      modifies this, historyManager
      ensures Valid()
      ensures processed == old(Labelled(email, o))
      ensures Answered(old(Memories()), Memories(), processed, o, reply, Generated(processed, o, old(View())))
    {
      processed := Label(email, o);
      assert Memories() == old(Memories());
      assert View() == old(View());
      reply := Dispatch(processed, o);
    }
  }
}
