/**
  * Email triage (src/utils/email_triage_manager.py): three pools of labelled
  * examples, one per category, are searched for the incoming email; each pool
  * is scored by the mean similarity `1 - d` of the distances the search
  * returns, and the best pool decides unless every score is zero or the best
  * one is below the confidence threshold, where the language model decides.
  * The vector search and the model are oracles passed in as functions.
  */
module Triage {
  import opened Wrappers
  import opened Strings
  import opened Mail
  import Rules

  /** The pools, in the order `self.collections` lists them. */
  const Categories: seq<string> := ["ignore", "notify", "respond"]
  const DefaultConfidenceThreshold: real := 0.37
  const FallbackConfidence: real := 0.5
  const MaxNeighbours: nat := 3

  /** One stored few-shot example: the document and its metadata. */
  datatype Example = Example(document: string, tag: string, category: string)

  /** What one pool search gives back: an error, or the distances of the
      nearest examples (`results['distances'][0]`, possibly empty). */
  datatype QueryResult = QueryFailed | Distances(ds: seq<real>)

  /** The document stored for a few-shot example. */
  function FewShotDocument(email: Email, tag: string): string {
    EmailText(email) + "\n\nLabel: " + tag
  }

  /** `sum(1 - d for d in ds)`. */
  function SimilaritySum(ds: seq<real>): real
    decreases |ds|
  {
    if |ds| == 0 then 0.0 else SimilaritySum(ds[..|ds| - 1]) + (1.0 - ds[|ds| - 1])
  }

  /** `n_results=min(3, count)`. */
  function QueryLimit(count: nat): (n: nat)
    ensures n <= MaxNeighbours && n <= count
    ensures n == MaxNeighbours || n == count
  {
    if count < MaxNeighbours then count else MaxNeighbours
  }

  /** The score of one pool holding `count` examples whose search gave `result`:
      0.0 for an empty pool, a failed search or no distances, and otherwise the
      mean of `1 - d` over the distances returned. */
  function PoolScore(count: nat, result: QueryResult): (score: real)
    ensures count == 0 || result.QueryFailed? || (result.Distances? && |result.ds| == 0) ==> score == 0.0
    ensures count > 0 && result.Distances? && |result.ds| > 0 ==>
              score * (|result.ds| as real) == SimilaritySum(result.ds)
  {
    if count == 0 then 0.0
    else match result
      case QueryFailed => 0.0
      case Distances(ds) => if |ds| > 0 then SimilaritySum(ds) / (|ds| as real) else 0.0
  }

  /** Distances in [0, 1] give a similarity sum between 0 and the number of distances. */
  lemma {:induction false} SimilaritySumBounds(ds: seq<real>)
    requires forall k :: 0 <= k < |ds| ==> 0.0 <= ds[k] <= 1.0
    ensures 0.0 <= SimilaritySum(ds) <= |ds| as real
    decreases |ds|
  {
    if |ds| > 0 {
      SimilaritySumBounds(ds[..|ds| - 1]);
    }
  }

  /** With distances in [0, 1] a pool score lies in [0, 1]; nothing bounds it otherwise. */
  lemma PoolScoreBounds(count: nat, result: QueryResult)
    requires result.Distances? ==> forall k :: 0 <= k < |result.ds| ==> 0.0 <= result.ds[k] <= 1.0
    ensures 0.0 <= PoolScore(count, result) <= 1.0
  {
    if count > 0 && result.Distances? && |result.ds| > 0 {
      SimilaritySumBounds(result.ds);
    }
  }

  /** `all(score == 0.0 ...)`. */
  predicate AllZero(scores: seq<real>) {
    forall k :: 0 <= k < |scores| ==> scores[k] == 0.0
  }

  /** `max(category_scores, key=category_scores.get)`: the first index that
      attains the maximum score. */
  function BestIndex(scores: seq<real>): (b: nat)
    requires |scores| > 0
    ensures b < |scores|
    ensures forall k :: 0 <= k < |scores| ==> scores[k] <= scores[b]
    ensures forall k :: 0 <= k < b ==> scores[k] < scores[b]
    decreases |scores|
  {
    if |scores| == 1 then 0
    else
      var b := BestIndex(scores[..|scores| - 1]);
      if scores[|scores| - 1] > scores[b] then |scores| - 1 else b
  }

  /** The decision `classify_email` takes once the three scores are known;
      `fallback` is the classification `_classify_with_llm` gives. */
  function Decide(scores: seq<real>, fallback: string, threshold: real): (r: (string, real))
    requires |scores| == |Categories|
    ensures r.0 == fallback || r.0 in Categories
    ensures AllZero(scores) ==> r == (fallback, FallbackConfidence)
    ensures !AllZero(scores) ==> (forall k :: 0 <= k < |scores| ==> scores[k] <= r.1)
                                 && exists k :: 0 <= k < |scores| && scores[k] == r.1
  {
    if AllZero(scores) then (fallback, FallbackConfidence)
    else
      var b := BestIndex(scores);
      if scores[b] < threshold then
        if fallback in Categories then (fallback, scores[b]) else (Categories[b], scores[b])
      else (Categories[b], scores[b])
  }

  /** What a classification means: the model's classification at confidence 0.5 when
      every pool scores zero; otherwise the confidence is the highest pool
      score, and at or above the threshold the classification is the first category
      attaining it. The classification is always one of the three categories. */
  lemma DecideOutcome(scores: seq<real>, reply: Option<string>, threshold: real)
    requires |scores| == |Categories|
    ensures var r := Decide(scores, NormalizeLabel(reply), threshold);
            && r.0 in Categories
            && (AllZero(scores) ==> r == (NormalizeLabel(reply), FallbackConfidence))
            && (!AllZero(scores) ==>
                  && (forall k :: 0 <= k < |scores| ==> scores[k] <= r.1)
                  && (exists k :: 0 <= k < |scores| && scores[k] == r.1))
            && (!AllZero(scores) && r.1 >= threshold ==>
                  exists k :: 0 <= k < |scores| && r.0 == Categories[k] && scores[k] == r.1
                    && forall j :: 0 <= j < k ==> scores[j] < r.1)
            && (!AllZero(scores) && r.1 < threshold ==> r.0 == NormalizeLabel(reply))
  {
    if !AllZero(scores) {
      var b := BestIndex(scores);
      assert scores[b] == Decide(scores, NormalizeLabel(reply), threshold).1;
    }
  }

  /** The documented confidence range [0, 1] holds only when every
      score does; the code does not clamp. */
  lemma ConfidenceBounded(scores: seq<real>, fallback: string, threshold: real)
    requires |scores| == |Categories|
    requires forall k :: 0 <= k < |scores| ==> 0.0 <= scores[k] <= 1.0
    ensures 0.0 <= Decide(scores, fallback, threshold).1 <= 1.0
  {
    if !AllZero(scores) {
      var b := BestIndex(scores);
    }
  }

  /** A distance above 1 gives a negative similarity, and a negative
      confidence comes out of the classification unchanged. */
  lemma ConfidenceCanBeNegative()
    ensures PoolScore(1, Distances([1.5])) == -0.5
    ensures Decide([-0.5, -0.5, -0.5], "respond", DefaultConfidenceThreshold) == ("respond", -0.5)
  {
    assert SimilaritySum([1.5]) == -0.5 by {
      assert [1.5][..0] == [];
    }
    assert [-0.5, -0.5, -0.5][0] != 0.0;
    assert BestIndex([-0.5, -0.5, -0.5]) == 0;
  }

  /** `_classify_with_llm`'s handling of the model's text: stripped and
      lowercased, kept when it is a category, and `respond` otherwise or when
      the call failed (`None`). */
  function NormalizeLabel(reply: Option<string>): (classification: string)
    ensures classification in Categories
    ensures reply.Some? && Lower(Strip(reply.value)) in Categories ==> classification == Lower(Strip(reply.value))
    ensures reply.None? || Lower(Strip(reply.value)) !in Categories ==> classification == "respond"
  {
    match reply
    case None => "respond"
    case Some(text) =>
      var c := Lower(Strip(text));
      if c in Categories then c else "respond"
  }

  /** A stripped string is its own strip. */
  lemma StripStripped(s: string)
    requires s == [] || (!IsSpace(s[0]) && !IsSpace(s[|s| - 1]))
    ensures Strip(s) == s
  {
    assert TrimLeft(s) == s;
    assert TrimRight(s) == s;
  }

  /** Normalising is idempotent: feeding a classification back in gives it again, so
      surrounding whitespace and letter case never change the outcome twice. */
  lemma NormalizeLabelIdempotent(text: string)
    ensures NormalizeLabel(Some(NormalizeLabel(Some(text)))) == NormalizeLabel(Some(text))
  {
    var classification := NormalizeLabel(Some(text));
    var k :| 0 <= k < |Categories| && Categories[k] == classification;
    CategoryIsFixed(k);
  }

  /** A category is its own normal form. */
  lemma CategoryIsFixed(k: nat)
    requires k < |Categories|
    ensures Lower(Strip(Categories[k])) == Categories[k]
  {
    var c := Categories[k];
    assert forall i :: 0 <= i < |c| ==> 'a' <= c[i] <= 'z';
    StripStripped(c);
    LowerLowercase(c);
  }

  lemma LowerLowercase(s: string)
    requires forall i :: 0 <= i < |s| ==> 'a' <= s[i] <= 'z'
    ensures Lower(s) == s
  {
  }

  /** The fixed text of the prompt `_classify_with_llm` sends, between its
      placeholders, and the rule texts it uses without a rules manager. */
  datatype PromptText = PromptText(
    ignoreHeading: string, notifyHeading: string, respondHeading: string, senderHeading: string,
    subjectHeading: string, bodyHeading: string, closing: string,
    ignoreFallback: string, notifyFallback: string, respondFallback: string)

  /** The classifier's prompt text. */
  const ClassifierPromptText := PromptText(
    "Classify this email into one category based on the following rules:\n\nIGNORE rules: ",
    "\n\nNOTIFY rules: ", "\n\nRESPOND rules: ", "\n\nEmail:\nFrom: ", "\nSubject: ", "\nBody: ",
    "\n\nRespond with ONLY one word: ignore, notify, or respond",
    "Spam, promotional emails, mass announcements, no action needed",
    "Important information that user should know but doesn't need a response (e.g., system notifications, status updates)",
    "Emails that need a direct response (e.g., questions, meeting requests, action items)")

  /** The prompt `_classify_with_llm` sends, with fixed text `t`; the body is
      cut to its first 500 characters. */
  function ClassificationPrompt(t: PromptText, ignoreRules: string, notifyRules: string, respondRules: string,
                                email: Email): string {
    var body := if |email.body| <= 500 then email.body else email.body[..500];
    t.ignoreHeading + ignoreRules + t.notifyHeading + notifyRules + t.respondHeading + respondRules
    + t.senderHeading + email.sender + t.subjectHeading + email.subject + t.bodyHeading + body + t.closing
  }

  class EmailTriageManager {
    /** `self.collections`: the examples stored in each category's pool. */
    var pools: map<string, seq<Example>>
    /** Present only when the manager was built with a database and a user. */
    const rulesManager: Rules.EmailRulesManager?
    /** `classification_confidence_threshold`, 0.37 unless configured. */
    const threshold: real
    /** The fixed text of the classification prompt. */
    const promptText: PromptText

    ghost predicate Valid()
      reads this, rulesManager
    {
      && (forall c :: c in pools <==> c in Categories)
      && (rulesManager != null ==> rulesManager.Valid())
    }

    /** A manager over the pools already stored (the vector store persists). */
    constructor (stored: map<string, seq<Example>>, rules: Rules.EmailRulesManager?, confidenceThreshold: real)
      requires forall c :: c in stored <==> c in Categories
      requires rules != null ==> rules.Valid()
      ensures Valid()
      ensures pools == stored && rulesManager == rules && threshold == confidenceThreshold
      ensures promptText == ClassifierPromptText
    {
      pools := stored;
      rulesManager := rules;
      threshold := confidenceThreshold;
      promptText := ClassifierPromptText;
    }

    /** `add_few_shot_example`: an unknown category is an error that stores
        nothing; otherwise exactly one document is appended to that category's
        pool and every other pool is left as it was. */
    method AddFewShotExample(category: string, email: Email, tag: string) returns (r: Result<(), string>)
      requires Valid()
      modifies this
      ensures Valid()
      ensures category !in Categories ==> r.Failure? && pools == old(pools)
      ensures category in Categories ==>
                && r.Success?
                && pools == old(pools)[category := old(pools)[category] + [Example(FewShotDocument(email, tag), tag, category)]]
    {
      if category !in pools {
        return Failure("Invalid category: " + category + ". Must be 'ignore', 'notify', or 'respond'");
      }
      pools := pools[category := pools[category] + [Example(FewShotDocument(email, tag), tag, category)]];
      return Success(());
    }

    /** The rule texts the fallback prompt uses: the table's, or the built-in ones. */
    function FallbackPrompt(email: Email): string
      reads this, rulesManager
      requires Valid()
    {
      if rulesManager != null then
        ClassificationPrompt(promptText, rulesManager.GetRules("ignore_rules"), rulesManager.GetRules("notify_rules"),
                             rulesManager.GetRules("respond_rules"), email)
      else
        ClassificationPrompt(promptText, promptText.ignoreFallback, promptText.notifyFallback, promptText.respondFallback, email)
    }

    /** `_classify_with_llm(email_data)`, the model being `llm`. */
    function ClassifyWithLlm(email: Email, llm: string -> Option<string>): (classification: string)
      reads this, rulesManager
      requires Valid()
      ensures classification in Categories
    {
      NormalizeLabel(llm(FallbackPrompt(email)))
    }

    /** The score of each pool, in category order, for the searches `search`
        answers. */
    function PoolScores(search: (string, nat) -> QueryResult): (scores: seq<real>)
      reads this
      requires forall c :: c in pools <==> c in Categories
      ensures |scores| == |Categories|
      ensures forall k :: 0 <= k < |Categories| && |pools[Categories[k]]| == 0 ==> scores[k] == 0.0
    {
      seq(|Categories|, k requires 0 <= k < |Categories| && Categories[k] in pools reads this =>
        var count := |pools[Categories[k]]|;
        if count == 0 then 0.0 else PoolScore(count, search(Categories[k], QueryLimit(count))))
    }

    /** `classify_email(email_data)`: scores every pool, then decides. The
        classification is always one of the three categories. */
    method ClassifyEmail(email: Email, search: (string, nat) -> QueryResult, llm: string -> Option<string>)
      returns (classification: string, confidence: real)
      requires Valid()
      ensures (classification, confidence) == Decide(PoolScores(search), ClassifyWithLlm(email, llm), threshold)
      ensures classification in Categories
    {
      var categoryScores: map<string, real> := map[];
      var i := 0;
      while i < |Categories|
        invariant 0 <= i <= |Categories|
        invariant forall k :: 0 <= k < i ==> Categories[k] in categoryScores
                                             && categoryScores[Categories[k]] == PoolScores(search)[k]
      {
        var category := Categories[i];
        var count := |pools[category]|;
        if count == 0 {
          categoryScores := categoryScores[category := 0.0];
        } else {
          var results := search(category, QueryLimit(count));
          categoryScores := categoryScores[category := PoolScore(count, results)];
        }
        i := i + 1;
      }
      var scores := [categoryScores[Categories[0]], categoryScores[Categories[1]], categoryScores[Categories[2]]];
      assert scores == PoolScores(search);
      if AllZero(scores) {
        return ClassifyWithLlm(email, llm), FallbackConfidence;
      }
      var best := BestIndex(scores);
      var bestCategory, bestScore := Categories[best], scores[best];
      if bestScore < threshold {
        var llmClassification := ClassifyWithLlm(email, llm);
        if llmClassification !in Categories {
          return bestCategory, bestScore;
        }
        return llmClassification, bestScore;
      }
      return bestCategory, bestScore;
    }

    /** `get_few_shot_examples(category, limit)`: nothing for an unknown
        category, an empty pool or a failed read; otherwise the documents of
        the first `min(limit, count)` examples of that pool. */
    function GetFewShotExamples(category: string, limit: nat, readFailed: bool): (r: seq<string>)
      reads this
      requires forall c :: c in pools <==> c in Categories
      ensures category !in Categories || readFailed || |pools[category]| == 0 ==> r == []
      ensures category in Categories && !readFailed ==>
                && |r| == (if limit < |pools[category]| then limit else |pools[category]|)
                && forall k :: 0 <= k < |r| ==> r[k] == pools[category][k].document
    {
      if category !in pools || readFailed then []
      else
        var pool := pools[category];
        var n := if limit < |pool| then limit else |pool|;
        seq(n, k requires 0 <= k < n => pool[k].document)
    }
  }
}
