/**
  * What `_generate_response`'s loop guarantees, stated about the state
  * machine `Generation.Run` that `Generation.GenerationLoop` computes:
  * repeat detection, the single tool-free completion after a finished pass,
  * and the early exits on a failed or empty model reply.
  */
module GenerationProps {
  import opened Wrappers
  import opened EmailTools
  import opened Generation

  /** No signature occurs twice in `s`. */
  predicate Distinct(s: seq<Signature>) {
    forall i, j :: 0 <= i < j < |s| ==> s[i] != s[j]
  }

  /** One pass either leaves `function_call_history` as it was or appends a
      signature it did not hold. */
  lemma StepExtendsHistoryWithNewSignature(env: Env, st: LoopState, replies: seq<Reply>)
    requires Step(env, st, replies).Again?
    ensures var next := Step(env, st, replies).state;
            || next.callHistory == st.callHistory
            || (exists sig :: sig !in st.callHistory && next.callHistory == st.callHistory + [sig])
  {
    var start := PassStart(env, st);
    var reply := ReplyAt(replies, |st.prompts|);
    var pass := Act(start.value.0, start.value.1, reply, ReplyAt(replies, |st.prompts| + 1), env.services);
    assert Step(env, st, replies) == pass;
    if pass.state.callHistory != st.callHistory {
      var sig := (reply.name, AsMap(reply.arguments.value.items));
      assert sig !in st.callHistory && pass.state.callHistory == st.callHistory + [sig];
    }
  }

  /** Appending a signature not yet present keeps a history distinct. */
  lemma ExtendDistinct(s: seq<Signature>, t: seq<Signature>)
    requires Distinct(s)
    requires t == s || exists sig :: sig !in s && t == s + [sig]
    ensures Distinct(t) && s <= t
  {
    if t != s {
      var sig :| sig !in s && t == s + [sig];
      AppendDistinct(s, sig);
    }
  }

  lemma AppendDistinct(s: seq<Signature>, sig: Signature)
    requires Distinct(s) && sig !in s
    ensures Distinct(s + [sig])
  {
    var t := s + [sig];
    forall i, j | 0 <= i < j < |t|
      ensures t[i] != t[j]
    {
      if j == |s| {
        assert t[i] == s[i];
      } else {
        assert t[i] == s[i] && t[j] == s[j];
      }
    }
  }

  /** Repeat detection: from a state whose history holds no signature twice,
      the loop executes no signature twice, and every signature executed
      before the state stays recorded, in order. */
  lemma {:induction false} RunExecutesNoSignatureTwice(env: Env, st: LoopState, replies: seq<Reply>)
    requires Distinct(st.callHistory)
    ensures var r := Run(env, st, replies);
            Distinct(r.executed) && st.callHistory <= r.executed
    decreases |replies| - |st.prompts|
  {
    RunUnrolled(env, st, replies);
    if st.emailState != Finished && Step(env, st, replies).Again? {
      var next := Step(env, st, replies).state;
      StepExtendsHistoryWithNewSignature(env, st, replies);
      ExtendDistinct(st.callHistory, next.callHistory);
      RunExecutesNoSignatureTwice(env, next, replies);
    }
  }

  /** `_generate_response` never executes the same `(name, sorted args)`
      signature twice within one call. */
  lemma GenerationExecutesNoSignatureTwice(env: Env, userInfo: Option<string>, combinedHistory: string, replies: seq<Reply>)
    ensures Distinct(Run(env, Start(userInfo, combinedHistory), replies).executed)
  {
    RunExecutesNoSignatureTwice(env, Start(userInfo, combinedHistory), replies);
  }

  /** A tool call repeating an executed signature runs no tool and makes no
      further model call: the loop ends on its sentinel after the one call
      that produced the repeat. */
  lemma RepeatedSignatureEndsUnfinished(env: Env, st: LoopState, replies: seq<Reply>)
    requires st.emailState != Finished && st.callState != Some(SuccessMarker) && PassStart(env, st).Success?
    requires var reply := ReplyAt(replies, |st.prompts|);
             reply.ToolCall? && reply.arguments.Success? && reply.arguments.value.ObjectArgs?
             && (reply.name, AsMap(reply.arguments.value.items)) in st.callHistory
    ensures Run(env, st, replies) == RunResult(Unfinished, st.callHistory, st.prompts + [PassStart(env, st).value.1])
    ensures OutcomeText(Run(env, st, replies).outcome) == Some(UnfinishedText)
  {
    StepActs(env, st, replies);
    var next := Step(env, st, replies).state;
    assert next.emailState == Finished && next.callHistory == st.callHistory;
    assert next.prompts == st.prompts + [PassStart(env, st).value.1];
    assert Run(env, st, replies) == Run(env, next, replies);
  }

  /** Arguments that decode to JSON other than an object fail the call
      without running it, and the next pass ends the loop: building the
      failure section calls `.items()` on them again, and the loop returns
      "Error in while loop: " with that exception's text. Only the one
      prompt of the failing pass was sent. */
  lemma NonObjectArgumentsEndLoop(env: Env, st: LoopState, replies: seq<Reply>)
    requires st.emailState != Finished && st.callState != Some(SuccessMarker) && PassStart(env, st).Success?
    requires var reply := ReplyAt(replies, |st.prompts|);
             reply.ToolCall? && reply.arguments.Success? && reply.arguments.value.OtherArgs?
    ensures var r := Run(env, st, replies);
            var error := ReplyAt(replies, |st.prompts|).arguments.value.itemsError;
            && r.outcome == LoopFailure(error)
            && OutcomeText(r.outcome) == Some(LoopFailurePrefix + error)
            && r.executed == st.callHistory
            && r.prompts == st.prompts + [PassStart(env, st).value.1]
  {
    var reply := ReplyAt(replies, |st.prompts|);
    var error := reply.arguments.value.itemsError;
    StepActs(env, st, replies);
    var pass := Step(env, st, replies);
    assert pass.Again?;
    var next := pass.state;
    assert next.callState == Some(FailureMarker) && next.callHistory == st.callHistory;
    assert next.functionArgs == Some(OtherArgs(error)) && next.emailState != Finished;
    assert next.prompts == st.prompts + [PassStart(env, st).value.1];
    assert SectionError(next) == Some(error);
    RunUnrolled(env, st, replies);
    SectionErrorEndsRun(env, next, replies);
  }

  /** A pass that starts after a failed call whose section cannot be built
      ends the loop with that error, sending no prompt and running no tool. */
  lemma SectionErrorEndsRun(env: Env, st: LoopState, replies: seq<Reply>)
    requires st.emailState != Finished && st.callState == Some(FailureMarker) && SectionError(st).Some?
    ensures Run(env, st, replies) == RunResult(LoopFailure(SectionError(st).value), st.callHistory, st.prompts)
  {
    var error := SectionError(st).value;
    assert PassStart(env, st) == Failure(error);
    assert Step(env, st, replies) == Done(LoopFailure(error), st.prompts);
    RunUnrolled(env, st, replies);
  }

  /** A first reply whose arguments are not JSON leaves `function_args`
      unassigned, so the second pass ends the loop: building the failure
      section reads `function_args` and raises `UnboundLocalError`. Only the
      first prompt was sent and no tool ran. */
  lemma UndecodableFirstArgumentsEndLoop(env: Env, userInfo: Option<string>, combinedHistory: string, replies: seq<Reply>)
    requires |replies| > 0 && replies[0].ToolCall? && replies[0].arguments.Failure?
    ensures var st := Start(userInfo, combinedHistory);
            var r := Run(env, st, replies);
            && r.outcome == LoopFailure(UnboundLocalText("function_args"))
            && OutcomeText(r.outcome) == Some(LoopFailurePrefix + UnboundLocalText("function_args"))
            && r.executed == []
            && |r.prompts| == 1
  {
    var st := Start(userInfo, combinedHistory);
    assert PassStart(env, st).Success?;
    assert ReplyAt(replies, |st.prompts|) == replies[0];
    StepActs(env, st, replies);
    var pass := Step(env, st, replies);
    assert pass.Again?;
    var next := pass.state;
    assert next.callState == Some(FailureMarker) && next.callHistory == [];
    assert next.functionName.Some? && next.functionArgs.None? && next.emailState != Finished;
    assert |next.prompts| == 1;
    var error := UnboundLocalText("function_args");
    assert SectionError(next) == Some(error);
    RunUnrolled(env, st, replies);
    SectionErrorEndsRun(env, next, replies);
  }

  /** A model reply that is not a function call ends the loop at once: a
      failed call with the error, content with that content, and an empty
      reply (or empty content) with the no-valid-reply warning. No tool runs
      and exactly one prompt is sent. */
  lemma ReplyWithoutToolCallEndsLoop(env: Env, st: LoopState, replies: seq<Reply>)
    requires st.emailState != Finished && PassStart(env, st).Success?
    requires !ReplyAt(replies, |st.prompts|).ToolCall?
    ensures var r := Run(env, st, replies);
            var reply := ReplyAt(replies, |st.prompts|);
            && r.executed == st.callHistory
            && r.prompts == st.prompts + [PassStart(env, st).value.1]
            && (reply.Fail? ==> r.outcome == ModelError(reply.error))
            && (reply.Content? && reply.text != "" ==> r.outcome == Replied(reply.text))
            && (reply.Empty? || reply == Content("") ==> r.outcome == NoValidReply)
  {
    StepActs(env, st, replies);
  }

  /** After a pass that executed a tool, the next pass is marked finished
      when the tool succeeded; the loop then makes one or two more model
      calls and runs no further tool. If the model asks for a tool again,
      exactly one tool-free completion follows and its content (or its
      error) is the outcome. */
  lemma AfterSuccessLoopEnds(env: Env, st: LoopState, replies: seq<Reply>)
    requires st.emailState != Finished
    requires Step(env, st, replies).Again?
    requires var next := Step(env, st, replies).state;
             next.callState == Some(SuccessMarker) && next.callHistory != st.callHistory
    ensures var next := Step(env, st, replies).state;
            var r := Run(env, next, replies);
            var reply := ReplyAt(replies, |next.prompts|);
            var fallback := ReplyAt(replies, |next.prompts| + 1);
            && r.executed == next.callHistory
            && (!reply.ToolCall? ==> |r.prompts| == |next.prompts| + 1)
            && (reply.ToolCall? ==>
                  && |r.prompts| == |next.prompts| + 2
                  && (fallback.Fail? ==> r.outcome == FallbackError(fallback.error))
                  && (fallback.Content? ==> r.outcome == FallbackReplied(Some(fallback.text)))
                  && (!fallback.Fail? && !fallback.Content? ==> r.outcome == FallbackReplied(None)))
  {
    StepActs(env, st, replies);
    var next := Step(env, st, replies).state;
    assert next.emailState != Finished && next.functionName.Some? && next.functionArgs.Some?;
    assert next.functionArgs.value.ObjectArgs?;
    var start := PassStart(env, next);
    assert start.Success? && start.value.0.emailState == Finished;
    StepActs(env, next, replies);
    var pass := Step(env, next, replies);
    assert pass.Done?;
    assert Run(env, next, replies) == RunResult(pass.outcome, next.callHistory, pass.prompts);
  }
}
