/**
  * The reply-generation loop of the email agent (src/utils/email_agent_v4.py,
  * `_generate_response` and `execute_function_call`). The loop is a state
  * machine over `email_state`, `function_call_state` and the history of
  * `(function name, sorted arguments)` signatures already executed. The
  * language model is a sequence of replies, consumed one per model call; the
  * token counter, the summariser and the two service-backed tools are
  * functions passed in.
  */
module Generation {
  import opened Wrappers
  import opened Strings
  import opened EmailTools
  import SystemPrompt
  import Memory

  // ---------------------------------------------------------------------------
  // Tool dispatch
  // ---------------------------------------------------------------------------

  /** The decoded argument object as `function_args.items()` lists it: its
      keys in insertion order, each with its value. */
  type ArgList = seq<(string, Arg)>

  /** The argument object as a dictionary. */
  function AsMap(args: ArgList): map<string, Arg>
    decreases |args|
  {
    if |args| == 0 then map[]
    else AsMap(args[..|args| - 1])[args[|args| - 1].0 := args[|args| - 1].1]
  }

  /** The two tools backed by services outside the model: each gives the
      tool's own `(status, message)` pair, or the text of the exception it raises. */
  datatype Services = Services(
    searchVectorDb: map<string, Arg> -> Result<(string, string), string>,
    addUserInfo: map<string, Arg> -> Result<(string, string), string>)

  const SearchVectorDbName := "search_vector_db"
  const AddUserInfoName := "add_user_info_to_database"
  const WriteEmailName := "write_email_tool"
  const ScheduleMeetingName := "schedule_meeting_tool"
  const CheckCalendarName := "check_calendar_availability_tool"

  /** The parameters after `self` of the three stub tools, in declaration order. */
  const WriteEmailParams := ["to", "subject", "content"]
  const ScheduleMeetingParams := ["attendees", "subject", "duration_minutes", "preferred_day"]
  const CheckCalendarParams := ["day"]

  /** Whether `**args` binds exactly the parameters `params` of a tool that has
      no defaults and no `**kwargs`: otherwise Python raises TypeError. */
  predicate Binds(args: map<string, Arg>, params: seq<string>) {
    (forall k :: k in args ==> k in params) && (forall k :: k in params ==> k in args)
  }

  /** The keys of the dictionary are the keys of the list. */
  lemma {:induction false} AsMapKeys(args: ArgList)
    ensures forall k :: k in AsMap(args) <==> exists i :: 0 <= i < |args| && args[i].0 == k
    decreases |args|
  {
    if |args| > 0 {
      var init := args[..|args| - 1];
      AsMapKeys(init);
      forall k
        ensures k in AsMap(args) <==> exists i :: 0 <= i < |args| && args[i].0 == k
      {
        if k in AsMap(init) {
          var i :| 0 <= i < |init| && init[i].0 == k;
          assert args[i].0 == k;
        }
        if exists i :: 0 <= i < |args| && args[i].0 == k {
          var i :| 0 <= i < |args| && args[i].0 == k;
          if i < |init| {
            assert init[i].0 == k;
          }
        }
      }
    }
  }

  /** The position of the first key that is not one of `params`, if any: the
      keyword CPython stops at when it binds the keywords in order. */
  function FirstStray(args: ArgList, params: seq<string>): (r: Option<nat>)
    ensures r.None? <==> forall i :: 0 <= i < |args| ==> args[i].0 in params
    ensures r.Some? ==> r.value < |args| && args[r.value].0 !in params
                        && forall j :: 0 <= j < r.value ==> args[j].0 in params
    decreases |args|
  {
    if |args| == 0 then None
    else if args[0].0 !in params then Some(0)
    else
      match FirstStray(args[1..], params)
      case None => None
      case Some(i) => Some(i + 1)
  }

  /** The parameters, in order, that no key binds. */
  function Missing(params: seq<string>, args: map<string, Arg>): (r: seq<string>)
    ensures forall p :: p in r <==> p in params && p !in args
    decreases |params|
  {
    if |params| == 0 then []
    else (if params[0] in args then [] else [params[0]]) + Missing(params[1..], args)
  }

  /** The names of CPython's missing-argument message, each as its `repr`:
      `'a'`, `'a' and 'b'`, or `'a', 'b', and 'c'`. */
  function NameList(names: seq<string>): string {
    if |names| == 0 then ""
    else if |names| == 1 then Repr(names[0])
    else if |names| == 2 then Repr(names[0]) + " and " + Repr(names[1])
    else Join(Quoted(names[..|names| - 1]), ", ") + ", and " + Repr(names[|names| - 1])
  }

  /** `__qualname__` of a tool method, which CPython 3.10 and later name in a
      binding error. */
  function QualName(tool: string): string {
    "EmailTools." + tool + "()"
  }

  function UnexpectedKeyword(tool: string, key: string): string {
    QualName(tool) + " got an unexpected keyword argument '" + key + "'"
  }

  /** A `self` key collides with the bound instance. */
  function MultipleValues(tool: string, key: string): string {
    QualName(tool) + " got multiple values for argument '" + key + "'"
  }

  function MissingArguments(tool: string, names: seq<string>): string {
    QualName(tool) + " missing " + NatToString(|names|) + " required positional argument"
    + (if |names| == 1 then "" else "s") + ": " + NameList(names)
  }

  /** The TypeError text of `self.email_tools.<tool>(**args)` when the keys
      do not bind the parameters `params`: the first key that is not a
      parameter stops the binding; otherwise the parameters left unbound are
      listed in order. */
  function BindingError(tool: string, params: seq<string>, args: ArgList): (r: Option<string>)
    ensures r.None? <==> Binds(AsMap(args), params)
    ensures forall i :: 0 <= i < |args| && args[i].0 !in params && (forall j :: 0 <= j < i ==> args[j].0 in params) ==>
              r == Some(if args[i].0 == "self" then MultipleValues(tool, args[i].0) else UnexpectedKeyword(tool, args[i].0))
    ensures (forall i :: 0 <= i < |args| ==> args[i].0 in params) && !Binds(AsMap(args), params) ==>
              r == Some(MissingArguments(tool, Missing(params, AsMap(args))))
  {
    AsMapKeys(args);
    match FirstStray(args, params)
    case Some(i) =>
      assert forall i' :: 0 <= i' < |args| && args[i'].0 !in params && (forall j :: 0 <= j < i' ==> args[j].0 in params) ==> i' == i;
      Some(if args[i].0 == "self" then MultipleValues(tool, args[i].0) else UnexpectedKeyword(tool, args[i].0))
    case None =>
      var missing := Missing(params, AsMap(args));
      if |missing| == 0 then
        assert Binds(AsMap(args), params) by {
          forall k
            ensures k in AsMap(args) <==> k in params
          {
            if k in params {
              assert k !in missing;
            }
          }
        }
        None
      else
        assert missing[0] in missing;
        Some(MissingArguments(tool, missing))
  }

  /** `execute_function_call(function_name, function_args)`: dispatches to the
      named tool and turns every exception into the failure marker with a
      message; an unknown name fails with "Unknown function: <name>". */
  function ExecuteFunctionCall(name: string, args: ArgList, services: Services): (r: (string, string))
    ensures name !in {SearchVectorDbName, AddUserInfoName, WriteEmailName, ScheduleMeetingName, CheckCalendarName} ==>
              r == (FailureMarker, "Unknown function: " + name)
    ensures name == SearchVectorDbName ==>
              r == match services.searchVectorDb(AsMap(args))
                   case Success(pair) => pair
                   case Failure(e) => (FailureMarker, "Error searching VectorDB: " + e)
    ensures name == AddUserInfoName ==>
              r == match services.addUserInfo(AsMap(args))
                   case Success(pair) => pair
                   case Failure(e) => (FailureMarker, "Error updating user info: " + e)
    ensures name == WriteEmailName ==>
              r == match BindingError(name, WriteEmailParams, args)
                   case Some(e) => (FailureMarker, "Error writing email: " + e)
                   case None => WriteEmailTool(AsMap(args)["to"], AsMap(args)["subject"], AsMap(args)["content"])
    ensures name == ScheduleMeetingName ==>
              r == match BindingError(name, ScheduleMeetingParams, args)
                   case Some(e) => (FailureMarker, "Error scheduling meeting: " + e)
                   case None =>
                     match ScheduleMeetingTool(AsMap(args)["attendees"], AsMap(args)["subject"],
                                               AsMap(args)["duration_minutes"], AsMap(args)["preferred_day"])
                     case Success(pair) => pair
                     case Failure(e) => (FailureMarker, "Error scheduling meeting: " + e)
    ensures name == CheckCalendarName ==>
              r == match BindingError(name, CheckCalendarParams, args)
                   case Some(e) => (FailureMarker, "Error checking calendar: " + e)
                   case None => CheckCalendarAvailabilityTool(AsMap(args)["day"])
  {
    var m := AsMap(args);
    if name == SearchVectorDbName then
      match services.searchVectorDb(m)
      case Success(pair) => pair
      case Failure(e) => (FailureMarker, "Error searching VectorDB: " + e)
    else if name == AddUserInfoName then
      match services.addUserInfo(m)
      case Success(pair) => pair
      case Failure(e) => (FailureMarker, "Error updating user info: " + e)
    else if name == WriteEmailName then
      match BindingError(name, WriteEmailParams, args)
      case Some(e) => (FailureMarker, "Error writing email: " + e)
      case None => WriteEmailTool(m["to"], m["subject"], m["content"])
    else if name == ScheduleMeetingName then
      match BindingError(name, ScheduleMeetingParams, args)
      case Some(e) => (FailureMarker, "Error scheduling meeting: " + e)
      case None =>
        match ScheduleMeetingTool(m["attendees"], m["subject"], m["duration_minutes"], m["preferred_day"])
        case Success(pair) => pair
        case Failure(e) => (FailureMarker, "Error scheduling meeting: " + e)
    else if name == CheckCalendarName then
      match BindingError(name, CheckCalendarParams, args)
      case Some(e) => (FailureMarker, "Error checking calendar: " + e)
      case None => CheckCalendarAvailabilityTool(m["day"])
    else (FailureMarker, "Unknown function: " + name)
  }

  /** The three stub tools report failure exactly when Python would raise:
      a bad keyword binding, or attendees without a length. */
  lemma StubToolsFailOnlyOnBadArguments(name: string, args: ArgList, services: Services)
    requires name in {WriteEmailName, ScheduleMeetingName, CheckCalendarName}
    ensures var r := ExecuteFunctionCall(name, args, services);
            && (r.0 == SuccessMarker || r.0 == FailureMarker)
            && (r.0 == FailureMarker <==>
                 (name == WriteEmailName && !Binds(AsMap(args), WriteEmailParams))
                 || (name == CheckCalendarName && !Binds(AsMap(args), CheckCalendarParams))
                 || (name == ScheduleMeetingName &&
                      (!Binds(AsMap(args), ScheduleMeetingParams)
                       || Len(AsMap(args)["attendees"]).None?)))
  {
    var r := ExecuteFunctionCall(name, args, services);
    var m := AsMap(args);
    assert |SuccessMarker| != |FailureMarker|;
    if name == ScheduleMeetingName && Binds(m, ScheduleMeetingParams) {
      assert "attendees" in m;
      NoToolReportsFailure(m["attendees"], m["subject"], m["duration_minutes"], m["preferred_day"]);
    }
  }

  // ---------------------------------------------------------------------------
  // Loop state and sections
  // ---------------------------------------------------------------------------

  /** What `json.loads` made of a function call's arguments: an object, or
      another JSON value (a list, a number, a string...) on which `.items()`
      raises with the text `itemsError`. */
  datatype DecodedArgs = ObjectArgs(items: ArgList) | OtherArgs(itemsError: string)

  /** One reply of the model: text content, a function call with its decoded
      arguments (or the decoder's message when they are not JSON), neither,
      or a failed API call with its error text. */
  datatype Reply =
    | Content(text: string)
    | ToolCall(name: string, arguments: Result<DecodedArgs, string>)
    | Empty
    | Fail(error: string)

  /** `(function_name, str(sorted(function_args.items())))`: two signatures are
      equal exactly when the names and the argument dictionaries are. */
  type Signature = (string, map<string, Arg>)

  /** `email_state`. */
  datatype EmailState = Thinking | Finished

  /** How a call to `_generate_response`'s loop ends. */
  datatype Outcome =
    | Replied(text: string)                 // the model answered with content
    | FallbackReplied(content: Option<string>)  // the tool-free completion after a finished pass
    | ModelError(error: string)             // the model call raised
    | FallbackError(error: string)          // the tool-free completion raised
    | NoValidReply                          // neither content nor a function call
    | LoopFailure(error: string)            // building the section raised: unbound or non-object arguments
    | Unfinished                            // the loop exited without a reply

  const ModelErrorPrefix := "Error: Failed to generate response. "
  const FallbackErrorPrefix := "Error: Failed to generate fallback response. "
  const NoValidReplyText := "Warning: No valid assistant response. Please try again."
  const LoopFailurePrefix := "Error in while loop: "
  const UnfinishedText := "Error: Response generation completed without generating a response. Please try again."

  /** What `_generate_response` returns for an outcome (`None` for a tool-free
      completion without content). */
  function OutcomeText(o: Outcome): (r: Option<string>)
    ensures o.Replied? ==> r == Some(o.text)
    ensures o.FallbackReplied? ==> r == o.content
    ensures o.ModelError? ==> r == Some(ModelErrorPrefix + o.error)
    ensures o.FallbackError? ==> r == Some(FallbackErrorPrefix + o.error)
    ensures o.NoValidReply? ==> r == Some(NoValidReplyText)
    ensures o.LoopFailure? ==> r == Some(LoopFailurePrefix + o.error)
    ensures o.Unfinished? ==> r == Some(UnfinishedText)
  {
    match o
    case Replied(text) => Some(text)
    case FallbackReplied(content) => content
    case ModelError(error) => Some("Error: Failed to generate response. " + error)
    case FallbackError(error) => Some("Error: Failed to generate fallback response. " + error)
    case NoValidReply => Some("Warning: No valid assistant response. Please try again.")
    case LoopFailure(error) => Some("Error in while loop: " + error)
    case Unfinished => Some("Error: Response generation completed without generating a response. Please try again.")
  }

  /** One argument's line, `f"  - {k}: {v}\n"`. */
  function ArgLine(arg: (string, Arg)): string {
    "  - " + arg.0 + ": " + Render(arg.1) + "\n"
  }

  /** `"".join(f"  - {k}: {v}\n" for k, v in function_args.items())`: empty
      exactly when there are no arguments. */
  function ArgLines(args: ArgList): (r: string)
    ensures r == "" <==> |args| == 0
    decreases |args|
  {
    if |args| == 0 then "" else ArgLine(args[0]) + ArgLines(args[1..])
  }

  /** Argument `k`'s line sits right after the lines of the arguments before
      it: every argument is listed, in the order of the object. */
  lemma {:induction false} ArgLinesListEachArg(args: ArgList, k: nat)
    requires k < |args|
    ensures OccursAt(ArgLines(args), ArgLine(args[k]), |ArgLines(args[..k])|)
    decreases k
  {
    var first := ArgLine(args[0]);
    var rest := ArgLines(args[1..]);
    assert ArgLines(args) == first + rest;
    if k == 0 {
      assert args[..0] == [];
      assert (first + rest)[0..|first|] == first;
    } else {
      ArgLinesListEachArg(args[1..], k - 1);
      assert args[..k][1..] == args[1..][..k - 1];
      assert ArgLines(args[..k]) == first + ArgLines(args[1..][..k - 1]);
      var at := |ArgLines(args[1..][..k - 1])|;
      var line := ArgLine(args[k]);
      assert args[1..][k - 1] == args[k];
      assert rest[at..at + |line|] == line;
      assert (first + rest)[|first| + at..|first| + at + |line|] == rest[at..at + |line|];
    }
  }

  const SuccessLead := "## Function Call Executed\n\n- The assistant just called the function `"
  const SuccessMid := "` in response to the email.\n- Arguments provided:\n"
  const FailedLead := "## Function Call Attempted\n\n- The assistant attempted to call `"
  const FailedMid := "` with the following arguments:\n"
  const FailedTail := "\n\nPlease assist based on this result."
  const SuccessOutcome := "- Outcome: \U{2705} "
  const ProceedText := "\n\nPlease proceed with the email response using the new context.\n\n"
  const FailedOutcome := "- Outcome: \U{274C} "

  /** The section shown to the model after a successful call: it names the
      function, lists the arguments and ends with the call's result. */
  function SuccessSection(name: string, args: ArgList, state: string, result: string): (r: string)
    ensures OccursAt(r, SuccessLead + name + SuccessMid, 0)
    ensures OccursAt(r, ArgLines(args), |SuccessLead + name + SuccessMid|)
    ensures |r| >= |result| && OccursAt(r, result, |r| - |result|)
  {
    var head := SuccessLead + name + SuccessMid;
    var before := SuccessOutcome + state + ProceedText;
    Framed(head, ArgLines(args), before, result);
    head + ArgLines(args) + (before + result)
  }

  /** The section shown to the model after a failed call: it names the
      function, lists the arguments and ends with the state, the result and
      the request to assist. */
  function FailedSection(name: string, args: ArgList, state: string, result: string): (r: string)
    ensures OccursAt(r, FailedLead + name + FailedMid, 0)
    ensures OccursAt(r, ArgLines(args), |FailedLead + name + FailedMid|)
    ensures var tail := state + " - " + result + FailedTail;
            |r| >= |tail| && OccursAt(r, tail, |r| - |tail|)
  {
    var head := FailedLead + name + FailedMid;
    var tail := state + " - " + result + FailedTail;
    Framed(head, ArgLines(args), FailedOutcome, tail);
    head + ArgLines(args) + (FailedOutcome + tail)
  }

  const LoopIndent := "                                "
  const LoopLead := "# Function Call Loop Detected.\n\n" + LoopIndent + "The function `"
  const LoopTail := "` was called repeatedly with the same arguments.\n" + LoopIndent
                    + "Please conclude the email response based on the available information."

  /** The section written when a repeated call is detected: it names the
      function and asks the model to conclude. */
  function LoopSection(name: string): (r: string)
    ensures OccursAt(r, name, |LoopLead|)
    ensures |r| >= |LoopTail| && OccursAt(r, LoopTail, |r| - |LoopTail|)
  {
    Placed(LoopLead, name, LoopTail);
    LoopLead + name + LoopTail
  }

  /** `getattr(self.cfg, 'max_prompt_tokens', 12000)`. */
  const MaxPromptTokens: nat := 12000

  /** What the loop reads but never changes: the stored summary, the agent
      instructions, the user information after a refresh (`None` where the
      refresh raises), the user message, the deduplicated memory, the
      configured `max_tokens`, the prompt template and the oracles. */
  datatype Env = Env(
    template: SystemPrompt.Template,
    previousSummary: Option<string>,
    agentInstructions: Option<string>,
    refreshedUserInfo: Option<string>,
    userMessage: string,
    vectorMemory: string,
    maxTokens: int,
    countTokens: string -> Option<nat>,
    summarize: string -> Option<string>,
    services: Services)

  /** The loop's variables. `functionName`/`functionArgs` are `None` while
      unbound; `prompts` are the system prompts sent to the model so far, one
      per model call. */
  datatype LoopState = LoopState(
    emailState: EmailState,
    callState: Option<string>,
    functionName: Option<string>,
    functionArgs: Option<DecodedArgs>,
    callResult: string,
    section: string,
    callHistory: seq<Signature>,
    combinedHistory: string,
    userInfo: Option<string>,
    prompts: seq<string>)

  /** The state before the first pass. */
  function Start(userInfo: Option<string>, combinedHistory: string): LoopState {
    LoopState(Thinking, None, None, None, "", "", [], combinedHistory, userInfo, [])
  }

  /** The system prompt for the current pass, with `memory` as the VectorDB memory. */
  function PromptWith(env: Env, userInfo: Option<string>, combinedHistory: string, section: string, memory: Option<string>): string {
    SystemPrompt.FillTemplate(env.template, userInfo, env.previousSummary, Some(combinedHistory), section, env.agentInstructions, memory)
  }

  /** `filtered_vectordb_memory if filtered_vectordb_memory else None`. */
  function MemoryArgument(memory: string): Option<string> {
    if memory != "" then Some(memory) else None
  }

  /** The prompt guard fires when the prompt and the user message together
      count more than `MaxPromptTokens` tokens and the history alone more
      than 60% of that; a counter failure keeps it from firing. */
  predicate GuardFires(env: Env, prompt: string, combinedHistory: string) {
    var total := env.countTokens(prompt + env.userMessage);
    var historyTokens := env.countTokens(combinedHistory);
    && total.Some? && total.value > MaxPromptTokens
    && historyTokens.Some? && historyTokens.value as real > MaxPromptTokens as real * 0.6
  }

  /** The prompt of one pass and the history after it: when the guard fires,
      the history is summarised and the prompt rebuilt without the VectorDB
      memory. */
  function GuardedPrompt(env: Env, userInfo: Option<string>, combinedHistory: string, section: string): (r: (string, string))
    ensures var prompt := PromptWith(env, userInfo, combinedHistory, section, MemoryArgument(env.vectorMemory));
            && (!GuardFires(env, prompt, combinedHistory) ==> r == (prompt, combinedHistory))
            && (GuardFires(env, prompt, combinedHistory) ==>
                  r.1 == Memory.SummarizeMemory(combinedHistory, env.maxTokens, env.summarize)
                  && r.0 == PromptWith(env, userInfo, r.1, section, Some("")))
  {
    var prompt := PromptWith(env, userInfo, combinedHistory, section, MemoryArgument(env.vectorMemory));
    if GuardFires(env, prompt, combinedHistory) then
      var shorter := Memory.SummarizeMemory(combinedHistory, env.maxTokens, env.summarize);
      (PromptWith(env, userInfo, shorter, section, Some("")), shorter)
    else (prompt, combinedHistory)
  }

  /** The reply of the `i`-th model call; past the end of the sequence every
      call fails. */
  function ReplyAt(replies: seq<Reply>, i: nat): (r: Reply)
    ensures r.ToolCall? ==> i < |replies|
  {
    if i < |replies| then replies[i] else Fail("no reply")
  }

  /** The result of one pass: the loop ends with an outcome, having sent the
      prompts `prompts` in all, or goes on from a new state. */
  datatype Pass = Done(outcome: Outcome, prompts: seq<string>) | Again(state: LoopState)

  /** The text of the `UnboundLocalError` Python 3.11 and later raise when
      the local variable `name` is read before any assignment. */
  function UnboundLocalText(name: string): string {
    "cannot access local variable '" + name + "' where it is not associated with a value"
  }

  /** The exception building a call section raises, if any: `function_name`
      or `function_args` read before the loop assigned it, or `.items()` on
      arguments that are not an object. The name is read first. */
  function SectionError(st: LoopState): (r: Option<string>)
    ensures r.None? <==> st.functionName.Some? && st.functionArgs.Some? && st.functionArgs.value.ObjectArgs?
    ensures st.functionName.None? ==> r == Some(UnboundLocalText("function_name"))
    ensures st.functionName.Some? && st.functionArgs.None? ==> r == Some(UnboundLocalText("function_args"))
    ensures st.functionName.Some? && st.functionArgs.Some? && st.functionArgs.value.OtherArgs? ==>
              r == Some(st.functionArgs.value.itemsError)
  {
    if st.functionName.None? then Some(UnboundLocalText("function_name"))
    else if st.functionArgs.None? then Some(UnboundLocalText("function_args"))
    else if st.functionArgs.value.OtherArgs? then Some(st.functionArgs.value.itemsError)
    else None
  }

  /** The head of a pass: the user information and section it uses, after
      the previous call's state has been acted upon, or the exception that
      building the section raises. */
  function PassHead(env: Env, st: LoopState): Result<(EmailState, Option<string>, string), string> {
    if st.callState != Some(SuccessMarker) && st.callState != Some(FailureMarker) then
      Success((st.emailState, st.userInfo, st.section))
    else if SectionError(st).Some? then Failure(SectionError(st).value)
    else if st.callState == Some(SuccessMarker) then
      var info := if st.functionName.value == AddUserInfoName && env.refreshedUserInfo.Some? then env.refreshedUserInfo else st.userInfo;
      Success((Finished, info, SuccessSection(st.functionName.value, st.functionArgs.value.items, st.callState.value, st.callResult)))
    else
      Success((st.emailState, st.userInfo, FailedSection(st.functionName.value, st.functionArgs.value.items, st.callState.value, st.callResult)))
  }

  /** The first half of a pass: the state once the previous call's result
      has been acted upon and the prompt built, with that prompt recorded as
      sent, together with the prompt; or the exception the loop body raises
      before any model call. */
  function PassStart(env: Env, st: LoopState): (r: Result<(LoopState, string), string>)
    ensures r.Failure? <==> (st.callState == Some(SuccessMarker) || st.callState == Some(FailureMarker))
                            && SectionError(st).Some?
    ensures r.Failure? ==> r.error == SectionError(st).value
    ensures r.Success? ==> r.value.0.prompts == st.prompts + [r.value.1] && r.value.0.callHistory == st.callHistory
    ensures r.Success? ==> (r.value.0.emailState == Finished <==> st.emailState == Finished || st.callState == Some(SuccessMarker))
  {
    match PassHead(env, st)
    case Failure(e) => Failure(e)
    case Success((emailState, userInfo, section)) =>
      var (prompt, combined) := GuardedPrompt(env, userInfo, st.combinedHistory, section);
      Success((st.(emailState := emailState, userInfo := userInfo, section := section, combinedHistory := combined,
                   prompts := st.prompts + [prompt]), prompt))
  }

  /** The second half of a pass: acting on the model's `reply` (and, after a
      finished pass, on the tool-free completion `fallback`). `mid` is the
      state after `PassStart`, `prompt` the prompt sent. */
  function Act(mid: LoopState, prompt: string, reply: Reply, fallback: Reply, services: Services): (p: Pass)
    ensures p.Again? ==> reply.ToolCall? && mid.emailState != Finished && p.state.prompts == mid.prompts
    ensures p.Done? ==> p.prompts == mid.prompts || p.prompts == mid.prompts + [prompt]
    // a reply without a function call ends the loop with one model call
    ensures !reply.ToolCall? ==> p.Done? && p.prompts == mid.prompts
    ensures reply.Fail? ==> p.outcome == ModelError(reply.error)
    ensures reply.Content? && reply.text != "" ==> p.outcome == Replied(reply.text)
    ensures reply.Empty? || reply == Content("") ==> p.outcome == NoValidReply
    // a function call after a finished pass: exactly one tool-free completion
    ensures reply.ToolCall? && mid.emailState == Finished ==>
              && p.Done? && p.prompts == mid.prompts + [prompt]
              && (fallback.Fail? ==> p.outcome == FallbackError(fallback.error))
              && (fallback.Content? ==> p.outcome == FallbackReplied(Some(fallback.text)))
              && (!fallback.Fail? && !fallback.Content? ==> p.outcome == FallbackReplied(None))
    // arguments that are not JSON, or not an object, fail the call without running it
    ensures reply.ToolCall? && mid.emailState != Finished && reply.arguments.Failure? ==>
              p.Again? && p.state.callState == Some(FailureMarker) && p.state.callHistory == mid.callHistory
              && p.state.callResult == "Invalid function arguments: " + reply.arguments.error
    ensures reply.ToolCall? && mid.emailState != Finished && reply.arguments.Success? && reply.arguments.value.OtherArgs? ==>
              p.Again? && p.state.callState == Some(FailureMarker) && p.state.callHistory == mid.callHistory
              && p.state.callResult == reply.arguments.value.itemsError && p.state.functionArgs == Some(reply.arguments.value)
    // a repeated signature runs nothing and finishes the loop
    ensures reply.ToolCall? && reply.arguments.Success? && reply.arguments.value.ObjectArgs? && mid.emailState != Finished
            && (reply.name, AsMap(reply.arguments.value.items)) in mid.callHistory ==>
              p.Again? && p.state.emailState == Finished && p.state.callHistory == mid.callHistory
    // otherwise a call is executed at most once and recorded
    ensures p.Again? ==>
              || p.state.callHistory == mid.callHistory
              || (&& reply.arguments.Success? && reply.arguments.value.ObjectArgs?
                  && (reply.name, AsMap(reply.arguments.value.items)) !in mid.callHistory
                  && p.state.callHistory == mid.callHistory + [(reply.name, AsMap(reply.arguments.value.items))]
                  && p.state.emailState != Finished
                  && p.state.functionName.Some? && p.state.functionArgs.Some? && p.state.functionArgs.value.ObjectArgs?)
  {
    match reply
    case Fail(e) => Done(ModelError(e), mid.prompts)
    case Empty => Done(NoValidReply, mid.prompts)
    case Content(text) => if text != "" then Done(Replied(text), mid.prompts) else Done(NoValidReply, mid.prompts)
    case ToolCall(name, arguments) =>
      if mid.emailState == Finished then
        match fallback
        case Fail(e) => Done(FallbackError(e), mid.prompts + [prompt])
        case Content(text) => Done(FallbackReplied(Some(text)), mid.prompts + [prompt])
        case _ => Done(FallbackReplied(None), mid.prompts + [prompt])
      else
        var next := mid.(functionName := Some(name));
        match arguments
        case Failure(e) => Again(next.(callState := Some(FailureMarker), callResult := "Invalid function arguments: " + e))
        case Success(OtherArgs(e)) =>
          Again(next.(functionArgs := Some(OtherArgs(e)), callState := Some(FailureMarker), callResult := e))
        case Success(ObjectArgs(args)) =>
          var signature := (name, AsMap(args));
          if signature in mid.callHistory then
            Again(next.(functionArgs := Some(ObjectArgs(args)), section := LoopSection(name), emailState := Finished))
          else
            var (state, result) := ExecuteFunctionCall(name, args, services);
            Again(next.(functionArgs := Some(ObjectArgs(args)), callHistory := mid.callHistory + [signature],
                        callState := Some(state), callResult := result))
  }

  /** One pass of the `while email_state != "finished"` loop: the model's
      reply is the next one in `replies`, and a tool-free completion takes
      the one after it. */
  function Step(env: Env, st: LoopState, replies: seq<Reply>): (p: Pass)
    ensures p.Again? ==> |st.prompts| < |replies| && |p.state.prompts| == |st.prompts| + 1
    ensures p.Again? ==> st.prompts <= p.state.prompts && st.callHistory <= p.state.callHistory
    ensures p.Done? ==> |st.prompts| <= |p.prompts| <= |st.prompts| + 2 && st.prompts <= p.prompts
  {
    var start := PassStart(env, st);
    if start.Failure? then Done(LoopFailure(start.error), st.prompts)
    else
      var reply := ReplyAt(replies, |st.prompts|);
      var p := Act(start.value.0, start.value.1, reply, ReplyAt(replies, |st.prompts| + 1), env.services);
      assert p.Again? ==> reply.ToolCall?;
      p
  }

  /** How the loop ends: the outcome, the signatures executed (in order) and
      the prompts sent to the model (one per model call). */
  datatype RunResult = RunResult(outcome: Outcome, executed: seq<Signature>, prompts: seq<string>)

  /** The loop from state `st` on. It only appends: to the signatures
      executed and to the prompts sent, and it ends having sent at most two
      prompts past the replies it was given. */
  function Run(env: Env, st: LoopState, replies: seq<Reply>): (r: RunResult)
    ensures st.callHistory <= r.executed && st.prompts <= r.prompts
    ensures |st.prompts| <= |replies| ==> |r.prompts| <= |replies| + 2
    decreases |replies| - |st.prompts|
  {
    if st.emailState == Finished then RunResult(Unfinished, st.callHistory, st.prompts)
    else match Step(env, st, replies)
      case Done(outcome, prompts) => RunResult(outcome, st.callHistory, prompts)
      case Again(next) => Run(env, next, replies)
  }

  /** `Run` unrolled once: an ending pass reports the history as it stands,
      a continuing one hands over to the next state. */
  lemma RunUnrolled(env: Env, st: LoopState, replies: seq<Reply>)
    ensures st.emailState == Finished || Step(env, st, replies).Done? ==> Run(env, st, replies).executed == st.callHistory
    ensures st.emailState != Finished && Step(env, st, replies).Again? ==>
              Run(env, st, replies) == Run(env, Step(env, st, replies).state, replies)
  {
  }

  /** The pass of state `st` is `Act` on the reply at index `|st.prompts|`. */
  lemma StepActs(env: Env, st: LoopState, replies: seq<Reply>)
    requires PassStart(env, st).Success?
    ensures Step(env, st, replies)
            == Act(PassStart(env, st).value.0, PassStart(env, st).value.1, ReplyAt(replies, |st.prompts|),
                   ReplyAt(replies, |st.prompts| + 1), env.services)
  {
  }

  /** The first half of a pass of `_generate_response`'s loop: acts on the
      previous function call's state and builds the prompt. */
  method StartPass(env: Env, st: LoopState) returns (r: Result<(LoopState, string), string>)
    ensures r == PassStart(env, st)
  {
    var head := ActOnCallState(env, st);
    if head.Failure? {
      return Failure(head.error);
    }
    var (emailState, info, functionCallResultSection) := head.value;
    var systemPrompt, history := BuildPrompt(env, info, st.combinedHistory, functionCallResultSection);
    r := Success((st.(emailState := emailState, userInfo := info, section := functionCallResultSection,
                   combinedHistory := history, prompts := st.prompts + [systemPrompt]), systemPrompt));
  }

  /** The top of the loop body: the previous call's state read into
      `email_state`, the user information and the function-call section. */
  method ActOnCallState(env: Env, st: LoopState) returns (head: Result<(EmailState, Option<string>, string), string>)
    ensures head == PassHead(env, st)
  {
    var emailState := st.emailState;
    var functionCallResultSection := st.section;
    var info := st.userInfo;
    if st.callState == Some(SuccessMarker) || st.callState == Some(FailureMarker) {
      var error := SectionError(st);
      if error.Some? {
        return Failure(error.value);
      }
    }
    if st.callState == Some(SuccessMarker) {
      emailState := Finished;
      if st.functionName.value == AddUserInfoName && env.refreshedUserInfo.Some? {
        info := env.refreshedUserInfo;
      }
      functionCallResultSection :=
        SuccessSection(st.functionName.value, st.functionArgs.value.items, st.callState.value, st.callResult);
    } else if st.callState == Some(FailureMarker) {
      functionCallResultSection :=
        FailedSection(st.functionName.value, st.functionArgs.value.items, st.callState.value, st.callResult);
    }
    return Success((emailState, info, functionCallResultSection));
  }

  /** The prompt of a pass and the history it carries, after the token guard. */
  method BuildPrompt(env: Env, info: Option<string>, combinedHistory: string, section: string)
    returns (systemPrompt: string, history: string)
    ensures (systemPrompt, history) == GuardedPrompt(env, info, combinedHistory, section)
  {
    history := combinedHistory;
    systemPrompt := PromptWith(env, info, history, section, MemoryArgument(env.vectorMemory));
    if GuardFires(env, systemPrompt, history) {
      history := Memory.SummarizeMemory(history, env.maxTokens, env.summarize);
      systemPrompt := PromptWith(env, info, history, section, Some(""));
    }
  }

  /** The second half of a pass: calls the model (the reply at index
      `|mid.prompts| - 1`) and acts on its reply. */
  method ActOnReply(mid: LoopState, systemPrompt: string, replies: seq<Reply>, services: Services) returns (pass: Pass)
    requires |mid.prompts| > 0
    ensures pass == Act(mid, systemPrompt, ReplyAt(replies, |mid.prompts| - 1), ReplyAt(replies, |mid.prompts|), services)
  {
    var response := ReplyAt(replies, |mid.prompts| - 1);
    match response {
      case Fail(e) =>
        return Done(ModelError(e), mid.prompts);
      case Empty =>
        return Done(NoValidReply, mid.prompts);
      case Content(text) =>
        if text != "" {
          return Done(Replied(text), mid.prompts);
        }
        return Done(NoValidReply, mid.prompts);
      case ToolCall(name, arguments) =>
        if mid.emailState == Finished {
          var fallbackResponse := ReplyAt(replies, |mid.prompts|);
          match fallbackResponse {
            case Fail(e) =>
              return Done(FallbackError(e), mid.prompts + [systemPrompt]);
            case Content(text) =>
              return Done(FallbackReplied(Some(text)), mid.prompts + [systemPrompt]);
            case _ =>
              return Done(FallbackReplied(None), mid.prompts + [systemPrompt]);
          }
        }
        var next := mid.(functionName := Some(name));
        match arguments {
          case Failure(e) =>
            next := next.(callState := Some(FailureMarker), callResult := "Invalid function arguments: " + e);
          case Success(OtherArgs(e)) =>
            next := next.(functionArgs := Some(OtherArgs(e)), callState := Some(FailureMarker), callResult := e);
          case Success(ObjectArgs(args)) =>
            var functionCallSignature := (name, AsMap(args));
            if functionCallSignature in mid.callHistory {
              next := next.(functionArgs := Some(ObjectArgs(args)), section := LoopSection(name), emailState := Finished);
            } else {
              var (state, result) := ExecuteFunctionCall(name, args, services);
              next := next.(functionArgs := Some(ObjectArgs(args)), callHistory := mid.callHistory + [functionCallSignature],
                            callState := Some(state), callResult := result);
            }
        }
        return Again(next);
    }
  }

  /** One pass of the loop: the start of the pass, then the model call and
      what follows from its reply. */
  method RunPass(env: Env, st: LoopState, replies: seq<Reply>) returns (pass: Pass)
    ensures pass == Step(env, st, replies)
  {
    var started := StartPass(env, st);
    if started.Failure? {
      return Done(LoopFailure(started.error), st.prompts);
    }
    StepActs(env, st, replies);
    var (mid, systemPrompt) := started.value;
    pass := ActOnReply(mid, systemPrompt, replies, env.services);
  }

  /** The loop of `_generate_response`: passes run while `email_state` is not
      "finished". Returns the outcome, `function_call_history` and the
      prompts sent. */
  method GenerationLoop(env: Env, userInfo: Option<string>, combinedHistory: string, replies: seq<Reply>)
    returns (outcome: Outcome, functionCallHistory: seq<Signature>, prompts: seq<string>)
    ensures RunResult(outcome, functionCallHistory, prompts) == Run(env, Start(userInfo, combinedHistory), replies)
  {
    var state := Start(userInfo, combinedHistory);
    while state.emailState != Finished
      invariant |state.prompts| <= |replies|
      invariant Run(env, state, replies) == Run(env, Start(userInfo, combinedHistory), replies)
      decreases |replies| - |state.prompts|
    {
      var pass := RunPass(env, state, replies);
      RunUnrolled(env, state, replies);
      match pass {
        case Done(o, sent) =>
          return o, state.callHistory, sent;
        case Again(next) =>
          state := next;
      }
    }
    return Unfinished, state.callHistory, state.prompts;
  }
}
