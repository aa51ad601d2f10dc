/**
  * The system prompts (src/utils/prepare_system_prompt.py): fixed template
  * text with the caller's values filled in. Python's falsy values (`None`,
  * `""`) are both modelled by `Falsy`; a falsy value is replaced by a fixed
  * default sentence, except the function-result section, which is inserted
  * as given.
  */
module SystemPrompt {
  import opened Wrappers
  import opened Strings

  const RagChatbotPrompt := "You will receive a user query and the search results retrieved from a chat history vector database. The search results will include the most likely relevant responses to the query.\n\n    Your task is to summarize the key information from both the query and the search results in a clear and concise manner.\n\n    Remember keep it concise and focus on the most relevant information."

  /** `prepare_system_prompt_for_rag_chatbot()`: a constant instruction text. */
  function PrepareSystemPromptForRagChatbot(): (r: string)
    ensures |r| > 0 && r[..|r|] == RagChatbotPrompt
  {
    RagChatbotPrompt
  }

  // The fixed text of the email agent's template, in order, between the six placeholders.
  const Header := "## You are a professional email assistant of the following user.\n\n    "
  const AfterUserInfo := "\n\n    ## Agent Instructions:\n    "
  const FunctionList := "\n\n    ## You have access to the following functions:\n\n    1. **search_vector_db(query: str)**: Search past email conversations using semantic search\n       - Use this when you need additional context from previous emails beyond what\'s already loaded\n       - Example: \"search_vector_db(\'meeting with Alice last week\')\"\n       - Note: Relevant emails are already loaded below, use this only for specific queries\n\n    2. **add_user_info_to_database(user_info: dict)**: Update user information\n       - Use this when email contains user details that need updating\n\n    3. **write_email_tool(to: str, subject: str, content: str)**: Write and send emails\n       - Use this to compose and send email responses\n       - Example: \"write_email_tool(\'alice@company.com\', \'Re: API Documentation\', \'Thank you for...\')\"\n\n    4. **schedule_meeting_tool(attendees: list, subject: str, duration_minutes: int, preferred_day: str)**: Schedule calendar meetings\n       - Use this when emails contain meeting requests\n       - Example: \"schedule_meeting_tool([\'alice@company.com\'], \'API Discussion\', 30, \'Monday\')\"\n\n    5. **check_calendar_availability_tool(day: str)**: Check calendar availability\n       - Use this before scheduling meetings\n       - Example: \"check_calendar_availability_tool(\'Monday\')\"\n\n    ## IMPORTANT: You are responsible for generating email responses and function calling.\n    - If you call a function, the result will appear below.\n    - If the result confirms that the function was successful, don\'t call it again with the same arguments.\n    - You can also check the email history to see if you already called the function.\n    - There is no limit on function calls - use tools as needed to complete the task.\n    \n    "
  const AfterFunctionResult := "\n\n    ## Here is a summary of the previous email conversation history:\n\n    "
  const AfterSummary := "\n\n    ## Here is the previous email conversation between you and the user:\n\n    "
  const AfterHistory := "\n    "
  const ResponseInstructions := "\n    ## Instructions for Email Response:\n    - Generate a professional, courteous email response\n    - Address all points mentioned in the incoming email\n    - Use the context from past emails (above) to provide accurate and relevant responses\n    - Keep the response concise but complete\n    - Use appropriate email formatting and tone\n    - If the email requires scheduling or calendar actions, use the appropriate tools\n    "

  const VectorDbHeading := "\n    ## Relevant Past Emails (from VectorDB Semantic Memory):\n    "
  const VectorDbNote := "\n    \n    Note: These are semantically similar past emails retrieved automatically. Use this context to provide more accurate responses.\n    "

  const DefaultUserInfo := "No user information available."
  const DefaultAgentInstructions := "Use these tools when appropriate to help manage tasks efficiently. Generate professional, courteous email responses."
  const DefaultSummary := "No previous email summary available."
  const DefaultHistory := "No previous email history available."

  /** Python truthiness of an optional string: `None` and `""` are falsy. */
  predicate Falsy(o: Option<string>) {
    o.None? || o.value == ""
  }

  /** `value or default`. */
  function OrDefault(o: Option<string>, default: string): (r: string)
    ensures Falsy(o) ==> r == default
    ensures !Falsy(o) ==> r == o.value
  {
    if o.Some? && o.value != "" then o.value else default
  }

  /** The fixed text of a system-prompt template: the passages between its
      placeholders, the VectorDB framing and the default sentences. */
  datatype Template = Template(
    header: string, afterUserInfo: string, functionList: string, afterFunctionResult: string,
    afterSummary: string, afterHistory: string, responseInstructions: string,
    vectorDbHeading: string, vectorDbNote: string,
    defaultUserInfo: string, defaultAgentInstructions: string, defaultSummary: string, defaultHistory: string)

  /** The email agent's template. */
  const EmailAgentTemplate := Template(
    Header, AfterUserInfo, FunctionList, AfterFunctionResult, AfterSummary, AfterHistory, ResponseInstructions,
    VectorDbHeading, VectorDbNote, DefaultUserInfo, DefaultAgentInstructions, DefaultSummary, DefaultHistory)

  /** The VectorDB memory block: empty when there is no memory or it is only
      whitespace, otherwise the memory verbatim between a heading and a note. */
  function VectorDbSection(t: Template, memory: Option<string>): (r: string)
    ensures r == "" <==> (memory.None? || IsBlank(memory.value))
    ensures r != "" ==> r == t.vectorDbHeading + memory.value + t.vectorDbNote
  {
    if memory.Some? && memory.value != "" && Strip(memory.value) != "" then
      t.vectorDbHeading + memory.value + t.vectorDbNote
    else ""
  }

  /** `str.format` of template `t` with the caller's values: the prompt
      opens with the header followed by the user information (or its
      default) and closes with the response instructions. */
  function FillTemplate(
    t: Template,
    userInfo: Option<string>,
    emailSummary: Option<string>,
    emailHistory: Option<string>,
    functionCallResultSection: string,
    agentInstructions: Option<string>,
    vectordbMemory: Option<string>): (r: string)
    ensures OccursAt(r, t.header + OrDefault(userInfo, t.defaultUserInfo), 0)
    ensures |r| >= |t.responseInstructions| && OccursAt(r, t.responseInstructions, |r| - |t.responseInstructions|)
  {
    var middle := t.afterUserInfo + (OrDefault(agentInstructions, t.defaultAgentInstructions)
      + (t.functionList + (functionCallResultSection + (t.afterFunctionResult + (OrDefault(emailSummary, t.defaultSummary)
      + (t.afterSummary + (OrDefault(emailHistory, t.defaultHistory) + (t.afterHistory + VectorDbSection(t, vectordbMemory)))))))));
    HeadAndTail(t.header, OrDefault(userInfo, t.defaultUserInfo), middle, t.responseInstructions);
    t.header + (OrDefault(userInfo, t.defaultUserInfo) + (t.afterUserInfo + (OrDefault(agentInstructions, t.defaultAgentInstructions)
    + (t.functionList + (functionCallResultSection + (t.afterFunctionResult + (OrDefault(emailSummary, t.defaultSummary)
    + (t.afterSummary + (OrDefault(emailHistory, t.defaultHistory) + (t.afterHistory + (VectorDbSection(t, vectordbMemory)
    + t.responseInstructions)))))))))))
  }

  /** `a + (b + (m + e))` opens with `a + b` and closes with `e`. */
  lemma HeadAndTail(a: string, b: string, m: string, e: string)
    ensures OccursAt(a + (b + (m + e)), a + b, 0)
    ensures OccursAt(a + (b + (m + e)), e, |a + (b + (m + e))| - |e|)
  {
    var s := a + (b + (m + e));
    assert s == (a + b) + m + e;
    assert s[..|a + b|] == a + b;
    assert s[|s| - |e|..] == e;
  }

  /** `prepare_system_prompt_for_email_agent(...)`: the email agent's
      template filled in. It opens with the role header followed by the user
      information (or its default) and closes with the response instructions. */
  function PrepareSystemPromptForEmailAgent(
    userInfo: Option<string>,
    emailSummary: Option<string>,
    emailHistory: Option<string>,
    functionCallResultSection: string,
    agentInstructions: Option<string>,
    vectordbMemory: Option<string>): (r: string)
  {
    FillTemplate(EmailAgentTemplate, userInfo, emailSummary, emailHistory, functionCallResultSection,
                 agentInstructions, vectordbMemory)
  }

  /** The prompt carries the user information, the agent instructions, the
      function list, the function-call section, the summary, the history,
      the VectorDB section and the response instructions, in that order,
      each falling back to its default where it is missing or empty. Stated
      for any template, so in particular for `EmailAgentTemplate`. */
  lemma PromptPartsInOrder(
    t: Template,
    userInfo: Option<string>,
    emailSummary: Option<string>,
    emailHistory: Option<string>,
    functionCallResultSection: string,
    agentInstructions: Option<string>,
    vectordbMemory: Option<string>)
    ensures AppearInOrder(
              FillTemplate(t, userInfo, emailSummary, emailHistory, functionCallResultSection,
                           agentInstructions, vectordbMemory), [
              OrDefault(userInfo, t.defaultUserInfo),
              OrDefault(agentInstructions, t.defaultAgentInstructions),
              t.functionList,
              functionCallResultSection,
              OrDefault(emailSummary, t.defaultSummary),
              OrDefault(emailHistory, t.defaultHistory),
              VectorDbSection(t, vectordbMemory),
              t.responseInstructions])
  {
    TemplateInOrder(t.header, OrDefault(userInfo, t.defaultUserInfo), t.afterUserInfo,
                    OrDefault(agentInstructions, t.defaultAgentInstructions),
                    t.functionList, functionCallResultSection, t.afterFunctionResult, OrDefault(emailSummary, t.defaultSummary),
                    t.afterSummary, OrDefault(emailHistory, t.defaultHistory), t.afterHistory, VectorDbSection(t, vectordbMemory),
                    t.responseInstructions);
  }

  /** Each of `parts` occurs in `s`, each one after the end of the previous one. */
  ghost predicate AppearInOrder(s: string, parts: seq<string>)
    decreases |parts|
  {
    |parts| == 0 || exists i :: OccursAt(s, parts[0], i) && AppearInOrder(s[i + |parts[0]|..], parts[1..])
  }

  lemma InOrderCons(x: string, p: string, y: string, parts: seq<string>)
    requires |parts| > 0 && parts[0] == p && AppearInOrder(y, parts[1..])
    ensures AppearInOrder(x + (p + y), parts)
  {
    var s := x + (p + y);
    assert s[|x|..|x| + |p|] == p;
    assert s[|x| + |p|..] == y;
    assert OccursAt(s, parts[0], |x|);
  }

  /** The template's placeholders are filled in their order of appearance,
      whatever the fixed text `t0` .. `t6` around them. */
  lemma TemplateInOrder(t0: string, u: string, t1: string, a: string, t2: string, f: string, t3: string,
                        s: string, t4: string, h: string, t5: string, v: string, t6: string)
    ensures AppearInOrder(t0 + (u + (t1 + (a + (t2 + (f + (t3 + (s + (t4 + (h + (t5 + (v + t6))))))))))),
                          [u, a, t2, f, s, h, v, t6])
  {
    var ps := [u, a, t2, f, s, h, v, t6];
    InOrderCons([], t6, [], ps[7..]);
    assert [] + (t6 + []) == t6;
    InOrderCons(t5, v, t6, ps[6..]);
    var y5 := t5 + (v + t6);
    InOrderCons(t4, h, y5, ps[5..]);
    var y4 := t4 + (h + y5);
    InOrderCons(t3, s, y4, ps[4..]);
    var y3 := t3 + (s + y4);
    InOrderCons([], f, y3, ps[3..]);
    assert [] + (f + y3) == f + y3;
    InOrderCons([], t2, f + y3, ps[2..]);
    assert [] + (t2 + (f + y3)) == t2 + (f + y3);
    InOrderCons(t1, a, t2 + (f + y3), ps[1..]);
    InOrderCons(t0, u, t1 + (a + (t2 + (f + y3))), ps);
  }
}
