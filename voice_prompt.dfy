/** The voice agent's request side (server/llm.py, class `LlmClient`): the
    chat messages a call transcript becomes, the prompt sent to the model,
    and the tools offered in each mode. Prompt texts are opaque inputs. */
module VoicePrompt {

  datatype Option<T> = None | Some(value: T)

  /** One line of the call transcript: who spoke ("agent" or anything else)
      and what was said. */
  datatype Utterance = Utterance(role: string, content: string)

  /** The request the call platform sends when a response is required. */
  datatype Request = Request(responseId: int, interactionType: string, transcript: seq<Utterance>)

  datatype ChatRole = System | User | Assistant

  /** One streamed tool-call fragment as the model sends it, which is also
      what an accumulated call is: the first fragment of an index, with the
      arguments of the later ones appended. */
  datatype ToolCall = ToolCall(index: int, id: Option<string>, name: Option<string>, arguments: Option<string>)

  /** A message of the conversation sent to the model. */
  datatype Message =
    | Chat(role: ChatRole, content: string)
    | AssistantToolCall(call: ToolCall)
    | ToolMessage(toolCallId: Option<string>, content: string)

  /** The two prompt texts of server/prompts.py. */
  datatype Prompts = Prompts(authorization: string, fraud: string)

  /** The client's state. `transaction` is the transaction record the tools
      read `trans_num` and `cc_num` from; `transactionText` and `userText` are
      how the record and the user details render inside the context message. */
  datatype Agent = Agent(
    mode: int,
    transaction: map<string, string>,
    transactionText: string,
    userText: string,
    prompts: Prompts)

  // ---------------------------------------------------------------------------
  // Transcript to messages

  /** "agent" lines are the assistant's; every other role is the user's. */
  function RoleOf(role: string): (r: ChatRole)
    ensures r == Assistant <==> role == "agent"
    ensures r == User <==> role != "agent"
  {
    if role == "agent" then Assistant else User
  }

  function MessageOf(u: Utterance): Message {
    Chat(RoleOf(u.role), u.content)
  }

  /** `convert_transcript_to_openai_messages`: one message per utterance, in
      order, with the utterance's content and its role mapped. */
  method ConvertTranscript(transcript: seq<Utterance>) returns (messages: seq<Message>)
    ensures |messages| == |transcript|
    ensures forall i :: 0 <= i < |transcript| ==>
              messages[i].Chat? && messages[i].content == transcript[i].content &&
              messages[i].role == RoleOf(transcript[i].role)
  {
    messages := [];
    for i := 0 to |transcript|
      invariant |messages| == i
      invariant forall j :: 0 <= j < i ==> messages[j] == MessageOf(transcript[j])
    {
      var utterance := transcript[i];
      if utterance.role == "agent" {
        messages := messages + [Chat(Assistant, utterance.content)];
      } else {
        messages := messages + [Chat(User, utterance.content)];
      }
    }
  }

  // ---------------------------------------------------------------------------
  // The prompt

  /** Mode 0 is the authorization agent; every other mode gets the fraud prompt. */
  function SystemPrompt(agent: Agent): string {
    if agent.mode == 0 then agent.prompts.authorization else agent.prompts.fraud
  }

  function ContextMessage(agent: Agent): string {
    "(Here are the details of the transaction: " + agent.transactionText
      + ". Here are the details of the user: " + agent.userText
      + ". What is the first thing you say to the user?)"
  }

  const ReminderText: string := "(Now the user has not responded in a while, you would say:)"

  function Transcript(transcript: seq<Utterance>): (r: seq<Message>)
    ensures |r| == |transcript|
    decreases |transcript|
  {
    if transcript == [] then []
    else Transcript(transcript[..|transcript| - 1]) + [MessageOf(transcript[|transcript| - 1])]
  }

  /** The conversation `prepare_prompt` builds. */
  function Prompt(agent: Agent, request: Request): seq<Message> {
    [Chat(System, SystemPrompt(agent)), Chat(User, ContextMessage(agent))]
      + Transcript(request.transcript)
      + (if request.interactionType == "reminder_required" then [Chat(User, ReminderText)] else [])
  }

  /** The system prompt, then the context message, then the transcript's
      messages in order, then the reminder exactly when one is required. */
  lemma {:induction false} PromptShape(agent: Agent, request: Request)
    ensures var p, t := Prompt(agent, request), request.transcript;
            var reminder := request.interactionType == "reminder_required";
            && |p| == 2 + |t| + (if reminder then 1 else 0)
            && p[0] == Chat(System, if agent.mode == 0 then agent.prompts.authorization else agent.prompts.fraud)
            && p[1] == Chat(User, ContextMessage(agent))
            && (forall i :: 0 <= i < |t| ==> p[2 + i] == Chat(RoleOf(t[i].role), t[i].content))
            && (reminder ==> p[|p| - 1] == Chat(User, ReminderText))
  {
    TranscriptElements(request.transcript);
  }

  lemma {:induction false} TranscriptElements(transcript: seq<Utterance>)
    ensures forall i :: 0 <= i < |transcript| ==> Transcript(transcript)[i] == MessageOf(transcript[i])
    decreases |transcript|
  {
    if transcript != [] {
      var init := transcript[..|transcript| - 1];
      TranscriptElements(init);
      assert forall i :: 0 <= i < |init| ==> init[i] == transcript[i];
    }
  }

  /** `prepare_prompt`: the two fixed messages, then the converted transcript
      appended one by one, then the reminder if the request asks for one. */
  method PreparePrompt(agent: Agent, request: Request) returns (prompt: seq<Message>)
    ensures prompt == Prompt(agent, request)
  {
    prompt := [
      Chat(System, if agent.mode == 0 then agent.prompts.authorization else agent.prompts.fraud),
      Chat(User, ContextMessage(agent))
    ];
    var transcriptMessages := ConvertTranscript(request.transcript);
    for i := 0 to |transcriptMessages|
      invariant prompt == Prompt(agent, Request(request.responseId, "", request.transcript[..i]))
    {
      assert request.transcript[..i + 1][..i] == request.transcript[..i];
      prompt := prompt + [transcriptMessages[i]];
    }
    assert request.transcript[..|request.transcript|] == request.transcript;
    if request.interactionType == "reminder_required" {
      prompt := prompt + [Chat(User, ReminderText)];
    }
  }

  // ---------------------------------------------------------------------------
  // The tools

  /** A tool parameter: its name and, for an enum, the allowed strings. */
  datatype Param = Param(name: string, allowed: Option<seq<string>>)

  /** A tool definition; `confirmFraud` declares no parameters at all. */
  datatype ToolSpec = ToolSpec(name: string, description: string, parameters: Option<seq<Param>>, required: seq<string>)

  const AuthorizeTool: ToolSpec :=
    ToolSpec("authorize", "Record whether user authorized the transaction",
             Some([Param("response", Some(["yes", "no"]))]), ["response"])

  const ConfirmFraudTool: ToolSpec :=
    ToolSpec("confirmFraud", "Confirm that the transaction is fraudulent", None, [])

  const HangupTool: ToolSpec :=
    ToolSpec("hangup", "End the call with a custom message", Some([Param("message", None)]), ["message"])

  /** `prepare_functions`: the tools for a mode, none (Python's None) for a
      mode other than 0 and 1. */
  function PrepareFunctions(mode: int): (r: Option<seq<ToolSpec>>)
    ensures r.Some? <==> mode == 0 || mode == 1
    // Both modes offer two tools, hangup last; the first records the outcome.
    ensures r.Some? ==> |r.value| == 2 && r.value[1].name == "hangup" && r.value[1].required == ["message"]
    ensures r.Some? ==> r.value[0].name == (if mode == 0 then "authorize" else "confirmFraud")
    // authorize must be given a response, and only "yes" or "no".
    ensures mode == 0 ==> r.value[0].parameters == Some([Param("response", Some(["yes", "no"]))])
                          && r.value[0].required == ["response"]
    ensures mode == 1 ==> r.value[0].parameters.None?
  {
    if mode == 0 then Some([AuthorizeTool, HangupTool])
    else if mode == 1 then Some([ConfirmFraudTool, HangupTool])
    else None
  }

  /** A mode other than 0 and 1 is told it is the fraud agent, yet offered
      no tools, so it can neither confirm fraud nor hang up. */
  lemma OtherModesHaveNoTools(agent: Agent)
    requires agent.mode != 0 && agent.mode != 1
    ensures SystemPrompt(agent) == agent.prompts.fraud
    ensures PrepareFunctions(agent.mode) == None
  {
  }
}
