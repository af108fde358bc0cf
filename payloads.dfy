/**
 * Request contents shared by the adapters: chat messages, the text fields of
 * the five non-chat operations, and the chat-style message list that the
 * OpenAI and Ollama adapters send for them.
 */
module Payloads {

  datatype ChatRole = User | Assistant

  /** A turn of a conversation as the routes receive it. */
  datatype ChatMessage = ChatMessage(role: ChatRole, content: string)

  /** The text fields each non-chat operation reads from its request. */
  datatype Payload =
    | ResumeOnly(resumeText: string)                          // analyze-resume
    | ResumeAndJob(resumeText: string, jobDescription: string) // match-resume, cover letter
    | JobOnly(jobDescription: string)                          // interview questions
    | QuestionAndResume(question: string, resumeText: string)  // interview answer

  /** A message as it goes over the wire to OpenAI or Ollama (`role` may be "system"). */
  datatype WireMessage = WireMessage(role: string, content: string)

  function RoleName(r: ChatRole): string {
    match r
    case User => "user"
    case Assistant => "assistant"
  }

  /** `messages.map(msg => ({ role: msg.role, content: msg.content }))`. */
  function WireMessages(messages: seq<ChatMessage>): (r: seq<WireMessage>)
    ensures |r| == |messages|
    ensures forall i :: 0 <= i < |messages| ==>
      r[i].role == RoleName(messages[i].role) && r[i].content == messages[i].content
  {
    seq(|messages|, i requires 0 <= i < |messages| => WireMessage(RoleName(messages[i].role), messages[i].content))
  }

  /** Forwarding loses nothing: the conversation can be read back from the wire messages. */
  lemma WireMessagesInjective(a: seq<ChatMessage>, b: seq<ChatMessage>)
    requires WireMessages(a) == WireMessages(b)
    ensures a == b
  {
    assert |a| == |b|;
    forall i | 0 <= i < |a| ensures a[i] == b[i] {
      assert WireMessages(a)[i] == WireMessages(b)[i];
      assert RoleName(a[i].role) == RoleName(b[i].role);
    }
  }

  /** The user message OpenAI and Ollama send for an operation. */
  function UserContent(p: Payload): string {
    match p
    case ResumeOnly(r) => r
    case ResumeAndJob(r, jd) => "RESUME:\n" + r + "\n\nJOB DESCRIPTION:\n" + jd
    case JobOnly(jd) => jd
    case QuestionAndResume(q, r) => "RESUME:\n" + r + "\n\nINTERVIEW QUESTION:\n" + q
  }

  /** Exactly two messages: the instructions as "system", then the payload as "user". */
  function OperationMessages(instructions: string, p: Payload): (r: seq<WireMessage>)
    ensures |r| == 2
    ensures r[0] == WireMessage("system", instructions)
    ensures r[1] == WireMessage("user", UserContent(p))
    ensures |LastField(p)| <= |r[1].content|
    ensures r[1].content[|r[1].content| - |LastField(p)|..] == LastField(p)
  {
    [WireMessage("system", instructions), WireMessage("user", UserContent(p))]
  }

  /** The field a payload's text ends with. */
  function LastField(p: Payload): string {
    match p
    case ResumeOnly(r) => r
    case ResumeAndJob(_, jd) => jd
    case JobOnly(jd) => jd
    case QuestionAndResume(q, _) => q
  }
}
