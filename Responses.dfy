/** The pure part of the task manager: reading the user's query out of a
    message, deciding whether the backend answered, and building the reply
    text of the synchronous path and the status-update event of the streaming
    path. Each builder has an inverse that recovers the backend's answer. */
module Responses {
  import opened Wrappers
  import opened A2ATypes

  const SaysPrefix: string := "Ollama says: "
  const SendFailureText: string := "Failed to get response from Ollama."
  const StreamingPrefix: string := "Ollama streaming: "
  const StreamingFailureText: string := "Ollama streaming failed."

  /** Python truthiness of the backend's `str | None` answer: `None` and the
      empty string both count as no answer. */
  predicate Answered(reply: Option<string>) {
    reply.Some? && reply.value != ""
  }

  /** `message.parts[0].text`: absent when there is no first part or the first
      part is not a text part (the Python access raises in both cases). */
  function FirstText(m: Message): (r: Option<string>)
    ensures r.Some? <==> |m.parts| > 0 && m.parts[0].TextPart?
    ensures r.Some? ==> TextPart(r.value) == m.parts[0]
  {
    if |m.parts| > 0 && m.parts[0].TextPart? then Some(m.parts[0].text) else None
  }

  /** The single text part the agent answers with. */
  function TextParts(text: string): seq<Part> {
    [TextPart(text)]
  }

  function AgentMessage(text: string): Message {
    Message(Agent, TextParts(text))
  }

  /** The text of the message, if it is an agent message of exactly one text part. */
  function AgentText(m: Message): (r: Option<string>)
    ensures r.Some? <==> m.role == Agent && |m.parts| == 1 && m.parts[0].TextPart?
    ensures r.Some? ==> m == AgentMessage(r.value)
  {
    if m.role == Agent && |m.parts| == 1 && m.parts[0].TextPart? then Some(m.parts[0].text) else None
  }

  /** The suffix of `t` after `p`, if `p` is a prefix of `t`. */
  function StripPrefix(p: string, t: string): (r: Option<string>)
    ensures r.Some? <==> |p| <= |t| && t[..|p|] == p
    ensures r.Some? ==> p + r.value == t
  {
    if |p| <= |t| && t[..|p|] == p then
      assert t == t[..|p|] + t[|p|..];
      Some(t[|p|..])
    else None
  }

  lemma StripPrefixOfConcat(p: string, s: string)
    ensures StripPrefix(p, p + s) == Some(s)
  {
    assert (p + s)[..|p|] == p;
    assert (p + s)[|p|..] == s;
  }

  /** The reply text of the synchronous path. */
  function ResponseText(reply: Option<string>): string {
    if Answered(reply) then SaysPrefix + reply.value else SendFailureText
  }

  /** Recovers the backend's answer from a synchronous reply text. */
  function ParseResponse(t: string): (r: Option<string>)
    ensures Answered(r) || r.None?
  {
    var rest := StripPrefix(SaysPrefix, t);
    if rest.Some? && rest.value != "" then rest else None
  }

  /** The reply text carries the answer exactly when the backend gave a
      non-empty one, and the answer can be read back from it; `None` and `""`
      both give the fixed failure text, from which nothing is read back. */
  lemma {:induction false} ResponseTextRoundTrip(reply: Option<string>)
    ensures ParseResponse(ResponseText(reply)) == if Answered(reply) then reply else None
  {
    if Answered(reply) {
      StripPrefixOfConcat(SaysPrefix, reply.value);
    } else {
      assert SendFailureText[0] != SaysPrefix[0];
    }
  }

  /** Every text from which an answer is read back is the reply text of that answer. */
  lemma ParseResponseSound(t: string)
    ensures ParseResponse(t).Some? ==> ResponseText(ParseResponse(t)) == t
  {
  }

  /** The text of the streaming event. */
  function StreamingText(reply: Option<string>): string {
    if Answered(reply) then StreamingPrefix + reply.value else StreamingFailureText
  }

  /** The one event the streaming worker emits for `taskId`: `Completed` with the
      answer, or `Error` with the fixed failure text; always final. */
  function StreamingEvent(taskId: string, reply: Option<string>): (e: TaskStatusUpdateEvent)
    ensures e.id == taskId && e.final
    ensures e.status.state == (if Answered(reply) then Completed else Error)
    ensures e.status.message.Some? && AgentText(e.status.message.value).Some?
  {
    var state := if Answered(reply) then Completed else Error;
    TaskStatusUpdateEvent(taskId, TaskStatus(state, Some(AgentMessage(StreamingText(reply)))), true)
  }

  /** Recovers the backend's answer from a streaming event. */
  function ParseStreamingEvent(e: TaskStatusUpdateEvent): (r: Option<string>)
    ensures r.Some? ==> e.status.state == Completed && Answered(r)
  {
    if e.status.state == Completed && e.status.message.Some? then
      var text := AgentText(e.status.message.value);
      if text.Some? then
        var rest := StripPrefix(StreamingPrefix, text.value);
        if rest.Some? && rest.value != "" then rest else None
      else None
    else None
  }

  lemma {:induction false} StreamingEventRoundTrip(taskId: string, reply: Option<string>)
    ensures ParseStreamingEvent(StreamingEvent(taskId, reply)) == if Answered(reply) then reply else None
  {
    if Answered(reply) {
      StripPrefixOfConcat(StreamingPrefix, reply.value);
    }
  }

  /** The two paths read the backend's answer the same way: both carry the same
      answer, and the streaming event is `Error` exactly when the synchronous
      reply is the failure text (the synchronous task is `Completed` even then). */
  lemma {:induction false} SendAndStreamAgree(taskId: string, reply: Option<string>)
    ensures ParseResponse(ResponseText(reply)) == ParseStreamingEvent(StreamingEvent(taskId, reply))
    ensures StreamingEvent(taskId, reply).status.state == Error <==> ResponseText(reply) == SendFailureText
  {
    ResponseTextRoundTrip(reply);
    StreamingEventRoundTrip(taskId, reply);
    if Answered(reply) {
      assert ResponseText(reply)[0] != SendFailureText[0];
    }
  }
}
