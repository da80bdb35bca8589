/**
 * The conversational unit (core/message.py) and the read-only rendering of a
 * conversation that the manager prints (core/llmmanager.py, print_conversation_history).
 */
module Messages {

  /** One entry of a conversation: who sent it and what was said. */
  datatype Message = Message(role: string, content: string)

  /** Role under which a backend's reply is recorded. */
  const AssistantRole: string := "assistant"

  /** Role the dispatcher uses for a prompt when the caller does not name one. */
  const UserRole: string := "user"

  predicate IsLowerAscii(c: char) {
    'a' <= c <= 'z'
  }

  function UpperChar(c: char): char {
    if IsLowerAscii(c) then (c as int - 32) as char else c
  }

  /** Upper-casing of a role for display, restricted to ASCII letters. */
  function Upper(s: string): (r: string)
    ensures |r| == |s|
    ensures forall i :: 0 <= i < |r| ==> !IsLowerAscii(r[i])
    ensures forall i :: 0 <= i < |s| && !IsLowerAscii(s[i]) ==> r[i] == s[i]
    ensures forall i :: 0 <= i < |s| && IsLowerAscii(s[i]) ==>
              'A' <= r[i] <= 'Z' && r[i] as int - 'A' as int == s[i] as int - 'a' as int
  {
    seq(|s|, i requires 0 <= i < |s| => UpperChar(s[i]))
  }

  /**
   * The lines of a printed conversation, in context order: the upper-cased
   * role and the unchanged content of every message.
   */
  function Transcript(context: seq<Message>): (lines: seq<(string, string)>)
    ensures |lines| == |context|
    ensures forall i :: 0 <= i < |lines| ==>
              lines[i].0 == Upper(context[i].role) && lines[i].1 == context[i].content
  {
    seq(|context|, i requires 0 <= i < |context| => (Upper(context[i].role), context[i].content))
  }
}
