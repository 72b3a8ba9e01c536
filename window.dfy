/** How much of the conversation is sent to the model, and when the assistant replies. */
module ContextWindow {
  import opened Messages
  import Seqs

  /** `messages[-max_turns:] if max_turns > 0 else messages`: the trailing `maxTurns`
      messages, or everything when the bound is not positive. */
  function Window<T>(msgs: seq<T>, maxTurns: int): (w: seq<T>)
    ensures maxTurns <= 0 ==> w == msgs
    ensures maxTurns > 0 ==> |w| == if maxTurns <= |msgs| then maxTurns else |msgs|
    ensures w == msgs[|msgs| - |w|..]
  {
    if maxTurns > 0 then Seqs.TakeLast(msgs, maxTurns) else msgs
  }

  /** `build_context` of the classic chat script, written with an explicit length test. */
  function BuildContext<T>(msgs: seq<T>, maxTurns: int): (w: seq<T>)
    ensures maxTurns <= 0 || |msgs| <= maxTurns ==> w == msgs
    ensures maxTurns > 0 ==> |w| <= maxTurns
    ensures w == msgs[|msgs| - |w|..]
  {
    if maxTurns <= 0 || |msgs| <= maxTurns then msgs else msgs[|msgs| - maxTurns..]
  }

  /** The two spellings of the window agree on every input. */
  lemma BuildContextIsWindow<T>(msgs: seq<T>, maxTurns: int)
    ensures BuildContext(msgs, maxTurns) == Window(msgs, maxTurns)
  {
  }

  /** The window never drops the newest message, so the pending prompt always reaches
      the model. */
  lemma WindowKeepsNewest<T>(msgs: seq<T>, maxTurns: int)
    requires msgs != []
    ensures Window(msgs, maxTurns) != []
    ensures Window(msgs, maxTurns)[|Window(msgs, maxTurns)| - 1] == msgs[|msgs| - 1]
  {
  }

  /** A window of a window is the smaller window. */
  lemma WindowOfWindow<T>(msgs: seq<T>, a: int, b: int)
    requires 0 < b <= a
    ensures Window(Window(msgs, a), b) == Window(msgs, b)
  {
  }

  /** The reply trigger: messages are non-empty, the last one is the user's and their
      number is odd. */
  predicate ShouldReply(msgs: seq<Message>) {
    msgs != [] && msgs[|msgs| - 1].role == USER && |msgs| % 2 == 1
  }

  /** A conversation whose turns alternate user, assistant, user, ... */
  predicate Alternating(msgs: seq<Message>) {
    forall i :: 0 <= i < |msgs| ==> msgs[i].role == if i % 2 == 0 then USER else ASSISTANT
  }

  /** On an alternating conversation the trigger holds exactly when a prompt is waiting,
      that is when the number of messages is odd. */
  lemma ShouldReplyIffOdd(msgs: seq<Message>)
    requires Alternating(msgs)
    ensures ShouldReply(msgs) <==> |msgs| % 2 == 1
  {
    if |msgs| % 2 == 1 {
      assert msgs[|msgs| - 1].role == USER;
    }
  }

  /** One chat turn on an alternating conversation: the trigger is off before the prompt,
      fires once the prompt is appended and is off again once the reply is appended,
      and the conversation still alternates. */
  lemma {:induction false} TurnCycle(msgs: seq<Message>, prompt: string, reply: string)
    requires Alternating(msgs) && |msgs| % 2 == 0
    ensures !ShouldReply(msgs)
    ensures Alternating(msgs + [Message(USER, prompt)])
    ensures ShouldReply(msgs + [Message(USER, prompt)])
    ensures Alternating(msgs + [Message(USER, prompt), Message(ASSISTANT, reply)])
    ensures !ShouldReply(msgs + [Message(USER, prompt), Message(ASSISTANT, reply)])
  {
    var m1 := msgs + [Message(USER, prompt)];
    var m2 := msgs + [Message(USER, prompt), Message(ASSISTANT, reply)];
    forall i | 0 <= i < |m1|
      ensures m1[i].role == if i % 2 == 0 then USER else ASSISTANT
    {
      if i < |msgs| {
        assert m1[i] == msgs[i];
      }
    }
    forall i | 0 <= i < |m2|
      ensures m2[i].role == if i % 2 == 0 then USER else ASSISTANT
    {
      if i < |msgs| {
        assert m2[i] == msgs[i];
      }
    }
  }
}
