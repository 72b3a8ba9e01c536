/** The history page's two-click delete: the first click on a conversation's Delete
    button only arms a confirmation flag kept in the session under a key of its own; the
    second click deletes the conversation and clears the flag. A failed deletion clears
    the flag as well. Whether the deletion succeeds is a parameter. */
module HistoryPage {
  import opened Wrappers
  import opened Json

  type State = map<string, Value>

  const CONFIRM_PREFIX := "confirm_delete_"

  /** `confirm_key = f"confirm_delete_{conv_id}"`. */
  function ConfirmKey(convId: string): (k: string)
    ensures |k| == |CONFIRM_PREFIX| + |convId|
    ensures k[|CONFIRM_PREFIX|..] == convId
  {
    CONFIRM_PREFIX + convId
  }

  /** Each conversation has a flag of its own. */
  lemma ConfirmKeyInjective(a: string, b: string)
    requires ConfirmKey(a) == ConfirmKey(b)
    ensures a == b
  {
    assert ConfirmKey(a)[|CONFIRM_PREFIX|..] == ConfirmKey(b)[|CONFIRM_PREFIX|..];
  }

  /** Whether the flag counts as set: the code treats a missing flag as `False`. */
  predicate Armed(s: State, convId: string) {
    ConfirmKey(convId) in s && Truthy(s[ConfirmKey(convId)])
  }

  /** What one click on Delete led to. */
  datatype Click = AskedToConfirm | Removed | RemoveFailed(error: string)

  datatype Pressed = Pressed(state: State, click: Click)

  /** One click on Delete: an unarmed flag is set and nothing is deleted; an armed one
      runs the deletion (`outcome`) and, succeeded or failed, the flag is removed. */
  function Press(s: State, convId: string, outcome: Result<()>): (p: Pressed)
    ensures !Armed(s, convId) ==> p.click == AskedToConfirm
    ensures !Armed(s, convId) ==> Armed(p.state, convId) && p.state[ConfirmKey(convId)] == Bool(true)
    ensures Armed(s, convId) && outcome.Ok? ==> p.click == Removed
    ensures Armed(s, convId) && outcome.Err? ==> p.click == RemoveFailed(outcome.error)
    ensures Armed(s, convId) ==> ConfirmKey(convId) !in p.state
    ensures forall k :: k != ConfirmKey(convId) ==> (k in p.state <==> k in s)
    ensures forall k :: k != ConfirmKey(convId) && k in s ==> p.state[k] == s[k]
  {
    var key := ConfirmKey(convId);
    var flagged := if key in s then s else s[key := Bool(false)];
    if !Truthy(flagged[key]) then Pressed(flagged[key := Bool(true)], AskedToConfirm)
    else
      match outcome
      case Ok(_) => Pressed(flagged - {key}, Removed)
      case Err(e) => Pressed(flagged - {key}, RemoveFailed(e))
  }

  /** A click on one conversation leaves every other conversation's flag as it was. */
  lemma PressKeepsOtherFlags(s: State, convId: string, other: string, outcome: Result<()>)
    requires other != convId
    ensures Armed(Press(s, convId, outcome).state, other) <==> Armed(s, other)
  {
    if ConfirmKey(other) == ConfirmKey(convId) {
      ConfirmKeyInjective(other, convId);
    }
  }

  /** Two clicks on a conversation that was not armed delete it, and the session ends
      as it started. */
  lemma TwoClicksDelete(s: State, convId: string, first: Result<()>)
    requires ConfirmKey(convId) !in s
    ensures Press(s, convId, first).click == AskedToConfirm
    ensures Press(Press(s, convId, first).state, convId, Ok(())).click == Removed
    ensures Press(Press(s, convId, first).state, convId, Ok(())).state == s
  {
    var armed := Press(s, convId, first).state;
    var after := Press(armed, convId, Ok(())).state;
    assert after.Keys == s.Keys;
  }

  /** After a failed deletion the next click only asks for confirmation again. */
  lemma FailureStartsOver(s: State, convId: string, error: string, next: Result<()>)
    requires Armed(s, convId)
    ensures Press(Press(s, convId, Err(error)).state, convId, next).click == AskedToConfirm
  {
  }

  /** The history page's session and the conversations it has deleted. */
  class History {
    var state: State
    var deleted: seq<string>

    constructor(initial: State)
      ensures state == initial && deleted == []
    {
      state := initial;
      deleted := [];
    }

    /** `_delete_conversation`: one click on a conversation's Delete button. */
    method DeleteConversation(convId: string, outcome: Result<()>) returns (c: Click)
      modifies this
      ensures state == Press(old(state), convId, outcome).state
      ensures c == Press(old(state), convId, outcome).click
      ensures c == Removed ==> deleted == old(deleted) + [convId]
      ensures c != Removed ==> deleted == old(deleted)
    {
      var key := ConfirmKey(convId);
      if key !in state {
        state := state[key := Bool(false)];
      }
      if !Truthy(state[key]) {
        state := state[key := Bool(true)];
        c := AskedToConfirm;
      } else {
        match outcome
        case Ok(_) =>
          deleted := deleted + [convId];
          state := state - {key};
          c := Removed;
        case Err(e) =>
          state := state - {key};
          c := RemoveFailed(e);
      }
    }
  }
}
