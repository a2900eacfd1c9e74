/** The rules of the chat screen: when the message form may be submitted and what submitting
    does to the input, the Enter key, the count of developer turns, and the finish button's
    enablement and label. */
module ChatView {
  import opened Wrappers
  import opened Strings
  import opened Types

  /** The number of developer (role `user`) messages in the conversation. */
  function UserMessageCount(ms: seq<Message>): (n: nat)
    ensures n <= |ms|
    ensures n == 0 <==> forall i :: 0 <= i < |ms| ==> !ms[i].role.User?
  {
    if |ms| == 0 then 0
    else UserMessageCount(ms[..|ms| - 1]) + (if ms[|ms| - 1].role.User? then 1 else 0)
  }

  /** Counting splits over concatenation, so each message contributes one exactly when it is the
      developer's. */
  lemma {:induction false} UserMessageCountAppend(a: seq<Message>, b: seq<Message>)
    ensures UserMessageCount(a + b) == UserMessageCount(a) + UserMessageCount(b)
    decreases |b|
  {
    if |b| == 0 {
      assert a + b == a;
    } else {
      assert (a + b)[..|a + b| - 1] == a + b[..|b| - 1];
      UserMessageCountAppend(a, b[..|b| - 1]);
    }
  }

  /** Both the send button and the submit handler accept the input only when it is not blank
      after trimming and nothing is loading. */
  predicate SubmitEnabled(input: string, loading: bool) {
    Trim(input) != "" && !loading
  }

  /** The submit gate opens exactly when nothing is loading and the input holds a character
      other than whitespace. */
  lemma SubmitGate(input: string, loading: bool)
    ensures SubmitEnabled(input, loading) <==> !loading && exists i :: 0 <= i < |input| && !IsWhitespace(input[i])
  {
  }

  /** The minimum number of developer turns before the session may be finished. */
  const FinishThreshold: nat := 3

  const FinishText: string := "会話を終了して評価"

  /** The finish button is enabled once three developer turns were made and nothing is loading. */
  predicate FinishEnabled(userCount: nat, loading: bool) {
    !(userCount < FinishThreshold || loading)
  }

  /** The finish button's label: the number of turns still needed, or the finish text. */
  function FinishLabel(userCount: nat): (r: string)
    ensures userCount < 3 ==>
      r == "評価まであと" + [DigitChar(3 - userCount)] + "回の会話" && 1 <= 3 - userCount <= 3
    ensures userCount >= 3 ==> r == FinishText
  {
    if userCount < FinishThreshold then "評価まであと" + NatToString(FinishThreshold - userCount) + "回の会話"
    else FinishText
  }

  /** The label shows the finish text exactly when the button's turn requirement is met. */
  lemma FinishLabelMatchesGate(userCount: nat)
    ensures FinishLabel(userCount) == FinishText <==> FinishEnabled(userCount, false)
  {
    if userCount < 3 {
      assert |FinishLabel(userCount)| == 11 != |FinishText|;
    }
  }

  /** Three developer turns already satisfy the evaluate endpoint's minimum of two messages. */
  lemma FinishGateImpliesEnoughHistory(ms: seq<Message>, loading: bool)
    requires FinishEnabled(UserMessageCount(ms), loading)
    ensures |ms| >= 2
  {
  }

  /** Whether a key press submits the form: Enter without Shift. */
  predicate SubmitsOnKey(key: string, shift: bool) {
    key == "Enter" && !shift
  }

  /** The message form and its text input. */
  class ChatForm {
    var input: string

    constructor ()
      ensures input == ""
    {
      input := "";
    }

    /** `handleSubmit`: when the submit rule refuses, nothing happens; otherwise the input is
        cleared and its trimmed text is what gets sent. */
    method HandleSubmit(loading: bool) returns (sent: Option<string>)
      modifies this
      ensures !SubmitEnabled(old(input), loading) ==> sent == None && input == old(input)
      ensures SubmitEnabled(old(input), loading) ==> sent == Some(Trim(old(input))) && input == ""
      ensures sent.Some? ==> sent.value != "" && !IsWhitespace(sent.value[0])
    {
      if Trim(input) == "" || loading {
        return None;
      }
      var message := Trim(input);
      input := "";
      sent := Some(message);
    }

    /** `handleKeyDown`: Enter without Shift submits; any other key leaves the form alone. */
    method HandleKeyDown(key: string, shift: bool, loading: bool) returns (sent: Option<string>)
      modifies this
      ensures !SubmitsOnKey(key, shift) ==> sent == None && input == old(input)
      ensures SubmitsOnKey(key, shift) && !SubmitEnabled(old(input), loading) ==> sent == None && input == old(input)
      ensures SubmitsOnKey(key, shift) && SubmitEnabled(old(input), loading) ==>
                sent == Some(Trim(old(input))) && input == ""
    {
      if SubmitsOnKey(key, shift) {
        sent := HandleSubmit(loading);
      } else {
        sent := None;
      }
    }
  }
}
