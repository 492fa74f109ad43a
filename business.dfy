/** The tax assistant chat: the send guard and the message list around the
    answer. The answer is a parameter. */
module Business {
  import opened Wrappers
  import opened Text

  datatype Role = User | Bot

  datatype Message = Message(role: Role, text: string)

  const Greeting := Message(Bot, "Hello! I am your Artist Business & Tax assistant. Ask me about deductions, write-offs, or entity structures.")

  /** `!input.trim()`: the send is refused. */
  predicate Refused(input: string) {
    Trim(input) == ""
  }

  /** A send is refused exactly for empty or all-white-space input. */
  lemma RefusedIffBlank(input: string)
    ensures Refused(input) <==> Blank(input)
  {
    TrimEmptyIffBlank(input);
  }

  /** The chat starts with the greeting, and every exchange adds a user
      message then a bot message, so roles alternate from a bot message and
      the list has even length exactly while an answer is awaited. */
  ghost predicate Alternating(messages: seq<Message>, loading: bool) {
    && |messages| > 0 && messages[0] == Greeting
    && (forall i :: 0 <= i < |messages| ==> messages[i].role == if i % 2 == 0 then Bot else User)
    && (loading <==> |messages| % 2 == 0)
  }

  /** A user message when no answer is awaited, then a bot message, keep the
      alternation. */
  lemma AppendUser(messages: seq<Message>, text: string)
    requires Alternating(messages, false)
    ensures Alternating(messages + [Message(User, text)], true)
  {
    var m := messages + [Message(User, text)];
    assert forall i :: 0 <= i < |messages| ==> m[i] == messages[i];
  }

  lemma AppendBot(messages: seq<Message>, text: string)
    requires Alternating(messages, true)
    ensures Alternating(messages + [Message(Bot, text)], false)
  {
    var m := messages + [Message(Bot, text)];
    assert forall i :: 0 <= i < |messages| ==> m[i] == messages[i];
  }

  /** The state the chat holds. Between a send and its answer `loading` is
      true; the submit button is disabled then. */
  class ChatPage {
    var messages: seq<Message>
    var input: string
    var loading: bool

    ghost predicate Valid()
      reads this
    {
      Alternating(messages, loading)
    }

    constructor ()
      ensures Valid()
      ensures messages == [Greeting] && input == "" && !loading
    {
      messages := [Greeting];
      input := "";
      loading := false;
    }

    /** Typing in the input box. */
    method Edit(text: string)
      requires Valid()
      modifies this`input
      ensures Valid() && input == text
    {
      input := text;
    }

    /** The part of `handleSend` before the request: blank input changes
        nothing; otherwise the untrimmed input is appended as a user message,
        the input is cleared and loading starts. Returns the question asked. */
    method Send() returns (question: Option<string>)
      requires Valid() && !loading
      modifies this
      ensures Valid()
      ensures question.None? <==> Refused(old(input))
      ensures question.None? ==> messages == old(messages) && input == old(input) && !loading
      ensures question.Some? ==> question.value == old(input)
      ensures question.Some? ==> messages == old(messages) + [Message(User, old(input))]
      ensures question.Some? ==> input == "" && loading
    {
      if Refused(input) {
        return None;
      }
      question := Some(input);
      AppendUser(messages, input);
      messages := messages + [Message(User, input)];
      input := "";
      loading := true;
    }

    /** The part after the answer arrives: it is appended as a bot message and
        loading ends. */
    method Deliver(answer: string)
      requires Valid() && loading
      modifies this`messages, this`loading
      ensures Valid()
      ensures messages == old(messages) + [Message(Bot, answer)] && !loading
    {
      AppendBot(messages, answer);
      messages := messages + [Message(Bot, answer)];
      loading := false;
    }

    /** `handleSend` as a whole: an accepted send grows the list by exactly two,
        the user's text then the answer. */
    method HandleSend(answer: string) returns (accepted: bool)
      requires Valid() && !loading
      modifies this
      ensures Valid() && !loading
      ensures accepted <==> !Refused(old(input))
      ensures !accepted ==> messages == old(messages) && input == old(input)
      ensures accepted ==> messages == old(messages) + [Message(User, old(input)), Message(Bot, answer)]
      ensures accepted ==> input == ""
    {
      var question := Send();
      accepted := question.Some?;
      if accepted {
        Deliver(answer);
      }
    }
  }
}
