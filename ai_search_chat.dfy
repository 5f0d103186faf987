/** The recommendation chat (src/components/books/AISearchChat.tsx): a log of
    messages that opens with a greeting, and a send action that adds the
    trimmed question and then the assistant's answer. */
module AISearchChat {
  import opened Common

  datatype Role = UserRole | Assistant

  datatype Message = Message(role: Role, content: string)

  const Greeting: Message :=
    Message(Assistant, "Hi! I'm your BookVerse AI assistant. Ask me about any books you're looking for!")
  const NoRecommendations: string := "Sorry, I couldn't find any recommendations."
  const SomethingWentWrong: string := "Sorry, something went wrong. Please try again."

  /** The assistant's answer to the recommendation reply: the reply's text, a
      fixed apology when it has none, another when the request failed. */
  function ReplyContent(reply: Response<Option<string>>): (c: string)
    ensures c != ""
    ensures reply.Ok? && reply.data.Some? && reply.data.value != "" ==> c == reply.data.value
    ensures reply.Ok? && (reply.data.None? || reply.data.value == "") ==> c == NoRecommendations
    ensures reply.Failed? ==> c == SomethingWentWrong
  {
    match reply
    case Ok(data) => OrElse(if data.Some? then data.value else "", NoRecommendations)
    case Failed(_) => SomethingWentWrong
  }

  /** The two messages one send adds: the question, trimmed, then the answer. */
  function Exchange(input: string, reply: Response<Option<string>>): seq<Message>
  {
    [Message(UserRole, Trim(input)), Message(Assistant, ReplyContent(reply))]
  }

  /** No whitespace at either end. */
  predicate NoOuterWhitespace(s: string)
  {
    s == [] || (!IsWhitespace(s[0]) && !IsWhitespace(s[|s| - 1]))
  }

  /** The shape of every log the chat can show: the greeting, then question and
      answer in turn; no message is empty and no question has whitespace at its ends. */
  predicate WellFormedLog(log: seq<Message>)
  {
    |log| % 2 == 1 && log[0] == Greeting
    && forall i :: 1 <= i < |log| ==>
         (log[i].role == UserRole <==> i % 2 == 1) && log[i].content != ""
         && (log[i].role == UserRole ==> NoOuterWhitespace(log[i].content))
  }

  /** A send of a non-blank question keeps the log well formed. */
  lemma {:induction false} ExchangeKeepsLogWellFormed(log: seq<Message>, input: string, reply: Response<Option<string>>)
    requires WellFormedLog(log) && !IsBlank(input)
    ensures WellFormedLog(log + Exchange(input, reply))
  {
    var q := Trim(input);
    assert q != [] && NoOuterWhitespace(q);
    var next := log + Exchange(input, reply);
    forall i | 1 <= i < |next|
      ensures (next[i].role == UserRole <==> i % 2 == 1) && next[i].content != ""
              && (next[i].role == UserRole ==> NoOuterWhitespace(next[i].content))
    {
      if i < |log| {
        assert next[i] == log[i];
      } else if i == |log| {
        assert next[i] == Message(UserRole, q);
      } else {
        assert next[i] == Message(Assistant, ReplyContent(reply));
      }
    }
    assert next[0] == log[0];
  }

  /** A well-formed log alternates: every question is followed by its answer. */
  lemma QuestionsAreAnswered(log: seq<Message>, i: nat)
    requires WellFormedLog(log) && i < |log| && log[i].role == UserRole
    ensures i + 1 < |log| && log[i + 1].role == Assistant
  {
  }

  class ChatLog {
    var messages: seq<Message>
    var input: string
    var isLoading: bool

    ghost predicate Valid()
      reads this
    {
      WellFormedLog(messages)
    }

    constructor ()
      ensures Valid() && messages == [Greeting] && input == "" && !isLoading
    {
      messages, input, isLoading := [Greeting], "", false;
    }

    /** The text box's change handler. */
    method SetInput(text: string)
      modifies this
      ensures input == text && messages == old(messages) && isLoading == old(isLoading)
    {
      input := text;
    }

    /** `handleSend`, with the reply of the recommendation request. Nothing
        happens for a blank input or while a request is out; otherwise the
        trimmed input is asked, the box is cleared, and the question and its
        answer are appended. */
    method HandleSend(reply: Response<Option<string>>) returns (query: Option<string>)
      requires Valid()
      modifies this
      ensures Valid()
      ensures IsBlank(old(input)) || old(isLoading) ==>
                query == None && messages == old(messages) && input == old(input) && isLoading == old(isLoading)
      ensures !IsBlank(old(input)) && !old(isLoading) ==>
                query == Some(Trim(old(input))) && messages == old(messages) + Exchange(old(input), reply)
                && input == "" && !isLoading
    {
      var typed, before := input, messages;
      var question := Trim(typed);
      if question == [] || isLoading {
        return None;
      }
      ExchangeKeepsLogWellFormed(before, typed, reply);
      messages := before + [Message(UserRole, question)];
      input := "";
      isLoading := true;
      query := Some(question);
      messages := messages + [Message(Assistant, ReplyContent(reply))];
      assert messages == before + Exchange(typed, reply);
      isLoading := false;
    }

    /** `handleKeyDown`: Enter without Shift sends; every other key does nothing here. */
    method HandleKeyDown(key: string, shiftKey: bool, reply: Response<Option<string>>) returns (query: Option<string>)
      requires Valid()
      modifies this
      ensures Valid()
      ensures key != "Enter" || shiftKey ==>
                query == None && messages == old(messages) && input == old(input) && isLoading == old(isLoading)
      ensures key == "Enter" && !shiftKey && !IsBlank(old(input)) && !old(isLoading) ==>
                query == Some(Trim(old(input))) && messages == old(messages) + Exchange(old(input), reply)
                && input == ""
      ensures key == "Enter" && !shiftKey && (IsBlank(old(input)) || old(isLoading)) ==>
                query == None && messages == old(messages) && input == old(input)
    {
      query := None;
      if key == "Enter" && !shiftKey {
        query := HandleSend(reply);
      }
    }
  }
}
