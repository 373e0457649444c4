/**
 * The conversation transcript both engines talk through. The language model
 * is an oracle: a function from the transcript sent to the reply it gives.
 */
module Conversation {

  datatype Role = System | User | Assistant

  datatype Turn = Turn(role: Role, content: string)

  /** The transcript after sending `text` on `messages` and receiving the
      oracle's reply to it (lemma `ExchangeFacts`). */
  function Exchange(oracle: seq<Turn> -> string, messages: seq<Turn>, text: string): seq<Turn>
  {
    messages + [Turn(User, text), Turn(Assistant, oracle(messages + [Turn(User, text)]))]
  }

  /** An exchange keeps the transcript and adds two turns: the user's text,
      then the oracle's reply to the transcript that ends with it. */
  lemma ExchangeFacts(oracle: seq<Turn> -> string, messages: seq<Turn>, text: string)
    ensures var r := Exchange(oracle, messages, text);
      && |r| == |messages| + 2 && r[..|messages|] == messages
      && r[|messages|] == Turn(User, text)
      && r[|messages| + 1] == Turn(Assistant, oracle(messages + [Turn(User, text)]))
  {
    var r := Exchange(oracle, messages, text);
    assert r[..|messages|] == messages;
  }

  /** The system message a chat starts with when none is given. */
  const DefaultSystemMessage: string := "You are a helpful AI assistant"

  class Chat {
    var messages: seq<Turn>
    const oracle: seq<Turn> -> string

    /** A transcript seeded with the starting state when one is given, and
        otherwise with the system message. */
    constructor (systemMessage: string, startingState: seq<Turn>, oracle: seq<Turn> -> string)
      ensures messages == if startingState != [] then startingState else [Turn(System, systemMessage)]
      ensures this.oracle == oracle
    {
      messages := if startingState != [] then startingState else [Turn(System, systemMessage)];
      this.oracle := oracle;
    }

    /** `Chat(starting_state=...)`: the default system message unless a
        starting state is given. */
    constructor WithDefaultSystemMessage(startingState: seq<Turn>, oracle: seq<Turn> -> string)
      ensures messages == if startingState != [] then startingState else [Turn(System, DefaultSystemMessage)]
      ensures this.oracle == oracle
    {
      messages := if startingState != [] then startingState else [Turn(System, DefaultSystemMessage)];
      this.oracle := oracle;
    }

    /** `user_message`: appends the user turn, asks the oracle about the whole
        transcript, appends its reply and returns it. */
    method UserMessage(text: string) returns (content: string)
      modifies this
      ensures content == oracle(old(messages) + [Turn(User, text)])
      ensures messages == Exchange(oracle, old(messages), text)
    {
      messages := messages + [Turn(User, text)];
      content := oracle(messages);
      messages := messages + [Turn(Assistant, content)];
    }
  }
}
