/** The conversation-history serialiser: the session's messages, oldest
    first, turned into one `User: ...` or `Assistant: ...` line each. */
module Conversation {
  import opened Text

  /** One chat message; the role is `"user"` or `"assistant"` in practice,
      but any text is accepted. */
  datatype Message = Message(role: string, content: string)

  function UserMessage(content: string): Message
  {
    Message("user", content)
  }

  function AssistantMessage(content: string): Message
  {
    Message("assistant", content)
  }

  /** The line of one message: the user's prefix for role `"user"` and the
      assistant's prefix for every other role. */
  function Line(m: Message): string
  {
    if m.role == "user" then "User: " + m.content + "\n"
    else "Assistant: " + m.content + "\n"
  }

  /** The whole history: the lines of all messages, oldest first. */
  function History(messages: seq<Message>): string
  {
    if messages == [] then "" else Line(messages[0]) + History(messages[1..])
  }

  /** A line starts with `User: ` exactly when its message has role `"user"`,
      and ends with the message's content and a newline. */
  lemma LineShape(m: Message)
    ensures "User: " <= Line(m) <==> m.role == "user"
    ensures m.role != "user" ==> "Assistant: " <= Line(m)
    ensures |Line(m)| >= |m.content| + 1
    ensures Line(m)[|Line(m)| - |m.content| - 1..] == m.content + "\n"
  {
    if m.role != "user" {
      assert Line(m)[0] == 'A';
    }
  }

  /** Serialising is prefix-monotone: one more message adds exactly its line. */
  lemma {:induction false} HistorySnoc(messages: seq<Message>, m: Message)
    ensures History([]) == ""
    ensures History(messages + [m]) == History(messages) + Line(m)
  {
    if messages == [] {
      assert [m][1..] == [];
    } else {
      assert (messages + [m])[1..] == messages[1..] + [m];
      HistorySnoc(messages[1..], m);
    }
  }

  /** Taking one more message adds exactly its line. */
  lemma HistoryPrefix(messages: seq<Message>, i: nat)
    requires i < |messages|
    ensures History(messages[..i + 1]) == History(messages[..i]) + Line(messages[i])
  {
    HistorySnoc(messages[..i], messages[i]);
    assert messages[..i + 1] == messages[..i] + [messages[i]];
  }

  /** The history of a concatenation is the concatenation of the histories. */
  lemma {:induction false} HistoryConcat(a: seq<Message>, b: seq<Message>)
    ensures History(a + b) == History(a) + History(b)
  {
    if a == [] {
      assert a + b == b;
    } else {
      assert (a + b)[1..] == a[1..] + b;
      HistoryConcat(a[1..], b);
    }
  }

  /** Every message's line appears in the history, in a place determined by
      the messages before it. */
  lemma HistoryLineAt(messages: seq<Message>, i: nat)
    requires i < |messages|
    ensures History(messages) == History(messages[..i]) + Line(messages[i]) + History(messages[i + 1..])
  {
    assert messages == messages[..i] + messages[i..];
    HistoryConcat(messages[..i], messages[i..]);
    assert messages[i..][1..] == messages[i + 1..];
  }

  lemma HistoryHasLine(messages: seq<Message>, i: nat)
    requires i < |messages|
    ensures Occurs(Line(messages[i]), History(messages))
  {
    HistoryLineAt(messages, i);
    OccursBetween(History(messages[..i]), Line(messages[i]), History(messages[i + 1..]));
  }

  /** Folds the messages into the history string one line at a time. */
  method BuildConversationHistory(messages: seq<Message>) returns (history: string)
    ensures history == History(messages)
  {
    history := "";
    var i := 0;
    while i < |messages|
      invariant 0 <= i <= |messages|
      invariant history == History(messages[..i])
    {
      var role := messages[i].role;
      var content := messages[i].content;
      if role == "user" {
        history := history + ("User: " + content + "\n");
      } else {
        history := history + ("Assistant: " + content + "\n");
      }
      HistoryPrefix(messages, i);
      i := i + 1;
    }
    assert messages[..i] == messages;
  }
}
