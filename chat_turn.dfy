/** One chat turn: the instruction block that inlines every contract chunk,
    the full prompt sent to the model, and the session's append-only
    message log. */
module ChatTurn {
  import opened Text
  import opened ContractChunks
  import opened Conversation

  /** The fixed natural-language parts of the instruction block, around the
      two places where data is filled in: the joined chunks, and the current
      date, which the block mentions twice (in the intro and in the notes). */
  datatype Template = Template(intro: string, glossary: string, notes: string, closing: string)

  /** The instruction block: the template with the chunks joined by newlines
      and the date filled in. */
  function Instructions(t: Template, chunks: seq<string>, date: string): string
  {
    t.intro + Join("\n", chunks) + t.glossary + date + t.notes + date + t.closing
  }

  /** The text sent to the model: the instructions, the history, then the
      question again on a line of its own. */
  function FullPrompt(instructions: string, history: string, prompt: string): string
  {
    instructions + "\n" + history + "\nUser question: " + prompt
  }

  /** What the model call gives back: an answer, or a failure that aborts
      the rest of the turn. */
  datatype Outcome = Answered(result: string) | Failed

  /** The message log after one turn: the user's message, then the
      assistant's reply when there was one. */
  function AfterTurn(messages: seq<Message>, prompt: string, outcome: Outcome): seq<Message>
  {
    match outcome
    case Answered(result) => messages + [UserMessage(prompt), AssistantMessage(result)]
    case Failed => messages + [UserMessage(prompt)]
  }

  /** The message log after a run of turns, given each turn's prompt and outcome. */
  function AfterTurns(messages: seq<Message>, turns: seq<(string, Outcome)>): seq<Message>
    decreases |turns|
  {
    if turns == [] then messages
    else AfterTurns(AfterTurn(messages, turns[0].0, turns[0].1), turns[1..])
  }

  /** Messages alternate user, assistant, user, ... and every user message
      has its answer. */
  predicate Alternating(messages: seq<Message>)
  {
    && |messages| % 2 == 0
    && forall i :: 0 <= i < |messages| ==> messages[i].role == RoleAt(i)
  }

  /** The role position `i` holds in an alternating log. */
  function RoleAt(i: nat): string
  {
    if i % 2 == 0 then "user" else "assistant"
  }

  // ---------------------------------------------------------------------
  // Lemmas

  /** The instruction block holds the whole corpus and the current date. */
  lemma InstructionsHoldCorpus(t: Template, chunks: seq<string>, date: string)
    ensures Occurs(Join("\n", chunks), Instructions(t, chunks, date))
    ensures Occurs(date, Instructions(t, chunks, date))
    ensures forall i :: 0 <= i < |chunks| ==> Occurs(chunks[i], Instructions(t, chunks, date))
  {
    InstructionsSplit(t, chunks, date);
    OccursBetween(t.intro, Join("\n", chunks), t.glossary + date + t.notes + date + t.closing);
    InstructionsHoldDate(t, chunks, date);
    forall i | 0 <= i < |chunks|
      ensures Occurs(chunks[i], Instructions(t, chunks, date))
    {
      InstructionsHoldChunk(t, chunks, date, i);
    }
  }

  lemma InstructionsSplit(t: Template, chunks: seq<string>, date: string)
    ensures Instructions(t, chunks, date)
            == t.intro + Join("\n", chunks) + (t.glossary + date + t.notes + date + t.closing)
  {
  }

  lemma InstructionsHoldChunk(t: Template, chunks: seq<string>, date: string, i: nat)
    requires i < |chunks|
    ensures Occurs(chunks[i], Instructions(t, chunks, date))
  {
    InstructionsSplit(t, chunks, date);
    JoinHasItem("\n", chunks, i);
    OccursWithin(chunks[i], Join("\n", chunks), t.intro, t.glossary + date + t.notes + date + t.closing);
  }

  lemma InstructionsHoldDate(t: Template, chunks: seq<string>, date: string)
    ensures Occurs(date, Instructions(t, chunks, date))
  {
    var before := t.intro + Join("\n", chunks) + t.glossary;
    var after := t.notes + date + t.closing;
    assert Instructions(t, chunks, date) == before + date + after;
    OccursBetween(before, date, after);
  }

  /** Every company's chunk of the contract data appears in the instructions
      built from that data. */
  lemma InstructionsHoldEveryContract(t: Template, data: seq<Record>, date: string, i: nat)
    requires i < |data|
    ensures Occurs(Chunk(data[i]), Instructions(t, Chunks(data), date))
  {
    ChunksOnePerRecord(data);
    InstructionsHoldCorpus(t, Chunks(data), date);
    assert Chunks(data)[i] == Chunk(data[i]);
  }

  /** Because the user's message is logged before the history is built, the
      history inside the full prompt ends with the user's own line, right
      before the question is repeated. */
  lemma TurnPromptShape(instructions: string, messages: seq<Message>, prompt: string)
    ensures FullPrompt(instructions, History(messages + [UserMessage(prompt)]), prompt)
            == instructions + "\n" + History(messages) + ("User: " + prompt + "\n") + "\nUser question: " + prompt
  {
    HistorySnoc(messages, UserMessage(prompt));
  }

  /** A turn only appends: the earlier messages stay as they were, then comes
      the user's message, then the reply if the model answered. */
  lemma AfterTurnAppends(messages: seq<Message>, prompt: string, outcome: Outcome)
    ensures messages <= AfterTurn(messages, prompt, outcome)
    ensures |AfterTurn(messages, prompt, outcome)| == |messages| + (if outcome.Answered? then 2 else 1)
    ensures AfterTurn(messages, prompt, outcome)[|messages|] == UserMessage(prompt)
    ensures outcome.Answered? ==> AfterTurn(messages, prompt, outcome)[|messages| + 1] == AssistantMessage(outcome.result)
  {
  }

  /** Runs of turns only append too. */
  lemma {:induction false} AfterTurnsAppends(messages: seq<Message>, turns: seq<(string, Outcome)>)
    ensures messages <= AfterTurns(messages, turns)
    decreases |turns|
  {
    if turns != [] {
      var next := AfterTurn(messages, turns[0].0, turns[0].1);
      AfterTurnsAppends(next, turns[1..]);
    }
  }

  /** An answered turn keeps the log alternating. */
  lemma AnsweredTurnAlternates(messages: seq<Message>, prompt: string, result: string)
    requires Alternating(messages)
    ensures Alternating(AfterTurn(messages, prompt, Answered(result)))
  {
    var next := AfterTurn(messages, prompt, Answered(result));
    forall i | 0 <= i < |next|
      ensures next[i].role == RoleAt(i)
    {
      if i >= |messages| {
        assert i == |messages| || i == |messages| + 1;
      }
    }
  }

  /** N answered turns give 2N more messages and keep the log alternating. */
  lemma {:induction false} AnsweredTurnsAlternate(messages: seq<Message>, turns: seq<(string, Outcome)>)
    requires Alternating(messages)
    requires forall k :: 0 <= k < |turns| ==> turns[k].1.Answered?
    ensures |AfterTurns(messages, turns)| == |messages| + 2 * |turns|
    ensures Alternating(AfterTurns(messages, turns))
    decreases |turns|
  {
    if turns != [] {
      AnsweredTurnAlternates(messages, turns[0].0, turns[0].1.result);
      AnsweredTurnsAlternate(AfterTurn(messages, turns[0].0, turns[0].1), turns[1..]);
    }
  }

  /** After N answered turns, turn `k`'s prompt and answer sit at positions
      2k and 2k + 1 past the earlier log. */
  lemma {:induction false} AnsweredTurnsInOrder(messages: seq<Message>, turns: seq<(string, Outcome)>, k: nat)
    requires forall k :: 0 <= k < |turns| ==> turns[k].1.Answered?
    requires k < |turns|
    ensures |messages| + 2 * k + 1 < |AfterTurns(messages, turns)|
    ensures AfterTurns(messages, turns)[|messages| + 2 * k] == UserMessage(turns[k].0)
    ensures AfterTurns(messages, turns)[|messages| + 2 * k + 1] == AssistantMessage(turns[k].1.result)
    decreases |turns|
  {
    var next := AfterTurn(messages, turns[0].0, turns[0].1);
    assert AfterTurns(messages, turns) == AfterTurns(next, turns[1..]);
    AfterTurnsAppends(next, turns[1..]);
    if k == 0 {
      if |turns| > 1 {
        AnsweredTurnsInOrder(next, turns[1..], 0);
      }
    } else {
      AnsweredTurnsInOrder(next, turns[1..], k - 1);
      assert turns[1..][k - 1] == turns[k];
    }
  }

  /** A turn whose model call fails leaves an odd number of messages, the
      last one the user's unanswered message. */
  lemma FailedTurnUnanswered(messages: seq<Message>, prompt: string)
    requires Alternating(messages)
    ensures |AfterTurn(messages, prompt, Failed)| % 2 == 1
    ensures AfterTurn(messages, prompt, Failed)[|messages|] == UserMessage(prompt)
    ensures !Alternating(AfterTurn(messages, prompt, Failed))
  {
  }

  // ---------------------------------------------------------------------
  // The session's message log

  /** The chat session: its message list lives for the whole session and
      only ever grows. */
  class ChatSession {
    var messages: seq<Message>

    /** A new session starts with no messages. */
    constructor ()
      ensures messages == []
    {
      messages := [];
    }

    /** Logs the user's prompt, then builds the prompt for the model from
        the history that now ends with it. */
    method SubmitPrompt(instructions: string, prompt: string) returns (fullPrompt: string)
      modifies this
      ensures messages == old(messages) + [UserMessage(prompt)]
      ensures fullPrompt == FullPrompt(instructions, History(messages), prompt)
      ensures fullPrompt == instructions + "\n" + History(old(messages)) + ("User: " + prompt + "\n")
                            + "\nUser question: " + prompt
    {
      messages := messages + [UserMessage(prompt)];
      var conversationHistory := BuildConversationHistory(messages);
      fullPrompt := instructions + "\n" + conversationHistory + "\nUser question: " + prompt;
      TurnPromptShape(instructions, old(messages), prompt);
    }

    /** Logs the model's answer. */
    method RecordReply(result: string)
      modifies this
      ensures messages == old(messages) + [AssistantMessage(result)]
    {
      messages := messages + [AssistantMessage(result)];
    }

    /** One whole turn; `answer` stands for the model call on the full prompt.
        When it fails, the user's message stays logged without a reply. */
    method HandleTurn(instructions: string, prompt: string, answer: string -> Outcome)
      returns (fullPrompt: string, outcome: Outcome)
      modifies this
      ensures fullPrompt == FullPrompt(instructions, History(old(messages) + [UserMessage(prompt)]), prompt)
      ensures outcome == answer(fullPrompt)
      ensures messages == AfterTurn(old(messages), prompt, outcome)
    {
      fullPrompt := SubmitPrompt(instructions, prompt);
      outcome := answer(fullPrompt);
      if outcome.Answered? {
        RecordReply(outcome.result);
      }
    }
  }
}
