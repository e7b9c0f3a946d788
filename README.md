# Contract chatbot: chunking, history and turn log

This project models, in Dafny, the deterministic core of a contract-lookup
chatbot. The chatbot loads a file of rental-contract data and flattens it into
one text chunk per company. It then answers questions by sending a language
model one prompt. That prompt holds every chunk, the current date, the whole
conversation so far and the new question.

The model has four modules:

- `Text` (`text.dfy`): Python's `sep.join(items)` as `Join`, and `Occurs`
  ("`s` is a substring of `t`") with the lemmas that move occurrences around.
- `ContractChunks` (`chunks.dfy`): the contract flattener
  `create_chunks_from_json`. A field value is `Scalar`, `List` or `Dict` (one
  level deep). Each leaf is already its text form. Mappings are sequences of
  pairs, so their order is the file's key order. The recursive functions
  `Chunks`, `Chunk`, `RenderFields` and `RenderField` are the specification.
  The method `CreateChunksFromJson` and its helpers are the nested loops of
  the source, proved equal to those functions.
- `Conversation` (`conversation.dfy`): `build_conversation_history`, as the
  loop `BuildConversationHistory` proved equal to the recursive `History`.
- `ChatTurn` (`chat_turn.dfy`): the instruction block that inlines the chunks
  joined by newlines and the date (`Instructions`), the full prompt
  (`FullPrompt`) and the session's message log. The log is a class
  `ChatSession` whose field `messages` only grows. The model call is the
  parameter `answer` of `HandleTurn`. Its result `Failed` stands for the
  exception that aborts a turn: the user's message then stays in the log with
  no reply after it.

The code and the system's design description disagree in one place. The
description calls the field mapping arbitrarily deep. The code expands only one level: a
mapping's sub-values are written with their text form and not recursed
into. The model follows the code, because `Dict` holds `(string, string)`
pairs.

One more observation. `TurnPromptShape` shows that the user's question
appears twice in the full prompt: first as the last `User: ` line of the
history, then after `User question: `. That is what the code does, and the
model keeps it.

## Model

| member | source | states |
|---|---|---|
| `ContractChunks.CreateChunksFromJson` | teste_gpt.py:19-40 | the loop builds exactly one chunk per company, in input order; chunk `i` is `Chunk(data[i])` |
| `ContractChunks.BuildChunk` | teste_gpt.py:23-37 | the loop over one company's fields returns exactly `Chunk(r)`: the line `Empresa: <name>\n` followed by the renderings of its fields in order |
| `ContractChunks.AppendField` | teste_gpt.py:28-36 | a field extends the chunk by exactly its rendering, chosen by list / mapping / scalar in the source's order of tests |
| `ContractChunks.AppendEntries` | teste_gpt.py:32-34 | the loop over a mapping appends exactly one indented `sub_key: sub_value` line per entry, in order |
| `ContractChunks.ChunksOnePerRecord` | teste_gpt.py:22-38 | the number of chunks equals the number of companies, and chunk `i` is company `i`'s chunk |
| `ContractChunks.ChunksSnoc` | teste_gpt.py:38 | appending a company appends exactly its chunk and leaves the earlier chunks unchanged |
| `ContractChunks.RenderFieldsConcat` | teste_gpt.py:27-36 | the rendering of a field list is the concatenation of the renderings of its parts, in order |
| `ContractChunks.RenderFieldsPrefix` | teste_gpt.py:27-36 | rendering one more field of a company adds exactly that field's rendering at the end |
| `ContractChunks.RenderFieldsAt` | teste_gpt.py:27-36 | the fields before `j`, field `j` and the fields after `j` render in that order |
| `ContractChunks.RenderEntriesPrefix` | teste_gpt.py:33-34 | rendering one more sub-entry adds exactly its indented line at the end |
| `ContractChunks.RenderEntriesSnoc` | teste_gpt.py:33-34 | one more sub-entry adds exactly `  key: value\n` at the end |
| `ContractChunks.ChunkFieldAt` | teste_gpt.py:25-37 | a chunk is its header, the fields before `j`, field `j`'s rendering, then the fields after `j` |
| `ContractChunks.JoinAsBullets` | teste_gpt.py:29-30 | for a non-empty list, `- ` + join with `\n- ` + `\n` is one `- item\n` line per item, in order |
| `ContractChunks.ListRendering` | teste_gpt.py:28-30 | a list field renders as `field: \n` then one bullet line per item; an empty list still gives `field: \n- \n` |
| `ContractChunks.BulletsHaveItem` | teste_gpt.py:29-30 | every item of a list has its own `- item\n` line in the bullets |
| `ContractChunks.EntriesHaveLine` | teste_gpt.py:33-34 | every sub-entry of a mapping has its own indented line in the mapping's rendering |
| `ContractChunks.FieldRenderingInChunk` | teste_gpt.py:27-37 | every field's rendering is a substring of its company's chunk |
| `ContractChunks.RenderFieldStartsWithName` | teste_gpt.py:28-36 | every field's rendering, whether list, mapping or scalar, opens with the field name and `: ` |
| `ContractChunks.FieldNameInChunk` | teste_gpt.py:27-36 | every field name, followed by `: `, is a substring of its company's chunk |
| `ContractChunks.ListItemInChunk` | teste_gpt.py:28-30 | every element of a list field appears in the chunk as its own bullet line |
| `ContractChunks.DictEntryInChunk` | teste_gpt.py:31-34 | every sub-key of a mapping field appears in the chunk with its sub-value on an indented line |
| `ContractChunks.ExampleLojaA` | teste_gpt.py:19-40 | the company `Loja A` with a `cnpj` field and a two-item `escopos` list gives exactly one chunk, which opens with `Empresa: Loja A` |
| `ContractChunks.ExampleLojaAScalar` | teste_gpt.py:35-36 | that chunk contains the line `cnpj: 1.234` |
| `ContractChunks.ExampleLojaAList` | teste_gpt.py:28-30 | that chunk contains the bullet lines `- roupas` and `- sapatos` |
| `Text.JoinHasItem` | teste_gpt.py:90 | every item of a newline join is a substring of the joined text |
| `Conversation.LineShape` | teste_gpt.py:76-81 | a line starts with `User: ` if and only if the role is `"user"`; otherwise it starts with `Assistant: `; every line ends with the content and a newline |
| `Conversation.HistorySnoc` | teste_gpt.py:73-82 | the history of no messages is empty, and one more message adds exactly its line at the end (prefix-monotone) |
| `Conversation.HistoryPrefix` | teste_gpt.py:75-81 | serialising one more message of the list adds exactly that message's line |
| `Conversation.HistoryConcat` | teste_gpt.py:75-81 | the history of two message lists put together is the two histories put together |
| `Conversation.HistoryLineAt` | teste_gpt.py:75-81 | message `i`'s line sits between the history of the earlier messages and that of the later ones |
| `Conversation.HistoryHasLine` | teste_gpt.py:75-81 | every message's line is a substring of the history |
| `Conversation.BuildConversationHistory` | teste_gpt.py:73-82 | the loop returns exactly `History(messages)` |
| `ChatTurn.InstructionsHoldCorpus` | teste_gpt.py:85-143 | the instruction block contains the newline join of all chunks, every single chunk and the current date |
| `ChatTurn.InstructionsHoldDate` | teste_gpt.py:135 | the instruction block contains the current date |
| `ChatTurn.InstructionsHoldChunk` | teste_gpt.py:90 | every chunk passed in is a substring of the instruction block |
| `ChatTurn.InstructionsHoldEveryContract` | teste_gpt.py:51-90 | the chunk of every company in the data is a substring of the instructions built from that data |
| `ChatTurn.TurnPromptShape` | teste_gpt.py:147-153 | the full prompt is the instructions, a newline, the earlier history, `User: <prompt>\n`, then `\nUser question: <prompt>` |
| `ChatTurn.AfterTurnAppends` | teste_gpt.py:146-172 | a turn keeps the earlier messages as a prefix, then adds the user's message and, only if answered, the reply |
| `ChatTurn.AfterTurnsAppends` | teste_gpt.py:146-172 | any run of turns keeps the earlier log as a prefix |
| `ChatTurn.AnsweredTurnAlternates` | teste_gpt.py:147-172 | an answered turn keeps an alternating user/assistant log alternating |
| `ChatTurn.AnsweredTurnsAlternate` | teste_gpt.py:146-172 | N answered turns add exactly 2N messages and keep an alternating user/assistant log alternating |
| `ChatTurn.AnsweredTurnsInOrder` | teste_gpt.py:146-172 | after N answered turns, turn `k`'s prompt and answer sit at positions `2k` and `2k + 1` after the earlier log |
| `ChatTurn.FailedTurnUnanswered` | teste_gpt.py:147-166 | a failed model call leaves an odd-length log whose last message is the user's, unanswered |
| `ChatTurn.ChatSession.constructor` | teste_gpt.py:64-65 | a new session has no messages |
| `ChatTurn.ChatSession.SubmitPrompt` | teste_gpt.py:147-153 | the user's message is appended first; the full prompt is built from the history that now ends with `User: <prompt>\n` |
| `ChatTurn.ChatSession.RecordReply` | teste_gpt.py:172 | the assistant's reply is appended and nothing else changes |
| `ChatTurn.ChatSession.HandleTurn` | teste_gpt.py:146-172 | a whole turn: the new log is `AfterTurn` of the old log, the prompt and the outcome of the model call on the full prompt |

## Left out

- Loading the contract file and reading the API key (teste_gpt.py:12-17): file and secret-store I/O. The parsed data is an input value, a sequence of `(company, fields)` pairs.
- The current date (teste_gpt.py:15): clock access. It is a string parameter of `Instructions`.
- Python's `str()` of non-string leaves (numbers, booleans, `None`, containers inside lists or mapping values): runtime formatting rules. Every leaf arrives already as text.
- Values the code would reject at run time, such as a company whose value is not a mapping (`.items()` would raise): the `Record` type cannot express them.
- The natural-language text of the instruction block (teste_gpt.py:85-143): it is the four opaque strings of `Template`. Only where the joined chunks and the date go is modelled.
- Embedding, the vector store and its caching (teste_gpt.py:42-61): calls into external services with no visible logic.
- The language-model call and the retrieval chain (teste_gpt.py:156-169): a network call with opaque semantics. It is the function parameter `answer`, and a raised exception is the outcome `Failed`.
- The chat UI: title, input box, redrawing the log on every rerun and rendering messages (teste_gpt.py:55, 67-70, 148-149, 165, 171). This is UI-framework behaviour.
- Python's dictionaries keep each key once. The model does not require distinct company or field names, because the rendering code does not depend on it.
