# Tarot reading flow: a Dafny model

This project models the core of a single-file Streamlit tarot app (`app.py`).
The user types a question on the welcome page and picks a topic area on the
selector page. Drawing a card picks one of the 22 major-arcana records and asks a
text-completion provider (DeepSeek's chat endpoint) for a reading. When the
call fails in any way, the reading is a fixed fallback template instead. The
result page shows the card and its reading. The page buttons change the keys
kept in `st.session_state`.

The model has six modules, one file each:

- `wrappers.dfy` (`Wrappers`): `Option`, used for session keys that may be absent.
- `text.dfy` (`Text`): Python's `str.strip()`, using the whitespace set of `str.isspace()`. Also `sep.join(parts)`, and facts about where a substring occurs.
- `deck.dfy` (`Deck`): the constant `TAROT_DECK` and the card a draw picks.
- `provider.dfy` (`Provider`): the request sent to the provider. It also holds the abstract outcome of the one call: the call raised, or it returned a status and a body. A decoded body is a small JSON value. The module extracts `choices[0].message.content` from it the way the Python expression succeeds or raises.
- `reading.dfy` (`Reading`): the system prompt, the user prompt, the fallback reading and `get_tarot_reading`.
- `session.dfy` (`Session`): the session state machine, in two forms.
  - `State` is the session as a value. Its member functions are the transitions; `Run` is one execution of `main`; `Trace` is a sequence of runs.
  - `SessionState` is a class whose fields are the session keys. The handlers change those fields in place. Each method is proved to perform the matching `State` transition. The deletion loops stay loops, in `DeleteKeys`.

`st.rerun()` is modelled as the handler returning. The run that follows is a
separate `Run(NoClick)`. A click on a button that the current page does not
show does nothing.

Where the code differs from what one might expect, the model follows the code:

- The chosen area is stored but never passed to the generator. There is one fallback template for every area, and no default-area lookup exists.
- "Ask a question" returns to the welcome page, although the comment beside it says the selector. It keeps `question` and `area`.
- The result guard treats an empty reading as missing. A provider reply whose content is only whitespace is stripped to `""`. The next run then redirects to the welcome page and leaves the card and the empty reading stored.

## Model

| member | source | states |
|---|---|---|
| `Deck.DeckWellFormed` | app.py:17-40 | The deck has exactly 22 records, no two with the same name, and every card has exactly 3 keywords. |
| `Deck.NamesAreSingleLine` | app.py:17-40 | No card name contains a line break. |
| `Deck.Draw` | app.py:465 | The card picked by `random.choice` for any position is a member of the deck. |
| `Wrappers.Option.GetOr` | app.py:466 | `session_state.get('question', '')`: the stored value when present, otherwise the default. |
| `Text.TrimLeft` | app.py:401 | `lstrip`: the result is a suffix of the input; everything cut off is whitespace; the result does not start with whitespace. |
| `Text.TrimRight` | app.py:401 | `rstrip`: the result is a prefix of the input; everything cut off is whitespace; the result does not end with whitespace. |
| `Text.Strip` | app.py:103 | `strip()`: the result is no longer than the input and neither starts nor ends with whitespace. |
| `Text.StripSlice` | app.py:103 | The stripped text is a slice `s[i..j]` of the input with only whitespace before `i` and from `j` on. With `Strip`'s own contract this determines `strip()` uniquely. |
| `Text.StripEmptyIffAllSpace` | app.py:401 | `question.strip()` is falsy exactly when the question is whitespace only. Both directions are proved. |
| `Text.StripIdempotent` | app.py:103 | Stripping an already stripped text changes nothing. |
| `Text.Join` | app.py:64 | `sep.join(parts)`. It has no contract of its own; `Text.JoinLayout` specifies it. |
| `Text.JoinLayout` | app.py:64 | `', '.join(keywords)`: every keyword appears in order at its computed offset, a separator follows every keyword but the last, and nothing follows the last. |
| `Provider.Field` | app.py:103 | The subscript `j[key]`: a value only on an object that has the key. It has no contract of its own; `Provider.FirstChoiceContent` specifies the whole path. |
| `Provider.First` | app.py:103 | The subscript `[0]` on `choices`: a value only on a non-empty array. It has no contract of its own; `Provider.FirstChoiceContent` specifies the whole path. |
| `Provider.FirstChoiceContent` | app.py:102-103 | `result['choices'][0]['message']['content']` yields text exactly when each step finds an object key, a non-empty array or a string, as the path requires. It then yields that string. |
| `Provider.ExtractsCompletion` | app.py:103 | Extraction recovers the text from a well-formed completion body, whatever extra fields it carries at each level. |
| `Provider.ReplyText` | app.py:101-103 | The call produces text only for status 200 with a decodable body with a readable first choice, and it always does then. |
| `Provider.BuildRequest` | app.py:78-99 | The key is sent as a bearer header, with a JSON content type. The system prompt and the user prompt are sent unchanged, in that order. The endpoint, model name, 600-token bound and 30-second timeout are fixed. |
| `Reading.UserPrompt` | app.py:62-73 | The user prompt template. It has no contract of its own; `Reading.UserPromptEmbeds` and the two `UserPromptDetermines` lemmas specify it. |
| `Reading.UserPromptEmbeds` | app.py:62-73 | The user prompt holds the card name, the joined keywords and the question verbatim after their labels. The question runs up to the fixed tail. |
| `Reading.UserPromptDeterminesQuestion` | app.py:62-65 | For the same card, two equal prompts have equal questions: interpolation loses nothing. |
| `Reading.UserPromptDeterminesCardName` | app.py:62-65 | For card names without a line break, equal prompts have equal card names: the name ends at the line break that starts the keywords label. |
| `Reading.UserPromptDeterminesDraw` | app.py:62-65 | Equal prompts for two deck cards mean the same card and the same question. |
| `Reading.ReadingRequest` | app.py:59-99 | The request for a draw carries the fixed system instruction as the system message, then the user prompt for that card and question as the user message, with the key as bearer header. |
| `Reading.KeyOnlyInHeader` | app.py:76-92 | The API key reaches the request only through the authorization header: two requests that differ in their key agree in every other field. |
| `Reading.FallbackReading` | app.py:110-112 | The fallback template, the same for every area. It has no contract of its own; the `Fallback` lemmas below specify it. |
| `Reading.FallbackNamesCardTwice` | app.py:112 | The fallback reading names the card at the start and again at a later position. |
| `Reading.FallbackListsKeywords` | app.py:112 | The joined keywords follow the opening name and "為您帶來". |
| `Reading.FallbackQuotesQuestion` | app.py:112 | The question appears verbatim inside 「」. What follows it has a length fixed by the card alone. |
| `Reading.FallbackListsEveryKeyword` | app.py:112 | Every keyword of the card appears in the fallback reading, in the card's order. |
| `Reading.FallbackDeterminesQuestion` | app.py:110-112 | For the same card, two equal fallback readings have equal questions. |
| `Reading.TarotReading` | app.py:57-108 | The result is the fallback reading on a missing secret, a transport failure, any status but 200, an undecodable body or a body without readable content. Otherwise it is the stripped content. |
| `Session.State.Delete` | app.py:424-425 | Deleting a key leaves it absent, and every other key and `page` keep their values. Deleting an absent key changes nothing. |
| `Session.State.DeleteAll` | app.py:509-511 | After the deletion loop, exactly the listed keys are absent and every other key keeps its value. |
| `Session.State.Init` | app.py:567-568 | `page` is set to "welcome" only when absent. An existing page is never overwritten. |
| `Session.State.StartReading` | app.py:400-406 | A whitespace-only question leaves the session unchanged. Any other question is stored raw and untrimmed, with page "selector". The invariant is kept. |
| `Session.State.CloseSelector` | app.py:423-427 | Only `question` is deleted, and the page becomes "welcome". |
| `Session.State.DrawCard` | app.py:462-478 | Sets a deck card, its reading for the stored question (or ""), and the area together, with page "result". `question` is kept. The invariant is kept. |
| `Session.State.ResultMissing` | app.py:497 | The truth test `not selected_card or not interpretation`. It has no contract of its own; `Session.State.ResultGuard` and `Session.SessionState.RenderResultGuard` specify it. |
| `Session.State.ResultGuard` | app.py:494-500 | A missing card, or a missing or empty reading, redirects to "welcome" and changes nothing else. Otherwise nothing changes. |
| `Session.State.CloseResult` | app.py:507-513 | `question`, `selected_card`, `interpretation` and `area` are all absent, and the page is "welcome". |
| `Session.State.AskAgain` | app.py:551-557 | Only the card and the reading are deleted. `question` and `area` are kept, and the page is "welcome". |
| `Session.State.Run` | app.py:565-576 | After one run of `main`, `page` is present, and the invariant is kept whatever was clicked. |
| `Session.TraceKeepsValid` | app.py:565-576 | The invariant holds after any sequence of runs from a state that satisfies it. |
| `Session.ReachableStatesAreValid` | app.py:401-404 | In every state reachable from a new session, "selector" implies a non-blank question and "result" implies a card and a reading. |
| `Session.DrawShapeIndependentOfOutcome` | app.py:468-477 | A failed provider call and a successful one leave the same session, except for the reading text. |
| `Session.ReadingIgnoresArea` | app.py:468-476 | The reading does not depend on the chosen area. |
| `Session.SessionState.constructor` | app.py:567 | A new session has no keys. |
| `Session.SessionState.Delete` | app.py:424-425 | The in-place `del` performs `State.Delete`. |
| `Session.SessionState.DeleteKeys` | app.py:553-555 | The in-place deletion loop performs `State.DeleteAll`. |
| `Session.SessionState.Init` | app.py:567-568 | Performs `State.Init` in place. |
| `Session.SessionState.StartReading` | app.py:400-406 | Performs `State.StartReading`. It reports acceptance exactly when the question is not whitespace only. |
| `Session.SessionState.CloseSelector` | app.py:423-427 | Performs `State.CloseSelector` in place. |
| `Session.SessionState.DrawCard` | app.py:462-478 | Performs `State.DrawCard` in place. |
| `Session.SessionState.RenderResultGuard` | app.py:494-500 | Performs `State.ResultGuard`. It reports whether the page redirected. |
| `Session.SessionState.CloseResult` | app.py:507-513 | Performs `State.CloseResult` through the deletion loop. |
| `Session.SessionState.AskAgain` | app.py:551-557 | Performs `State.AskAgain` through the deletion loop. |
| `Session.SessionState.Run` | app.py:565-576 | One run of `main` performs `State.Run` and keeps the invariant. |

## Left out

- `apply_modern_dark_theme` and every `st.markdown`, `st.columns`, `st.image`, `st.spinner` and `st.error` call are presentation. The error shown for a blank question appears only as `accepted == false`.
- `st.rerun()` is framework control flow. It is modelled as the handler returning.
- `load_card_image` reads files through PIL. The image name is kept on each card but is never resolved.
- The HTTP request, `st.secrets` and JSON decoding are outside the model. What they can produce is the `Outcome` parameter: a missing secret, a transport failure or timeout, or a status with a body that may be undecodable. The API key is a parameter of `ReadingRequest`.
- `random.choice` is an arbitrary position in `[0, 22)` passed with the click. A uniform distribution is not something the model can state.
- `temperature` and `top_p` are fixed floats passed straight through. They are not part of `Request`.
- The JSON value holds integer numbers only. Fractional numbers are not modelled. This changes nothing on the extraction path, where any number fails alike.
- `Outcome` is not tied to the request: the model does not relate what the provider answers to the `ReadingRequest` that was sent. The request is modelled for what it carries.
- `Reading.SystemPrompt` is a constant (app.py:59-60), not a function. The `Reading.ReadingRequest` row covers it.
- Streamlit's own widget keys (`welcome_question`, `area_selector`) are not modelled. The text box content and the selectbox value are passed with the click of the run that reads them.
- Determinism of the fallback reading holds by construction, since it is a function. No separate lemma states it.
