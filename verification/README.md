# Chat client update loop, modelled in Dafny

The application is a desktop chat client for a locally hosted language
model. Its behaviour lives in one place: `ChatApp::update` in `src/main.rs`,
which takes the current application state and one of eleven messages and
produces the next state. A message can also cause one effect. That effect is
either an asynchronous chat-completion request carrying the role-tagged
history, or a rewrite of the saved-conversations file.

This project models that state machine as pure functions:

- `base.dfy` (`Base`) holds Rust's `Option` and `Result`.
- `text.dfy` (`Text`) holds `char::is_whitespace` and `str::trim`. The send and save guards use them.
- `conversations.dfy` (`Conversations`) holds `ChatMessage` and `SavedConversation`. It also holds the list operations on the saved collection: `position` by name, upsert-by-name and `Vec::remove`.
- `lm_client.dfy` (`LmClient`) holds the `{role, content}` history the application hands to the inference client.
- `chat_app.dfy` (`ChatApp`) holds the state record, its start-up value, the `Message` enum (`Event`) and the effects (`Command`). It has one handler per message variant and `Update`, which dispatches to them. It also has `Deliver`, which turns the client's reply into the `MessageReceived` event.
- `chat_app_properties.dfy` (`ChatAppProperties`) holds properties that span several events. It also replays an event sequence against a model of the conversations file and of the requests sent, which yields session-long invariants.

The clock reading (`Local::now()`) is a parameter, `now`. The HTTP call comes
back as the value `Send(history)`. Each `fs::write` of the collection comes
back as the value `Persist(saved)`. Reading the file at start-up is the
parameter of `Init`. That parameter is `None` when the file is missing or
does not parse.

Three behaviours of `update` are worth noting:

- The save-name buffer is replaced whether or not the dialog is visible (`src/main.rs:178-181`).
- Loading or deleting with an out-of-range index is silently ignored (`src/main.rs:155`, `src/main.rs:162`).
- The error text that reaches the transcript already carries the prefix `Błąd komunikacji z LM Studio: `, which is added in the asynchronous closure (`src/main.rs:127`).

## Model

| member | source | states |
|---|---|---|
| `Text.TrimStart` | src/main.rs:101 | the result is the suffix of the input left after dropping every leading whitespace character; it is empty or starts with a non-whitespace character |
| `Text.TrimEnd` | src/main.rs:183 | the result is the prefix left after dropping every trailing whitespace character; it is empty or ends with a non-whitespace character |
| `Text.TrimEmptyIffBlank` | src/main.rs:101 | `trim().is_empty()` holds exactly when every character of the string is whitespace |
| `Text.TrimEndsAreNotWhitespace` | src/main.rs:183 | a non-empty trimmed string begins and ends with a non-whitespace character |
| `Conversations.Position` | src/main.rs:190-192 | returns the index of the first entry with the given name, or nothing exactly when no entry has that name |
| `Conversations.PositionIsFirstMatch` | src/main.rs:190-192 | an index that holds the name, with no earlier index holding it, is the position found |
| `Conversations.Upsert` | src/main.rs:189-196 | an existing name is replaced in place at its first index with the length unchanged and every other entry untouched; a new name is appended at the end with everything before it untouched |
| `Conversations.RemoveAt` | src/main.rs:163 | removes exactly the entry at the index: length drops by one, earlier entries stay put, later ones shift down by one |
| `Conversations.UpsertThenFind` | src/main.rs:184-196 | after an upsert the name is found, at its old index or at the end, and leads to the stored conversation |
| `Conversations.UpsertIdempotent` | src/main.rs:189-196 | upserting the same conversation twice equals upserting it once, so a repeated save never duplicates |
| `Conversations.UpsertNames` | src/main.rs:189-196 | an upsert adds exactly the saved name to the set of names |
| `Conversations.UpsertKeepsNamesUnique` | src/main.rs:189-196 | if names were unique before an upsert they are unique after it |
| `Conversations.RemoveAtNames` | src/main.rs:161-166 | removal keeps names unique and loses exactly the removed entry's name |
| `Conversations.RemoveAtMultiset` | src/main.rs:163 | the remaining entries plus the removed one are the original collection as a multiset |
| `LmClient.History` | src/main.rs:112-119 | one entry per transcript message in order, with the same content, role "user" exactly for user messages and "assistant" exactly for the others |
| `LmClient.HistoryAppend` | src/main.rs:112-119 | the history of a concatenated transcript is the concatenation of the histories |
| `ChatApp.Init` | src/main.rs:30-42 | empty transcript and buffers, default name "Nowa rozmowa", dialog hidden, and the collection read from the file or empty when it was missing or unreadable |
| `ChatApp.Deliver` | src/main.rs:123-131 | a successful reply is delivered unchanged; a failure becomes an error whose text is the fixed prefix followed by the client's description |
| `ChatAppProperties.DeliveredErrorText` | src/main.rs:125-128 | the text a failed call leaves is exactly the fixed prefix followed by the client's description |
| `ChatApp.OnInputChanged` | src/main.rs:96-99 | the input buffer takes the new value, nothing else changes, no effect |
| `ChatApp.OnSendMessage` | src/main.rs:100-134 | blank input: state unchanged and no effect; otherwise one user message with the untrimmed input and the clock reading is appended, the buffer is cleared, nothing else changes, and the request carries one correctly role-tagged entry per new-transcript message, ending with the user's input |
| `ChatApp.OnMessageReceived` | src/main.rs:135-148 | exactly one non-user message stamped with the clock reading is appended, carrying the reply or the error text unchanged; nothing else changes, no effect |
| `ChatApp.OnNewConversation` | src/main.rs:149-153 | transcript emptied and name reset to "Nowa rozmowa"; nothing else changes |
| `ChatApp.OnLoadConversation` | src/main.rs:154-160 | an out-of-range index changes nothing; a valid one copies that entry's messages and name into the transcript and display name, and leaves the collection and the other fields alone |
| `ChatApp.OnDeleteConversation` | src/main.rs:161-167 | an out-of-range index changes nothing and persists nothing; a valid one removes exactly that entry keeping the others' order, persists the new collection once, changes no other field, and keeps names unique |
| `ChatApp.OnShowSaveDialog` | src/main.rs:168-172 | dialog shown and name buffer pre-filled with the current name; nothing else changes |
| `ChatApp.OnHideSaveDialog` | src/main.rs:173-177 | dialog hidden and name buffer cleared; nothing else changes |
| `ChatApp.OnSaveNameChanged` | src/main.rs:178-181 | the name buffer takes the new value; nothing else changes |
| `ChatApp.OnConfirmSave` | src/main.rs:182-204 | blank name or empty transcript: nothing changes and nothing is persisted; otherwise the first entry with that name is replaced in place or the conversation is appended, other entries stay put, the display name becomes the saved name, the dialog closes, the buffer clears, the new collection is persisted once, and unique names stay unique |
| `ChatApp.OnClearChat` | src/main.rs:205-208 | only the transcript is emptied |
| `ChatApp.Update` | src/main.rs:94-210 | for every message: a persist carries the collection of the new state, the collection never changes without a persist, only a send issues a request and it carries the new transcript's history, and unique names stay unique |
| `ChatAppProperties.SendIsNoOpIffBlank` | src/main.rs:100-133 | a send leaves the state unchanged with no request exactly when the input is whitespace only |
| `ChatAppProperties.ConfirmSavePersistsIff` | src/main.rs:182-203 | a confirm-save writes the file exactly when the name is not blank and the transcript is not empty |
| `ChatAppProperties.SendThenReceive` | src/main.rs:100-147 | a send followed by the reply adds exactly the user's turn and then one assistant message with the reply, or with the prefixed error text |
| `ChatAppProperties.SendExtendsHistory` | src/main.rs:108-119 | the request a send issues is the earlier transcript's history plus one user entry holding the input |
| `ChatAppProperties.SaveThenLoadRestores` | src/main.rs:154-201 | after a save, loading the entry the saved name leads to restores the same transcript and name and leaves the collection alone |
| `ChatAppProperties.ConfirmedSaveIsFound` | src/main.rs:184-196 | after a save, the saved name leads to the conversation just stored |
| `ChatAppProperties.SaveAgainChangesNothing` | src/main.rs:168-201 | opening the dialog and confirming a second time, with nothing changed in between, leaves the state exactly as the first save left it |
| `ChatAppProperties.ShowThenConfirmUsesCurrentName` | src/main.rs:168-201 | opening the dialog and confirming saves under the current display name |
| `ChatAppProperties.ShowThenHide` | src/main.rs:168-177 | opening then closing the dialog only hides it and clears the buffer |
| `ChatAppProperties.NewConversationIsClearAndRename` | src/main.rs:149-153 | a new conversation equals a cleared chat with the default name |
| `ChatAppProperties.DeleteRemovesOne` | src/main.rs:161-166 | an out-of-range delete is a no-op with no write; an in-range delete loses exactly the chosen entry, as a multiset |
| `ChatAppProperties.Apply` | src/main.rs:94-210 | performing one update's effect: the application takes the new state; a send appends exactly its history to the recorded requests, earlier requests kept; a persist overwrites the file with its collection, and without one the file is untouched |
| `ChatAppProperties.Start` | src/main.rs:81-88 | at start-up the application is the start-up state built from what the file yielded, the file and the application hold the same collection, and no request has been sent |
| `ChatAppProperties.ApplyKeepsRequestsEndingWithUser` | src/main.rs:100-131 | one step keeps every recorded request ending with a user turn |
| `ChatAppProperties.DiskMirrorsMemory` | src/main.rs:238-242 | after any event sequence the file holds exactly the in-memory collection, if it did at the start |
| `ChatAppProperties.RestartRestoresCollection` | src/main.rs:244-252 | restarting after any session reloads the collection the session ended with |
| `ChatAppProperties.NamesStayUnique` | src/main.rs:182-196 | names that start unique stay unique through any event sequence |
| `ChatAppProperties.RequestsAlwaysEndWithUser` | src/main.rs:100-131 | every request sent to the inference server ends with a user turn |
| `ChatAppProperties.EmptyTranscriptSaveScenario` | src/main.rs:183 | confirming a save with an empty transcript, under any name such as "Test", changes nothing and persists nothing |
| `ChatAppProperties.FailureIsVisibleScenario` | src/main.rs:123-146 | a failed call appends a non-user message whose text ends with the client's error description |

## Left out

- The view layer is not modelled: `view`, `theme`, `title`, `main` and the widget builders in `src/UI/`. They only build widgets and configure the window.
- The HTTP client in `src/lm_studio_client/mod.rs` is not modelled. The request body, the float temperature, the 20-minute timeout and "first choice or empty string" all sit behind network I/O. The model stops at the history the request carries, and at the reply or error text the call hands back.
- The call at `src/main.rs:125` passes a model name that the client's `send_message` does not take. The model keeps only the history argument.
- JSON serialisation with serde, and the file system, are not modelled. Each write is assumed to succeed; the source swallows write failures. Reading is the `Option` given to `Init`. The serde round trip is not proved: the derived serialisation code is not part of this model.
- The clock is not modelled: the formatted `%H:%M` reading is the `now` string parameter.
- `Command::perform` scheduling and overlapping in-flight requests are not modelled. The replay handles one event at a time, and a reply is delivered as an ordinary `MessageReceived` event wherever it falls in the sequence.
- `usize` indices are unbounded naturals. Every index at or past the collection's length is out of range in either reading, so nothing depends on the width.
