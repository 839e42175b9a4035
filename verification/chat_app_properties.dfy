/**
 * Properties that relate several turns of the update loop, and a replay of
 * an event sequence against a model of the conversations file and of the
 * requests sent to the inference server.
 */
module ChatAppProperties {
  import opened Base
  import opened Text
  import opened Conversations
  import opened LmClient
  import opened ChatApp

  /** A send is a no-op exactly when the input buffer is whitespace only. */
  lemma SendIsNoOpIffBlank(s: State, now: string)
    ensures Update(s, SendMessage, now) == Step(s, None) <==> IsBlank(s.inputValue)
    ensures Update(s, SendMessage, now).command.None? <==> IsBlank(s.inputValue)
  {
    if !IsBlank(s.inputValue) {
      assert |Update(s, SendMessage, now).state.messages| == |s.messages| + 1;
    }
  }

  /** A confirm-save is carried out exactly when the name is not blank and the transcript is not empty. */
  lemma ConfirmSavePersistsIff(s: State, now: string)
    ensures Update(s, ConfirmSave, now).command.Some? <==> !IsBlank(s.saveNameInput) && s.messages != []
  {}

  /** A send followed by the reply leaves the user's turn and then the model's answer at the end of the transcript. */
  lemma SendThenReceive(s: State, reply: Result<string, string>, t1: string, t2: string)
    requires !IsBlank(s.inputValue)
    ensures var s1 := Update(s, SendMessage, t1).state;
      var s2 := Update(s1, Deliver(reply), t2).state;
      var n := |s.messages|;
      && |s2.messages| == n + 2
      && s2.messages[..n] == s.messages
      && s2.messages[n] == ChatMessage(s.inputValue, true, t1)
      && !s2.messages[n + 1].isUser
      && s2.messages[n + 1].timestamp == t2
      && (reply.Ok? ==> s2.messages[n + 1].content == reply.value)
      && (reply.Err? ==> s2.messages[n + 1].content == CommunicationErrorPrefix + reply.error)
      && s2.inputValue == []
  {
    SendIsHandledByOnSend(s, t1);
    var s1 := OnSendMessage(s, t1).state;
    var e := Deliver(reply);
    ReceiveIsHandledByOnReceive(s1, e.result, t2);
    var s2 := OnMessageReceived(s1, e.result, t2).state;
    var n := |s.messages|;
    assert s1.messages == s.messages + [ChatMessage(s.inputValue, true, t1)] by {
      assert s1.messages == s1.messages[..n] + [s1.messages[n]];
    }
    assert s2.messages[..n + 1] == s1.messages;
    assert s2.messages[..n] == s1.messages[..n];
    DeliveredErrorText(reply);
  }

  /** The text a failed call leaves is the fixed prefix followed by the client's description. */
  lemma DeliveredErrorText(reply: Result<string, string>)
    ensures reply.Err? ==> Deliver(reply).result.error == CommunicationErrorPrefix + reply.error
  {
    if reply.Err? {
      var err := Deliver(reply).result.error;
      assert err == err[..|CommunicationErrorPrefix|] + err[|CommunicationErrorPrefix|..];
    }
  }

  /** The history a send carries extends the history of the earlier transcript by the user's turn. */
  lemma SendExtendsHistory(s: State, now: string)
    requires !IsBlank(s.inputValue)
    ensures Update(s, SendMessage, now).command == Some(Send(History(s.messages) + [HistoryEntry(UserRole, s.inputValue)]))
  {
    var r := Update(s, SendMessage, now);
    var m := ChatMessage(s.inputValue, true, now);
    assert r.state.messages == s.messages + [m];
    HistoryAppend(s.messages, [m]);
    assert History([m]) == [HistoryEntry(UserRole, s.inputValue)];
  }

  /** After a successful save, loading the entry the name leads to restores the transcript and its name. */
  lemma SaveThenLoadRestores(s: State, t1: string, t2: string)
    requires CanSave(s)
    ensures var s1 := Update(s, ConfirmSave, t1).state;
      && Position(s1.savedConversations, s.saveNameInput).Some?
      && var s2 := Update(s1, LoadConversation(Position(s1.savedConversations, s.saveNameInput).value), t2).state;
      && s2.messages == s.messages
      && s2.currentConversationName == s.saveNameInput
      && s2.savedConversations == s1.savedConversations
  {
    ConfirmIsHandledByOnConfirm(s, t1);
    ConfirmedSaveIsFound(s);
    var s1 := OnConfirmSave(s).state;
    var i := Position(s1.savedConversations, s.saveNameInput).value;
    assert s1.savedConversations[i].messages == s.messages;
    LoadIsHandledByOnLoad(s1, i, t2);
  }

  /** The saved name leads, in the new collection, to the transcript just saved. */
  lemma ConfirmedSaveIsFound(s: State)
    requires CanSave(s)
    ensures var saved := OnConfirmSave(s).state.savedConversations;
      && Position(saved, s.saveNameInput).Some?
      && saved[Position(saved, s.saveNameInput).value] == SavedConversation(s.saveNameInput, s.messages)
  {
    var c := SavedConversation(s.saveNameInput, s.messages);
    assert OnConfirmSave(s).state.savedConversations == Upsert(s.savedConversations, c) by {
      TrimEmptyIffBlank(s.saveNameInput);
    }
    UpsertThenFind(s.savedConversations, c);
  }

  /** Saving a second time, with nothing changed in between, leaves the state as the first save left it. */
  lemma SaveAgainChangesNothing(s: State, t1: string, t2: string, t3: string, t4: string)
    requires !IsBlank(s.currentConversationName) && s.messages != []
    ensures var s2 := Update(Update(s, ShowSaveDialog, t1).state, ConfirmSave, t2).state;
      var s4 := Update(Update(s2, ShowSaveDialog, t3).state, ConfirmSave, t4).state;
      s4 == s2
  {
    ShowThenConfirm(s, t1, t2);
    var s2 := OnConfirmSave(OnShowSaveDialog(s).state).state;
    var c := SavedConversation(s.currentConversationName, s.messages);
    assert s2.savedConversations == Upsert(s.savedConversations, c) by {
      TrimEmptyIffBlank(s.currentConversationName);
    }
    ShowThenConfirm(s2, t3, t4);
    assert OnConfirmSave(OnShowSaveDialog(s2).state).state.savedConversations == Upsert(s2.savedConversations, c) by {
      TrimEmptyIffBlank(s.currentConversationName);
    }
    UpsertIdempotent(s.savedConversations, c);
  }

  /** Opening the save dialog pre-fills the current name, so confirming saves under that name. */
  lemma ShowThenConfirmUsesCurrentName(s: State, t1: string, t2: string)
    requires !IsBlank(s.currentConversationName) && s.messages != []
    ensures var s1 := Update(s, ShowSaveDialog, t1).state;
      var r := Update(s1, ConfirmSave, t2);
      && r.state.currentConversationName == s.currentConversationName
      && r.command == Some(Persist(Upsert(s.savedConversations, SavedConversation(s.currentConversationName, s.messages))))
  {
    ShowThenConfirm(s, t1, t2);
    TrimEmptyIffBlank(s.currentConversationName);
  }

  /** Opening and then closing the dialog changes nothing but the dialog fields. */
  lemma ShowThenHide(s: State, t1: string, t2: string)
    ensures Update(Update(s, ShowSaveDialog, t1).state, HideSaveDialog, t2)
      == Step(s.(showSaveDialog := false, saveNameInput := []), None)
  {}

  /** A new conversation is a cleared chat with the default name. */
  lemma NewConversationIsClearAndRename(s: State, now: string)
    ensures Update(s, NewConversation, now).state
      == Update(s, ClearChat, now).state.(currentConversationName := DefaultConversationName)
  {}

  /** Deleting in range removes exactly that entry; out of range nothing changes and nothing is written. */
  lemma DeleteRemovesOne(s: State, index: nat, now: string)
    ensures index >= |s.savedConversations| ==> Update(s, DeleteConversation(index), now) == Step(s, None)
    ensures index < |s.savedConversations| ==>
      var saved := Update(s, DeleteConversation(index), now).state.savedConversations;
      multiset(saved) + multiset{s.savedConversations[index]} == multiset(s.savedConversations)
  {
    if index < |s.savedConversations| {
      var saved := Update(s, DeleteConversation(index), now).state.savedConversations;
      assert saved == RemoveAt(s.savedConversations, index);
      RemoveAtMultiset(s.savedConversations, index);
    }
  }

  /** One timed input to the loop: the event and the clock reading it is handled at. */
  datatype Input = Input(event: Event, now: string)

  /**
   * The application together with its surroundings: the collection last
   * written to the conversations file, and every history sent to the
   * inference server, oldest first.
   */
  datatype World = World(app: State, disk: seq<SavedConversation>, outbox: seq<seq<HistoryEntry>>)

  /** Handle one input and carry out its effect. */
  function Apply(w: World, input: Input): (w': World)
    ensures w'.app == Update(w.app, input.event, input.now).state
    ensures |w'.outbox| == |w.outbox| + (if Update(w.app, input.event, input.now).command.Some?
                                          && Update(w.app, input.event, input.now).command.value.Send? then 1 else 0)
    ensures w'.outbox[..|w.outbox|] == w.outbox
    ensures var c := Update(w.app, input.event, input.now).command;
      c.Some? && c.value.Send? ==> w'.outbox[|w.outbox|] == c.value.history
    ensures var c := Update(w.app, input.event, input.now).command;
      c.Some? && c.value.Persist? ==> w'.disk == c.value.saved
    ensures var c := Update(w.app, input.event, input.now).command;
      !(c.Some? && c.value.Persist?) ==> w'.disk == w.disk
  {
    var r := Update(w.app, input.event, input.now);
    match r.command
    case None => w.(app := r.state)
    case Some(Persist(saved)) => World(r.state, saved, w.outbox)
    case Some(Send(history)) => World(r.state, w.disk, w.outbox + [history])
  }

  /** Handle the inputs in order. */
  function Replay(w: World, inputs: seq<Input>): World
    decreases |inputs|
  {
    if |inputs| == 0 then w else Replay(Apply(w, inputs[0]), inputs[1..])
  }

  /** The start of a session: the file's collection is what the application holds. */
  function Start(stored: Option<seq<SavedConversation>>): (w: World)
    ensures w.app == Init(stored)
    ensures w.disk == w.app.savedConversations
    ensures w.outbox == []
  {
    World(Init(stored), stored.GetOr([]), [])
  }

  /** The file always holds the collection the application holds, once it did at the start. */
  lemma {:induction false} DiskMirrorsMemory(w: World, inputs: seq<Input>)
    requires w.disk == w.app.savedConversations
    ensures Replay(w, inputs).disk == Replay(w, inputs).app.savedConversations
    decreases |inputs|
  {
    if |inputs| > 0 {
      DiskMirrorsMemory(Apply(w, inputs[0]), inputs[1..]);
    }
  }

  /** Restarting after any session reloads exactly the collection the session ended with. */
  lemma RestartRestoresCollection(stored: Option<seq<SavedConversation>>, inputs: seq<Input>)
    ensures var w := Replay(Start(stored), inputs);
      Init(Some(w.disk)).savedConversations == w.app.savedConversations
  {
    DiskMirrorsMemory(Start(stored), inputs);
  }

  /** Names that start unique stay unique through any session. */
  lemma {:induction false} NamesStayUnique(w: World, inputs: seq<Input>)
    requires UniqueNames(w.app.savedConversations)
    ensures UniqueNames(Replay(w, inputs).app.savedConversations)
    decreases |inputs|
  {
    if |inputs| > 0 {
      NamesStayUnique(Apply(w, inputs[0]), inputs[1..]);
    }
  }

  /** Every request sent to the inference server ends with a user turn. */
  predicate RequestsEndWithUser(outbox: seq<seq<HistoryEntry>>) {
    forall k :: 0 <= k < |outbox| ==> |outbox[k]| > 0 && outbox[k][|outbox[k]| - 1].role == UserRole
  }

  lemma {:induction false} RequestsAlwaysEndWithUser(w: World, inputs: seq<Input>)
    requires RequestsEndWithUser(w.outbox)
    ensures RequestsEndWithUser(Replay(w, inputs).outbox)
    decreases |inputs|
  {
    if |inputs| > 0 {
      ApplyKeepsRequestsEndingWithUser(w, inputs[0]);
      RequestsAlwaysEndWithUser(Apply(w, inputs[0]), inputs[1..]);
    }
  }

  /** One step keeps every recorded request ending with a user turn. */
  lemma ApplyKeepsRequestsEndingWithUser(w: World, input: Input)
    requires RequestsEndWithUser(w.outbox)
    ensures RequestsEndWithUser(Apply(w, input).outbox)
  {
    var r := Update(w.app, input.event, input.now);
    if input.event == SendMessage {
      SendIsHandledByOnSend(w.app, input.now);
      if r.command.Some? {
        assert Apply(w, input).outbox == w.outbox + [r.command.value.history];
      }
    } else {
      assert Apply(w, input).outbox == w.outbox;
    }
  }

  /** Saving with an empty transcript changes nothing and writes nothing, whatever the name (say "Test"). */
  lemma EmptyTranscriptSaveScenario(s: State, now: string)
    requires s.messages == []
    ensures Update(s, ConfirmSave, now) == Step(s, None)
  {
    ConfirmIsHandledByOnConfirm(s, now);
  }

  /** A failed inference call shows up in the transcript as an assistant message carrying the error. */
  lemma FailureIsVisibleScenario(s: State, error: string, now: string)
    ensures var s1 := Update(s, Deliver(Err(error)), now).state;
      var m := s1.messages[|s1.messages| - 1];
      && !m.isUser
      && m.content[|m.content| - |error|..] == error
  {
    var s1 := Update(s, Deliver(Err(error)), now).state;
    assert s1.messages[|s1.messages| - 1].content == CommunicationErrorPrefix + error;
  }

  // `Update` hands each message to its handler; these steps keep the proofs above small.

  lemma ConfirmIsHandledByOnConfirm(s: State, now: string)
    ensures Update(s, ConfirmSave, now) == OnConfirmSave(s)
  {}

  lemma LoadIsHandledByOnLoad(s: State, i: nat, now: string)
    ensures Update(s, LoadConversation(i), now) == OnLoadConversation(s, i)
  {}

  lemma ShowThenConfirm(s: State, t1: string, t2: string)
    ensures Update(s, ShowSaveDialog, t1) == OnShowSaveDialog(s)
    ensures Update(OnShowSaveDialog(s).state, ConfirmSave, t2) == OnConfirmSave(OnShowSaveDialog(s).state)
  {
    ShowIsHandledByOnShow(s, t1);
    ConfirmIsHandledByOnConfirm(OnShowSaveDialog(s).state, t2);
  }

  lemma ShowIsHandledByOnShow(s: State, now: string)
    ensures Update(s, ShowSaveDialog, now) == OnShowSaveDialog(s)
  {}

  lemma ReceiveIsHandledByOnReceive(s: State, result: Result<string, string>, now: string)
    ensures Update(s, MessageReceived(result), now) == OnMessageReceived(s, result, now)
  {}

  lemma SendIsHandledByOnSend(s: State, now: string)
    ensures Update(s, SendMessage, now) == OnSendMessage(s, now)
  {}
}
