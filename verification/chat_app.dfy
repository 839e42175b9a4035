/**
 * The chat client's event-driven state machine: one state record, eleven
 * events, and an update that yields the next state plus at most one effect.
 * The clock reading is a parameter; the inference call and the file write
 * are returned as commands instead of being performed.
 */
module ChatApp {
  import opened Base
  import opened Text
  import opened Conversations
  import opened LmClient

  /** The display name of a conversation that has not been saved or loaded. */
  const DefaultConversationName: string := "Nowa rozmowa"

  /** Prepended to the client's error description before it reaches the transcript. */
  const CommunicationErrorPrefix: string := "Błąd komunikacji z LM Studio: "

  /** The application state; the HTTP client handle is not part of the model. */
  datatype State = State(
    messages: seq<ChatMessage>,
    inputValue: string,
    currentConversationName: string,
    savedConversations: seq<SavedConversation>,
    showSaveDialog: bool,
    saveNameInput: string)

  /** The events the update loop dispatches on. */
  datatype Event =
    | InputChanged(value: string)
    | SendMessage
    | NewConversation
    | LoadConversation(index: nat)
    | DeleteConversation(index: nat)
    | ShowSaveDialog
    | HideSaveDialog
    | SaveNameChanged(name: string)
    | ConfirmSave
    | ClearChat
    | MessageReceived(result: Result<string, string>)

  /** The effects an update can ask for. */
  datatype Command =
    | Send(history: seq<HistoryEntry>)          // run the chat completion on this history
    | Persist(saved: seq<SavedConversation>)    // overwrite the conversations file with this collection

  /** What one update produces. */
  datatype Step = Step(state: State, command: Option<Command>)

  /**
   * The state at start-up. `stored` is what reading the conversations file
   * produced: `None` when it is missing, unreadable or does not parse.
   */
  function Init(stored: Option<seq<SavedConversation>>): (s: State)
    ensures s.messages == [] && s.inputValue == [] && s.saveNameInput == []
    ensures s.currentConversationName == DefaultConversationName
    ensures !s.showSaveDialog
    ensures stored.None? ==> s.savedConversations == []
    ensures stored.Some? ==> s.savedConversations == stored.value
  {
    State([], "", DefaultConversationName, stored.GetOr([]), false, "")
  }

  /** The event the finished inference call feeds back into the loop. */
  function Deliver(reply: Result<string, string>): (e: Event)
    ensures e.MessageReceived?
    ensures reply.Ok? ==> e.result == reply
    ensures reply.Err? ==>
      && e.result.Err?
      && |e.result.error| == |CommunicationErrorPrefix| + |reply.error|
      && e.result.error[..|CommunicationErrorPrefix|] == CommunicationErrorPrefix
      && e.result.error[|CommunicationErrorPrefix|..] == reply.error
  {
    match reply
    case Ok(text) => MessageReceived(Ok(text))
    case Err(description) => MessageReceived(Err(CommunicationErrorPrefix + description))
  }

  function OnInputChanged(s: State, value: string): (r: Step)
    ensures r.command.None?
    ensures r.state.inputValue == value
    ensures r.state == s.(inputValue := r.state.inputValue)
  {
    Step(s.(inputValue := value), None)
  }

  function OnSendMessage(s: State, now: string): (r: Step)
    ensures IsBlank(s.inputValue) ==> r == Step(s, None)
    ensures !IsBlank(s.inputValue) ==>
      && |r.state.messages| == |s.messages| + 1
      && r.state.messages[..|s.messages|] == s.messages
      && r.state.messages[|s.messages|] == ChatMessage(s.inputValue, true, now)
      && r.state.inputValue == []
      && r.state == s.(messages := r.state.messages, inputValue := r.state.inputValue)
    ensures !IsBlank(s.inputValue) ==>
      && r.command.Some? && r.command.value.Send?
      && var h := r.command.value.history;
      && |h| == |r.state.messages|
      && (forall i :: 0 <= i < |h| ==>
           && h[i].content == r.state.messages[i].content
           && (h[i].role == UserRole <==> r.state.messages[i].isUser)
           && (h[i].role == AssistantRole <==> !r.state.messages[i].isUser))
      && h[|h| - 1] == HistoryEntry(UserRole, s.inputValue)
  {
    TrimEmptyIffBlank(s.inputValue);
    if Trim(s.inputValue) != [] then
      var messages := s.messages + [ChatMessage(s.inputValue, true, now)];
      Step(s.(messages := messages, inputValue := ""), Some(Send(History(messages))))
    else
      Step(s, None)
  }

  function OnMessageReceived(s: State, result: Result<string, string>, now: string): (r: Step)
    ensures r.command.None?
    ensures |r.state.messages| == |s.messages| + 1
    ensures r.state.messages[..|s.messages|] == s.messages
    ensures var m := r.state.messages[|s.messages|];
      && !m.isUser
      && m.timestamp == now
      && (result.Ok? ==> m.content == result.value)
      && (result.Err? ==> m.content == result.error)
    ensures r.state == s.(messages := r.state.messages)
  {
    var content := match result
      case Ok(response) => response
      case Err(error) => error;
    Step(s.(messages := s.messages + [ChatMessage(content, false, now)]), None)
  }

  function OnNewConversation(s: State): (r: Step)
    ensures r.command.None?
    ensures r.state.messages == []
    ensures r.state.currentConversationName == DefaultConversationName
    ensures r.state == s.(messages := [], currentConversationName := r.state.currentConversationName)
  {
    Step(s.(messages := [], currentConversationName := DefaultConversationName), None)
  }

  function OnLoadConversation(s: State, index: nat): (r: Step)
    ensures r.command.None?
    ensures index >= |s.savedConversations| ==> r.state == s
    ensures index < |s.savedConversations| ==>
      && r.state.messages == s.savedConversations[index].messages
      && r.state.currentConversationName == s.savedConversations[index].name
      && r.state == s.(messages := r.state.messages, currentConversationName := r.state.currentConversationName)
  {
    if index < |s.savedConversations| then
      var c := s.savedConversations[index];
      Step(s.(messages := c.messages, currentConversationName := c.name), None)
    else
      Step(s, None)
  }

  function OnDeleteConversation(s: State, index: nat): (r: Step)
    ensures index >= |s.savedConversations| ==> r == Step(s, None)
    ensures index < |s.savedConversations| ==>
      && var saved := r.state.savedConversations;
      && |saved| == |s.savedConversations| - 1
      && (forall j :: 0 <= j < index ==> saved[j] == s.savedConversations[j])
      && (forall j :: index <= j < |saved| ==> saved[j] == s.savedConversations[j + 1])
      && r.command == Some(Persist(saved))
      && r.state == s.(savedConversations := saved)
    ensures UniqueNames(s.savedConversations) ==> UniqueNames(r.state.savedConversations)
  {
    if index < |s.savedConversations| then
      var saved := RemoveAt(s.savedConversations, index);
      assert UniqueNames(s.savedConversations) ==> UniqueNames(saved) by {
        if UniqueNames(s.savedConversations) {
          RemoveAtNames(s.savedConversations, index);
        }
      }
      Step(s.(savedConversations := saved), Some(Persist(saved)))
    else
      Step(s, None)
  }

  function OnShowSaveDialog(s: State): (r: Step)
    ensures r.command.None?
    ensures r.state.showSaveDialog
    ensures r.state.saveNameInput == s.currentConversationName
    ensures r.state == s.(showSaveDialog := true, saveNameInput := r.state.saveNameInput)
  {
    Step(s.(showSaveDialog := true, saveNameInput := s.currentConversationName), None)
  }

  function OnHideSaveDialog(s: State): (r: Step)
    ensures r.command.None?
    ensures !r.state.showSaveDialog && r.state.saveNameInput == []
    ensures r.state == s.(showSaveDialog := false, saveNameInput := [])
  {
    Step(s.(showSaveDialog := false, saveNameInput := ""), None)
  }

  function OnSaveNameChanged(s: State, name: string): (r: Step)
    ensures r.command.None?
    ensures r.state.saveNameInput == name
    ensures r.state == s.(saveNameInput := r.state.saveNameInput)
  {
    Step(s.(saveNameInput := name), None)
  }

  /** True when a confirm-save would be carried out. */
  predicate CanSave(s: State) {
    !IsBlank(s.saveNameInput) && s.messages != []
  }

  function OnConfirmSave(s: State): (r: Step)
    ensures !CanSave(s) ==> r == Step(s, None)
    ensures CanSave(s) ==>
      && var saved := r.state.savedConversations;
      && var c := SavedConversation(s.saveNameInput, s.messages);
      && (Position(s.savedConversations, c.name).Some? ==>
            && |saved| == |s.savedConversations|
            && saved[Position(s.savedConversations, c.name).value] == c)
      && (Position(s.savedConversations, c.name).None? ==>
            && |saved| == |s.savedConversations| + 1
            && saved[|s.savedConversations|] == c)
      && (forall j :: 0 <= j < |s.savedConversations| && j != Position(s.savedConversations, c.name).GetOr(|s.savedConversations|) ==>
            saved[j] == s.savedConversations[j])
      && r.state.currentConversationName == s.saveNameInput
      && !r.state.showSaveDialog
      && r.state.saveNameInput == []
      && r.command == Some(Persist(saved))
      && r.state == s.(savedConversations := saved, currentConversationName := s.saveNameInput,
                       showSaveDialog := false, saveNameInput := [])
    ensures UniqueNames(s.savedConversations) ==> UniqueNames(r.state.savedConversations)
  {
    TrimEmptyIffBlank(s.saveNameInput);
    if Trim(s.saveNameInput) != [] && s.messages != [] then
      var c := SavedConversation(s.saveNameInput, s.messages);
      var saved := Upsert(s.savedConversations, c);
      assert UniqueNames(s.savedConversations) ==> UniqueNames(saved) by {
        if UniqueNames(s.savedConversations) {
          UpsertKeepsNamesUnique(s.savedConversations, c);
        }
      }
      Step(s.(savedConversations := saved, currentConversationName := s.saveNameInput,
              showSaveDialog := false, saveNameInput := ""),
           Some(Persist(saved)))
    else
      Step(s, None)
  }

  function OnClearChat(s: State): (r: Step)
    ensures r.command.None?
    ensures r.state == s.(messages := [])
  {
    Step(s.(messages := []), None)
  }

  /**
   * One turn of the update loop. Across every event: a persist always
   * carries the collection the new state holds, the collection never
   * changes without one, only a send asks for the inference call, and
   * unique names stay unique.
   */
  function Update(s: State, e: Event, now: string): (r: Step)
    ensures r.command.Some? && r.command.value.Persist? ==>
      r.command.value.saved == r.state.savedConversations
    ensures r.state.savedConversations != s.savedConversations ==>
      r.command == Some(Persist(r.state.savedConversations))
    ensures r.command.Some? && r.command.value.Send? ==>
      e.SendMessage? && r.command.value.history == History(r.state.messages)
    ensures UniqueNames(s.savedConversations) ==> UniqueNames(r.state.savedConversations)
  {
    match e
    case InputChanged(value) => OnInputChanged(s, value)
    case SendMessage => OnSendMessage(s, now)
    case MessageReceived(result) => OnMessageReceived(s, result, now)
    case NewConversation => OnNewConversation(s)
    case LoadConversation(index) => OnLoadConversation(s, index)
    case DeleteConversation(index) => OnDeleteConversation(s, index)
    case ShowSaveDialog => OnShowSaveDialog(s)
    case HideSaveDialog => OnHideSaveDialog(s)
    case SaveNameChanged(name) => OnSaveNameChanged(s, name)
    case ConfirmSave => OnConfirmSave(s)
    case ClearChat => OnClearChat(s)
  }
}
