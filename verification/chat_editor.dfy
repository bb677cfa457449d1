/** The chat editor (ui/chateditor/ChatEditorViewModel.kt).

    The editor holds the name being edited, the title it was opened with and
    the flag of the unsaved-changes dialog. Its two outward effects, saving a
    name through the repository and navigating back, are recorded in order.
 */
module ChatEditor {
  import opened Wrappers
  import opened Domain

  datatype Effect = SaveName(chatId: string, name: string) | NavigateBack

  datatype Editor = Editor(
    chatId: string,
    chatName: string,
    initialChatName: string,
    showWarningDialog: bool,
    effects: seq<Effect>)

  /** `init`: the chat must exist (the code dereferences it with `!!`); both
      names start at its title. */
  function Init(chatId: string, found: Option<Chat>): (e: Editor)
    requires found.Some?
    ensures e.chatName == found.value.title && e.initialChatName == found.value.title
    ensures e.chatId == chatId && !e.showWarningDialog && e.effects == []
  {
    Editor(chatId, found.value.title, found.value.title, false, [])
  }

  /** `hasChanges()`. */
  predicate HasChanges(e: Editor) {
    e.chatName != e.initialChatName
  }

  /** `updateChatName`: the name is stored as typed, without trimming. */
  function UpdateChatName(e: Editor, name: string): (r: Editor)
    ensures r.chatName == name
    ensures r.initialChatName == e.initialChatName && r.showWarningDialog == e.showWarningDialog
    ensures r.effects == e.effects && r.chatId == e.chatId
  {
    e.(chatName := name)
  }

  /** `applyChanges()`: save a changed name and then go back; go back at once
      otherwise. */
  function ApplyChanges(e: Editor): (r: Editor)
    ensures HasChanges(e) ==> r.effects == e.effects + [SaveName(e.chatId, e.chatName), NavigateBack]
    ensures !HasChanges(e) ==> r.effects == e.effects + [NavigateBack]
    ensures r.(effects := e.effects) == e
  {
    if HasChanges(e) then e.(effects := e.effects + [SaveName(e.chatId, e.chatName), NavigateBack])
    else e.(effects := e.effects + [NavigateBack])
  }

  /** `dismissWarningDialog()`: clear the dialog flag and nothing else. */
  function DismissWarningDialog(e: Editor): (r: Editor)
    ensures !r.showWarningDialog
    ensures r.(showWarningDialog := e.showWarningDialog) == e
  {
    e.(showWarningDialog := false)
  }

  /** `discardChanges()`: go back without saving. */
  function DiscardChanges(e: Editor): (r: Editor)
    ensures r.effects == e.effects + [NavigateBack]
    ensures r.(effects := e.effects) == e
  {
    e.(effects := e.effects + [NavigateBack])
  }

  /** `navBack()`: with unsaved changes show the dialog and stay; otherwise go back. */
  function NavBack(e: Editor): (r: Editor)
    ensures HasChanges(e) ==> r == e.(showWarningDialog := true)
    ensures !HasChanges(e) ==> r == e.(effects := e.effects + [NavigateBack])
  {
    if HasChanges(e) then e.(showWarningDialog := true)
    else e.(effects := e.effects + [NavigateBack])
  }

  /** The user's requests to the editor. */
  datatype Command = Type(name: string) | Apply | Dismiss | Discard | Back

  function Handle(e: Editor, c: Command): Editor {
    match c
    case Type(name) => UpdateChatName(e, name)
    case Apply => ApplyChanges(e)
    case Dismiss => DismissWarningDialog(e)
    case Discard => DiscardChanges(e)
    case Back => NavBack(e)
  }

  /** Only `Apply` and `Discard` ever leave the screen with a changed name:
      a back press with changes stays and raises the dialog, and `Apply` saves
      the name before leaving. */
  lemma NoSilentLoss(e: Editor, c: Command)
    requires HasChanges(e) && c != Discard
    ensures var r := Handle(e, c);
      |r.effects| > |e.effects| ==>
        c == Apply && r.effects[|e.effects|] == SaveName(e.chatId, e.chatName)
  {
  }

  /** Typing the original title back removes the changes: leaving then saves
      nothing and needs no dialog. */
  lemma RetypingOriginalClearsChanges(e: Editor)
    ensures var r := UpdateChatName(e, e.initialChatName);
      !HasChanges(r)
      && NavBack(r).effects == e.effects + [NavigateBack]
      && ApplyChanges(r).effects == e.effects + [NavigateBack]
  {
  }

  /** Right after opening there is nothing to save. */
  lemma OpenedWithoutChanges(chatId: string, found: Option<Chat>)
    requires found.Some?
    ensures !HasChanges(Init(chatId, found))
    ensures ApplyChanges(Init(chatId, found)).effects == [NavigateBack]
  {
  }
}
