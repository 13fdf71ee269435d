/** The part of Slack's Block Kit view document that the two modal builders
    produce: a modal view holding a list of blocks, each block holding
    text objects and interactive elements. */
module BlockKit {
  import opened Json

  /** A composition object `{"type": "plain_text" | "mrkdwn", "text": ...}`;
      `emoji` is the optional `"emoji"` key of a plain-text object. */
  datatype TextObject =
    | PlainText(text: string, emoji: Option<bool>)
    | Mrkdwn(text: string)

  /** One entry of a checkbox group's `"options"` list. */
  datatype CheckboxOption = CheckboxOption(text: TextObject, description: TextObject, value: string)

  /** Block elements. `initialValue` is the optional `"initial_value"` key of a
      plain-text input; it holds whatever Python value the code stores there. */
  datatype Element =
    | PlainTextInput(actionId: string, multiline: bool, initialValue: Option<Json>)
    | Button(buttonText: TextObject, value: string, actionId: string)
    | UsersSelect(actionId: string, placeholder: TextObject, initialUser: string)
    | Checkboxes(actionId: string, options: seq<CheckboxOption>)

  /** Layout blocks; `blockId` of an actions block is optional. */
  datatype Block =
    | Input(blockId: string, element: Element, labelText: TextObject)
    | Actions(actionsBlockId: Option<string>, elements: seq<Element>)
    | Section(sectionBlockId: string, text: TextObject, accessory: Element)

  /** A view document `{"type", "callback_id", "title", "submit", "close", "blocks"}`. */
  datatype View = View(
    kind: string,
    callbackId: string,
    title: TextObject,
    submit: TextObject,
    close: TextObject,
    blocks: seq<Block>)

  const SubmitLabel := "送信"
  const CloseLabel := "閉じる"

  /** A modal with the given callback id, title and the fixed submit and close labels. */
  predicate IsModal(view: View, callbackId: string, title: string) {
    && view.kind == "modal"
    && view.callbackId == callbackId
    && view.title == PlainText(title, None)
    && view.submit == PlainText(SubmitLabel, None)
    && view.close == PlainText(CloseLabel, None)
  }

  /** The block carries a plain-text input that has an `"initial_value"` key. */
  predicate HasInitialValue(block: Block) {
    block.Input? && block.element.PlainTextInput? && block.element.initialValue.Some?
  }
}
