/** The first modal ("やわらかコミュニケーター"): the user types a message, a
    button asks the workflow to soften it, and once a softened message exists
    the modal also offers it for editing, a recipient picker and, when the
    workflow cited documents, a checkbox per cited document. */
module App1View {
  import opened Json
  import opened BlockKit
  import opened Knowledge

  const CallbackId := "APP_1_CALLBACK_ID"
  const Title := "やわらかコミュニケーター"
  const MessageBlockId := "APP1_MODAL1_BLOCK1_ID"
  // The first input's action id has the same text as its block id.
  const MessageActionId := "APP1_MODAL1_BLOCK1_ID"
  const SoftenActionId := "APP1_MODAL1_BLOCK2_ACTIONID"
  const CreatedBlockId := "APP1_MODAL1_BLOCK3_ID"
  const CreatedActionId := "APP1_MODAL1_BLOCK3_ACTIONID"
  const RecipientBlockId := "APP1_MODAL1_BLOCK4_ID"
  const RecipientActionId := "APP1_MODAL1_BLOCK4_ACTIONID"
  const ReferencesBlockId := "APP1_MODAL1_BLOCK5_ID"
  const ReferencesActionId := "APP1_MODAL1_BLOCK5_ACTIONID"
  const DefaultRecipient := "U07RNU50QKW"

  /** Python's `bool(references)` for the builder's `references` argument,
      which is None by default and a list otherwise. */
  predicate TruthyReferences(references: Option<seq<Reference>>): (r: bool)
    ensures r <==> Truthy(if references.None? then JNull else JArr(seq(|references.value|, _ => JNull)))
  {
    references.Some? && references.value != []
  }

  /** The checkbox option list comprehension: one option per reference, in
      the references' order. */
  function CheckboxOptions(references: seq<Reference>): (options: seq<CheckboxOption>)
    ensures |options| == |references|
    ensures forall i :: 0 <= i < |references| ==>
      && options[i].text == Mrkdwn(Str(references[i].documentName))
      && options[i].description == Mrkdwn(Str(references[i].content))
      && options[i].value == Str(references[i].segmentId)
  {
    if references == [] then []
    else
      var r := references[0];
      [CheckboxOption(Mrkdwn(Str(r.documentName)), Mrkdwn(Str(r.content)), Str(r.segmentId))]
        + CheckboxOptions(references[1..])
  }

  /** The reference a checkbox option encodes: its text as the document name,
      its value as the segment id and its description as the content. */
  function ReferenceOf(option: CheckboxOption): Reference {
    Reference(JStr(option.text.text), JStr(option.value), JStr(option.description.text))
  }

  function ReferencesOf(options: seq<CheckboxOption>): (references: seq<Reference>)
    ensures |references| == |options|
  {
    if options == [] then [] else [ReferenceOf(options[0])] + ReferencesOf(options[1..])
  }

  predicate StringValued(r: Reference) {
    r.documentName.JStr? && r.segmentId.JStr? && r.content.JStr?
  }

  /** For references whose fields are strings, reading the options back gives
      the references again: the checkbox list loses nothing and reorders
      nothing. */
  lemma {:induction false} OptionsRoundTrip(references: seq<Reference>)
    requires forall i :: 0 <= i < |references| ==> StringValued(references[i])
    ensures ReferencesOf(CheckboxOptions(references)) == references
  {
    if references != [] {
      OptionsRoundTrip(references[1..]);
      assert CheckboxOptions(references)[1..] == CheckboxOptions(references[1..]);
    }
  }

  /** `app1_create_view`. The message input, then the soften button; when the
      created message is truthy, its own input and the recipient picker; when
      references are truthy as well, the checkbox list last. */
  method CreateView(callbackId: string, message: Json, createdMessage: Json, references: Option<seq<Reference>>)
    returns (view: View)
    ensures IsModal(view, callbackId, Title)
    ensures |view.blocks| ==
      if !Truthy(createdMessage) then 2
      else if !TruthyReferences(references) then 4
      else 5
    ensures view.blocks[0].Input? && view.blocks[0].blockId == MessageBlockId
    ensures view.blocks[0].element.PlainTextInput?
    ensures view.blocks[0].element.actionId == MessageActionId
    ensures view.blocks[0].element.initialValue.Some? <==> Truthy(message)
    ensures view.blocks[0].element.initialValue.Some? ==> view.blocks[0].element.initialValue.value == message
    ensures view.blocks[1].Actions? && |view.blocks[1].elements| == 1
    ensures view.blocks[1].elements[0].Button? && view.blocks[1].elements[0].actionId == SoftenActionId
    ensures |view.blocks| >= 3 ==>
      && view.blocks[2].Input? && view.blocks[2].blockId == CreatedBlockId
      && view.blocks[2].element == PlainTextInput(CreatedActionId, true, Some(createdMessage))
    ensures |view.blocks| >= 4 ==>
      && view.blocks[3].Section? && view.blocks[3].sectionBlockId == RecipientBlockId
      && view.blocks[3].accessory.UsersSelect?
      && view.blocks[3].accessory.actionId == RecipientActionId
      && view.blocks[3].accessory.initialUser == DefaultRecipient
    ensures |view.blocks| == 5 ==>
      && view.blocks[4].Section? && view.blocks[4].sectionBlockId == ReferencesBlockId
      && view.blocks[4].accessory.Checkboxes?
      && view.blocks[4].accessory.actionId == ReferencesActionId
      && view.blocks[4].accessory.options == CheckboxOptions(references.value)
    ensures forall i :: 1 <= i < |view.blocks| && i != 2 ==> !HasInitialValue(view.blocks[i])
  {
    var messageBlock := Input(
      MessageBlockId,
      PlainTextInput(MessageActionId, true, None),
      PlainText("送りたい内容", None));
    if Truthy(message) {
      messageBlock := messageBlock.(element := messageBlock.element.(initialValue := Some(message)));
    }

    var softenBlock := Actions(None, [
      Button(PlainText("やわらかくする", None), "click_me_123", SoftenActionId)
    ]);

    var blocks := [messageBlock, softenBlock];

    if Truthy(createdMessage) {
      var createdBlock := Input(
        CreatedBlockId,
        PlainTextInput(CreatedActionId, true, Some(createdMessage)),
        PlainText("やわらか", None));
      blocks := blocks + [createdBlock];

      var recipientBlock := Section(
        RecipientBlockId,
        Mrkdwn("送信先を選択"),
        UsersSelect(RecipientActionId, PlainText("Select a user", Some(true)), DefaultRecipient));
      blocks := blocks + [recipientBlock];

      if TruthyReferences(references) {
        var referencesBlock := Section(
          ReferencesBlockId,
          Mrkdwn("関連ドキュメントを選択（任意）"),
          Checkboxes(ReferencesActionId, CheckboxOptions(references.value)));
        blocks := blocks + [referencesBlock];
      }
    }

    view := View(
      "modal",
      callbackId,
      PlainText(Title, None),
      PlainText(SubmitLabel, None),
      PlainText(CloseLabel, None),
      blocks);
  }
}
