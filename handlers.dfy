/** The deterministic part of the Slack handlers that open and re-render the
    two modals and read the first modal's submission. What a handler sends to
    or receives from Slack's Web API and the workflow's HTTP endpoint is a
    parameter or a result here. */
module Handlers {
  import opened Json
  import opened BlockKit
  import opened Knowledge
  import opened FormState
  import History
  import App1View
  import App2View

  /** The shortcut that opens the first modal builds it with no message, no
      created message and no references: the message input and the soften
      button only, with nothing pre-filled. */
  method OpenApp1() returns (view: View)
    ensures IsModal(view, App1View.CallbackId, App1View.Title)
    ensures |view.blocks| == 2
    ensures view.blocks[0].Input? && view.blocks[0].blockId == App1View.MessageBlockId
    ensures view.blocks[0].element.PlainTextInput?
    ensures view.blocks[0].element.actionId == App1View.MessageActionId
    ensures view.blocks[0].element.initialValue == None
    ensures view.blocks[1].Actions? && |view.blocks[1].elements| == 1
    ensures view.blocks[1].elements[0].Button? && view.blocks[1].elements[0].actionId == App1View.SoftenActionId
  {
    view := App1View.CreateView(App1View.CallbackId, JNull, JNull, None);
  }

  /** The shortcut that opens the second modal builds it without tasks: the
      fetch button only. */
  method OpenApp2() returns (view: View)
    ensures IsModal(view, App2View.CallbackId, App2View.Title)
    ensures |view.blocks| == 1
    ensures view.blocks[0].Actions? && view.blocks[0].actionsBlockId == Some(App2View.FetchBlockId)
  {
    var r := App2View.CreateView(App2View.CallbackId, JNull);
    view := r.value;
  }

  /** The soften button of the first modal: the typed message is read
      defensively from the view state, the workflow answers with
      `createdMessage` and `knowledge`, and the modal is rebuilt with the typed
      message, the created message and the projected references. */
  method SoftenMessage(values: Json, createdMessage: Json, knowledge: Json) returns (r: Result<View>)
    ensures r.Ok? <==>
      FormValue(values, App1View.MessageBlockId, App1View.MessageActionId, "value").Ok?
      && ProjectKnowledge(knowledge).Ok?
    ensures r.Err? && FormValue(values, App1View.MessageBlockId, App1View.MessageActionId, "value").Ok? ==>
      r.error == ProjectKnowledge(knowledge).error
    ensures r.Ok? ==> IsModal(r.value, App1View.CallbackId, App1View.Title)
    ensures r.Ok? ==>
      |r.value.blocks| == (if !Truthy(createdMessage) then 2
                           else if ProjectKnowledge(knowledge).value == [] then 4
                           else 5)
    ensures r.Ok? ==>
      var typed := FormValue(values, App1View.MessageBlockId, App1View.MessageActionId, "value").value;
      && r.value.blocks[0].Input? && r.value.blocks[0].element.PlainTextInput?
      && r.value.blocks[0].element.initialValue == (if Truthy(typed) then Some(typed) else None)
    ensures r.Ok? && Truthy(createdMessage) ==>
      && r.value.blocks[2].Input? && r.value.blocks[2].blockId == App1View.CreatedBlockId
      && r.value.blocks[2].element == PlainTextInput(App1View.CreatedActionId, true, Some(createdMessage))
      && r.value.blocks[3].Section? && r.value.blocks[3].sectionBlockId == App1View.RecipientBlockId
      && r.value.blocks[3].accessory.UsersSelect?
      && r.value.blocks[3].accessory.actionId == App1View.RecipientActionId
      && r.value.blocks[3].accessory.initialUser == App1View.DefaultRecipient
    ensures r.Ok? && |r.value.blocks| == 5 && knowledge.JArr? ==>
      r.value.blocks[4].Section? && r.value.blocks[4].accessory.Checkboxes? &&
      var options := r.value.blocks[4].accessory.options;
      && |options| == |knowledge.items|
      && forall i :: 0 <= i < |options| ==>
           && options[i].text == Mrkdwn(Str(knowledge.items[i].fields["metadata"].fields["document_name"]))
           && options[i].description == Mrkdwn(Str(knowledge.items[i].fields["content"]))
           && options[i].value == Str(knowledge.items[i].fields["metadata"].fields["segment_id"])
  {
    var message := FormValue(values, App1View.MessageBlockId, App1View.MessageActionId, "value");
    if message.Err? {
      return Err(message.error);
    }
    var references := ProjectKnowledge(knowledge);
    if references.Err? {
      return Err(references.error);
    }
    var view := App1View.CreateView(App1View.CallbackId, message.value, createdMessage, Some(references.value));
    r := Ok(view);
  }

  /** The fetch button of the second modal: the channel history is normalised
      for the workflow request, the workflow answers with `taskList`, and the
      modal is rebuilt with it. */
  method FetchTasks(history: seq<History.Message>, taskList: Json)
    returns (chatHistory: seq<History.Message>, r: Result<View>)
    ensures |chatHistory| == |history|
    ensures History.SortedByTs(chatHistory)
    ensures multiset(chatHistory) == multiset(History.AllWithoutBlocks(history))
    ensures forall i :: 0 <= i < |chatHistory| ==> "blocks" !in chatHistory[i]
    ensures forall ts :: History.WithTs(chatHistory, ts) == History.AllWithoutBlocks(History.WithTs(history, ts))
    ensures forall i :: 0 <= i < |chatHistory| ==> chatHistory[i] == History.WithoutBlocks(History.SortByTs(history)[i])
    ensures r.Ok? <==> !Truthy(taskList) || App2View.TaskText(taskList).Ok?
    ensures r.Ok? ==> IsModal(r.value, App2View.CallbackId, App2View.Title)
    ensures r.Ok? ==> |r.value.blocks| == if Truthy(taskList) then 4 else 1
    ensures r.Ok? && Truthy(taskList) ==>
      && r.value.blocks[1].Input? && r.value.blocks[1].blockId == App2View.TasksBlockId
      && r.value.blocks[1].element == PlainTextInput(App2View.TasksActionId, true, Some(JStr(App2View.TaskText(taskList).value)))
  {
    chatHistory := History.Normalize(history);
    r := App2View.CreateView(App2View.CallbackId, taskList);
  }

  /** What the submission handler of the first modal reads from its state. */
  datatype Submission = Submission(message: Json, createdMessage: Json, selectedUser: Json, selectedOptions: Json)

  /** The four defensive reads of the first modal's submission, in the order
      the handler makes them. A modal submitted before the workflow answered
      has no created-message, recipient or reference block; those read as None. */
  function ReadSubmission(values: Json): (r: Result<Submission>)
    ensures r.Ok? <==>
      && FormValue(values, App1View.MessageBlockId, App1View.MessageActionId, "value").Ok?
      && FormValue(values, App1View.CreatedBlockId, App1View.CreatedActionId, "value").Ok?
      && FormValue(values, App1View.RecipientBlockId, App1View.RecipientActionId, "selected_user").Ok?
      && FormValue(values, App1View.ReferencesBlockId, App1View.ReferencesActionId, "selected_options").Ok?
    ensures WellShaped(values) ==> r.Ok?
    ensures r.Ok? && values.JObj? && App1View.CreatedBlockId !in values.fields ==> r.value.createdMessage == JNull
    ensures r.Ok? && values.JObj? && App1View.RecipientBlockId !in values.fields ==> r.value.selectedUser == JNull
    ensures r.Ok? && values.JObj? && App1View.ReferencesBlockId !in values.fields ==> r.value.selectedOptions == JNull
  {
    var message :- FormValue(values, App1View.MessageBlockId, App1View.MessageActionId, "value");
    var createdMessage :- FormValue(values, App1View.CreatedBlockId, App1View.CreatedActionId, "value");
    var selectedUser :- FormValue(values, App1View.RecipientBlockId, App1View.RecipientActionId, "selected_user");
    var selectedOptions :- FormValue(values, App1View.ReferencesBlockId, App1View.ReferencesActionId, "selected_options");
    Ok(Submission(message, createdMessage, selectedUser, selectedOptions))
  }
}
