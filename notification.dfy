/** The related-documents list of the notification the first modal's
    submission sends to the chosen recipient: one rich-text list item per
    selected checkbox option, showing the option's text and description. */
module Notification {
  import opened Json
  import opened FormState
  import App1View
  import Handlers

  /** One `rich_text_section` of the list: `f"{ref['text']['text']}:\n"` and
      `f"{ref['description']['text']}:\n"`. */
  datatype DocumentItem = DocumentItem(name: string, description: string)

  /** The item for one selected option; the four subscripts are evaluated
      left to right and the first failing one raises. */
  function DocumentItemOf(option: Json): (r: Result<DocumentItem>)
    ensures r.Ok? <==>
      && option.JObj? && "text" in option.fields && "description" in option.fields
      && option.fields["text"].JObj? && "text" in option.fields["text"].fields
      && option.fields["description"].JObj? && "text" in option.fields["description"].fields
  {
    var text :- Index(option, "text");
    var name :- Index(text, "text");
    var description :- Index(option, "description");
    var descriptionText :- Index(description, "text");
    Ok(DocumentItem(Str(name) + ":\n", Str(descriptionText) + ":\n"))
  }

  function DocumentItems(options: seq<Json>): (r: Result<seq<DocumentItem>>)
    ensures r.Ok? <==> forall i :: 0 <= i < |options| ==> DocumentItemOf(options[i]).Ok?
    ensures r.Ok? ==> |r.value| == |options|
    ensures r.Ok? ==> forall i :: 0 <= i < |options| ==> r.value[i] == DocumentItemOf(options[i]).value
  {
    if options == [] then Ok([])
    else
      var head :- DocumentItemOf(options[0]);
      var tail :- DocumentItems(options[1..]);
      Ok([head] + tail)
  }

  /** The comprehension `[... for ref in selected_references_options]` as
      written. Iterating a dict yields string keys and iterating a string
      yields one-character strings, whose string subscript raises TypeError;
      None, a bool or an int is not iterable. */
  function DocumentItemsAsWritten(selectedOptions: Json): (r: Result<seq<DocumentItem>>)
    ensures selectedOptions == JNull ==> r == Err(TypeError)
    ensures selectedOptions.JArr? ==> r == DocumentItems(selectedOptions.items)
  {
    match selectedOptions
    case JArr(options) => DocumentItems(options)
    case JStr(s) => if s == "" then Ok([]) else Err(TypeError)
    case JObj(fields) => if fields == map[] then Ok([]) else Err(TypeError)
    case _ => Err(TypeError)
  }

  /** The comprehension with None, the value an absent checkbox group reads
      as, taken to mean no selection. */
  function DocumentItemsOrNone(selectedOptions: Json): (r: Result<seq<DocumentItem>>)
    ensures selectedOptions == JNull ==> r == Ok([])
    ensures selectedOptions != JNull ==> r == DocumentItemsAsWritten(selectedOptions)
  {
    if selectedOptions == JNull then Ok([]) else DocumentItemsAsWritten(selectedOptions)
  }

  /** A submission of the four-block modal, which the first modal becomes when
      the workflow created a message but cited no document: the typed
      message, the created message and the recipient, and no checkbox group. */
  function FourBlockState(): Json {
    JObj(map[
      App1View.MessageBlockId := JObj(map[App1View.MessageActionId := JObj(map["value" := JStr("hi")])]),
      App1View.CreatedBlockId := JObj(map[App1View.CreatedActionId := JObj(map["value" := JStr("hello")])]),
      App1View.RecipientBlockId := JObj(map[App1View.RecipientActionId := JObj(map["selected_user" := JStr("U1")])])
    ])
  }

  /** As written, submitting the four-block modal reads `selected_options` as
      None and building the related-documents list raises TypeError. */
  lemma FourBlockSubmissionRaises()
    ensures Handlers.ReadSubmission(FourBlockState()).Ok?
    ensures Handlers.ReadSubmission(FourBlockState()).value.selectedOptions == JNull
    ensures DocumentItemsAsWritten(Handlers.ReadSubmission(FourBlockState()).value.selectedOptions) == Err(TypeError)
  {
    var values := FourBlockState();
    assert App1View.ReferencesBlockId !in values.fields;
  }

  /** With the absent group read as no selection, every well-shaped submission
      whose selected options (if any) are a list of well-formed options builds
      its list: no document item for a modal without the checkbox group, and
      otherwise one item per selected option, in order. */
  lemma {:induction false} DocumentItemsOrNoneBuilds(values: Json)
    requires WellShaped(values)
    requires var selected := Handlers.ReadSubmission(values).value.selectedOptions;
      selected == JNull || (selected.JArr? && DocumentItems(selected.items).Ok?)
    ensures DocumentItemsOrNone(Handlers.ReadSubmission(values).value.selectedOptions).Ok?
    ensures values.JObj? && App1View.ReferencesBlockId !in values.fields ==>
      DocumentItemsOrNone(Handlers.ReadSubmission(values).value.selectedOptions) == Ok([])
  {
    var selected := Handlers.ReadSubmission(values).value.selectedOptions;
    if selected != JNull {
      assert DocumentItemsOrNone(selected) == DocumentItems(selected.items);
    }
  }
}
