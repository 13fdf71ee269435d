/** The projection of the workflow's retrieved knowledge onto the references
    offered in the first modal: each knowledge item
    `{"content": c, "metadata": {"document_name": d, "segment_id": s, ...}, ...}`
    becomes `{"document_name": d, "segment_id": s, "content": c}`. */
module Knowledge {
  import opened Json

  /** One entry of `references`: a dict with exactly these three keys. */
  datatype Reference = Reference(documentName: Json, segmentId: Json, content: Json)

  /** The lambda applied to one knowledge item. Its dict display evaluates
      `x["metadata"]["document_name"]`, then `x["metadata"]["segment_id"]`
      (the second `x["metadata"]` yields the same value as the first),
      then `x["content"]`; the first subscript that fails raises. */
  function ProjectItem(x: Json): (r: Result<Reference>)
    ensures r.Ok? <==>
      && x.JObj? && "metadata" in x.fields && "content" in x.fields
      && var meta := x.fields["metadata"];
         meta.JObj? && "document_name" in meta.fields && "segment_id" in meta.fields
    ensures r.Ok? ==>
      && r.value.documentName == x.fields["metadata"].fields["document_name"]
      && r.value.segmentId == x.fields["metadata"].fields["segment_id"]
      && r.value.content == x.fields["content"]
    ensures !x.JObj? ==> r == Err(TypeError)
  {
    var meta :- Index(x, "metadata");
    var documentName :- Index(meta, "document_name");
    var segmentId :- Index(meta, "segment_id");
    var content :- Index(x, "content");
    Ok(Reference(documentName, segmentId, content))
  }

  /** `list(map(lambda, items))` over a list: the items are projected in
      order, and the first failing item's exception propagates. */
  function ProjectItems(items: seq<Json>): (r: Result<seq<Reference>>)
    ensures r.Ok? <==> forall i :: 0 <= i < |items| ==> ProjectItem(items[i]).Ok?
    ensures r.Ok? ==> |r.value| == |items|
    ensures r.Ok? ==> forall i :: 0 <= i < |items| ==> r.value[i] == ProjectItem(items[i]).value
  {
    if items == [] then Ok([])
    else
      var head :- ProjectItem(items[0]);
      var tail :- ProjectItems(items[1..]);
      Ok([head] + tail)
  }

  /** `list(map(lambda, knowledge))` for any decoded value. Iterating a list
      yields its items; iterating a dict yields its string keys and iterating a
      string yields one-character strings, and a string subscript of a string
      raises TypeError, so only an empty dict or string gives `[]`; None, a
      bool or an int is not iterable. */
  function ProjectKnowledge(knowledge: Json): (r: Result<seq<Reference>>)
    ensures knowledge.JArr? ==> r == ProjectItems(knowledge.items)
    ensures !knowledge.JArr? ==> (r.Ok? <==> knowledge in {JStr(""), JObj(map[])})
    ensures r.Ok? && !knowledge.JArr? ==> r.value == []
    ensures !knowledge.JArr? && r.Err? ==> r.error == TypeError
  {
    match knowledge
    case JArr(items) => ProjectItems(items)
    case JStr(s) => if s == "" then Ok([]) else Err(TypeError)
    case JObj(fields) => if fields == map[] then Ok([]) else Err(TypeError)
    case _ => Err(TypeError)
  }

  /** The projection keeps the length and the order of the knowledge list:
      reference i is built from knowledge item i alone. */
  lemma {:induction false} ProjectionPreservesOrder(items: seq<Json>, i: nat)
    requires ProjectItems(items).Ok?
    requires i < |items|
    ensures |ProjectItems(items).value| == |items|
    ensures ProjectItems(items).value[i].documentName == items[i].fields["metadata"].fields["document_name"]
    ensures ProjectItems(items).value[i].segmentId == items[i].fields["metadata"].fields["segment_id"]
    ensures ProjectItems(items).value[i].content == items[i].fields["content"]
  {
    assert ProjectItem(items[i]).Ok?;
  }
}
