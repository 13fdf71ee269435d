/** Reading a submitted value out of a view's `state.values`, which Slack
    shapes as `{block_id: {action_id: {"type": ..., "value" | "selected_user" |
    "selected_options": ...}}}`. The handlers read it defensively,
    `values.get(block, {}).get(action, {}).get(field)`, so that a block the
    view did not contain reads as None instead of raising. */
module FormState {
  import opened Json

  /** The defensive chain `values.get(blockId, {}).get(actionId, {}).get(field)`. */
  function FormValue(values: Json, blockId: string, actionId: string, field: string): (r: Result<Json>)
    ensures r.Err? ==> r.error == AttributeError
  {
    var block :- Get(values, blockId, JObj(map[]));
    var action :- Get(block, actionId, JObj(map[]));
    Get(action, field, JNull)
  }

  /** The direct chain `values[blockId][actionId][field]`, the reference the
      defensive chain is measured against. */
  function StrictValue(values: Json, blockId: string, actionId: string, field: string): Result<Json> {
    var block :- Index(values, blockId);
    var action :- Index(block, actionId);
    Index(action, field)
  }

  /** The defensive chain agrees with the direct one wherever the direct one
      finds a value, turns each of its KeyErrors (a missing block, action or
      field) into None, and fails exactly where the direct one meets a value
      that is not a dict. */
  lemma {:induction false} FormValueAgreesWithStrict(values: Json, blockId: string, actionId: string, field: string)
    ensures StrictValue(values, blockId, actionId, field).Ok? ==>
      FormValue(values, blockId, actionId, field) == StrictValue(values, blockId, actionId, field)
    ensures StrictValue(values, blockId, actionId, field) == Err(KeyError) ==>
      FormValue(values, blockId, actionId, field) == Ok(JNull)
    ensures StrictValue(values, blockId, actionId, field) == Err(TypeError) <==>
      FormValue(values, blockId, actionId, field) == Err(AttributeError)
  {
    var strict := StrictValue(values, blockId, actionId, field);
    var defensive := FormValue(values, blockId, actionId, field);
    if values.JObj? && blockId in values.fields {
      var block := values.fields[blockId];
      if block.JObj? && actionId in block.fields {
        var action := block.fields[actionId];
        assert strict == Index(action, field);
        assert defensive == Get(action, field, JNull);
      } else if block.JObj? {
        assert strict == Err(KeyError);
        assert defensive == Ok(JNull);
      }
    }
  }

  /** The shape Slack gives `state.values`: a dict of dicts of dicts. */
  predicate WellShaped(values: Json) {
    && values.JObj?
    && forall b :: b in values.fields ==>
         && values.fields[b].JObj?
         && forall a :: a in values.fields[b].fields ==> values.fields[b].fields[a].JObj?
  }

  /** On a well-shaped state the defensive chain never raises: it yields the
      stored value when block, action and field are all present, and None
      otherwise. */
  lemma WellShapedNeverRaises(values: Json, blockId: string, actionId: string, field: string)
    requires WellShaped(values)
    ensures FormValue(values, blockId, actionId, field).Ok?
    ensures FormValue(values, blockId, actionId, field).value ==
      if blockId in values.fields && actionId in values.fields[blockId].fields
         && field in values.fields[blockId].fields[actionId].fields
      then values.fields[blockId].fields[actionId].fields[field]
      else JNull
  {
  }
}
