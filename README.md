# Slack modal builders and history normalisation, modelled in Dafny

The bot in `app/main.py` connects Slack shortcuts, buttons and modal submissions to an
external generative-AI workflow. Most of it is glue around Slack's Web API and an HTTP
workflow endpoint. This project models the deterministic core that sits inside that glue:

- **`app1_create_view`** builds the first modal, the message softener. It always shows the
  message input and the soften button. Once a softened ("created") message exists, it also
  shows that message in its own input and a recipient picker. When the workflow cited
  documents, a checkbox list with one option per cited document comes last.
- **`app2_create_view`** builds the second modal, the task manager. Without tasks it shows
  only the fetch button. With tasks it shows four blocks: the fetch button, the tasks
  serialised one `term description status` line per task, an input for requested changes,
  and a request button.
- **History normalisation** is repeated in four handlers. It sorts the fetched messages by
  their `ts` string (Python's stable `sorted`), then deletes the `blocks` key from every
  message.
- **The knowledge-to-reference projection** and the **defensive `state.values` reads**
  (`.get(block, {}).get(action, {}).get(field)`).

Python values are modelled by a small JSON datatype (`Json.Json`). Python truthiness is
`Json.Truthy`, so `None`, `""`, `[]`, `{}`, `0` and `False` are all falsy. The exceptions the
code can raise (KeyError, TypeError, AttributeError) are the error side of a `Result`: a
subscript `d[k]` is `Json.Index` and `d.get(k, default)` is `Json.Get`. Slack's view document
is modelled as datatypes (`BlockKit`: view, block, element, option, text object).

Modules, one per file: `Json` (json.dfy), `BlockKit` (blockkit.dfy), `Knowledge`
(knowledge.dfy), `FormState` (formstate.dfy), `App1View` (app1view.dfy), `App2View`
(app2view.dfy), `History` (history.dfy), `Handlers` (handlers.dfy) and `Notification`
(notification.dfy).

The two builders and the history loop are methods, because the source grows a local list
with `append` and deletes keys in a loop. Each method's `ensures` states the shape of its
result. The comprehensions, the `"\n".join`, the projection and the sort are functions,
and lemmas prove their properties.

## Model

| member | source | states |
|---|---|---|
| Json.Index | app/main.py:491-493 | `v[key]` succeeds exactly on a dict holding `key` and yields its value; a dict without the key raises KeyError; any other value raises TypeError |
| Json.Truthy | app/main.py:199 | Python's `if x:` (also lines 219, 252 and 314): a value is truthy exactly when it is not None, False, 0, `""`, `[]` or `{}` |
| Json.Digits | app/main.py:317 | the decimal digits of a natural number denote that number, with no leading zero |
| Json.Str | app/main.py:264-270 | the `str()` an f-string applies (also lines 317 and 601-605): None is `None`, booleans are `True`/`False`, a string is itself, and an integer is its decimal digits, denoting its value, with no leading zero (zero is `0`), after a `-` when negative |
| Json.Get | app/main.py:465-469 | `v.get(key, default)` succeeds exactly on a dict; it yields the stored value when present and the default otherwise; on a non-dict it raises AttributeError |
| Knowledge.ProjectItem | app/main.py:490-494 | one knowledge item projects exactly when it is a dict with `content` and a `metadata` dict holding `document_name` and `segment_id`; the reference carries those three values; a non-dict item raises TypeError |
| Knowledge.ProjectItems | app/main.py:488-497 | mapping the lambda over a list succeeds exactly when every item projects; the result has one reference per item, in the items' order |
| Knowledge.ProjectKnowledge | app/main.py:488-497 | a list is projected item by item; among non-lists only `""` and `{}` give `[]`, and every other value raises TypeError |
| Knowledge.ProjectionPreservesOrder | app/main.py:488-497 | the projection keeps length and order: reference i holds item i's document name, segment id and content |
| FormState.FormValue | app/main.py:465-469 | the defensive chain can only fail with AttributeError |
| FormState.FormValueAgreesWithStrict | app/main.py:524-546 | against the direct subscript chain: same value where the direct chain finds one; None where it raises KeyError (missing block, action or field); AttributeError exactly where it meets a non-dict |
| FormState.WellShapedNeverRaises | app/main.py:524-546 | on a dict-of-dicts-of-dicts state the chain never raises; it yields the stored value if block, action and field are present, else None |
| App1View.TruthyReferences | app/main.py:252 | the `if references:` test: the references are truthy exactly when `Json.Truthy` holds of the corresponding Python value (None, or a list of the same length): neither None nor the empty list |
| App1View.CheckboxOptions | app/main.py:260-273 | exactly one option per reference, in order; option i has text = document name, description = content, value = segment id of reference i (each as `str()`) |
| App1View.OptionsRoundTrip | app/main.py:260-273 | for string-valued references, reading text, value and description back out of the options gives the references again |
| App1View.CreateView | app/main.py:182-285 | modal with the given callback id and the fixed title, submit and close; 2 blocks when the created message is falsy, whatever the references; 4 blocks when it is truthy and references are falsy; 5 when both are truthy; order input, actions, input, section, section; the first input has `initial_value` iff the message is truthy, and then it equals the message; the third block's input holds the created message; the fourth is the user select, with its action id and the default recipient; the fifth holds the checkbox options of the references; no other block carries an initial value |
| App2View.TaskLine | app/main.py:317 | a task line exists exactly when the task is a dict with `term`, `description` and `status`; a non-dict task raises TypeError; the line is `str(term) + " " + str(description) + " " + str(status)`, so it holds at least the two separators |
| App2View.TaskLines | app/main.py:316-319 | the comprehension succeeds exactly when every task has its line; one line per task, in order |
| App2View.TaskText | app/main.py:314-320 | for a list the text is the lines joined with newlines; among non-lists only `""` and `{}` iterate without raising |
| App2View.JoinLines | app/main.py:320 | `"\n".join`: the joined text is exactly as long as the lines together plus one newline between each two neighbours |
| App2View.SplitJoin | app/main.py:320 | splitting the joined text at newlines gives the lines back when no line holds a newline: nothing lost, nothing reordered |
| App2View.JoinEnds | app/main.py:320 | the joined text starts with the first line and ends with the last line, with no newline after it |
| App2View.NoTrailingNewline | app/main.py:320 | a joined text whose last line is non-empty and newline-free does not end with a newline |
| App2View.OneLinePerTask | app/main.py:316-320 | for well-formed tasks whose texts hold no newline, the task text has exactly one line per task, line i being `term description status` of task i |
| App2View.CreateView | app/main.py:292-374 | modal with the given callback id and the fixed title, submit and close; only the fetch button when the task list is falsy (None, empty); otherwise exactly actions, input, input, actions; the second block's input holds the task text; only the second block carries an `initial_value`; fails exactly when serialising a truthy task list raises |
| History.LexLeFirstDifference | app/main.py:79 | the string `<=` behind `sorted`, `History.LexLe`: a is at most b exactly when a is a prefix of b or, at the first position where they differ, a's code point is smaller |
| History.LexLeReflexive | app/main.py:79 | Python string `<=` is reflexive |
| History.LexLeTotal | app/main.py:79 | Python string `<=` is total |
| History.LexLeTransitive | app/main.py:79 | Python string `<=` is transitive |
| History.LexLeAntisymmetric | app/main.py:79 | Python string `<=` is antisymmetric |
| History.Insert | app/main.py:79 | inserting a message adds exactly that message to the multiset |
| History.SortByTs | app/main.py:79 | sorting keeps the length and is a permutation of the fetched messages |
| History.SortByTsSorted | app/main.py:79 | the sorted messages are in non-decreasing `ts` order |
| History.SortByTsStable | app/main.py:79 | the sort is stable: messages sharing a `ts` keep their fetched relative order |
| History.SortedStableUnique | app/main.py:79 | two `ts`-sorted sequences listing the same messages per `ts`, in the same order, are equal |
| History.SortByTsUnique | app/main.py:79 | the sort is the only sorted, stable reordering of the messages, which is what `sorted` with a key promises |
| History.WithoutBlocks | app/main.py:81-83 | the message has no `blocks` key afterwards; every other key is kept with its value and no key is added |
| History.AllWithoutBlocks | app/main.py:81-83 | deleting `blocks` from each message keeps the number of messages |
| History.SortWithoutBlocks | app/main.py:79-83 | stripping after sorting yields the same multiset as stripping the fetched messages |
| History.WithTsWithoutBlocks | app/main.py:81-83 | deleting `blocks` commutes with selecting the messages that share a `ts` |
| History.Normalize | app/main.py:79-83 | (also lines 125-129, 401-405 and 647-651) the result has the same length and is a permutation of the fetched messages with `blocks` deleted; it is sorted by `ts` and stable; message i is sorted message i with `blocks` deleted |
| Handlers.OpenApp1 | app/main.py:442-451 | the shortcut opens the first modal with exactly two blocks: the message input (its block and action ids, not pre-filled) and the actions block holding only the soften button |
| Handlers.OpenApp2 | app/main.py:377-387 | the shortcut opens the second modal with only the fetch button |
| Handlers.SoftenMessage | app/main.py:454-508 | the rebuilt modal fails exactly when the message read or the projection raises; it pre-fills the typed message iff that is truthy; it has 2, 4 or 5 blocks by the created message and the number of references; when the created message is truthy, the third block is its input holding it and the fourth is the recipient picker with the default recipient; option i shows knowledge item i's document name, content and segment id |
| Handlers.FetchTasks | app/main.py:390-437 | the history sent to the workflow keeps its length, is sorted by `ts`, stable, stripped of `blocks` and a permutation of the fetched messages stripped; message i is sorted message i without `blocks`; the rebuilt modal has 1 or 4 blocks by the task list's truthiness, and with tasks its second block is the task input holding the task text |
| Handlers.ReadSubmission | app/main.py:520-546 | the four reads succeed exactly when each defensive chain does, always on a well-shaped state; a block the submitted modal lacked reads as None |
| Notification.DocumentItemOf | app/main.py:596-608 | an item exists exactly when the option is a dict whose `text` and `description` are dicts holding `text` |
| Notification.DocumentItems | app/main.py:595-610 | one item per selected option, in order, when every option is well-formed |
| Notification.DocumentItemsAsWritten | app/main.py:589-613 | as written, iterating a `selected_options` of None raises TypeError; a list is built item by item |
| Notification.DocumentItemsOrNone | app/main.py:589-613 | the corrected list reads None as no selection and agrees with the code as written everywhere else |
| Notification.FourBlockSubmissionRaises | app/main.py:542-609 | submitting the four-block modal (created message, no cited documents) reads `selected_options` as None, and the list as written raises TypeError |
| Notification.DocumentItemsOrNoneBuilds | app/main.py:589-613 | with the correction, every well-shaped submission whose selected options are absent or well-formed builds its list; a modal without the checkbox group gives no items |

## Left out

- Slack Web API calls (`conversations_history`, `views_open`, `views_update`, `chat_postMessage`, `chat_postEphemeral`, `chat_scheduleMessage`) are foreign calls. Their results are parameters (fetched history, view state) and their arguments are results (views, the normalised history).
- The workflow's HTTP requests (`requests.post`) and the shape of their JSON responses are network I/O and an external contract. `createdMessage`, `knowledge` and `taskList` are taken as given inputs, and the `response_json["data"]["outputs"][...]` subscripts are not modelled.
- Clock reads and formatting (`datetime.now` with `strftime`, `time.time() + 30`) are nondeterministic.
- `os.environ` lookups, including the `WEBHOOK_URL_{user}` branch, are configuration.
- Bolt dispatch, `ack()`, logging, socket-mode startup, the commented-out message handler and the no-op handlers have no logic to model.
- The notification blocks of the submission handler are modelled only for the related-documents list. The mention, divider, created-message and image blocks only echo strings.
- The `/yaruki` and `/yaruki_reminder` commands and the message event handler share `History.Normalize`; the rest of their bodies is I/O.
- Json.Str: `str()` of a list or dict is rendered as the placeholder `[...]` or `{...}`, not as Python's repr. A `map` cannot represent a dict's insertion order.
- Json.Json: JSON floats are not represented; numbers are integers.
- History.Normalize: a message without `ts` (a KeyError in the sort key) or with a non-string `ts` (sorted by a different order, or a TypeError when the keys' types are mixed) is excluded by the `History.Message` type; Slack always sends `ts` as a string.
- History.Normalize: the source deletes `blocks` from the message dicts in place, and those dicts are shared with the fetched list. The model updates a sequence of map values, so that aliasing is not represented; the fetched list is not read again by any handler.
- App1View.CreateView: the `references` argument is `None` or a list of projected references, which is all its callers pass. A references argument of another Python type is not modelled.

## Findings

| source | as written | input that shows it | evidently intended | confidence | as-written member | corrected member |
|---|---|---|---|---|---|---|
| app/main.py:542-609 | the notification iterates `selected_references_options` directly, and the defensive read yields None when the modal had no checkbox group | submit the first modal after the workflow created a message but cited no documents (four blocks, no checkbox group), with a webhook configured for the recipient: `for ref in None` raises TypeError | an absent checkbox group means no related documents, as with an empty selection | medium, not executed | Notification.FourBlockSubmissionRaises | Notification.DocumentItemsOrNone |
