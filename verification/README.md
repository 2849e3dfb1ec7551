# koko-slack-forms in Dafny

A model of the Slack bot in `index.js`, which lets a user build a form
step by step, saves it, shows it to other users and sends their answers on.
The model covers four pieces of the bot:

- **FormWizard** (`wizard.dfy`): the form being built (`tempForm`) and the
  handlers that change it: `/create-form`, `continue_form_creation`,
  `field_type_select`, `confirm_field`, `add_option`, `finish_options`,
  `add_another_field` and `finish_form`. The draft is `Option<Draft>` and the
  saved forms are a map keyed by form id. Each handler is a pure function from
  a `State` to a `Step`, which is the next state plus the reply. A handler
  that throws a `TypeError` replies `Crashed`. JavaScript's `undefined` is
  kept as a value: `Field.Undefined` is an absent `currentField`, and it is
  also what `finish_options` pushes when there is no current field.
- **Render** (`render.dfy`): `select_form_to_run`, which turns a saved form
  into Block Kit blocks. It builds a title/description section, a context
  block with the form id, one input block per field and a submit button.
  Block and action ids come from the slug function (lower-case, then every
  space becomes `_`).
- **Submission** (`submission.dfy`): `submit_form`. It decodes each block id
  back to a field name and each element state to a value. It merges these
  the way `Object.assign` does, then adds the submitter's `userName`,
  `userEmail` and `userSlackId`.
- **Broadcast** (`broadcast.dfy`): `select_channel_for_form`. It sends the
  form to every channel member and counts successes and failures. Each
  member's platform calls are given as an `Attempt` value.

Modelling choices:

- Inputs from outside the handlers are parameters: the values the user typed
  or picked, the uuid, the channel members, whether the form file was written,
  the outcome of each member's broadcast calls (`Attempt`), and each email
  lookup. Other platform and network calls (`say`, `respond`,
  `conversations.members`, `generateMessage`, `axios.post`) are assumed to
  succeed or left out, as "Left out" says.
- `confirm_field` branches on the button's value (`body.actions[0].value`),
  not on the type stored in `currentField`. The model keeps that choice.
  So the well-formedness invariant holds only for runs in which each confirm
  button carries the current field's kind (`FormWizard.ButtonMatches`).
- `finish_options` is the one handler that changes state and then throws.
  It pushes `currentField` and deletes it before it reads
  `.options.length`. Two lemmas show what this allows when a user presses
  buttons out of order: a field with no name, and a date field with an
  options list.
- A text input left blank arrives as `null`. A field name or option left
  blank is kept as `None` (`FormWizard.Text`), and such a field cannot be
  rendered later. The well-formedness invariant therefore assumes that no
  name or option is left blank.
- The other handlers read a saved form from its file in `forms/`, never from
  the in-memory `forms` object. The model's map of saved forms stands for
  those files, so a form whose file write failed is not saved.
- Because `/_input$/` is anchored at the end, `DecodeFieldName` strips only a
  trailing `_input`.

## Model

| member | source | states |
|---|---|---|
| FormWizard.OnCreateForm | index.js:22-34 | A new draft has the given id and owner, an empty title, description and URL, no fields and no current field. It replaces any earlier draft, is well formed, and leaves saved forms alone. |
| FormWizard.OnContinueFormCreation | index.js:106-112 | Sets title, description and submission URL. Nothing else in the draft changes. It throws, with no effect, when there is no draft. |
| FormWizard.OnFieldTypeSelect | index.js:178-182 | The current field becomes a fresh field of the chosen kind, with no name and no options. Nothing else changes. It throws when there is no draft. |
| FormWizard.OnConfirmField | index.js:222-279 | Throws, with no effect, when there is no draft or no current field. The current field takes the entered name, `null` if it was left blank. A multiple-choice button also gives the field an empty options list, and nothing else changes. Any other button appends the named field at the end of `fields` and clears the current field, and nothing else changes. |
| FormWizard.OnAddOption | index.js:283-287 | Appends exactly the entered value, `null` if left blank, at the end of the current field's options. Throws, with no effect, when there is no draft, no current field or no options list. |
| FormWizard.OnFinishOptions | index.js:343-356 | With no draft it throws with no effect. With a draft it always appends the current field (even `undefined`) to `fields` and clears it; nothing else changes. The reported count is the pushed field's number of options. It throws after the push when that field has no options list. |
| FormWizard.OnAddAnotherField | index.js:397-460 | Changes no state, whether or not a draft exists. |
| FormWizard.OnFinishForm | index.js:463-495 | Clears the draft and announces the form with its title and field count, whether or not the file could be written. Only when the file is written is the draft saved under its own id, with every other saved form kept. A failed write saves nothing. Throws when there is no draft. |
| FormWizard.CrashLeavesStateUnchanged | index.js:106-287 | Every handler except `finish_options` throws before it changes anything. |
| FormWizard.StepKeepsStateOk | index.js:178-356 | One orderly event keeps three invariants: every stored field is named, options lists with no blank entry sit exactly on the multiple-choice fields, and saved forms are keyed by their own ids. An orderly event uses the latest confirm button, leaves no name or option blank, and does not make `finish_options` throw. |
| FormWizard.RunKeepsStateOk | index.js:22-496 | Those invariants hold after any orderly sequence of events. |
| FormWizard.StepAppendsOnly | index.js:272-348 | Apart from `/create-form`, an event only appends to `fields`: the old list is a prefix of the new one, one element longer at most. The id and owner stay the same. |
| FormWizard.CurrentConsumedWhenPushed | index.js:272-348 | `fields` grows exactly when the current field is consumed. The pushed element is the old current field, renamed at most, and the current field becomes undefined. |
| FormWizard.RunAppendsOnly | index.js:106-496 | Over any run without `/create-form` that ends with a draft, the starting fields survive in order as a prefix. |
| FormWizard.FinishOptionsBeforeConfirmStoresUnnamedField | index.js:343-354 | Pressing "finish options" before confirming a field throws, yet a field with no name stays in `fields`. |
| FormWizard.StaleConfirmButtonGivesOptionsToDate | index.js:222-271 | A multiple-choice confirm button pressed for a date field gives that date field an options list, and `finish_options` then accepts it. |
| Render.Lower | index.js:651 | `toLowerCase`, restricted to ASCII, changes one character at a time and keeps the length. |
| Render.Replace | index.js:651 | A global one-character replace changes every occurrence and nothing else. |
| Render.Slug | index.js:651 | The slug has the name's length and contains no space. Each character is `_` where the name has a space, otherwise the lower-cased character. |
| Render.OptionChoices | index.js:658-664 | Succeeds exactly when no option is blank: one choice per option, in order, whose text is the option and whose value is its slug. A blank (`null`) option makes it fail. |
| Render.RenderField | index.js:647-728 | Block id is slug(name)+"_input", action id is slug(name), label is the name. Multiple choice gives a static select with the options in order; date gives a datepicker; checkbox gives one "checked" box; any other kind gives a plain text input, multiline exactly for `long_text`. A null field, a missing or blank name, a missing options list or a blank option makes it fail, each with its own error. |
| Render.RenderFields | index.js:647-729 | Succeeds exactly when every field renders, giving one block per field in field order. Otherwise it fails with the first bad field's error. |
| Render.FormBlocks | index.js:630-745 | Gives exactly |fields|+3 blocks in this order: the title/description section, the context with the form id, the field inputs, and a submit button whose value is the form id. |
| Render.SelectFormToRun | index.js:618-751 | An unknown id fails as not found. Otherwise the result is the rendered form, or the error of its first unrenderable field. The rendered form starts with the form's title and description and the form id, ends with the submit button, and has the rendered fields in between. |
| Render.WellFormedFormRenders | index.js:647-729 | Every well-formed form renders without error: each field is named, and each multiple-choice field has options with no blank entry. By RunKeepsStateOk, these are the forms an orderly wizard run saves. |
| Render.RenderedIdsAreSlugs | index.js:647-729 | Input block i+2 belongs to field i. It carries slug(name)+"_input" and slug(name) as ids, and neither contains a space. |
| Render.BlankNameMakesFormUnrenderable | index.js:222-651 | A field name left blank is stored as `null`, and `finish_form` saves the form. Showing that form then fails, because the name cannot be lower-cased. The run uses only matching confirm buttons. |
| Submission.DecodedName | index.js:772 | The posted name keeps the field name's length. Each space or underscore becomes a space, and every other character is lower-cased. |
| Submission.StripInputSuffix | index.js:772 | Removes exactly one trailing "_input" and leaves other ids unchanged. |
| Submission.DecodeFieldName | index.js:772 | The decoded name is the block id minus a trailing "_input", with every `_` made a space. It contains no `_`. |
| Submission.RenderedIdDecodes | index.js:772 | Decoding a rendered block id gives the field name lower-cased, with spaces and underscores both turned into spaces. |
| Submission.DecodedNameDiffersFromName | index.js:772 | The field "Full Name" is posted as "full name", which is not its original name. |
| Submission.DistinctNamesCanCollide | index.js:772 | The different fields "a b" and "a_b" are posted under the same name. |
| Submission.AnswerValue | index.js:773-786 | A select posts the chosen option's text, and fails when nothing is chosen. A checkbox posts "Sí" exactly when at least one box is ticked, otherwise "No". Dates and text pass through, null included. |
| Submission.Responses | index.js:770-788 | One (decoded name, value) pair per block, in block order. It fails exactly when some answer fails. |
| Submission.Merge | index.js:843 | The keys are exactly the names present, and each name takes the value of its last pair. |
| Submission.SubmissionData | index.js:843-848 | `userName`, `userEmail` and `userSlackId` hold the submitter's data whatever the answers hold. Every other answer name takes the value of its last pair. |
| Submission.SubmitForm | index.js:755-860 | An unknown form fails. A submission succeeds exactly when every answer decodes. The post goes to the form's URL, its keys are the decoded names plus the three user keys, and the user keys carry the submitter. Every other decoded name carries the value of its last block. |
| Submission.SplicedAnswerIsLast | index.js:770-788 | A block with no later block of the same decoded name gives the last pair of that name, carrying its own answer. |
| Submission.RenderedNameIsNoUserKey | index.js:843-848 | A decoded rendered name is never one of the three user keys, so for rendered forms the override never replaces an answer. |
| Submission.AnswerPostedUnderDecodedName | index.js:770-848 | End to end: take answers that all decode and contain the block rendered from `name`. When no later block decodes to the same name, the post succeeds and carries that block's answer under DecodedName(name). |
| Broadcast.FailureOf | index.js:1044-1199 | A member gets the form exactly when the greeting, the rendering and the form post all succeed. Otherwise the failure reason is the first step that failed. |
| Broadcast.Tally | index.js:1036-1200 | successCount + failedCount = number of members. `errors` has failedCount entries and equals the member-ordered list of failures. successCount equals the number of delivered members. |
| Broadcast.FailuresAreMembersInOrder | index.js:1044-1199 | Each error entry names a member whose delivery failed, at strictly increasing member positions. Failures plus deliveries account for every member. |
| Broadcast.UnrenderableFormReachesNobody | index.js:1079-1193 | Rendering happens inside the per-member try, so a form that cannot be rendered reaches no member. |
| Broadcast.SelectChannelForForm | index.js:1006-1271 | No chosen form throws. An empty id replies "select a form first". An unknown form reports the send error. Otherwise `errors` is exactly the list of failed members, in member order, each with its email and reason. The success count is the number of members who got the form, and it is zero when the form cannot be rendered. |

## Left out

- Every `say` is assumed to succeed. If one failed, the handler would throw at that point: `confirm_field` with a multiple-choice button would leave the field without its options list (the prompt at index.js:230 comes before `options = []` at 271). In `finish_form`, a failed success reply (484) is caught inside the try at 475, and the reply at 489 then wrongly says the file could not be written. The draft is still cleared at 495. If the reply at 489 fails, the handler throws and keeps the draft. `submit_form` would skip the post to the submission URL (the summary at 809 sits inside the try that also holds the post at 851).
- Slack SDK plumbing (`App`, `ack`, `say`, `respond`, `conversations.*`, `chat.postMessage`, `users.info`): foreign calls. In the broadcast their results are parameters (`Attempt`); elsewhere they are assumed to succeed, as the line above says. The text the bot says is not modelled.
- `uuidv4`: randomness. The form id is an input.
- `getUserEmail`: a network lookup. Its result is an `Option<string>` input, one per failed member in the broadcast.
- `generateMessage` (the LLM invitation text) and the `axios.post` to the submission URL: external network calls. `SubmitForm` returns the URL and the data it would post. A failure of `generateMessage` or `conversations.members` is not modelled.
- File system work (`forms/` directory, JSON read/write, directory listing): I/O. Saved forms are an in-memory map keyed by id. JSON round-tripping, which turns an `undefined` array element into `null`, is covered by `NullField`. A failed write is the `written` flag of `finish_form`, and it leaves the form unsaved. A failed `mkdirSync` or `readFileSync` is not modelled separately.
- The global mutable `tempForm` shared between users: a concurrency concern. The draft is explicit single-threaded state.
- `toLowerCase` beyond ASCII: Unicode case mapping is out of scope, and `LowerChar` maps only `A`–`Z`.
- `/list-forms`, `/test-form`, `/run-form-on-channel` and `select_form_for_channel`: they only list forms and channels or echo a selection, and change no state.
- The summary message that `submit_form` shows and the statistics blocks of the broadcast: presentation text.
- A text input left empty arrives as `null`. The model keeps `null` for field names, options and answers. For title, description and submission URL it takes strings. A `null` there only changes the title and description shown (each printed as "null") and the URL posted to.
- The order of `Object.entries(body.state.values)`: the model takes the submitted blocks as a given sequence.
