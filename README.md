# Projects list table: synchronizer and modal controller

This project models the logic of the single React component (`App`) of a
projects list backed by a real-time store. The component does two things:

- **List synchronizer.** Every snapshot the store emits under `projects`
  replaces the displayed list. Each child of the snapshot becomes one record
  `{id: key, ...entry}`, in the order `Object.keys` lists them. A null
  snapshot gives the empty list.
- **Modal controller.** One modal is shared by the 'new', 'edit' and
  'delete' actions. Its state is `modalIsOpen`, `action`,
  `selectedProject` and the five-field draft `formData`. The handlers open
  the modal, edit one draft field, submit (push or update), confirm a
  delete, and close the modal.

Files:

- `project_data.dfy` (module `ProjectData`): JavaScript values
  (`Value`, with `Undefined` for an absent property) and objects
  (`map<string, Value>`). It also holds the draft (`Draft`, indexed by
  `Field`) and the renaming between draft fields and record properties
  (`projectName`→`name`, `projectLink`→`link`, the other three unchanged).
  `DraftOf` is the fill that opening for edit does. `PayloadOf` is the body
  that both submits send.
- `list_sync.dfy` (module `ListSync`): the snapshot projection, as pure
  functions, with lemmas about length, order, carried fields and ids.
- `modal_controller.dfy` (module `ModalController`): class `App` with the
  state cells as fields and one method per handler. The closed-state
  invariant is `Valid()`. The rendering guards of the modal are `Shown()`.
  The file also has client methods for the edit round trip and for three
  concrete scenarios, and a lemma for the create-then-edit round trip.

Each remote call (`push`, `update`, `remove`) is modelled as a `Request`
out-parameter that says what is sent, plus an `Outcome` parameter
(`Resolved` or `Rejected`) that says how the store answers. The target
`projects/${selectedProject.id}` is kept as the record's `id` value.
The snapshot is an input: null (`None`) or the children as a sequence of
(key, object) pairs.

Points where the code is easy to misread; the model follows the code:

- `handleAddNew` does not reset the draft. The draft is empty after it only
  because the draft is always empty while the modal is closed (`Valid()`).
  `HandleAddNew` says exactly this.
- A rejected `remove` in `handleConfirmDelete` is not caught. The close is
  skipped and no state changes.
- `handleCloseModal` leaves `action` as it was: "no action" is
  `modalIsOpen == false`.
- The update body is the five renamed draft fields, whatever the record held.

## Model

| member | source | states |
|---|---|---|
| ProjectData.Draft.With | src/App.js:136-142 | the named draft field takes the new value; each of the other four keeps its value |
| ProjectData.DraftOf | src/App.js:200-206 | each draft field is the record property it is renamed from (`projectName`←`name`, `projectLink`←`link`, …), undefined when the record lacks it |
| ProjectData.PayloadOf | src/App.js:165-171 | the body sent has exactly the five record properties, each holding the draft field renamed to it |
| ProjectData.EditPayload | src/App.js:200-220 | filling the draft from a record and sending it unchanged sends that record's own five properties |
| ProjectData.EditPayloadComplete | src/App.js:200-220 | for a record with all five properties, that body is the record restricted to them |
| ListSync.RecordOf | src/App.js:121-124 | the record has the entry's properties plus `id`; every entry property is carried over; `id` is the key unless the entry stores its own `id`, which wins |
| ListSync.Records | src/App.js:121-124 | one record per child, same length, the i-th record built from the i-th child |
| ListSync.Projection | src/App.js:118-128 | a null or empty snapshot gives the empty list; otherwise the length is the number of children (of keys, for distinct keys: `ProjectionCountsKeys`), and each record carries its entry's fields and the key as `id` unless overridden |
| ListSync.DistinctKeyCount | src/App.js:121 | children with pairwise distinct keys have as many distinct keys as there are children |
| ListSync.ProjectionCountsKeys | src/App.js:121-124 | for a snapshot with distinct keys (as every JavaScript object has), the published list has exactly one record per key |
| ListSync.RecordsAppend | src/App.js:121-124 | the projection keeps child order: projecting a + b is projecting a followed by projecting b |
| ListSync.IdsAreKeys | src/App.js:121-124 | when no child stores its own `id`, the list's ids are exactly the snapshot keys in order |
| ListSync.IdsDistinct | src/App.js:121-124 | when no child stores its own `id`, distinct keys give records with distinct ids |
| ModalController.App.Shown | src/App.js:289-441 | a dialog shows only with the modal open; the new form exactly when open on 'new'; the edit form exactly when open on 'edit' with a selection, the delete confirmation exactly when open on 'delete' with a selection; an open modal in a valid state always shows a dialog |
| ModalController.App.constructor | src/App.js:91-101 | starts with an empty list, the modal closed, no selection, no action and the empty draft, so the invariant holds |
| ModalController.App.OnValue | src/App.js:118-128 | the list becomes the projection of the snapshot; the controller state is unchanged |
| ModalController.App.HandleInputChange | src/App.js:136-142 | sets exactly the named draft field to the typed string, unvalidated; nothing else changes |
| ModalController.App.HandleAddNew | src/App.js:144-158 | opens on 'new' with no selection and the draft untouched; from the closed state the draft is empty |
| ModalController.App.HandleAddNewSubmit | src/App.js:160-183 | pushes the renamed draft; resolved: draft empty, modal closed, selection dropped; rejected: state unchanged |
| ModalController.App.HandleEdit | src/App.js:186-207 | selects the record, opens on 'edit' and fills every draft field from the record property it is renamed from |
| ModalController.App.HandleEditSubmit | src/App.js:209-225 | updates the selected record's `id` with the renamed draft; resolved: closed and cleared; rejected: state unchanged |
| ModalController.App.HandleDelete | src/App.js:227-239 | selects the record and opens on 'delete', draft untouched (empty from the closed state) |
| ModalController.App.HandleCloseModal | src/App.js:241-252 | modal closed, all five draft fields empty, selection dropped, action unchanged |
| ModalController.App.HandleConfirmDelete | src/App.js:254-258 | removes the selected record's `id`; resolved: closed and cleared; rejected: close skipped, state unchanged |
| ModalController.EditThenSubmit | src/App.js:186-225 | edit followed by submit without field edits updates key `p.id` with p's own five properties |
| ModalController.CreateThenEdit | src/App.js:165-206 | a pushed draft, projected under any key and opened for edit, fills the same draft back |
| ModalController.AddWithFailedPush | src/App.js:144-183 | add, type "Beta", rejected push: still open on 'new' with the name kept |
| ModalController.DeleteOnlyProject | src/App.js:227-258 | delete of the only record removes its key, closes on success, and the next snapshot without it shows an empty list |
| ModalController.EditRename | src/App.js:186-225 | edit p1, rename to "Alpha2", resolved update: targets p1 with the new name and closes |

## Left out

- Firebase setup (`initializeApp`, configuration read from `process.env`): environment and I/O.
- The network behaviour of `push`, `update`, `remove` and `onValue`: each is a request plus an abstract outcome, or an input snapshot. The store's merge semantics for `update`, key generation for `push`, and how a write shows up in a later snapshot are not modelled.
- Asynchrony: every handler is atomic. The model does not cover `await` suspension, a second submit while a call is pending, a snapshot arriving while a modal is open, or React's batching of state updates.
- Rendering: the JSX and MUI/react-modal markup, `Modal.setAppElement`, and the `customStyles` objects. Only the guards deciding which dialog shows are modelled, in `Shown`.
- The row expand toggle (`setOpen(!open)` in `Row`): a visual disclosure with no effect on the controller.
- Logging of caught errors (`console.error`): output only.
- ModalController.App.HandleInputChange: takes one of the five draft fields, not an arbitrary input name. The only inputs that call it are the five text fields of the two forms, so a name outside the five cannot reach it.
- A snapshot whose root or whose children are not objects (a string or number stored directly under `projects`) is not modelled. Snapshot children are always objects here.
- Numbers are modelled as unbounded integers, not floating point. The string form of a non-string `id` in the request path is not modelled: the request keeps the `id` value itself.
- The store client's refusal of a body holding `undefined` is not modelled. An edit of a record that lacks one of the five properties sends `Undefined` in the request; the client throws before sending, inside the `try` of src/App.js:211-224, so that outcome is in practice `Rejected`. The model leaves the outcome free.
