/** The mutation and modal controller of the `App` component (src/App.js:90-258):
    one modal shared by the new, edit and delete actions, one draft, and the
    handlers that open, edit, submit and close it. Each handler runs to
    completion; the store's answer to a request is an `Outcome` parameter. */
module ModalController {
  import opened ProjectData
  import opened ListSync

  /** The `action` state: '' (initially), 'new', 'edit' or 'delete'. */
  datatype Action = NoAction | New | Edit | Delete

  /** How the store answers a push, update or remove. */
  datatype Outcome = Resolved | Rejected

  /** A request sent to the store: a push under `projects`, or an update or
      remove of `projects/${id}`, the target kept as the record's `id`. */
  datatype Request = Push(entry: Object) | Update(target: Value, entry: Object) | Remove(target: Value)

  /** What the open modal shows (src/App.js:295, 355-357, 421-423). */
  datatype Dialog = NoDialog | NewForm | EditForm | DeleteConfirm

  class App {
    var projects: seq<Object>
    var modalIsOpen: bool
    var selectedProject: Option<Object>
    var action: Action
    var formData: Draft

    /** The closed modal holds no draft and no selection; the open modal
        has an action, with a selection exactly for edit and delete. */
    ghost predicate Valid()
      reads this
    {
      (!modalIsOpen ==> formData == EMPTY_DRAFT && selectedProject == None) &&
      (modalIsOpen ==> match action
                       case NoAction => false
                       case New => selectedProject == None
                       case Edit => selectedProject.Some?
                       case Delete => selectedProject.Some?)
    }

    /** The dialog the modal renders: the new form whenever the action is
        'new', the edit form and the delete confirmation only for their own
        action and with a selected project. */
    function Shown(): (d: Dialog)
      reads this
      ensures d != NoDialog ==> modalIsOpen
      ensures d == NewForm <==> modalIsOpen && action == New
      ensures d == EditForm <==> modalIsOpen && action == Edit && selectedProject.Some?
      ensures d == DeleteConfirm <==> modalIsOpen && action == Delete && selectedProject.Some?
      ensures Valid() && modalIsOpen ==> d != NoDialog
    {
      if !modalIsOpen then NoDialog
      else if action == New then NewForm
      else if selectedProject.None? then NoDialog
      else if action == Edit then EditForm
      else if action == Delete then DeleteConfirm
      else NoDialog
    }

    /** The state `useState` starts with (src/App.js:91-101). */
    constructor ()
      ensures Valid()
      ensures projects == [] && !modalIsOpen && selectedProject == None
      ensures action == NoAction && formData == EMPTY_DRAFT
    {
      projects := [];
      modalIsOpen := false;
      selectedProject := None;
      action := NoAction;
      formData := EMPTY_DRAFT;
    }

    /** The `onValue` callback: the list becomes the projection of the
        snapshot; nothing else changes. */
    method OnValue(snap: Snapshot)
      requires Valid()
      modifies this
      ensures Valid()
      ensures projects == Projection(snap)
      ensures modalIsOpen == old(modalIsOpen) && selectedProject == old(selectedProject)
      ensures action == old(action) && formData == old(formData)
    {
      projects := Projection(snap);
    }

    /** `handleInputChange`: sets the named draft field to the typed string,
        unvalidated, and leaves the other four. The inputs exist only in the
        new and edit forms. */
    method HandleInputChange(name: Field, value: string)
      requires Valid()
      requires Shown() == NewForm || Shown() == EditForm
      modifies this
      ensures Valid()
      ensures formData.Get(name) == Str(value)
      ensures forall g :: g != name ==> formData.Get(g) == old(formData.Get(g))
      ensures projects == old(projects) && modalIsOpen == old(modalIsOpen)
      ensures selectedProject == old(selectedProject) && action == old(action)
    {
      formData := formData.With(name, Str(value));
    }

    /** `handleAddNew`: opens the modal on 'new' with no selection. It does
        not touch the draft, which is empty when it is opened from the
        closed state. */
    method HandleAddNew()
      requires Valid()
      modifies this
      ensures Valid()
      ensures modalIsOpen && action == New && selectedProject == None
      ensures formData == old(formData) && projects == old(projects)
      ensures !old(modalIsOpen) ==> formData == EMPTY_DRAFT
      ensures Shown() == NewForm
    {
      selectedProject := None;
      action := New;
      modalIsOpen := true;
    }

    /** `handleCloseModal`: closes the modal, empties the draft and drops
        the selection. The action is left as it was. */
    method HandleCloseModal()
      modifies this
      ensures Valid()
      ensures !modalIsOpen && formData == EMPTY_DRAFT && selectedProject == None
      ensures action == old(action) && projects == old(projects)
      ensures Shown() == NoDialog
    {
      modalIsOpen := false;
      formData := EMPTY_DRAFT;
      selectedProject := None;
    }

    /** `handleAddNewSubmit`: pushes the draft, renamed to the record's
        properties. When the push resolves the draft is emptied and the
        modal closed; when it is rejected the error is caught and nothing
        changes. */
    method HandleAddNewSubmit(outcome: Outcome) returns (req: Request)
      requires Valid()
      requires Shown() == NewForm
      modifies this
      ensures Valid()
      ensures req == Push(PayloadOf(old(formData)))
      ensures outcome == Resolved ==>
        !modalIsOpen && formData == EMPTY_DRAFT && selectedProject == None && action == New
      ensures outcome == Rejected ==>
        modalIsOpen && formData == old(formData) && selectedProject == old(selectedProject) && action == New
      ensures projects == old(projects)
    {
      req := Push(PayloadOf(formData));
      if outcome == Resolved {
        formData := EMPTY_DRAFT;
        HandleCloseModal();
      }
    }

    /** `handleEdit`: selects the record, opens the modal on 'edit' and
        fills the draft from the record's fields. */
    method HandleEdit(p: Object)
      requires Valid()
      modifies this
      ensures Valid()
      ensures modalIsOpen && action == Edit && selectedProject == Some(p)
      ensures formData == DraftOf(p)
      ensures forall f :: formData.Get(f) == Get(p, RecordKey(f))
      ensures projects == old(projects)
      ensures Shown() == EditForm
    {
      selectedProject := Some(p);
      action := Edit;
      modalIsOpen := true;
      formData := DraftOf(p);
    }

    /** `handleEditSubmit`: updates `projects/${selectedProject.id}` with the
        renamed draft. When the update resolves the modal closes; when it is
        rejected the error is caught and nothing changes. */
    method HandleEditSubmit(outcome: Outcome) returns (req: Request)
      requires Valid()
      requires Shown() == EditForm
      modifies this
      ensures Valid()
      ensures req == Update(Get(old(selectedProject).value, "id"), PayloadOf(old(formData)))
      ensures outcome == Resolved ==>
        !modalIsOpen && formData == EMPTY_DRAFT && selectedProject == None && action == Edit
      ensures outcome == Rejected ==>
        modalIsOpen && formData == old(formData) && selectedProject == old(selectedProject) && action == Edit
      ensures projects == old(projects)
    {
      req := Update(Get(selectedProject.value, "id"), PayloadOf(formData));
      if outcome == Resolved {
        HandleCloseModal();
      }
    }

    /** `handleDelete`: selects the record and opens the modal on 'delete';
        the draft is not touched. */
    method HandleDelete(p: Object)
      requires Valid()
      modifies this
      ensures Valid()
      ensures modalIsOpen && action == Delete && selectedProject == Some(p)
      ensures formData == old(formData) && projects == old(projects)
      ensures !old(modalIsOpen) ==> formData == EMPTY_DRAFT
      ensures Shown() == DeleteConfirm
    {
      selectedProject := Some(p);
      action := Delete;
      modalIsOpen := true;
    }

    /** `handleConfirmDelete`: removes `projects/${selectedProject.id}`. When
        the remove resolves the modal closes; a rejected remove is not
        caught, so the close is skipped and nothing changes. */
    method HandleConfirmDelete(outcome: Outcome) returns (req: Request)
      requires Valid()
      requires Shown() == DeleteConfirm
      modifies this
      ensures Valid()
      ensures req == Remove(Get(old(selectedProject).value, "id"))
      ensures outcome == Resolved ==>
        !modalIsOpen && formData == EMPTY_DRAFT && selectedProject == None && action == Delete
      ensures outcome == Rejected ==>
        modalIsOpen && formData == old(formData) && selectedProject == old(selectedProject) && action == Delete
      ensures projects == old(projects)
    {
      req := Remove(Get(selectedProject.value, "id"));
      if outcome == Resolved {
        HandleCloseModal();
      }
    }
  }

  /** Opening a record for editing and saving without touching the form
      updates that record's key with its own five fields. */
  method EditThenSubmit(app: App, p: Object, outcome: Outcome) returns (req: Request)
    requires app.Valid()
    modifies app
    ensures app.Valid()
    ensures req == Update(Get(p, "id"), map k | k in RECORD_KEYS :: Get(p, k))
  {
    app.HandleEdit(p);
    req := app.HandleEditSubmit(outcome);
    EditPayload(p);
  }

  /** A draft that is created and then opened for editing from the list
      comes back unchanged: whatever key the store gives the new child,
      the record projected from it fills the same draft. */
  lemma CreateThenEdit(d: Draft, key: string)
    ensures DraftOf(RecordOf(key, PayloadOf(d))) == d
  {
  }

  /** Adding a project, typing a name and failing to push leaves the 'new'
      form open with the typed name. */
  method AddWithFailedPush() returns (action: Action, open: bool, name: Value)
    ensures action == New && open && name == Str("Beta")
  {
    var app := new App();
    app.HandleAddNew();
    app.HandleInputChange(ProjectName, "Beta");
    var _ := app.HandleAddNewSubmit(Rejected);
    action, open, name := app.action, app.modalIsOpen, app.formData.projectName;
  }

  /** Deleting the only project: the remove targets its key, the modal
      closes once it resolves, and the next snapshot, without that child,
      publishes an empty list. */
  method DeleteOnlyProject(entry: Object) returns (req: Request, open: bool, list: seq<Object>)
    requires "id" !in entry
    ensures req == Remove(Str("p1")) && !open && list == []
  {
    var app := new App();
    app.OnValue(Some([("p1", entry)]));
    app.HandleDelete(app.projects[0]);
    req := app.HandleConfirmDelete(Resolved);
    app.OnValue(Some([]));
    open, list := app.modalIsOpen, app.projects;
  }

  /** Opening project p1 for editing, renaming it and saving: the update
      targets p1 with the new name, and the modal closes once it resolves. */
  method EditRename(entry: Object) returns (req: Request, open: bool)
    requires "id" !in entry
    ensures req.Update? && req.target == Str("p1") && Get(req.entry, "name") == Str("Alpha2")
    ensures !open
  {
    var app := new App();
    app.OnValue(Some([("p1", entry)]));
    app.HandleEdit(app.projects[0]);
    app.HandleInputChange(ProjectName, "Alpha2");
    req := app.HandleEditSubmit(Resolved);
    open := app.modalIsOpen;
  }
}
