/**
 * `AdminPage`: the admin panel's edit state (`showForm`, `editingTool`), its handlers,
 * the choice between the store's add and update, and the `isAdmin` gate.
 * Rendering is not modelled.
 */
module AdminPage {
  import opened Wrappers
  import opened ToolList
  import opened Storage
  import opened ToolsContext
  import opened AuthContext
  import opened ToolForm

  const LoginRoute := "/login"

  /** The page's own state. */
  datatype EditState = EditState(showForm: bool, editingTool: Option<Tool>)

  /** Form hidden, nothing being edited: the initial state and the state after a reset. */
  const Closed := EditState(false, None)

  /** How an awaited store call ended: returned normally, or threw. */
  datatype CallOutcome = Settled | Threw

  /** The one store call a form submission makes. */
  datatype StoreCall = AddCall(fields: ToolFields) | UpdateCall(id: string, patch: Patch)

  /** What the page produces: nothing plus a redirect, or the panel. */
  datatype View = Nothing(redirect: string) | Panel

  /** The `data` object handed to `updateTool`: the three form fields, and no `id` key. */
  function FieldsPatch(f: ToolFields): (p: Patch)
    ensures p.id.None?
    ensures forall t :: Merge(t, p) == Tool(t.id, f.name, f.description, f.url)
  {
    Patch(None, Some(f.name), Some(f.description), Some(f.url))
  }

  /** `handleEdit(id)`: open the form on the first tool with that id; an unknown id changes nothing. */
  function AfterEdit(s: EditState, ts: seq<Tool>, id: string): (r: EditState)
    ensures !HasId(ts, id) ==> r == s
    ensures HasId(ts, id) ==> r.showForm && r.editingTool.Some?
    ensures HasId(ts, id) ==> r.editingTool.value in ts && r.editingTool.value.id == id
    ensures HasId(ts, id) ==> exists k :: 0 <= k < |ts| && ts[k] == r.editingTool.value
                                         && forall j :: 0 <= j < k ==> ts[j].id != id
  {
    var tool := FindById(ts, id);
    if tool.Some? then EditState(true, tool) else s
  }

  /** `handleCancel`: hide the form and forget the edited tool, whatever the state was. */
  function AfterCancel(s: EditState): (r: EditState)
    ensures !r.showForm && r.editingTool.None?
  {
    Closed
  }

  /** The "Add New Tool" buttons: `setShowForm(true)`. */
  function AfterOpenNew(s: EditState): (r: EditState)
    ensures r.showForm && r.editingTool == s.editingTool
  {
    s.(showForm := true)
  }

  /** The end of `handleFormSubmit`: reset after a normal return, keep everything after a throw. */
  function AfterSubmit(s: EditState, outcome: CallOutcome): (r: EditState)
    ensures outcome.Settled? ==> !r.showForm && r.editingTool.None?
    ensures outcome.Threw? ==> r == s
  {
    if outcome.Settled? then Closed else s
  }

  /** `handleFormSubmit`'s choice: update the edited tool when there is one, add otherwise. */
  function ChooseCall(editing: Option<Tool>, data: ToolFields): (c: StoreCall)
    ensures c.UpdateCall? <==> editing.Some?
    ensures c.UpdateCall? ==> c.id == editing.value.id && c.patch == FieldsPatch(data)
    ensures c.AddCall? ==> c.fields == data
  {
    if editing.Some? then UpdateCall(editing.value.id, FieldsPatch(data)) else AddCall(data)
  }

  /** The tool list after the chosen store call. */
  function ApplyCall(ts: seq<Tool>, c: StoreCall, freshId: string): (r: seq<Tool>)
    ensures c.AddCall? ==> |r| == |ts| + 1 && r[..|ts|] == ts && r[|ts|] == WithId(c.fields, freshId)
    ensures c.UpdateCall? ==> |r| == |ts|
    ensures c.UpdateCall? ==> forall i :: 0 <= i < |ts| ==>
              r[i] == if ts[i].id == c.id then Merge(ts[i], c.patch) else ts[i]
  {
    match c
    case AddCall(f) => Added(ts, f, freshId)
    case UpdateCall(id, p) => Updated(ts, id, p)
  }

  /** The `isAdmin` gate: without the admin flag the page renders nothing and redirects to the login route. */
  function Gate(isAdmin: bool): (v: View)
    ensures v.Nothing? <==> !isAdmin
    ensures v.Nothing? ==> v.redirect == LoginRoute
  {
    if !isAdmin then Nothing(LoginRoute) else Panel
  }

  /** With distinct ids, editing the tool at position `k` opens the form on exactly that tool. */
  lemma EditExisting(s: EditState, ts: seq<Tool>, k: nat)
    requires DistinctIds(ts) && k < |ts|
    ensures AfterEdit(s, ts, ts[k].id) == EditState(true, Some(ts[k]))
  {
    FindByIdDistinct(ts, k);
  }

  /**
   * Editing the tool at position `k` and submitting `data` rewrites that tool's three
   * fields, keeps its id, and leaves every other tool as it was; the form then closes.
   */
  lemma EditThenSubmit(s: EditState, ts: seq<Tool>, k: nat, data: ToolFields, freshId: string)
    requires DistinctIds(ts) && k < |ts|
    ensures var e := AfterEdit(s, ts, ts[k].id);
            && ApplyCall(ts, ChooseCall(e.editingTool, data), freshId)
               == ts[k := Tool(ts[k].id, data.name, data.description, data.url)]
            && AfterSubmit(e, Settled) == Closed
  {
    EditExisting(s, ts, k);
    UpdatedExisting(ts, k, FieldsPatch(data));
  }

  /** Submitting with nothing being edited appends one tool with the submitted fields. */
  lemma NewThenSubmit(s: EditState, ts: seq<Tool>, data: ToolFields, freshId: string)
    requires s.editingTool.None?
    ensures ApplyCall(ts, ChooseCall(s.editingTool, data), freshId) == ts + [WithId(data, freshId)]
  {
  }

  class Page {
    var showForm: bool
    var editingTool: Option<Tool>
    const tools: ToolsProvider
    const auth: AuthProvider

    function State(): EditState
      reads this
    {
      EditState(showForm, editingTool)
    }

    /** Both providers keep storage in step with their state. */
    ghost predicate Valid()
      reads this, tools, tools.storage, auth, auth.storage
    {
      tools.Valid() && auth.Valid()
    }

    constructor (tools: ToolsProvider, auth: AuthProvider)
      ensures State() == Closed && this.tools == tools && this.auth == auth
    {
      showForm := false;
      editingTool := None;
      this.tools := tools;
      this.auth := auth;
    }

    /** What the page produces for the current session. */
    function Render(): (v: View)
      reads this, auth
      ensures v.Nothing? <==> !auth.isAdmin
    {
      Gate(auth.isAdmin)
    }

    method HandleEdit(id: string)
      modifies this
      ensures State() == AfterEdit(old(State()), tools.tools, id)
    {
      var tool := FindById(tools.tools, id);
      if tool.Some? {
        editingTool := tool;
        showForm := true;
      }
    }

    method HandleCancel()
      modifies this
      ensures State() == AfterCancel(old(State()))
    {
      showForm := false;
      editingTool := None;
    }

    method HandleOpenNew()
      modifies this
      ensures State() == AfterOpenNew(old(State()))
    {
      showForm := true;
    }

    /**
     * `handleDelete(id)`: `confirmed` is the answer of the confirmation dialog; only a
     * confirmed delete reaches the store.
     */
    method HandleDelete(id: string, confirmed: bool)
      requires Valid()
      modifies tools, tools.storage
      ensures Valid()
      ensures tools.tools == if confirmed then Deleted(old(tools.tools), id) else old(tools.tools)
      ensures confirmed ==> tools.storage.entries == Persisted(old(tools.storage.entries), tools.tools)
      ensures !confirmed ==> tools.storage.entries == old(tools.storage.entries)
      ensures auth.State() == old(auth.State())
    {
      if confirmed {
        tools.DeleteTool(id);
      }
    }

    /**
     * `handleFormSubmit(data)`: one store call, chosen by `editingTool`; the store
     * returns normally, so the form is reset. `freshId` is the id an add generates.
     */
    method HandleFormSubmit(data: ToolFields, freshId: string)
      requires Valid()
      modifies this, tools, tools.storage
      ensures Valid()
      ensures tools.tools == ApplyCall(old(tools.tools), ChooseCall(old(editingTool), data), freshId)
      ensures tools.storage.entries == Persisted(old(tools.storage.entries), tools.tools)
      ensures State() == AfterSubmit(old(State()), Settled)
      ensures auth.State() == old(auth.State())
    {
      if editingTool.Some? {
        tools.UpdateTool(editingTool.value.id, FieldsPatch(data));
      } else {
        tools.AddTool(data, freshId);
      }
      showForm := false;
      editingTool := None;
    }

    /**
     * The form's submit wired to `handleFormSubmit` (`onSubmit={handleFormSubmit}`):
     * input with an error flag never reaches the store and leaves the page as it was.
     */
    method SubmitForm(form: ToolForm.Form, freshId: string)
      requires Valid()
      modifies this, tools, tools.storage, form`errors
      ensures Valid()
      ensures form.errors == Validate(form.name, form.description, form.url, form.isValidUrl)
      ensures form.errors.Any() ==> tools.tools == old(tools.tools) && State() == old(State())
      ensures form.errors.Any() ==> tools.storage.entries == old(tools.storage.entries)
      ensures !form.errors.Any() ==> tools.storage.entries == Persisted(old(tools.storage.entries), tools.tools)
      ensures !form.errors.Any() ==> State() == Closed && tools.tools == ApplyCall(old(tools.tools),
                ChooseCall(old(editingTool),
                Submission(form.name, form.description, form.url, form.isValidUrl).value), freshId)
    {
      var submitted := form.HandleSubmit();
      if submitted.Some? {
        HandleFormSubmit(submitted.value, freshId);
      }
    }
  }
}
