# AiPuppie tool directory: client-side state, modelled in Dafny

AiPuppie is a password-gated directory of external tool links with an admin panel for adding, editing and deleting entries. The logic worth verifying is the state the browser client keeps. This project models four parts of it:

- **Tool store** (`ToolsProvider`, `src/contexts/ToolsContext.tsx`). It owns the list of `Tool {id, name, description, url}` records. Adding appends a record with a generated id. Updating merges a partial record into every element with the given id. Deleting filters that id out. After each change the list is mirrored to `localStorage` under `"tools"`.
- **Session flags** (`AuthProvider`, `src/contexts/AuthContext.tsx`). Two independent booleans, `isAuthenticated` and `isAdmin`. Each is set by comparing a password with a fixed one (`"arora"` for users, `"admin"` for admins) and cleared by its own logout. Both are restored from storage on start and written back as `"true"`/`"false"`.
- **Tool form** (`ToolForm`, `src/components/ToolForm.tsx`). It computes one error flag per field on submit: the name or description is blank, or the url is blank or does not parse. It passes the trimmed fields on only when no flag is set.
- **Admin panel** (`AdminPage`, `src/pages/AdminPage.tsx`). Its edit state is `showForm` and `editingTool`. Its handlers open, cancel and submit the form, choose between the store's add and update, and confirm deletes. The `isAdmin` gate redirects to `/login`.

Layout, one module per file:

| file | module | contents |
|---|---|---|
| `wrappers.dfy` | `Wrappers` | `Option`, `Result` |
| `js_text.dfy` | `JsText` | `String.prototype.trim` over `seq<char>` |
| `tool_list.dfy` | `ToolList` | the `Tool` record and the pure list transformations (append, map-merge, filter, find) with their lemmas |
| `storage.dfy` | `Storage` | `localStorage` as one shared key-value object |
| `tools_context.dfy` | `ToolsContext` | the `ToolsProvider` class: initial load, the three mutations, persistence |
| `auth_context.dfy` | `AuthContext` | session transitions as functions, and the `AuthProvider` class |
| `tool_form.dfy` | `ToolForm` | validation and submission as functions, and the `Form` class |
| `admin_page.dfy` | `AdminPage` | edit-state transitions as functions, and the `Page` class |

Each stateful component is a class. Its methods are tied by their `ensures` clauses to pure functions of the old state (`tools == Updated(old(tools), id, patch)`, `State() == AfterLogin(old(State()), password)`), and the properties are proved as lemmas about those functions. `localStorage` is a single object shared by both providers. So the fact that writing `"tools"` does not touch `"authenticated"` or `"admin"` is part of what is proved: `AdminPage.Page.Valid` needs both providers to stay in step with storage.

Two points about what the code does and does not do:

- There is no remote store, loading flag or error slot. The list lives only in memory and in `localStorage`, and the store calls are synchronous. They never throw where `crypto.randomUUID` exists, that is, in a secure context. On a plain-http origin `addTool` throws a `TypeError` at `crypto.randomUUID()`. `ToolsContextType` has no `isLoading`, so `AdminPage` reads `isLoading` as `undefined`.
- Nothing ties `isAdmin` to `isAuthenticated`. The two flags are fully independent, and `AuthContext.SessionStepsCommute` states that independence.

## Model

| member | source | states |
|---|---|---|
| `JsText.TrimStart` | src/components/ToolForm.tsx:30-32 | The leading-whitespace strip behind `trim()` returns a suffix of its input. Everything it drops is ECMAScript whitespace, and the result does not start with whitespace. |
| `JsText.TrimEnd` | src/components/ToolForm.tsx:30-32 | The trailing strip returns a prefix of its input. Everything it drops is whitespace, and the result does not end with whitespace. |
| `JsText.Trim` | src/components/ToolForm.tsx:30-32 | `s.trim()` is never longer than `s` and has no outer whitespace. It is empty exactly when `s` is all whitespace. |
| `JsText.TrimBetween` | src/components/ToolForm.tsx:30-32 | `s.trim()` is the slice of `s` left once its blank prefix and blank suffix are removed. |
| `JsText.TrimOfTrimmed` | src/components/ToolForm.tsx:42-44 | A string with no outer whitespace is its own trim. |
| `JsText.TrimIdempotent` | src/components/ToolForm.tsx:42-44 | Trimming twice equals trimming once. |
| `ToolList.WithId` | src/contexts/ToolsContext.tsx:31-34 | `{ ...tool, id }`: the record `addTool` builds from the supplied fields and the generated id. Its use is stated by `ToolList.Added` and `ToolList.AddedIsFound`. |
| `ToolList.Added` | src/contexts/ToolsContext.tsx:30-35 | After `addTool` the list is one longer. The old elements are an unchanged prefix, in order. The last element carries the supplied name, description and url and the generated id. |
| `ToolList.Merge` | src/contexts/ToolsContext.tsx:40 | `{ ...tool, ...updatedTool }`: each key present in the patch takes the patch's value, and each absent key keeps the tool's value. |
| `ToolList.Updated` | src/contexts/ToolsContext.tsx:38-41 | `updateTool` keeps the length and the positions. Each element with the target id becomes the merge of itself with the patch; every other element is unchanged. |
| `ToolList.Deleted` | src/contexts/ToolsContext.tsx:44-45 | `deleteTool(id)` never lengthens the list. A tool is kept exactly when it was in the list and its id differs from `id`. |
| `ToolList.FindIndex` | src/pages/AdminPage.tsx:29 | The `find` lookup returns `None` exactly when no element has the id. Otherwise it returns the first position holding it. |
| `ToolList.FindById` | src/pages/AdminPage.tsx:29 | `tools.find(t => t.id === id)` returns `None` exactly when no element has the id. Otherwise it returns the first element of the list with that id. |
| `ToolList.AddedKeepsIdsDistinct` | src/contexts/ToolsContext.tsx:33-35 | If ids are pairwise distinct and the generated id is fresh, ids stay pairwise distinct after `addTool`. |
| `ToolList.AddedIsFound` | src/contexts/ToolsContext.tsx:31-35 | With a fresh id, looking the added tool up by its id returns exactly the added record. |
| `ToolList.UpdatedAbsent` | src/contexts/ToolsContext.tsx:40 | Updating an id that is not in the list leaves the list unchanged. |
| `ToolList.UpdatedKeepsIds` | src/contexts/ToolsContext.tsx:40 | A patch without an `id` key keeps every element's id in place, so it keeps pairwise-distinct ids distinct. |
| `ToolList.UpdatedNameOnly` | src/contexts/ToolsContext.tsx:40 | Patching only `name` sets the name of a matching element. Its id, description and url are kept. |
| `ToolList.UpdatedIdempotent` | src/contexts/ToolsContext.tsx:39-41 | Applying the same update twice equals applying it once. |
| `ToolList.UpdatedExisting` | src/contexts/ToolsContext.tsx:39-41 | With distinct ids, updating the id at position `k` replaces exactly that element with its merge and leaves every other element unchanged. |
| `ToolList.AddThenRename` | src/contexts/ToolsContext.tsx:30-41 | Adding `{X, Y, u}` and then updating only its name to `Z` gives `{id, Z, Y, u}` at the end, with the earlier tools unchanged. |
| `ToolList.DeletedAbsent` | src/contexts/ToolsContext.tsx:45 | Deleting an id that is not in the list leaves the list unchanged. |
| `ToolList.DeletedRemovesId` | src/contexts/ToolsContext.tsx:45 | After `deleteTool(id)` no element has that id. |
| `ToolList.DeletedIdempotent` | src/contexts/ToolsContext.tsx:45 | Deleting twice equals deleting once. |
| `ToolList.DeletedAppend` | src/contexts/ToolsContext.tsx:45 | Deletion distributes over concatenation, so the kept elements keep their relative order. |
| `ToolList.DeletedAround` | src/contexts/ToolsContext.tsx:45 | When the id occurs only in the middle element, deleting it gives the list without that one element. |
| `ToolList.DeletedExisting` | src/contexts/ToolsContext.tsx:45 | With distinct ids, deleting the id at position `k` removes exactly that element: the result is `ts[..k] + ts[k+1..]`. |
| `ToolList.DeletedKeepsIdsDistinct` | src/contexts/ToolsContext.tsx:45 | Deletion keeps pairwise-distinct ids distinct. |
| `ToolList.FindByIdDistinct` | src/pages/AdminPage.tsx:29 | With distinct ids, looking up the id at position `k` returns that very tool. |
| `Storage.LocalStorage.SetItem` | src/contexts/ToolsContext.tsx:27 | `setItem` overwrites one key and leaves every other key unchanged. |
| `ToolsContext.ReadTools` | src/contexts/ToolsContext.tsx:21-24 | The initial list is empty when `"tools"` is absent or holds the (falsy) empty text. A stored list loads as itself. The load fails exactly on non-empty text that does not parse as a tool array. |
| `ToolsContext.Persisted` | src/contexts/ToolsContext.tsx:26-28 | After the mirror, `"tools"` holds the current list. The key set gains only `"tools"`, and every other key keeps its value. |
| `ToolsContext.ReadPersisted` | src/contexts/ToolsContext.tsx:21-28 | A mirrored list reads back as itself, and mirroring leaves every other key unchanged. |
| `ToolsContext.ToolsProvider.constructor` | src/contexts/ToolsContext.tsx:21-28 | The provider starts with the saved list, or the empty list when nothing is saved, and mirrors it back on mount. |
| `ToolsContext.ToolsProvider.Persist` | src/contexts/ToolsContext.tsx:26-28 | The `[tools]` effect writes the current list under `"tools"` and touches no other key. |
| `ToolsContext.ToolsProvider.AddTool` | src/contexts/ToolsContext.tsx:30-36 | The new list is `Added(old, fields, freshId)` and storage reflects it. Distinct ids stay distinct when the id is fresh. |
| `ToolsContext.ToolsProvider.UpdateTool` | src/contexts/ToolsContext.tsx:38-42 | The new list is `Updated(old, id, patch)` and storage reflects it. An absent id changes nothing. |
| `ToolsContext.ToolsProvider.DeleteTool` | src/contexts/ToolsContext.tsx:44-46 | The new list is `Deleted(old, id)` and storage reflects it. No element with `id` remains, and distinct ids stay distinct. |
| `ToolsContext.Remount` | src/contexts/ToolsContext.tsx:21-28 | A new provider over the same storage starts with the same list and leaves storage as it was. |
| `AuthContext.AfterLogin` | src/contexts/AuthContext.tsx:33-40 | `login` sets `isAuthenticated` when the password is `"arora"`. Any other password changes nothing. `isAdmin` is never changed. |
| `AuthContext.AfterAdminLogin` | src/contexts/AuthContext.tsx:46-53 | `adminLogin` sets `isAdmin` when the password is `"admin"`. Any other password changes nothing. `isAuthenticated` is never changed. |
| `AuthContext.AfterLogout` | src/contexts/AuthContext.tsx:42-44 | `logout` leaves `isAuthenticated` false whatever the prior state, and keeps `isAdmin`. |
| `AuthContext.AfterAdminLogout` | src/contexts/AuthContext.tsx:55-57 | `adminLogout` leaves `isAdmin` false whatever the prior state, and keeps `isAuthenticated`. |
| `AuthContext.BoolText` | src/contexts/AuthContext.tsx:25-31 | `flag.toString()` is `"true"` or `"false"`, and it is `"true"` exactly for `true`. |
| `AuthContext.StoredTrue` | src/contexts/AuthContext.tsx:18-22 | `localStorage.getItem(key) === "true"`: a missing key or any text other than `"true"` reads as false. Its use is stated by `AuthContext.Restored`. |
| `AuthContext.Restored` | src/contexts/AuthContext.tsx:17-23 | Each flag starts true exactly when its key holds the text of `true`. A missing key or any other text gives false. |
| `AuthContext.RestoreSynced` | src/contexts/AuthContext.tsx:17-31 | Storage holding the `"true"`/`"false"` text of both flags restores exactly those flags. |
| `AuthContext.RestoredFlagText` | src/contexts/AuthContext.tsx:17-23 | A flag written as `toString()` text reads back as the same boolean. |
| `AuthContext.SessionStepsIdempotent` | src/contexts/AuthContext.tsx:33-57 | Repeating a login, admin login, logout or admin logout has no further effect. |
| `AuthContext.SessionStepsCommute` | src/contexts/AuthContext.tsx:33-57 | User steps and admin steps commute, so the two flags are independent. |
| `AuthContext.AuthProvider.constructor` | src/contexts/AuthContext.tsx:17-31 | Each initial flag is true exactly when its stored value is the text `"true"`. The mount-time effects write both flags back. |
| `AuthContext.AuthProvider.SetAuthenticated` | src/contexts/AuthContext.tsx:25-27 | Setting the flag writes `"authenticated"` only when the value changes. Afterwards storage always holds the flag's text. |
| `AuthContext.AuthProvider.SetAdmin` | src/contexts/AuthContext.tsx:29-31 | Setting the flag writes `"admin"` only when the value changes. Afterwards storage always holds the flag's text. |
| `AuthContext.AuthProvider.Login` | src/contexts/AuthContext.tsx:33-40 | `login` returns true exactly when the password is `"arora"`. It then sets the flag and stores `"true"`; otherwise it changes nothing. |
| `AuthContext.AuthProvider.Logout` | src/contexts/AuthContext.tsx:42-44 | `logout` clears `isAuthenticated`, keeps `isAdmin` and stores `"false"`. |
| `AuthContext.AuthProvider.AdminLogin` | src/contexts/AuthContext.tsx:46-53 | `adminLogin` returns true exactly when the password is `"admin"`. It then sets `isAdmin` and stores `"true"`; otherwise it changes nothing. |
| `AuthContext.AuthProvider.AdminLogout` | src/contexts/AuthContext.tsx:55-57 | `adminLogout` clears `isAdmin`, keeps `isAuthenticated` and stores `"false"`. |
| `AuthContext.Remount` | src/contexts/AuthContext.tsx:17-31 | A restart over the same storage restores the same flags and rewrites nothing. |
| `ToolForm.FieldErrors.Any` | src/components/ToolForm.tsx:37 | `Object.values(newErrors).some(Boolean)`: some flag is set. `ToolForm.SubmissionContents` and `ToolForm.Form.HandleSubmit` state that a submission happens exactly when it is false. |
| `ToolForm.Validate` | src/components/ToolForm.tsx:29-33 | The per-field flags `handleSubmit` computes. What they mean is stated by `ToolForm.ValidateFlags`. |
| `ToolForm.Submission` | src/components/ToolForm.tsx:37-45 | The argument `handleSubmit` passes to `onSubmit`, if any. What it holds is stated by `ToolForm.SubmissionContents`. |
| `ToolForm.ValidateFlags` | src/components/ToolForm.tsx:29-33 | The name and description errors are set exactly when the field is all whitespace. The url error is set exactly when the url is all whitespace or the parser rejects the untrimmed url. |
| `ToolForm.SubmissionContents` | src/components/ToolForm.tsx:37-45 | Nothing is submitted exactly when some flag is set. Otherwise the trimmed fields are submitted (each the middle of its input, by `JsText.TrimBetween`): each non-empty, with no outer whitespace, and with a url the parser accepted. |
| `ToolForm.UrlMessage` | src/components/ToolForm.tsx:81-85 | A url message appears only with the url flag. It is "URL is required" exactly when the url is blank, and "Please enter a valid URL" otherwise. |
| `ToolForm.UrlMessageAfterSubmit` | src/components/ToolForm.tsx:32-83 | Right after a submit, "URL is required" means the url is blank. "Please enter a valid URL" means a non-blank url that the parser rejected. |
| `ToolForm.Form.constructor` | src/components/ToolForm.tsx:16-24 | The initial field values come from `initialData` when it is present and are `""` otherwise. No error flag is set at first. |
| `ToolForm.Form.SetName` | src/components/ToolForm.tsx:64 | The name input's change handler stores the new text. |
| `ToolForm.Form.SetUrl` | src/components/ToolForm.tsx:77 | The url input's change handler stores the new text. |
| `ToolForm.Form.SetDescription` | src/components/ToolForm.tsx:93 | The description input's change handler stores the new text. |
| `ToolForm.Form.HandleSubmit` | src/components/ToolForm.tsx:26-46 | `errors` becomes the flags of this submit. The handler passes the trimmed fields on exactly when no flag is set. |
| `ToolForm.Form.UrlErrorText` | src/components/ToolForm.tsx:81-85 | The rendered url message appears exactly while the url flag is set. It reads "URL is required" when the current url is all whitespace, and "Please enter a valid URL" otherwise. |
| `AdminPage.FieldsPatch` | src/pages/AdminPage.tsx:53 | The form data given to `updateTool` has no `id` key. Merging it overwrites the three fields and keeps the id. |
| `AdminPage.AfterEdit` | src/pages/AdminPage.tsx:28-34 | `handleEdit` with a present id opens the form on the first tool in the list with that id, as `find` returns it. With an absent id the state is unchanged. |
| `AdminPage.AfterCancel` | src/pages/AdminPage.tsx:72-75 | `handleCancel` always ends with the form hidden and nothing being edited. |
| `AdminPage.AfterOpenNew` | src/pages/AdminPage.tsx:90 | The "Add New Tool" button shows the form and leaves `editingTool` as it is. |
| `AdminPage.AfterSubmit` | src/pages/AdminPage.tsx:50-70 | When the store call returns, the form closes and `editingTool` is cleared. When it throws, the state is unchanged. |
| `AdminPage.ChooseCall` | src/pages/AdminPage.tsx:52-64 | The submit calls `updateTool(editingTool.id, data)` exactly when a tool is being edited, and `addTool(data)` otherwise. It makes exactly one call. |
| `AdminPage.ApplyCall` | src/pages/AdminPage.tsx:52-64 | The list after the chosen store call. An add appends `WithId(fields, freshId)` after an unchanged prefix. An update keeps the length and merges the patch into every element with the id. |
| `AdminPage.Gate` | src/pages/AdminPage.tsx:77-79 | Without `isAdmin` the page renders nothing and redirects to `/login` (the effect at lines 22-26). |
| `AdminPage.EditExisting` | src/pages/AdminPage.tsx:28-34 | With distinct ids, editing the id at position `k` opens the form on exactly that tool. |
| `AdminPage.EditThenSubmit` | src/pages/AdminPage.tsx:28-70 | Editing tool `k` and then submitting rewrites that tool's three fields and keeps its id. Every other tool is unchanged, and the form closes. |
| `AdminPage.NewThenSubmit` | src/pages/AdminPage.tsx:58-64 | Submitting with nothing being edited appends one tool with the submitted fields. |
| `AdminPage.Page.constructor` | src/pages/AdminPage.tsx:14-15 | The page starts with the form hidden and nothing being edited. |
| `AdminPage.Page.Render` | src/pages/AdminPage.tsx:77-79 | The page renders nothing exactly when `isAdmin` is false. |
| `AdminPage.Page.HandleEdit` | src/pages/AdminPage.tsx:28-34 | The new edit state is `AfterEdit` of the old state, the current list and the id. |
| `AdminPage.Page.HandleCancel` | src/pages/AdminPage.tsx:72-75 | The new edit state is the closed state. |
| `AdminPage.Page.HandleOpenNew` | src/pages/AdminPage.tsx:90 | The new edit state shows the form. |
| `AdminPage.Page.HandleDelete` | src/pages/AdminPage.tsx:36-48 | `deleteTool` runs only when the confirmation returns true. Otherwise the list and storage are unchanged. The session is never touched. |
| `AdminPage.Page.HandleFormSubmit` | src/pages/AdminPage.tsx:50-70 | The store call chosen by `ChooseCall` is applied to the list and mirrored to storage. The form then resets, and the session is untouched. |
| `AdminPage.Page.SubmitForm` | src/pages/AdminPage.tsx:101-105 | The form's submit wired to `handleFormSubmit`. Input with an error flag never reaches the store and leaves the page unchanged. Valid input adds or updates the trimmed fields, mirrors the new list to storage with every other key kept, and closes the form. |

## Left out

- Rendering, JSX, styling, toasts, `navigate` and `console` are not modelled. `AdminPage.Gate` only states the redirect target. The button labels ("Update Tool" / "Add Tool") and the name and description error messages are presentation.
- `window.confirm` is the parameter `confirmed` of `AdminPage.Page.HandleDelete`.
- `crypto.randomUUID()` is the parameter `freshId`. The distinct-id results take its freshness as a hypothesis.
- `new URL(...)` (the parser of the URL Standard, section 4.4 "URL parsing") is the uninterpreted parameter `isValidUrl`.
- `JSON.stringify`/`JSON.parse` of the tool list are abstracted. `Serialized(ts)` stands for any text that `JSON.parse` maps to the tool array `ts`: the text `JSON.stringify(ts)` writes, and equally `"[]"`, `"[ ]"` or a list seeded by hand. `Text` holds only text that does not parse as a tool array. Reading `Serialized(ts)` back gives `ts`.
- ToolsContext.ToolsProvider.constructor: requires the `"tools"` entry to be readable. Non-empty text that does not parse as a tool array still goes to `JSON.parse`. Text that is not JSON makes it throw, uncaught. JSON of another shape (`"null"`, `"42"`, `"{}"`) parses and leaves a non-list in `tools`, which fails later, for example at `tools.find`. `ReadTools` reports both cases as `Failure`, and the model does not follow either one further.
- Dafny's `string` holds Unicode scalar values, while JavaScript strings are sequences of UTF-16 code units, so a lone surrogate cannot be represented. `trim` and the password comparisons are unaffected: every character `trim` strips lies in the Basic Multilingual Plane.
- `Partial<Tool>` is modelled with one `Option` per key. A key that is present with the value `undefined` counts as absent, although the spread would write `undefined`.
- React mechanics are not modelled. Each effect is applied synchronously at the end of the method that changes its state. Functional `setState` batching is not modelled, and neither are the "must be used within a provider" errors of `useAuth`/`useTools`.
- In a secure context the `catch` branches of `handleFormSubmit` and `handleDelete` are unreachable, because the store's calls never throw. On a plain-http origin, where `crypto.randomUUID` is missing, `addTool` throws a `TypeError`, and the `catch` in `handleFormSubmit` keeps the form open. `AdminPage.AfterSubmit(s, Threw)` states exactly that outcome. `Page.HandleFormSubmit` models only the normal-return path, with `freshId` as the generated id.
- `isLoading` is read by `AdminPage` but never provided, so it is always `undefined`. The loading view (lines 107-111) is not modelled.
- A `Form` is constructed from `editingTool` only when the page mounts it. The page's `initialData` wiring is not a separate method.
- `Header.tsx`, `PasswordDialog.tsx`, `LoginPage.tsx`, `AdminLoginPage.tsx`, `LandingPage.tsx`, `HomePage.tsx`, `ToolCard.tsx`, `Logo.tsx` and `App.tsx` are presentation and routing glue. They are not part of this model.
