# Credential form and bucket dropdown controllers

A Dafny model of the two stateful React components of the flux_vision frontend:

- **`Connect`** (`frontend/src/components/Connect.jsx`) is the credential form. It has three
  controlled fields (`url`, `org`, `token`) and the flags `submitted`, `error`, `loading` and
  `initializing`. At mount it loads the saved credentials once, guarded by `isMounted`. On submit
  it saves the credentials with `url` and `org` trimmed and `token` untouched.
- **`Workspace`** (`frontend/src/components/workspace/Workspace.jsx`) is the bucket dropdown.
  It loads the bucket list once at mount and auto-selects the first bucket if nothing is
  selected. It toggles a menu that is disabled while loading or when the list is empty, selects an
  item and closes in one handler, and closes on a click outside.

Each component is a class. Its fields are the component's state plus a `mounted` flag (the
effect's `isMounted`) and a `loadPending` flag (the mount-time request has not settled). Its
methods are the events: user actions, the settling of a request, and unmount. Every `fetch` is
abstracted into the reply it settles with: a network failure, or a status, a status text and the
parsed body. The pure pieces are functions with their own contracts:

- the `detail || statusText || fallback` message;
- JavaScript's `trim`;
- the save payload;
- the outcome each reply leads to;
- the bucket lookup `buckets.find`;
- the button label.

Modules: `Wrappers` (Option), `Schemas` (the `Credentials` record of `backend/app/schemas.py`),
`JsString` (`trim` and `||` on strings), `Fetch` (`res.ok` and the message fallback), `Connect`
and `Workspace`.

Facts about the code that the model records:

- `Connect` only saves. It never calls the connectivity check endpoint
  (`backend/app/routes.py:34`). It takes only `onBack` and keeps no checking/ok/error status.
- A load failure that settles after a successful save still sets `error`
  (`frontend/src/components/Connect.jsx:35-36`). `Connect.LateLoadFailureScenario` shows the
  resulting state: `submitted` is true and `error` is non-empty.
- `handleSubmit`'s updates after the `await` never consult `isMounted`
  (`frontend/src/components/Connect.jsx:63-71`). After unmount the setters are still called.
  React discards them because the component's state no longer exists. The model records the
  calls, so they show as changes to the model's state. `Connect.SaveAfterUnmountScenario`
  shows this.
- The browser fires the form's submit only when the submit button is enabled and all three
  `required` inputs pass constraint validation, with a well-formed URL in the `type="url"` input
  (`frontend/src/components/Connect.jsx:95-127`). `Connect.CredentialForm.Submit` does nothing
  otherwise.

## Model

| member | source | states |
|---|---|---|
| `JsString.TrimStart` | frontend/src/components/Connect.jsx:57-58 | the result is a suffix of the input, everything dropped is whitespace, and it does not start with whitespace |
| `JsString.TrimEnd` | frontend/src/components/Connect.jsx:57-58 | the result is a prefix of the input, everything dropped is whitespace, and it does not end with whitespace |
| `JsString.Trim` | frontend/src/components/Connect.jsx:57-58 | `trim()` is no longer than its input and has no whitespace at either edge |
| `JsString.TrimIsSlice` | frontend/src/components/Connect.jsx:57-58 | `trim()` is a slice of the input with only whitespace outside it |
| `JsString.TrimStartAt` | frontend/src/components/Connect.jsx:57-58 | leading trim cuts exactly at the first non-whitespace character |
| `JsString.TrimEndAt` | frontend/src/components/Connect.jsx:57-58 | trailing trim cuts exactly after the last non-whitespace character |
| `JsString.TrimUnique` | frontend/src/components/Connect.jsx:57-58 | any slice with whitespace-free edges and only whitespace outside is the trimmed string (reference definition) |
| `JsString.TrimKeepsCore` | frontend/src/components/Connect.jsx:57-58 | a non-empty core bounded by non-whitespace, with only whitespace around it, is exactly what `trim()` keeps |
| `JsString.TrimAllWhitespace` | frontend/src/components/Connect.jsx:57-58 | a string made only of whitespace trims to the empty string |
| `JsString.TrimIdempotent` | frontend/src/components/Connect.jsx:57-58 | trimming twice equals trimming once |
| `Fetch.ErrorMessage` | frontend/src/components/Connect.jsx:63-69 | the message is the detail if non-empty, else the status text if non-empty, else the fallback; never empty when the fallback is not |
| `Connect.FieldOrEmpty` | frontend/src/components/Connect.jsx:29-31 | a loaded field keeps its value; a missing one becomes `""` |
| `Connect.LoadOutcome` | frontend/src/components/Connect.jsx:17-37 | 404 keeps the fields with no error; a 2xx object replaces all three fields; a 2xx null changes nothing. A network failure, an unparseable body or another non-2xx status (and only these) fails with a non-empty message. A network failure or unparseable body shows its own error message, or "Failed to load saved credentials" when that is empty. A non-2xx response shows detail, else status text, else that fallback |
| `Connect.SaveOutcome` | frontend/src/components/Connect.jsx:53-69 | the save succeeds exactly on a 2xx response. Every failure gives a non-empty message. A network failure shows its own message, or "Failed to save credentials" when that is empty. A non-2xx response shows detail, else status text, else that fallback |
| `Connect.SavePayload` | frontend/src/components/Connect.jsx:56-60 | the posted body has `url` and `org` trimmed, with no edge whitespace, and `token` exactly as typed |
| `Connect.SavePayloadIdempotent` | frontend/src/components/Connect.jsx:56-60 | re-submitting the saved payload posts the same payload |
| `Connect.CredentialForm.constructor` | frontend/src/components/Connect.jsx:4-17 | mount: empty fields, no notice, no error, not loading, initializing, load in flight |
| `Connect.CredentialForm.ChangeUrl` | frontend/src/components/Connect.jsx:99 | only `url` changes; `submitted`, `error`, `loading` and the load state stay |
| `Connect.CredentialForm.ChangeOrg` | frontend/src/components/Connect.jsx:109 | only `org` changes; the rest stays |
| `Connect.CredentialForm.ChangeToken` | frontend/src/components/Connect.jsx:119 | only `token` changes; the rest stays |
| `Connect.CredentialForm.Clear` | frontend/src/components/Connect.jsx:75-78 | all three fields become `""` and `submitted` false; `error` and `loading` stay |
| `Connect.CredentialForm.Submit` | frontend/src/components/Connect.jsx:46-61 | a payload is sent exactly when the button is enabled (not `loading`, line 127) and the form passes constraint validation: all three fields non-empty and the URL well-formed (lines 95-96, 106, 116). Then `submitted` is false, `error` empty, `loading` true, and the payload is `SavePayload` of the unchanged fields. Otherwise no flag changes |
| `Connect.CredentialForm.SaveSettled` | frontend/src/components/Connect.jsx:63-72 | `loading` ends false; `submitted` is true exactly when the save succeeded; on failure `error` is the save message; it does not consult `mounted`, so the setters are called after unmount too |
| `Connect.CredentialForm.LoadSettled` | frontend/src/components/Connect.jsx:26-40 | after unmount the fields, `error` and `initializing` stay; while mounted `initializing` ends false and the fields and `error` follow `LoadOutcome`; `submitted` and `loading` are never touched; keeps the invariant that `loading` implies not `submitted` |
| `Connect.CredentialForm.Unmount` | frontend/src/components/Connect.jsx:41-43 | only `mounted` changes, to false |
| `Connect.NothingSavedScenario` | frontend/src/components/Connect.jsx:19 | a 404 load leaves the fields empty with no error and ends initializing |
| `Connect.LateLoadFailureScenario` | frontend/src/components/Connect.jsx:35-36 | for any valid typed credentials, a successful submit followed by a failing load ends with `submitted` true and the load's error shown |
| `Connect.SaveAfterUnmountScenario` | frontend/src/components/Connect.jsx:63-72 | for any valid typed credentials, submitting and then unmounting before the save settles still calls the setters: the model ends with `submitted` set and `loading` cleared |
| `Workspace.ListOutcome` | frontend/src/components/workspace/Workspace.jsx:14-31 | exactly a 2xx reply lists buckets, in the order received, with null as `[]`. Every failure gives a non-empty message. A network failure shows its own message, or "Failed to load buckets" when that is empty. A non-2xx response shows detail, else status text, else that fallback |
| `Workspace.AutoSelect` | frontend/src/components/workspace/Workspace.jsx:25-26 | an empty list or a non-empty previous selection keeps the selection; otherwise the first bucket's id is selected |
| `Workspace.Find` | frontend/src/components/workspace/Workspace.jsx:50 | absent exactly when no bucket has the id; otherwise a bucket with that id with no earlier match |
| `Workspace.AutoSelectFindsFirst` | frontend/src/components/workspace/Workspace.jsx:25-26 | after a first non-empty load the current bucket is the first one |
| `Workspace.BucketDropdown.constructor` | frontend/src/components/workspace/Workspace.jsx:4-14 | mount: no buckets, no selection, no error, loading, closed, load in flight |
| `Workspace.BucketDropdown.LoadSettled` | frontend/src/components/workspace/Workspace.jsx:22-35 | after unmount no field changes; while mounted `loading` ends false, and a listing stores the buckets in order and auto-selects, while a failure sets `error` and leaves the list empty and the selection unchanged; keeps `open ⇒ ¬loading ∧ buckets ≠ []` |
| `Workspace.BucketDropdown.Toggle` | frontend/src/components/workspace/Workspace.jsx:68-69 | flips `open` exactly when not loading and the list is non-empty, otherwise no-op; nothing else changes |
| `Workspace.BucketDropdown.SelectItem` | frontend/src/components/workspace/Workspace.jsx:86-89 | `selected` becomes the item's id and the menu closes in the same step; buckets unchanged |
| `Workspace.BucketDropdown.DocumentClick` | frontend/src/components/workspace/Workspace.jsx:42-45 | a click outside an existing region closes the menu; a click inside, or with no region, changes nothing |
| `Workspace.BucketDropdown.Unmount` | frontend/src/components/workspace/Workspace.jsx:36-38 | only `mounted` changes, to false |
| `Workspace.BucketDropdown.CurrentBucket` | frontend/src/components/workspace/Workspace.jsx:50 | a non-empty selection always finds a listed bucket with that id |
| `Workspace.BucketDropdown.ButtonLabel` | frontend/src/components/workspace/Workspace.jsx:72 | the current bucket's name whenever `find` matches, which includes every non-empty selection; "Loading…" until the load settles; "No buckets found" once it has settled with no match, in particular over an empty list |
| `Workspace.BucketDropdown.MenuShowsEmptyNotice` | frontend/src/components/workspace/Workspace.jsx:78-80 | the "No buckets found" entry of the open menu can never render |
| `Workspace.AutoSelectScenario` | frontend/src/components/workspace/Workspace.jsx:22-27 | loading buckets b1 "Alpha" and b2 "Beta" with no prior selection selects "b1" and labels the button "Alpha" |
| `Workspace.EmptyListScenario` | frontend/src/components/workspace/Workspace.jsx:68-69 | with an empty list, repeated toggles leave the menu closed |

## Left out

- The connectivity check and `onConnected`: the frontend never calls `backend/app/routes.py:34`, so there is nothing to model.
- `onBack` and `e.preventDefault()`: navigation and browser default behaviour, not state.
- `fetch`, HTTP and JSON parsing: each request is a reply value given to a settle event. The catches of `res.json()` are folded into that value (`Unparseable`, or a missing `detail`).
- Async interleaving inside a promise chain: each chain's `then`/`catch`/`finally` run as one settle event. No user event or unmount is modelled between them.
- React render timing, batching and stale closures: each event sees the current state.
- The DOM click listener's registration and removal, and `ref.contains`: a click is an event carrying `hasRegion` and `inside`.
- Rendering, CSS and texts other than the dropdown label; the "Saving..." and "Connect" texts of the submit button.
- `Workspace.ListOutcome` and `Workspace.BucketDropdown.LoadSettled`: the `Handled` requires excludes two replies. A 2xx reply whose body is an object rather than a list or null would store that object as `buckets`, and the render would crash on `buckets.find`. A non-2xx reply with a JSON null body makes `payload.detail` throw a TypeError whose message is engine-specific.
- `Connect.SaveOutcome`: a JSON null body on a failed save also throws a TypeError (`payload.detail`). The model treats it like a body without `detail`.
- `Connect.CredentialForm.Submit`: the browser's URL well-formedness check is not modelled. It arrives as the `urlWellFormed` parameter. The browser's value sanitisation of the `type="url"` input, which strips its leading and trailing whitespace before `onChange` sees it, is not modelled either.
- JavaScript strings are UTF-16 code units and may hold lone surrogates. Dafny strings here are sequences of Unicode scalar values. This does not change what `trim` strips.
- `detail` is modelled as a string. A FastAPI validation error carries a list there, and JavaScript would turn it into text.
- `backend/app/routes.py`, `backend/app/services.py`, `backend/app/__init__.py`: file I/O, validation and the InfluxDB client. They only shape the replies: 404 when nothing is saved, and an error with a `detail`.
- `frontend/src/App.jsx`: static landing content and a view toggle.
