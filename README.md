# Databricks AI agent: the propose → approve → execute gate

This project models the core of a chat front-end (one Streamlit script,
`app.py`). The front-end asks a language model to turn a request into a plan to
run a registered Databricks job. It shows the plan as a dry run. It starts the
job only after a human clicks Approve.

Modules, in dependency order:

- `Wrappers`: `Option` and `Result`.
- `JsonValue`: decoded JSON values. A plan is a decoded JSON object.
- `JsonExtract`: `extract_json`, the regular-expression search for `\{[\s\S]*\}`
  in the model's reply. The search is leftmost and greedy, so the model follows
  the code and not its docstring. The docstring says "first JSON object". The
  code returns the text from the first `{` to the last `}` after it.
  `ExtractJsonSpansBothObjects` proves that two objects in one reply are
  extracted together.
- `Jobs`: the job catalog (`JOB_CATALOG`) and the name-to-id map built from it
  (`JOB_NAME_TO_ID`).
- `Transcript`: the chat entries kept in the session.
- `AgentCall`: the message list `call_agent` sends to the serving endpoint. It
  is built by a loop (`BuildSdkMessages`) and specified by `Request`.
- `Executor`: `execute_plan` / `execute_databricks_job`. These check the
  action tag, resolve the job, default the parameters, and produce the one
  "run now" request.
- `ApprovalGate`: the session state, as a class `Session`. It holds the
  `messages` history and the `pendingPlan`. Three events change it in place:
  `Submit`, `Cancel` and `Approve`. `Controls` is one pass over the approval
  buttons, with Cancel handled first. Two ghost logs record the remote calls:
  `queries` (message lists sent to the model) and `runs` (backend "run now"
  requests). From them the contracts state three things:
  - `Submit` and `Cancel` never start a job.
  - `Approve` starts at most one job, and only while a plan awaits a decision.
  - Apart from Cancel, only a run the backend accepted clears the pending plan.
  `ApproveWalkthrough`, `CancelWalkthrough` and `UnknownJobWalkthrough` drive
  a session through the three paths with the configured catalog.

Behaviour of `app.py` the model keeps:

- When `execute_plan` raises (unknown action, missing key, unknown job) or the
  backend call raises, the plan stays pending and nothing is appended, because
  the assignment that clears it (app.py:220) is never reached.
- `pending_plan` is assigned (app.py:164) before the dry-run text reads
  `plan['action']` and `plan['arguments']` (app.py:168-171). A decoded object
  without those keys therefore stays pending with no dry-run entry.
- A reply whose extracted text does not decode is only displayed
  (app.py:185-187); it is not added to the history.
- The controls appear only when `pending_plan` is truthy (app.py:199). A
  decoded empty object `{}` is pending but falsy, so neither button is offered
  for it.

## Model

| member | source | states |
|---|---|---|
| `JsonExtract.FirstIndexOf` | app.py:65 | the index returned holds the character, and no earlier index does; `None` means it does not occur |
| `JsonExtract.LastIndexOf` | app.py:65 | the index returned holds the character, and no later index does; `None` means it does not occur |
| `JsonExtract.ExtractJson` | app.py:63-66 | an extracted text is at least two characters long, starts with `{` and ends with `}` |
| `JsonExtract.ExtractJsonNoneIff` | app.py:65-66 | the result is `None` exactly when the pattern has no match, i.e. exactly when no `}` follows a `{` |
| `JsonExtract.ExtractJsonIsRegexSearch` | app.py:65-66 | for the leftmost-longest match of `\{[\s\S]*\}`, the result is exactly that slice of the text |
| `JsonExtract.ExtractJsonFindsLeftmostLongest` | app.py:65-66 | a successful result is a leftmost-longest match, and no `}` occurs after its end |
| `JsonExtract.ExtractJsonIdempotent` | app.py:65-66 | extracting from an extracted text returns it unchanged |
| `JsonExtract.ExtractWhole` | app.py:65-66 | a text that starts with `{` and ends with `}` is extracted whole |
| `JsonExtract.ExtractJsonSpansBothObjects` | app.py:63-66 | two extractable objects with anything between them are extracted as one span, not as the first object |
| `Jobs.NameToId` | app.py:21-24 | the map's keys are exactly the catalog's job names, and each name maps to the id of a catalog entry with that name |
| `Jobs.NameToIdLastEntryWins` | app.py:21-24 | an entry whose name no later entry repeats is the one whose id the map returns |
| `Jobs.NameToIdInvertsCatalog` | app.py:14-24 | with distinct job names, every entry's name maps to that entry's id |
| `Jobs.LookupJob` | app.py:106 | the lookup succeeds exactly when some entry has the name, then with that entry's id; otherwise it fails naming the job |
| `Jobs.ConfiguredNameToId` | app.py:14-24 | the configured catalog's map is exactly `Test_DB_Job1` ↦ 1234567890 |
| `AgentCall.BuildSdkMessages` | app.py:73-87 | the loop builds the system prompt followed by the forwarded history entries (`Request`) |
| `AgentCall.RelayedConcat` | app.py:80-87 | forwarding a concatenation forwards each part in turn, so forwarded entries keep their history order |
| `AgentCall.RelayedSingle` | app.py:81-87 | one entry is forwarded, with its role mapped, exactly when its role is `user` or `assistant` |
| `AgentCall.RequestLength` | app.py:73-87 | the request's length is one plus the number of history entries whose role the role map knows |
| `AgentCall.RelayedHasNoSystem` | app.py:73-87 | no forwarded entry carries the system role; only the prompt does |
| `AgentCall.RelayedKeepsAll` | app.py:52-55 | for a history of `user`/`assistant` entries, nothing is dropped: forwarded entry k is history entry k with its role mapped |
| `AgentCall.RequestForwardsAll` | app.py:73-87 | for a history of `user`/`assistant` entries, the request is the system prompt followed by every entry in order, its role mapped, and nothing else |
| `Executor.ExecuteDatabricksJob` | app.py:102-113 | success exactly when the arguments are an object whose `job_name` is a string naming a catalog job; then the request carries that name, a catalog entry's id, and `parameters` or `{}` |
| `Executor.ExecutePlan` | app.py:115-118 | only the tag `run_databricks_job` can succeed; a missing `action` raises a key error; any other tag raises "Unknown action"; with the tag, a missing `arguments` raises a key error and otherwise the job step decides |
| `Executor.ExecutePlanUnknownJob` | app.py:102-118 | a `job_name` not in the catalog fails with a key error naming it, so no request is produced |
| `Executor.ExecutePlanRunsCatalogJob` | app.py:102-118 | with distinct catalog names, a plan naming a catalog job yields the request with that entry's id and the parameters given, or `{}` |
| `ApprovalGate.Session.constructor` | app.py:128-132 | a new session has an empty history, no pending plan and no calls logged |
| `ApprovalGate.Session.Submit` | app.py:148-193 | no job is started; an empty input changes nothing; the request sent is the prompt plus the history with the new user turn, every entry forwarded in order with its role mapped; the four outcomes (query raised, no JSON, undecodable, decoded) each give the stated history and pending plan |
| `ApprovalGate.Session.Cancel` | app.py:211-214 | while a plan awaits a decision it is dropped; nothing else changes and no job is started |
| `ApprovalGate.Session.Approve` | app.py:216-228 | with no plan awaiting a decision nothing happens; otherwise exactly the executor's request is sent once if it accepts the plan, and only a run id from the backend clears the plan and appends one confirmation |
| `ApprovalGate.Session.Controls` | app.py:199-228 | the buttons act only while a plan awaits a decision; Cancel takes precedence over Approve; runs are only ever added by an Approve |

## Left out

- Streamlit rendering: markdown, chat bubbles, spinners, columns, success and
  error banners. The rerun loop becomes one method call per event.
- The remote model query (`serving_endpoints.query`, app.py:89-96). It becomes
  the `reply` parameter of `Submit`, with `None` standing for a raised query.
  The request is recorded in the ghost log `queries`.
- The backend call `jobs.run_now` (app.py:108-111). It becomes an entry in the
  ghost log `runs` plus the `response` parameter of `Approve`: a run id, or
  `None` when the call raises.
- `json.loads` becomes the `decode` parameter. It returns an object or `None`.
  A JSON text that starts with `{` can only decode to an object.
- `json.dumps` and all message wording, including `SYSTEM_PROMPT`'s text. A
  history entry records its kind and the values it shows, not its markdown.
  The system prompt is a constructor parameter of `Session`.
- JSON floats. Numbers are integers. A non-string `job_name` fails the lookup
  either way.
- `temperature` and `max_tokens`. They are configuration passed to the remote
  call.
- `Executor.ExecutePlan`: a plan that is not a JSON object is not modelled,
  because a decoded `{...}` text is always one.
