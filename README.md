# Agents API orchestration layer, modelled in Dafny

This project models `agents_api.py`. That file is a small Flask service that runs three
external agents in sequence over a local repository: research, then documentation
writing, then deployment configuration. It tracks each run in an in-memory task store.
The model covers five parts:

- **The task store** (`task_store.dfy`, module `TaskStore`). The class `Store` holds the
  `_tasks` dictionary as a `map` from task id to record. Its methods `Set`, `Update` and
  `Get` model `_set_task`, `_update_task` and `_get_task`. Each method is specified by a pure
  function on the map: `Put`, `Merge` or `Lookup`. `Apply` runs a sequence of those calls, so
  that properties of the store's history can be stated. A ghost log `writes` keeps the record
  that each write leaves behind.
- **The stub responder** (`stub_agent.dfy`, module `StubAgent`). `ExecuteTask` is
  `StubAgent.execute_task`: a keyword classifier over the lower-cased description where
  the first matching rule wins. A second definition, the table `Rules` read by `FirstMatch`,
  is proved equal to it. First-match priority and the fallback are proved over the table.
  The lemmas about particular keywords, the empty description and case-insensitivity are
  proved against the if-chain.
- **The agent factory** (`agent_factory.dfy`, module `AgentFactory`). `SafeInstantiate` is
  `safe_instantiate`, reduced to the choice it makes. A truthy key means the keyed
  constructor is called, otherwise the bare one. A constructor that raises gives a
  stub-backed instance. A class global that is still `None` makes the fallback itself
  raise.
- **The orchestrator** (`orchestrator.dfy`, module `Orchestrator`). `RunThreeAgents` is
  `run_three_agents`: a sequence of store updates. Each agent call is an input outcome,
  `Ok(value)` or `Fail(message)`, and can differ between real and stub-backed agents.
  `Simulate` says where a run stops. `Written` says which fields the run leaves behind.
- **The HTTP handlers** (`agents_api.dfy`, module `AgentsApi`). They return a status code
  and a body. `ParseRunPayload` is the validation and defaulting of `run_agents`, and
  `RunAgents` is the whole handler. `GetTask` and `GetTaskMarkdown` are the two lookup
  handlers, and `Health` is the health check. The uuid, the current directory, the
  environment credential and the files on disk are parameters.

Values are a `Json` datatype with Python's truthiness (`Values.Truthy`), `or`
(`Values.Or`) and `dict.get` (`Values.Get`). These matter because the source tests
`if not repo_path`, `if api_key:` and `if not task` on arbitrary payload values.

Where the module's own description and the code disagree, the model follows the code:

- `_set_task` replaces an existing record. It does not refuse a duplicate id.
- The class globals `ResearchAgent`, `WriterAgent` and `DeploymentAgent` are `None`, and
  nothing in the file calls `_import_agent_classes`. So `safe_instantiate(None, …)` calls
  `None(api_key=api_key)` (truthy key) or `None()`, falls into the `except` clause, and
  raises again at `None.__new__(None)`, inside the `try` of `run_three_agents`. Every run of the file as written therefore ends with
  `status: "error"` and no `research` field (`Orchestrator.ShippedRunFails`). The module
  docstring (agents_api.py:11-12) promises that a failed initialisation falls back to the
  stub so that the API stays usable. That holds only once the classes are loaded
  (`Orchestrator.NoCredentialRunsOnStubs`).
- `run_agents` accepts `repo` as an alias of `repo_path`.
- `_update_task(task_id, research=analysis)` stores the `analysis` object itself, not a
  copy (agents_api.py:74, 141). So `analysis["deployment"] = deployment` at line 149 also
  changes the stored `research` field. The model writes that change into the record
  together with the final update at line 150.

## Model

| member | source | states |
|---|---|---|
| `TaskStore.Put` | agents_api.py:67-69 | inserts or replaces one record; a lookup of that id then returns exactly the payload, and every other id's lookup is unchanged |
| `TaskStore.Merge` | agents_api.py:71-74 | an absent id leaves the store unchanged; for a present id every given field takes its new value, every other field of that record and every other record is unchanged, and no id is added |
| `TaskStore.MergeTwice` | agents_api.py:71-74 | two successive merges into one record equal one merge of both field sets, the later winning |
| `TaskStore.PutThenMerge` | agents_api.py:67-74 | merging into a record just put equals putting the merged record |
| `TaskStore.Lookup` | agents_api.py:76-78 | `_tasks.get`: the stored record exactly when the id is a key, nothing otherwise |
| `TaskStore.ApplyKeepsIds` | agents_api.py:67-74 | no sequence of `_set_task` and `_update_task` calls removes a task |
| `TaskStore.AbsentUntilSet` | agents_api.py:67-78 | starting from a store without the id, `_get_task` finds nothing after any sequence of calls exactly when none of them was a `_set_task` of that id; an `_update_task` never creates a task |
| `TaskStore.Store.constructor` | agents_api.py:63 | the store starts empty |
| `TaskStore.Store.Set` | agents_api.py:67-69 | the new contents are `Put` of the old ones, and one write of the payload is logged |
| `TaskStore.Store.Update` | agents_api.py:71-74 | the new contents are `Merge` of the old ones; one write is logged when the id was present and none otherwise |
| `TaskStore.Store.Get` | agents_api.py:76-78 | returns `Lookup` of the current contents: the stored record exactly when the id is present; changes nothing |
| `StubAgent.Lower` | agents_api.py:91 | lower-casing keeps the length and lowers every character in place |
| `StubAgent.LowerIdempotent` | agents_api.py:91 | lower-casing twice is lower-casing once |
| `StubAgent.LoweredDescription` | agents_api.py:90-91 | lower-casing a description before handing it to the stub does not change the answer |
| `StubAgent.DescriptionText` | agents_api.py:90 | a missing or `None` description reads as empty; a string description is used as given |
| `StubAgent.ContainsIff` | agents_api.py:92-102 | the substring test holds exactly when the keyword occurs at some index of the description |
| `StubAgent.ContainsTransitive` | agents_api.py:92-102 | a description containing a keyword contains every substring of that keyword |
| `StubAgent.ExecuteTask` | agents_api.py:89-104 | total; always returns one of the seven canned answers, never the empty string |
| `StubAgent.ExecuteTaskIsFirstMatch` | agents_api.py:89-104 | the if-chain equals the rule table read in priority order: architecture, design patterns, dockerfile, kubernetes/k8s, CI/CD/pipeline, environment variables/env |
| `StubAgent.FirstMatchPicks` | agents_api.py:92-103 | first match wins: the rule at position k answers when it matches and no earlier rule does |
| `StubAgent.FirstMatchNone` | agents_api.py:104 | with no rule matching, the answer is "Stubbed result" |
| `StubAgent.ArchitectureWins` | agents_api.py:92-93 | a description mentioning "architecture" gets the architecture answer whatever else it mentions, a Dockerfile included |
| `StubAgent.EnvWhenNothingEarlier` | agents_api.py:92-103 | a description containing "env" and no keyword of an earlier group gets "DATABASE_URL, REDIS_URL" |
| `StubAgent.ShorterKeywordsDecide` | agents_api.py:92-103 | "architecture", "design patterns" and "environment variables" are redundant next to "architect", "design pattern" and "env": the shorter keywords alone decide every answer |
| `StubAgent.EmptyDescription` | agents_api.py:90-104 | a missing, `None` or empty description yields "Stubbed result" |
| `StubAgent.CaseInsensitive` | agents_api.py:90-91 | descriptions equal up to letter case get the same answer |
| `AgentFactory.SafeInstantiate` | agents_api.py:107-126 | a loaded class never raises: the result is a real agent exactly when the chosen constructor (keyed if the key is truthy, bare otherwise) succeeds, and a stub-backed instance exactly when it raises; a `None` class raises with the `None.__new__` message |
| `AgentFactory.NoKeyFallsBackToStub` | agents_api.py:112-120 | with no usable key, a class whose bare constructor fails yields a stub-backed instance |
| `Orchestrator.Simulate` | agents_api.py:135-151 | a class global left `None` ends the run before research with the `None.__new__` message; otherwise the run ends as the agent calls decide (`StagesEnd`) |
| `Orchestrator.StagesEnd` | agents_api.py:140-151 | research raising ends the run with its message; the writer raising ends it with its message and the research result kept; the deployment stage fails with the deployment call's own message, or with the item-assignment error when the analysis is not a dict; completion happens exactly when all three calls return and the analysis is a dict, and then it carries the analysis and the deployment |
| `Orchestrator.CompletesIffAllSucceed` | agents_api.py:135-150 | a run completes exactly when all three agents are built, all three calls return and the analysis can take the deployment; the result then carries the analysis and the deployment |
| `Orchestrator.ShippedRunFails` | agents_api.py:35-37 | with the class globals left `None`, every run fails before research, with the message of the failed `None.__new__` call |
| `Orchestrator.NoCredentialRunsOnStubs` | agents_api.py:111-120 | with loaded classes whose bare constructors fail and no key, all three agents are stub-backed and the run ends as the stub-backed calls decide; it completes, with the stub results, when they all return and the analysis is a dict |
| `Orchestrator.Written` | agents_api.py:134-152 | the run always leaves status `done` or `error`, `done` exactly on completion; an error carries its message; `repo_path` and `output_path` are never written; `research` is kept once research returned; `markdown_path` equals `output_path` once the writer returned; `deployment` is written only on completion; on completion `research` also holds the deployment; no other field is written |
| `Orchestrator.Start` | agents_api.py:134 | the first write sets status `running` |
| `Orchestrator.Advance` | agents_api.py:141-145 | a stage result is merged in and the status stays `running` |
| `Orchestrator.Conclude` | agents_api.py:150-152 | the last write sets the terminal status, and the run's writes then form a run trace |
| `Orchestrator.RunStages` | agents_api.py:140-150 | the stage calls and their store updates leave the record that `Written` describes for the end `StagesEnd` computes |
| `Orchestrator.RunThreeAgents` | agents_api.py:129-152 | the record ends as `Written` describes, merged over its start state, with every other record untouched; its writes all go to this id, show `running` until the last, and the last shows `done` or `error`; an absent id is never written |
| `AgentsApi.Health` | agents_api.py:155-157 | always 200 with `{"status": "ok"}` |
| `AgentsApi.JoinPath` | agents_api.py:174 | POSIX `os.path.join`: an absolute second part replaces the first; otherwise the second part follows the first, after a slash unless the first is empty or already ends in one |
| `AgentsApi.JoinSeparates` | agents_api.py:174 | a relative part joined under a non-empty path keeps that path as a prefix and comes right after a slash |
| `AgentsApi.JoinTwice` | agents_api.py:174 | joining two relative parts in turn puts exactly one slash between them |
| `AgentsApi.DefaultOutputPath` | agents_api.py:174 | the default output path is `docs/auto_docs.md` joined under the current directory |
| `AgentsApi.Payload` | agents_api.py:170 | `get_json(silent=True) or {}`: the body when it is truthy, otherwise an empty object |
| `AgentsApi.Seed` | agents_api.py:179 | the created record holds exactly `status: "queued"` and the request's `repo_path` and `output_path`; it is never empty, so the task endpoint finds it |
| `AgentsApi.ParseRunPayload` | agents_api.py:170-176 | 400 exactly when both `repo_path` and `repo` are missing or falsy; 500 when the payload is not an object; otherwise `repo_path` is preferred over `repo`, `output_path` defaults under the current directory, the key falls back to the environment value, and `background` is the flag's truthiness |
| `AgentsApi.RunAgents` | agents_api.py:161-188 | a rejected request writes nothing; otherwise a fresh `queued` record holding `repo_path` and `output_path` is stored; a background request answers 202 with the id; an inline request answers 200 with the final record, whose writes go `queued`, `running`, then `done` or `error` |
| `AgentsApi.GetTask` | agents_api.py:192-196 | 404 "task not found" exactly when the id is unknown (or its record empty); otherwise 200 with the record |
| `AgentsApi.GetTaskMarkdown` | agents_api.py:200-208 | 404 "task not found" for an unknown id; 200 with the file's text exactly when `markdown_path` is set and exists; otherwise 404 "markdown not available" with the record's current status |
| `AgentsApi.InlineRunEndsTerminal` | agents_api.py:186-188 | after an inline run the task endpoint serves the record with status `done` or `error` and the original `repo_path` and `output_path` |
| `AgentsApi.MarkdownUnavailableBeforeWriter` | agents_api.py:204-206 | before the writer returns, the markdown endpoint answers 404 echoing `queued` right after creation, or `error` after a run that stopped before the writer finished |
| `AgentsApi.CompletedRunServesDocument` | agents_api.py:204-208 | after a completed run, the markdown endpoint serves the file at `output_path` when it exists |
| `AgentsApi.BackgroundRunThenPoll` | agents_api.py:181-184 | a background request answers 202 with the id; once the run it started has finished, polling shows `done` or `error` |

## Left out

- The lock `_tasks_lock` and the background `threading.Thread`. Runs are sequential. The
  background thread's work is a later `RunThreeAgents` call on the same store. So the
  model says nothing about interleavings or about a poll that sees `running`.
- Flask routing, `jsonify` and `Response` construction. Handlers return a `Response`
  value. The web framework's answer to an exception in a handler is one abstract
  500 page.
- `uuid.uuid4()`, `os.getcwd()`, `os.environ`, `os.path.exists` and reading the file.
  These are parameters. `GetTaskMarkdown` takes a map from each existing path to its
  text, so a read that fails, and `os.path.exists` raising on a value that is not a
  path, are not modelled.
- `_import_agent_classes` and the `sys.path` change, which are dynamic imports. A class
  global is modelled as either `Unloaded` or `Loaded`.
- The `__new__` reflection and the Jinja `Environment` set up in `safe_instantiate`. Only
  the real-or-stub choice is kept.
- The internals of ResearchAgent, WriterAgent and DeploymentAgent. These agents are where
  `StubAgent.execute_task` is called, so the answer of a stub-backed agent is an input
  outcome and is not derived from `ExecuteTask`. The agents are also taken not to change
  `analysis` in place. The stored `research` field is that same object, so a change made by
  `generate_documentation` (line 144) or `generate_deployment_config` (line 148) would show
  in the record. `Orchestrator.Written` promises `research` equal to the analysis as
  returned (with only the deployment attached) only under this assumption.
- `ResearchWriter/setup.py`, which is packaging metadata, and the `__main__` block that
  starts the server.
- `StubAgent.Lower`: lowers ASCII letters only, because Python's full Unicode
  `str.lower()` mapping is not modelled.
- `StubAgent.ExecuteTask`: a description that is not a string (where `.lower()` would
  raise) is not modelled. The description is `None` or a string.
- JSON numbers are integers, so a float `0.0` and its falsiness are not modelled.
- The record a reader could see between line 149 and line 150 of `run_three_agents` is not
  logged. In it, `research` already carries the deployment while `status` is still
  `running`. The model folds that change into the final write.
- The exception texts for `None.__new__(None)` and for item assignment on a non-dict
  analysis use CPython 3's wording as constants. Which exception is raised, and where, is
  what the model depends on.
