/** `run_three_agents`: research, then write, then deploy, recording each stage's
    result in the task store and turning any exception into an `error` status. */
module Orchestrator {
  import opened Values
  import opened AgentFactory
  import opened TaskStore

  /** What one agent call does, depending on whether the agent is real or stub-backed. */
  datatype Behaviour<+T> = Behaviour(onReal: Outcome<T>, onStub: Outcome<T>)

  function Perform<T>(b: Behaviour<T>, inst: Instance): Outcome<T>
  {
    match inst
    case Real => b.onReal
    case StubBacked => b.onStub
  }

  /** The three agent classes and what their calls do in this run:
      `analyze_repository(repo_path)`, `generate_documentation(analysis, output_path)`
      and `generate_deployment_config(analysis)`. */
  datatype Collaborators = Collaborators(
    research: AgentClass,
    writer: AgentClass,
    deployment: AgentClass,
    analyze: Behaviour<Json>,
    document: Behaviour<()>,
    configure: Behaviour<Json>)

  /** The classes as the module leaves them: the globals stay `None`, since nothing
      in the module calls `_import_agent_classes`. */
  function Shipped(analyze: Behaviour<Json>, document: Behaviour<()>, configure: Behaviour<Json>): Collaborators
  {
    Collaborators(Unloaded, Unloaded, Unloaded, analyze, document, configure)
  }

  // Field names and status values of a task record.
  const Status := "status"
  const Research := "research"
  const MarkdownPath := "markdown_path"
  const Deployment := "deployment"
  const ErrorKey := "error"
  const RepoPath := "repo_path"
  const OutputPath := "output_path"
  const Queued := JStr("queued")
  const Running := JStr("running")
  const DoneStatus := JStr("done")
  const ErrorStatus := JStr("error")

  /** `str(exc)` for `analysis["deployment"] = deployment` on a value that is not a dict. */
  function ItemAssignmentMessage(v: Json): string
    requires !v.JDict?
  {
    match v
    case JNull => "'NoneType' object does not support item assignment"
    case JBool(_) => "'bool' object does not support item assignment"
    case JNum(_) => "'int' object does not support item assignment"
    case JStr(_) => "'str' object does not support item assignment"
    case JList(_) => "list indices must be integers or slices, not str"
  }

  /** How a run ends. */
  datatype RunEnd =
    | FailedEarly(msg: string)                      // an agent could not be built, or research raised
    | FailedWriting(analysis: Json, msg: string)    // the writer raised
    | FailedDeploying(analysis: Json, msg: string)  // the deployment agent raised, or the analysis took no item
    | Completed(dict: Record, deployment: Json)

  /** The stages of the `try` block in order, stopping at the first exception. */
  function Simulate(c: Collaborators, apiKey: Json): (e: RunEnd)
    // a class global left `None` stops the run before research, with `None.__new__`'s message
    ensures c.research.Unloaded? || c.writer.Unloaded? || c.deployment.Unloaded? ==>
      e == FailedEarly(NoneNotATypeMessage)
    // otherwise all three agents exist and the agent calls decide
    ensures c.research.Loaded? && c.writer.Loaded? && c.deployment.Loaded? ==>
      e == StagesEnd(c, SafeInstantiate(c.research, apiKey).value, SafeInstantiate(c.writer, apiKey).value,
                     SafeInstantiate(c.deployment, apiKey).value)
  {
    var researcher := SafeInstantiate(c.research, apiKey);
    var writer := SafeInstantiate(c.writer, apiKey);
    var deployer := SafeInstantiate(c.deployment, apiKey);
    if researcher.Fail? then FailedEarly(researcher.msg)
    else if writer.Fail? then FailedEarly(writer.msg)
    else if deployer.Fail? then FailedEarly(deployer.msg)
    else StagesEnd(c, researcher.value, writer.value, deployer.value)
  }

  /** The agent calls, once all three agents are built. */
  function StagesEnd(c: Collaborators, researcher: Instance, writer: Instance, deployer: Instance): (e: RunEnd)
    // research raising ends the run with its message and nothing after it runs
    ensures e.FailedEarly? <==> Perform(c.analyze, researcher).Fail?
    ensures e.FailedEarly? ==> e.msg == Perform(c.analyze, researcher).msg
    // the writer raising ends the run with research's result kept
    ensures e.FailedWriting? <==> Perform(c.analyze, researcher).Ok? && Perform(c.document, writer).Fail?
    ensures e.FailedWriting? ==> e.msg == Perform(c.document, writer).msg
    ensures e.FailedWriting? || e.FailedDeploying? ==> e.analysis == Perform(c.analyze, researcher).value
    // the deployment stage fails with the deployment call's own message, or with the
    // item-assignment error when the analysis is not a dict
    ensures e.FailedDeploying? && Perform(c.configure, deployer).Fail? ==> e.msg == Perform(c.configure, deployer).msg
    ensures e.FailedDeploying? && Perform(c.configure, deployer).Ok? ==>
      !e.analysis.JDict? && e.msg == ItemAssignmentMessage(e.analysis)
    // completion needs every call to return and the analysis to be a dict
    ensures e.Completed? <==>
      && Perform(c.analyze, researcher).Ok? && Perform(c.analyze, researcher).value.JDict?
      && Perform(c.document, writer).Ok? && Perform(c.configure, deployer).Ok?
    ensures e.Completed? ==>
      JDict(e.dict) == Perform(c.analyze, researcher).value && e.deployment == Perform(c.configure, deployer).value
  {
    match Perform(c.analyze, researcher)
    case Fail(m) => FailedEarly(m)
    case Ok(analysis) =>
      match Perform(c.document, writer)
      case Fail(m) => FailedWriting(analysis, m)
      case Ok(_) =>
        match Perform(c.configure, deployer)
        case Fail(m) => FailedDeploying(analysis, m)
        case Ok(deployment) =>
          if analysis.JDict? then Completed(analysis.entries, deployment)
          else FailedDeploying(analysis, ItemAssignmentMessage(analysis))
  }

  /** Every stage succeeded: all three agents were built, all three calls returned,
      and the analysis is a dictionary that can take the deployment. */
  ghost predicate AllStagesSucceed(c: Collaborators, apiKey: Json)
  {
    && c.research.Loaded? && c.writer.Loaded? && c.deployment.Loaded?
    && Perform(c.analyze, SafeInstantiate(c.research, apiKey).value).Ok?
    && Perform(c.analyze, SafeInstantiate(c.research, apiKey).value).value.JDict?
    && Perform(c.document, SafeInstantiate(c.writer, apiKey).value).Ok?
    && Perform(c.configure, SafeInstantiate(c.deployment, apiKey).value).Ok?
  }

  /** A run completes exactly when every stage succeeds, and then it carries the
      research and deployment results. */
  lemma CompletesIffAllSucceed(c: Collaborators, apiKey: Json)
    ensures Simulate(c, apiKey).Completed? <==> AllStagesSucceed(c, apiKey)
    ensures AllStagesSucceed(c, apiKey) ==>
      Simulate(c, apiKey) == Completed(
        Perform(c.analyze, SafeInstantiate(c.research, apiKey).value).value.entries,
        Perform(c.configure, SafeInstantiate(c.deployment, apiKey).value).value)
  {
  }

  /** With the class globals left `None`, every run fails before research, with the
      message of the failed `None.__new__` call. */
  lemma ShippedRunFails(analyze: Behaviour<Json>, document: Behaviour<()>, configure: Behaviour<Json>, apiKey: Json)
    ensures Simulate(Shipped(analyze, document, configure), apiKey) == FailedEarly(NoneNotATypeMessage)
  {
  }

  /** With the classes loaded but no usable key, every constructor that needs one fails,
      all three agents are stub-backed, and the run ends as the stub calls decide. */
  lemma NoCredentialRunsOnStubs(c: Collaborators, apiKey: Json)
    requires !Truthy(apiKey)
    requires c.research.Loaded? && c.research.withoutKey.Raises?
    requires c.writer.Loaded? && c.writer.withoutKey.Raises?
    requires c.deployment.Loaded? && c.deployment.withoutKey.Raises?
    ensures Simulate(c, apiKey) == StagesEnd(c, StubBacked, StubBacked, StubBacked)
    ensures c.analyze.onStub.Ok? && c.analyze.onStub.value.JDict? && c.document.onStub.Ok? && c.configure.onStub.Ok? ==>
      Simulate(c, apiKey) == Completed(c.analyze.onStub.value.entries, c.configure.onStub.value)
  {
  }

  /** `{"status": "error", "error": msg}`. */
  function ErrorFields(msg: string): Record
  {
    map[Status := ErrorStatus, ErrorKey := JStr(msg)]
  }

  /** The fields a run leaves written into its task record (merged over what was there). */
  function Written(outputPath: Json, e: RunEnd): (w: Record)
    // the run always ends in a terminal status, `done` exactly when it completed
    ensures Status in w && (w[Status] == DoneStatus || w[Status] == ErrorStatus)
    ensures w[Status] == DoneStatus <==> e.Completed?
    // the creation-time fields are never written
    ensures RepoPath !in w && OutputPath !in w
    // an error carries its message; success carries no error
    ensures e.Completed? <==> ErrorKey !in w
    ensures !e.Completed? ==> w[ErrorKey] == JStr(e.msg)
    // the research result is kept once research returned, and never written before
    ensures Research in w <==> !e.FailedEarly?
    ensures e.FailedWriting? || e.FailedDeploying? ==> w[Research] == e.analysis
    ensures e.Completed? ==> w[Research] == JDict(e.dict[Deployment := e.deployment])
    // the document path is recorded once the writer returned
    ensures MarkdownPath in w <==> e.FailedDeploying? || e.Completed?
    ensures MarkdownPath in w ==> w[MarkdownPath] == outputPath
    // the deployment result is recorded only on completion
    ensures Deployment in w <==> e.Completed?
    ensures e.Completed? ==> w[Deployment] == e.deployment
    // nothing else is written
    ensures w.Keys <= {Status, Research, MarkdownPath, Deployment, ErrorKey}
  {
    match e
    case FailedEarly(msg) => ErrorFields(msg)
    case FailedWriting(analysis, msg) => map[Research := analysis] + ErrorFields(msg)
    case FailedDeploying(analysis, msg) =>
      map[Research := analysis, MarkdownPath := outputPath] + ErrorFields(msg)
    case Completed(analysis, deployment) =>
      map[Research := JDict(analysis[Deployment := deployment]), MarkdownPath := outputPath,
          Deployment := deployment, Status := DoneStatus]
  }

  // The writes of each way a run can end add up to `Written`.

  lemma WrittenWhenFailedEarly(outputPath: Json, msg: string)
    ensures map[Status := Running] + ErrorFields(msg) == Written(outputPath, FailedEarly(msg))
  {
  }

  lemma WrittenWhenFailedWriting(outputPath: Json, analysis: Json, msg: string)
    ensures map[Status := Running] + map[Research := analysis] + ErrorFields(msg)
         == Written(outputPath, FailedWriting(analysis, msg))
  {
  }

  lemma WrittenWhenFailedDeploying(outputPath: Json, analysis: Json, msg: string)
    ensures map[Status := Running] + map[Research := analysis] + map[MarkdownPath := outputPath] + ErrorFields(msg)
         == Written(outputPath, FailedDeploying(analysis, msg))
  {
  }

  lemma WrittenWhenCompleted(outputPath: Json, analysis: Record, deployment: Json)
    ensures map[Status := Running] + map[Research := JDict(analysis)] + map[MarkdownPath := outputPath]
            + map[Research := JDict(analysis[Deployment := deployment]), Deployment := deployment, Status := DoneStatus]
         == Written(outputPath, Completed(analysis, deployment))
  {
  }

  /** The status a record shows, `None` when it has none. */
  function StatusOf(r: Record): Json
  {
    Get(r, Status)
  }

  /** The writes one run makes: all to `id`, `running` until the last, which is
      `done` or `error`; nothing is written after the terminal status. */
  ghost predicate RunTrace(ws: seq<Write>, id: string)
  {
    && |ws| >= 2
    && (forall i :: 0 <= i < |ws| ==> ws[i].id == id)
    && (forall i :: 0 <= i < |ws| - 1 ==> StatusOf(ws[i].record) == Running)
    && (StatusOf(ws[|ws| - 1].record) == DoneStatus || StatusOf(ws[|ws| - 1].record) == ErrorStatus)
  }

  /** `ws` extends `w0` by the writes of one run on `id`. */
  ghost predicate RanAfter(ws: seq<Write>, w0: seq<Write>, id: string)
  {
    |ws| >= |w0| && ws[..|w0|] == w0 && RunTrace(ws[|w0|..], id)
  }

  /** Where a run stands between its writes: the record is the start record with
      `soFar` merged in, and every write since the start went to `id` with status
      `running`. */
  ghost predicate InProgress(store: Store, t0: Tasks, w0: seq<Write>, id: string, soFar: Record)
    reads store
  {
    && Status in soFar && soFar[Status] == Running
    && store.tasks == Merge(t0, id, soFar)
    && |store.writes| >= |w0| && store.writes[..|w0|] == w0
    && (id !in t0 ==> store.writes == w0)
    && (id in t0 ==> |store.writes| > |w0|)
    && (forall i :: |w0| <= i < |store.writes| ==>
          store.writes[i].id == id && StatusOf(store.writes[i].record) == Running)
  }

  /** `_update_task(task_id, status="running")`, the first write of a run. */
  method Start(store: Store, id: string)
    modifies store
    ensures InProgress(store, old(store.tasks), old(store.writes), id, map[Status := Running])
  {
    store.Update(id, map[Status := Running]);
  }

  /** `_update_task` with a stage result, leaving the status `running`. */
  method Advance(store: Store, ghost t0: Tasks, ghost w0: seq<Write>, id: string, ghost soFar: Record, fields: Record)
    requires InProgress(store, t0, w0, id, soFar)
    requires Status !in fields
    modifies store
    ensures InProgress(store, t0, w0, id, soFar + fields)
  {
    store.Update(id, fields);
    MergeTwice(t0, id, soFar, fields);
  }

  /** The last `_update_task` of a run, which sets the terminal status. */
  method Conclude(store: Store, ghost t0: Tasks, ghost w0: seq<Write>, id: string, ghost soFar: Record, fields: Record)
    requires InProgress(store, t0, w0, id, soFar)
    requires Status in fields && (fields[Status] == DoneStatus || fields[Status] == ErrorStatus)
    modifies store
    ensures store.tasks == Merge(t0, id, soFar + fields)
    ensures id !in t0 ==> store.writes == w0
    ensures id in t0 ==> RanAfter(store.writes, w0, id)
  {
    store.Update(id, fields);
    MergeTwice(t0, id, soFar, fields);
  }

  /** Lines 140-150 of the `try` block, once all three agents exist: research, write,
      deploy, each recorded as it returns. */
  method RunStages(store: Store, ghost t0: Tasks, ghost w0: seq<Write>, taskId: string, outputPath: Json,
                   c: Collaborators, researcher: Instance, writer: Instance, deployer: Instance, ghost e: RunEnd)
    requires InProgress(store, t0, w0, taskId, map[Status := Running])
    requires e == StagesEnd(c, researcher, writer, deployer)
    modifies store
    ensures store.tasks == Merge(t0, taskId, Written(outputPath, e))
    ensures taskId !in t0 ==> store.writes == w0
    ensures taskId in t0 ==> RanAfter(store.writes, w0, taskId)
  {
    ghost var soFar := map[Status := Running];
    var analyzed := Perform(c.analyze, researcher);
    if analyzed.Fail? {
      assert e == FailedEarly(analyzed.msg);
      WrittenWhenFailedEarly(outputPath, analyzed.msg);
      Conclude(store, t0, w0, taskId, soFar, ErrorFields(analyzed.msg));
      return;
    }
    var analysis := analyzed.value;
    Advance(store, t0, w0, taskId, soFar, map[Research := analysis]);
    soFar := soFar + map[Research := analysis];

    var documented := Perform(c.document, writer);
    if documented.Fail? {
      assert e == FailedWriting(analysis, documented.msg);
      WrittenWhenFailedWriting(outputPath, analysis, documented.msg);
      Conclude(store, t0, w0, taskId, soFar, ErrorFields(documented.msg));
      return;
    }
    Advance(store, t0, w0, taskId, soFar, map[MarkdownPath := outputPath]);
    soFar := soFar + map[MarkdownPath := outputPath];

    var configured := Perform(c.configure, deployer);
    if configured.Fail? {
      assert e == FailedDeploying(analysis, configured.msg);
      WrittenWhenFailedDeploying(outputPath, analysis, configured.msg);
      Conclude(store, t0, w0, taskId, soFar, ErrorFields(configured.msg));
      return;
    }
    var deployment := configured.value;
    if !analysis.JDict? {
      // `analysis["deployment"] = deployment` raises on anything but a dict
      var msg := ItemAssignmentMessage(analysis);
      assert e == FailedDeploying(analysis, msg);
      WrittenWhenFailedDeploying(outputPath, analysis, msg);
      Conclude(store, t0, w0, taskId, soFar, ErrorFields(msg));
      return;
    }
    // The stored `research` field is the same dict as `analysis`, so attaching the
    // deployment shows through it; no store write happens in between, so that
    // mutation is folded into the final update.
    var attached := JDict(analysis.entries[Deployment := deployment]);
    var finished := map[Research := attached, Deployment := deployment, Status := DoneStatus];
    assert e == Completed(analysis.entries, deployment);
    Conclude(store, t0, w0, taskId, soFar, finished);
    WrittenWhenCompleted(outputPath, analysis.entries, deployment);
  }

  /** `run_three_agents(task_id, repo_path, output_path, api_key)`. The outcomes in `c`
      are those of this run's calls (`repo_path` reaches only `analyze_repository`).
      The task record ends as the one `Written` describes, merged over its state at the
      start, and the run's writes form a `RunTrace`. An absent id is never written. */
  method RunThreeAgents(store: Store, taskId: string, repoPath: Json, outputPath: Json, apiKey: Json, c: Collaborators)
    modifies store
    ensures store.tasks == Merge(old(store.tasks), taskId, Written(outputPath, Simulate(c, apiKey)))
    ensures taskId !in old(store.tasks) ==> store.writes == old(store.writes)
    ensures taskId in old(store.tasks) ==> RanAfter(store.writes, old(store.writes), taskId)
  {
    ghost var t0, w0 := store.tasks, store.writes;
    ghost var e := Simulate(c, apiKey);
    Start(store, taskId);

    var researcher := SafeInstantiate(c.research, apiKey);
    if researcher.Fail? {
      WrittenWhenFailedEarly(outputPath, researcher.msg);
      Conclude(store, t0, w0, taskId, map[Status := Running], ErrorFields(researcher.msg));
      return;
    }
    var writer := SafeInstantiate(c.writer, apiKey);
    if writer.Fail? {
      WrittenWhenFailedEarly(outputPath, writer.msg);
      Conclude(store, t0, w0, taskId, map[Status := Running], ErrorFields(writer.msg));
      return;
    }
    var deployer := SafeInstantiate(c.deployment, apiKey);
    if deployer.Fail? {
      WrittenWhenFailedEarly(outputPath, deployer.msg);
      Conclude(store, t0, w0, taskId, map[Status := Running], ErrorFields(deployer.msg));
      return;
    }
    RunStages(store, t0, w0, taskId, outputPath, c, researcher.value, writer.value, deployer.value, e);
  }
}
