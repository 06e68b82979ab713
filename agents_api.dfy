/** The decision logic of the HTTP handlers, with routing and JSON encoding stripped:
    each handler yields a status code and a body. The request body, the current
    directory, the environment credential, the fresh task id and the files on disk
    are parameters. */
module AgentsApi {
  import opened Values
  import opened TaskStore
  import opened Orchestrator

  datatype Body = JsonBody(json: Json) | MarkdownBody(text: string) | ServerErrorPage

  datatype Response = Response(code: int, body: Body)

  /** `{"error": msg}`. */
  function ErrorBody(msg: string): Json
  {
    JDict(map["error" := JStr(msg)])
  }

  /** `{"task_id": id}`. */
  function TaskIdBody(id: string): Json
  {
    JDict(map["task_id" := JStr(id)])
  }

  const MissingRepoPath := Response(400, JsonBody(ErrorBody("provide 'repo_path' in JSON payload")))
  const TaskNotFound := Response(404, JsonBody(ErrorBody("task not found")))
  /** What the web framework answers when the handler raises. */
  const ServerError := Response(500, ServerErrorPage)

  /** `GET /health`: always 200 with `{"status": "ok"}`, whatever the store holds. */
  function Health(): (r: Response)
    ensures r.code == 200 && r.body.JsonBody? && r.body.json.JDict?
    ensures r.body.json.entries.Keys == {"status"} && r.body.json.entries["status"] == JStr("ok")
  {
    Response(200, JsonBody(JDict(map["status" := JStr("ok")])))
  }

  /** The separator `os.path.join` puts after `a`: none after an empty path or a
      trailing slash. */
  function Separator(a: string): string
  {
    if a == [] || a[|a| - 1] == '/' then "" else "/"
  }

  /** POSIX `os.path.join(a, b)`: an absolute `b` discards `a`; otherwise `b` follows `a`
      after the separator `a` needs. */
  function JoinPath(a: string, b: string): (r: string)
    ensures b != [] && b[0] == '/' ==> r == b
    ensures !(b != [] && b[0] == '/') ==> r == a + Separator(a) + b
  {
    if b != [] && b[0] == '/' then b
    else if a == [] || a[|a| - 1] == '/' then a + b
    else a + "/" + b
  }

  /** A relative part joined under a non-empty path keeps that path as a prefix and
      follows a slash. */
  lemma JoinSeparates(a: string, b: string)
    requires a != [] && (b == [] || b[0] != '/')
    ensures JoinPath(a, b)[..|a|] == a
    ensures JoinPath(a, b)[|JoinPath(a, b)| - |b| - 1] == '/'
  {
  }

  /** `os.path.join(os.getcwd(), "docs", "auto_docs.md")`: `docs/auto_docs.md` under `cwd`. */
  function DefaultOutputPath(cwd: string): (p: string)
    ensures p == cwd + Separator(cwd) + "docs/auto_docs.md"
  {
    JoinTwice(cwd, "docs", "auto_docs.md");
    assert "docs" + "/" + "auto_docs.md" == "docs/auto_docs.md";
    JoinPath(JoinPath(cwd, "docs"), "auto_docs.md")
  }

  /** Joining two relative parts one after the other puts one slash between them. */
  lemma JoinTwice(a: string, b: string, c: string)
    requires b != [] && b[0] != '/' && b[|b| - 1] != '/'
    requires c == [] || c[0] != '/'
    ensures JoinPath(JoinPath(a, b), c) == a + Separator(a) + (b + "/" + c)
  {
    var head := a + Separator(a);
    var mid := JoinPath(a, b);
    assert mid == head + b;
    assert Separator(mid) == "/" by {
      assert mid[|mid| - 1] == b[|b| - 1];
    }
    assert JoinPath(mid, c) == (head + b) + "/" + c;
    assert (head + b) + "/" + c == head + (b + "/" + c);
  }

  /** `request.get_json(silent=True) or {}`; `body` is `None` when the request body is
      not JSON. */
  function Payload(body: Option<Json>): (r: Json)
    // the body when it is truthy, otherwise an empty object
    ensures Truthy(r) ==> body == Some(r)
    ensures !Truthy(r) ==> r == JDict(map[])
    ensures body.Some? ==> r == Or(body.value, JDict(map[]))
  {
    if body.Some? && Truthy(body.value) then body.value else JDict(map[])
  }

  /** `os.environ.get("OPENAI_API_KEY")`. */
  function EnvValue(envKey: Option<string>): Json
  {
    if envKey.Some? then JStr(envKey.value) else JNull
  }

  /** The validated and defaulted parameters of a run request. */
  datatype RunRequest = RunRequest(repoPath: Json, outputPath: Json, apiKey: Json, background: bool)

  /** Lines 170-176 of `run_agents`: validation and defaulting of the payload. */
  function ParseRunPayload(body: Option<Json>, cwd: string, envKey: Option<string>): (r: Result<RunRequest, Response>)
    // a payload that is not an object makes `data.get` raise
    ensures r == Failure(ServerError) <==> !Payload(body).JDict?
    // 400 exactly when both `repo_path` and its alias `repo` are missing or empty
    ensures r == Failure(MissingRepoPath) <==>
      Payload(body).JDict? && !Truthy(Get(Payload(body).entries, "repo_path"))
      && !Truthy(Get(Payload(body).entries, "repo"))
    ensures r.Failure? ==> r.error == ServerError || r.error == MissingRepoPath
    ensures r.Success? ==> Payload(body).JDict? && Truthy(r.value.repoPath) && Truthy(r.value.outputPath)
    ensures r.Success? ==>
      var d := Payload(body).entries;
      && r.value.repoPath == (if Truthy(Get(d, "repo_path")) then Get(d, "repo_path") else Get(d, "repo"))
      && r.value.outputPath ==
           (if Truthy(Get(d, "output_path")) then Get(d, "output_path") else JStr(DefaultOutputPath(cwd)))
      && r.value.apiKey == (if Truthy(Get(d, "api_key")) then Get(d, "api_key") else EnvValue(envKey))
      && r.value.background == Truthy(Get(d, "background"))
  {
    var data := Payload(body);
    if !data.JDict? then Failure(ServerError)
    else
      var d := data.entries;
      var repoPath := Or(Get(d, "repo_path"), Get(d, "repo"));
      if !Truthy(repoPath) then Failure(MissingRepoPath)
      else
        var outputPath := Or(Get(d, "output_path"), JStr(DefaultOutputPath(cwd)));
        var apiKey := Or(Get(d, "api_key"), EnvValue(envKey));
        Success(RunRequest(repoPath, outputPath, apiKey, Truthy(Get(d, "background"))))
  }

  /** The record `run_agents` creates: `{status: "queued", repo_path, output_path}`. */
  function Seed(req: RunRequest): (r: Record)
    ensures r.Keys == {Status, RepoPath, OutputPath}
    ensures r[Status] == Queued && r[RepoPath] == req.repoPath && r[OutputPath] == req.outputPath
    // never empty, so `if not task` finds it from the moment it is stored
    ensures Truthy(JDict(r))
  {
    map[Status := Queued, RepoPath := req.repoPath, OutputPath := req.outputPath]
  }

  /** `POST /agents/run`. A rejected request writes nothing. Otherwise a fresh `queued`
      record is stored under `newId`; a background request answers 202 with the id and
      leaves the run to a later `RunThreeAgents` call, while an inline request runs the
      pipeline and answers 200 with the final record, whose writes go queued, running,
      then done or error. */
  method RunAgents(store: Store, body: Option<Json>, cwd: string, envKey: Option<string>, newId: string,
                   c: Collaborators) returns (resp: Response)
    modifies store
    ensures var parsed := ParseRunPayload(body, cwd, envKey);
      parsed.Failure? ==> resp == parsed.error && store.tasks == old(store.tasks) && store.writes == old(store.writes)
    ensures var parsed := ParseRunPayload(body, cwd, envKey);
      parsed.Success? && parsed.value.background ==>
        && resp == Response(202, JsonBody(TaskIdBody(newId)))
        && store.tasks == Put(old(store.tasks), newId, Seed(parsed.value))
        && store.writes == old(store.writes) + [Write(newId, Seed(parsed.value))]
    ensures var parsed := ParseRunPayload(body, cwd, envKey);
      parsed.Success? && !parsed.value.background ==>
        var req := parsed.value;
        && store.tasks == Put(old(store.tasks), newId, Seed(req) + Written(req.outputPath, Simulate(c, req.apiKey)))
        && resp == Response(200, JsonBody(JDict(store.tasks[newId])))
        && RanAfter(store.writes, old(store.writes) + [Write(newId, Seed(req))], newId)
  {
    var parsed := ParseRunPayload(body, cwd, envKey);
    if parsed.Failure? {
      return parsed.error;
    }
    var req := parsed.value;
    store.Set(newId, Seed(req));
    if req.background {
      // The background thread's work is a later, separate `RunThreeAgents` call.
      return Response(202, JsonBody(TaskIdBody(newId)));
    }
    RunThreeAgents(store, newId, req.repoPath, req.outputPath, req.apiKey, c);
    PutThenMerge(old(store.tasks), newId, Seed(req), Written(req.outputPath, Simulate(c, req.apiKey)));
    var task := store.Get(newId);
    if task.Some? && task.value != map[] {
      resp := Response(200, JsonBody(JDict(task.value)));
    } else {
      resp := Response(200, JsonBody(TaskIdBody(newId)));
    }
  }

  /** `GET /agents/task/<task_id>` over the store's contents. */
  function GetTask(tasks: Tasks, taskId: string): (r: Response)
    ensures r.code == 404 <==> taskId !in tasks || tasks[taskId] == map[]
    ensures r.code == 404 ==> r == TaskNotFound
    ensures r.code != 404 ==> r == Response(200, JsonBody(JDict(tasks[taskId])))
  {
    match Lookup(tasks, taskId)
    case None => TaskNotFound
    case Some(task) => if task == map[] then TaskNotFound else Response(200, JsonBody(JDict(task)))
  }

  /** `GET /agents/task/<task_id>/markdown` over the store's contents; `files` maps each
      path that exists on disk to the text it holds. */
  function GetTaskMarkdown(tasks: Tasks, taskId: string, files: map<Json, string>): (r: Response)
    ensures taskId !in tasks || tasks[taskId] == map[] ==> r == TaskNotFound
    ensures r.code == 200 <==>
      taskId in tasks && tasks[taskId] != map[]
      && Truthy(Get(tasks[taskId], MarkdownPath)) && Get(tasks[taskId], MarkdownPath) in files
    ensures r.code == 200 ==> r.body == MarkdownBody(files[Get(tasks[taskId], MarkdownPath)])
    ensures taskId in tasks && tasks[taskId] != map[] && r.code != 200 ==>
      r == Response(404, JsonBody(JDict(map["error" := JStr("markdown not available"),
                                            "status" := StatusOf(tasks[taskId])])))
  {
    match Lookup(tasks, taskId)
    case None => TaskNotFound
    case Some(task) =>
      if task == map[] then TaskNotFound
      else
        var path := Get(task, MarkdownPath);
        if !Truthy(path) || path !in files then
          Response(404, JsonBody(JDict(map["error" := JStr("markdown not available"), "status" := StatusOf(task)])))
        else Response(200, MarkdownBody(files[path]))
  }

  /** An inline run leaves a record that the task endpoint serves with a terminal status. */
  lemma InlineRunEndsTerminal(tasks: Tasks, newId: string, req: RunRequest, c: Collaborators)
    ensures var r := GetTask(Put(tasks, newId, Seed(req) + Written(req.outputPath, Simulate(c, req.apiKey))), newId);
      && r.code == 200 && r.body.JsonBody? && r.body.json.JDict?
      && Status in r.body.json.entries
      && (r.body.json.entries[Status] == DoneStatus || r.body.json.entries[Status] == ErrorStatus)
      && r.body.json.entries[RepoPath] == req.repoPath && r.body.json.entries[OutputPath] == req.outputPath
  {
    var w := Written(req.outputPath, Simulate(c, req.apiKey));
    var rec := Seed(req) + w;
    assert rec[Status] == w[Status];
    assert rec != map[] by { assert Status in rec; }
  }

  /** Until the writer has returned, the markdown endpoint answers 404 and echoes the
      record's status: `queued` right after creation, `error` after a run that stopped
      before or in the writer stage. */
  lemma MarkdownUnavailableBeforeWriter(tasks: Tasks, newId: string, req: RunRequest, e: RunEnd, files: map<Json, string>)
    requires e.FailedEarly? || e.FailedWriting?
    ensures GetTaskMarkdown(Put(tasks, newId, Seed(req)), newId, files)
         == Response(404, JsonBody(JDict(map["error" := JStr("markdown not available"), "status" := Queued])))
    ensures GetTaskMarkdown(Put(tasks, newId, Seed(req) + Written(req.outputPath, e)), newId, files)
         == Response(404, JsonBody(JDict(map["error" := JStr("markdown not available"), "status" := ErrorStatus])))
  {
    var rec := Seed(req) + Written(req.outputPath, e);
    assert MarkdownPath !in rec;
    assert Status in rec && rec[Status] == ErrorStatus;
    assert Seed(req) != map[] by { assert Status in Seed(req); }
  }

  /** After a completed run, the markdown endpoint serves the file at `output_path` when it
      exists. */
  lemma CompletedRunServesDocument(tasks: Tasks, newId: string, req: RunRequest, analysis: Record,
                                   deployment: Json, files: map<Json, string>)
    requires Truthy(req.outputPath) && req.outputPath in files
    ensures GetTaskMarkdown(Put(tasks, newId, Seed(req) + Written(req.outputPath, Completed(analysis, deployment))),
                            newId, files)
         == Response(200, MarkdownBody(files[req.outputPath]))
  {
    var rec := Seed(req) + Written(req.outputPath, Completed(analysis, deployment));
    assert rec[MarkdownPath] == req.outputPath;
    assert rec != map[] by { assert Status in rec; }
  }

  /** A background request followed by the background run it started, then a poll:
      202 with the id first, and the poll shows `done` or `error`. */
  method BackgroundRunThenPoll(store: Store, body: Option<Json>, cwd: string, envKey: Option<string>,
                               newId: string, c: Collaborators) returns (accepted: Response, polled: Response)
    requires ParseRunPayload(body, cwd, envKey).Success? && ParseRunPayload(body, cwd, envKey).value.background
    modifies store
    ensures accepted == Response(202, JsonBody(TaskIdBody(newId)))
    ensures polled.code == 200 && polled.body.JsonBody? && polled.body.json.JDict?
    ensures Status in polled.body.json.entries
    ensures polled.body.json.entries[Status] == DoneStatus || polled.body.json.entries[Status] == ErrorStatus
  {
    accepted := RunAgents(store, body, cwd, envKey, newId, c);
    var req := ParseRunPayload(body, cwd, envKey).value;
    RunThreeAgents(store, newId, req.repoPath, req.outputPath, req.apiKey, c);
    PutThenMerge(old(store.tasks), newId, Seed(req), Written(req.outputPath, Simulate(c, req.apiKey)));
    assert store.tasks == Put(old(store.tasks), newId, Seed(req) + Written(req.outputPath, Simulate(c, req.apiKey)));
    InlineRunEndsTerminal(old(store.tasks), newId, req, c);
    polled := GetTask(store.tasks, newId);
  }
}
