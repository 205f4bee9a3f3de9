/** A one-shot Cloud Foundry task run: resolve the target app in the job's
    space, submit a task that runs the job's command against that app's
    droplet, then poll the task until it reaches a terminal state.

    The platform client is an oracle: its answers to the app query, to the
    task creation and to each status fetch are inputs (an `Oracle`), and the
    requests the run makes of it are recorded in a `Calls` value. Sleeping
    between fetches has no observable effect here and is a no-op. */
module CloudFoundryTask {

  import opened UrlValues

  /** The errors a run can end with. `fmt.Errorf` values become their own
      constructors; `Message` gives the text each one carries. Errors coming
      from the client may be any value and are passed on unchanged. */
  datatype Error =
    | ClientError(message: string)
    | AppNotFound(appName: string, spaceName: string)
    | AppNotUnique(appName: string, spaceName: string)
    | TaskFailed
    | TaskStateUnknown(state: string)

  /** A Go `(value, error)` pair in which exactly one side is meaningful. */
  datatype Result<T> = Ok(value: T) | Err(error: Error)

  /** An app as listed by the platform (`cfclient.App`, the fields used). */
  datatype App = App(guid: string, name: string)

  /** A snapshot of a remote task (`cfclient.Task`, the fields used). */
  datatype Task = Task(guid: string, state: string)

  /** The body of a create-task request (`cfclient.TaskRequest`). */
  datatype TaskRequest = TaskRequest(name: string, command: string, dropletGuid: string)

  /** The job's configuration: the embedded job's `Name` and `Command`, and
      the `cf-appname` setting. */
  datatype Job = Job(name: string, command: string, appName: string)

  /** The space the scheduler itself runs in (`cfenv.App`, the fields used). */
  datatype Space = Space(spaceId: string, spaceName: string)

  /** What the platform client answers: to the app query, to the single
      create-task request, and to the i-th status fetch, `polls[i]`. */
  datatype Oracle = Oracle(listed: Result<seq<App>>, created: Result<Task>, polls: seq<Result<Task>>)

  /** The requests made of the client during a run, in the order the source
      makes them: the app query, at most one create-task request, and the
      GUID passed to each status fetch. */
  datatype Calls = Calls(query: Values, request: Option<TaskRequest>, fetched: seq<string>)

  datatype Option<T> = None | Some(value: T)

  /** How a run ends. `Exhausted` is the model's own: the oracle ran out of
      status answers before one stopped the loop, where the source would
      keep polling. */
  datatype Outcome = Succeeded | Failed(error: Error) | Exhausted

  /** What the poll loop does with the state of a fetched snapshot. */
  datatype Step = Continue | Stop(outcome: Outcome)

  /** The text of each error, as the source formats it: a client's error
      keeps its own text, the resolution errors name the app and the space,
      and the unknown-state error ends with the literal state. */
  function Message(e: Error): (m: string)
    ensures e.ClientError? ==> m == e.message
    ensures e.AppNotFound? ==>
              "app '" + e.appName + "' not found" <= m &&
              |m| >= |e.spaceName| + 2 && m[|m| - |e.spaceName| - 2..] == "'" + e.spaceName + "'"
    ensures e.AppNotUnique? ==>
              "app '" + e.appName + "' not unique" <= m &&
              |m| >= |e.spaceName| + 2 && m[|m| - |e.spaceName| - 2..] == "'" + e.spaceName + "'"
    ensures e.TaskFailed? ==> m == "task failed"
    ensures e.TaskStateUnknown? ==>
              "task state unknown: " <= m &&
              |m| >= |e.state| && m[|m| - |e.state|..] == e.state
  {
    match e
    case ClientError(m) => m
    case AppNotFound(a, s) => "app '" + a + "' not found in space '" + s + "'"
    case AppNotUnique(a, s) => "app '" + a + "' not unique in space '" + s + "'"
    case TaskFailed => "task failed"
    case TaskStateUnknown(s) => "task state unknown: " + s
  }

  // ---------------------------------------------------------------------
  // App-identity resolution

  /** The query that looks the app up: two `q` filters, the app name and then
      the space GUID, under one key. */
  function AppQuery(appName: string, spaceId: string): (v: Values)
    ensures v.Keys == {"q"}
    ensures v["q"] == ["name:" + appName, "space_guid:" + spaceId]
  {
    Add(Set(map[], "q", "name:" + appName), "q", "space_guid:" + spaceId)
  }

  /** `appGuid`: given the client's answer to `AppQuery`, the GUID of the one
      matching app, or why there is none. */
  function AppGuid(job: Job, space: Space, listed: Result<seq<App>>): (r: Result<string>)
    ensures r.Ok? <==> listed.Ok? && |listed.value| == 1
    ensures r.Ok? ==> r.value == listed.value[0].guid
    ensures listed.Err? ==> r == Err(listed.error)
    ensures listed.Ok? && listed.value == [] ==> r == Err(AppNotFound(job.appName, space.spaceName))
    ensures listed.Ok? && |listed.value| > 1 ==> r == Err(AppNotUnique(job.appName, space.spaceName))
  {
    match listed
    case Err(e) => Err(e)
    case Ok(apps) =>
      if |apps| == 1 then Ok(apps[0].guid)
      else if |apps| == 0 then Err(AppNotFound(job.appName, space.spaceName))
      else Err(AppNotUnique(job.appName, space.spaceName))
  }

  // ---------------------------------------------------------------------
  // Submission

  /** `createTask`: resolve the app, then (only if that succeeded) make one
      create-task request naming the job and the app's GUID as the droplet. */
  method CreateTask(job: Job, space: Space, oracle: Oracle) returns (task: Result<Task>, calls: Calls)
    ensures calls.query == AppQuery(job.appName, space.spaceId)
    ensures calls.fetched == []
    ensures AppGuid(job, space, oracle.listed).Err? ==>
              task == Err(AppGuid(job, space, oracle.listed).error) && calls.request == None
    ensures AppGuid(job, space, oracle.listed).Ok? ==>
              task == oracle.created &&
              calls.request == Some(TaskRequest(job.name, job.command, AppGuid(job, space, oracle.listed).value))
  {
    var query := AppQuery(job.appName, space.spaceId);
    var guid := AppGuid(job, space, oracle.listed);
    if guid.Err? {
      return Err(guid.error), Calls(query, None, []);
    }
    var request := TaskRequest(job.name, job.command, guid.value);
    task := oracle.created;
    calls := Calls(query, Some(request), []);
  }

  // ---------------------------------------------------------------------
  // Polling

  /** The `switch` on a fetched task's state. */
  function StateStep(state: string): (r: Step)
    ensures r == Continue <==> state == "RUNNING"
    ensures r == Stop(Succeeded) <==> state == "SUCCEEDED"
    ensures r == Stop(Failed(TaskFailed)) <==> state == "FAILED"
    ensures state !in {"RUNNING", "SUCCEEDED", "FAILED"} ==> r == Stop(Failed(TaskStateUnknown(state)))
  {
    match state
    case "RUNNING" => Continue
    case "SUCCEEDED" => Stop(Succeeded)
    case "FAILED" => Stop(Failed(TaskFailed))
    case _ => Stop(Failed(TaskStateUnknown(state)))
  }

  /** A status answer that makes the loop go round again. */
  predicate StillRunning(r: Result<Task>)
  {
    r.Ok? && r.value.state == "RUNNING"
  }

  /** How the run ends on a status answer that is not `StillRunning`. */
  function Verdict(r: Result<Task>): Outcome
    requires !StillRunning(r)
  {
    match r
    case Err(e) => Failed(e)
    case Ok(t) => StateStep(t.state).outcome
  }

  /** The index of the first status answer that stops the loop, or `|polls|`
      when every answer says the task is still running. */
  function FirstStop(polls: seq<Result<Task>>): (k: nat)
    ensures k <= |polls|
    ensures forall i :: 0 <= i < k ==> StillRunning(polls[i])
    ensures k < |polls| ==> !StillRunning(polls[k])
  {
    if polls == [] || !StillRunning(polls[0]) then 0 else 1 + FirstStop(polls[1..])
  }

  /** `Run`: submit the task, then fetch its state until it stops. Every fetch
      asks for the GUID of the latest snapshot: the created task's for the
      first, the previous answer's afterwards. With `k` the first answer that
      is not `RUNNING`, exactly `k + 1` fetches are made and answer `k`
      decides the outcome. */
  method Run(job: Job, space: Space, oracle: Oracle) returns (outcome: Outcome, calls: Calls)
    ensures calls.query == AppQuery(job.appName, space.spaceId)
    ensures AppGuid(job, space, oracle.listed).Err? ==>
              outcome == Failed(AppGuid(job, space, oracle.listed).error) &&
              calls.request == None && calls.fetched == []
    ensures AppGuid(job, space, oracle.listed).Ok? ==>
              calls.request == Some(TaskRequest(job.name, job.command, AppGuid(job, space, oracle.listed).value))
    ensures AppGuid(job, space, oracle.listed).Ok? && oracle.created.Err? ==>
              outcome == Failed(oracle.created.error) && calls.fetched == []
    ensures AppGuid(job, space, oracle.listed).Ok? && oracle.created.Ok? ==>
              var polls, k := oracle.polls, FirstStop(oracle.polls);
              |calls.fetched| == (if k < |polls| then k + 1 else |polls|) &&
              outcome == (if k < |polls| then Verdict(polls[k]) else Exhausted) &&
              (|calls.fetched| > 0 ==> calls.fetched[0] == oracle.created.value.guid) &&
              (forall i :: 0 < i < |calls.fetched| ==> polls[i - 1].Ok? && calls.fetched[i] == polls[i - 1].value.guid)
  {
    var created;
    created, calls := CreateTask(job, space, oracle);
    if created.Err? {
      return Failed(created.error), calls;
    }
    var task := created.value;
    var polls := oracle.polls;
    var fetched: seq<string> := [];
    var i := 0;
    while i < |polls|
      invariant 0 <= i <= FirstStop(polls)
      invariant |fetched| == i
      invariant i == 0 ==> task == created.value
      invariant 0 < i ==> polls[i - 1].Ok? && task == polls[i - 1].value
      invariant 0 < i ==> fetched[0] == created.value.guid
      invariant forall j :: 0 < j < i ==> polls[j - 1].Ok? && fetched[j] == polls[j - 1].value.guid
    {
      // the backoff sleep before each fetch is not modelled
      fetched := fetched + [task.guid];
      var response := polls[i];
      i := i + 1;
      if response.Err? {
        return Failed(response.error), calls.(fetched := fetched);
      }
      task := response.value;
      var step := StateStep(task.state);
      if step.Stop? {
        return step.outcome, calls.(fetched := fetched);
      }
    }
    outcome, calls := Exhausted, calls.(fetched := fetched);
  }

  // ---------------------------------------------------------------------
  // Properties of the poll loop

  /** Answers past the one that stops the loop are never looked at: giving
      the oracle more of them changes neither where the loop stops nor how. */
  lemma {:induction false} StopIgnoresLaterAnswers(polls: seq<Result<Task>>, more: seq<Result<Task>>)
    requires FirstStop(polls) < |polls|
    ensures FirstStop(polls + more) == FirstStop(polls)
  {
    if StillRunning(polls[0]) {
      assert (polls + more)[1..] == polls[1..] + more;
      StopIgnoresLaterAnswers(polls[1..], more);
    }
  }

  /** While every answer so far says `RUNNING`, the loop's stopping point in
      a longer sequence lies beyond them: an unbounded loop and this finite
      one agree on every oracle long enough to contain the stop. */
  lemma {:induction false} RunningPrefixIsSkipped(polls: seq<Result<Task>>, more: seq<Result<Task>>)
    requires FirstStop(polls) == |polls|
    ensures FirstStop(polls + more) == |polls| + FirstStop(more)
  {
    if polls == [] {
      assert polls + more == more;
    } else {
      assert StillRunning(polls[0]);
      assert (polls + more)[1..] == polls[1..] + more;
      RunningPrefixIsSkipped(polls[1..], more);
    }
  }

  /** The two texts the loop itself produces cannot be confused, and the text
      for an unknown state gives back the literal state. */
  lemma TaskMessagesDistinguishable(s: string, s': string)
    ensures Message(TaskFailed) != Message(TaskStateUnknown(s))
    ensures Message(TaskStateUnknown(s)) == Message(TaskStateUnknown(s')) ==> s == s'
  {
  }

  /** The two resolution failures for one app and space read differently. */
  lemma ResolutionMessagesDistinguishable(a: string, s: string)
    ensures Message(AppNotFound(a, s)) != Message(AppNotUnique(a, s))
  {
  }
}
