/** Concrete runs, each derived from the contract of `Run` alone. */
module Scenarios {

  import opened CloudFoundryTask

  const job := Job("migrate", "rake db:migrate", "svc")
  const space := Space("space-1", "dev")

  /** The task runs once, then succeeds: two fetches, both for the created
      task, after one create request against the app's GUID. */
  method SucceedsAfterTwoFetches() returns (outcome: Outcome, calls: Calls)
    ensures outcome == Succeeded
    ensures calls.request == Some(TaskRequest("migrate", "rake db:migrate", "g1"))
    ensures calls.fetched == ["t1", "t1"]
  {
    var oracle := Oracle(Ok([App("g1", "svc")]), Ok(Task("t1", "RUNNING")),
                         [Ok(Task("t1", "RUNNING")), Ok(Task("t1", "SUCCEEDED")), Ok(Task("t1", "FAILED"))]);
    assert FirstStop(oracle.polls[1..]) == 0;
    outcome, calls := Run(job, space, oracle);
  }

  /** No app of that name in the space: the run fails before any request to
      create or fetch a task. */
  method FailsWhenAppMissing(created: Result<Task>, polls: seq<Result<Task>>) returns (outcome: Outcome, calls: Calls)
    ensures outcome == Failed(AppNotFound("svc", "dev"))
    ensures calls.request == None && calls.fetched == []
  {
    outcome, calls := Run(job, space, Oracle(Ok([]), created, polls));
  }

  /** Two apps answer the query: the run refuses to pick one. */
  method FailsWhenAppAmbiguous(created: Result<Task>, polls: seq<Result<Task>>) returns (outcome: Outcome, calls: Calls)
    ensures outcome == Failed(AppNotUnique("svc", "dev"))
    ensures calls.request == None && calls.fetched == []
  {
    outcome, calls := Run(job, space, Oracle(Ok([App("g1", "svc"), App("g2", "svc")]), created, polls));
  }

  /** A state outside the known three ends the run with an error naming it. */
  method FailsOnUnknownState() returns (outcome: Outcome, calls: Calls)
    ensures outcome == Failed(TaskStateUnknown("WEIRD"))
    ensures Message(outcome.error) == "task state unknown: WEIRD"
    ensures |calls.fetched| == 1
  {
    var oracle := Oracle(Ok([App("g1", "svc")]), Ok(Task("t1", "RUNNING")), [Ok(Task("t1", "WEIRD"))]);
    outcome, calls := Run(job, space, oracle);
  }
}
