# Cloud Foundry one-shot task run

A model of the Cloud Foundry task job of the scheduler (`core/cloudfoundrytask.go`). A run has three steps:

1. It resolves the job's target app in the scheduler's own space. The app query carries two `q` filters, `name:<app>` and then `space_guid:<space>`. Exactly one match is required.
2. It submits one task that runs the job's command against that app's droplet.
3. It polls the task until it is no longer `RUNNING`.

The platform client (`cfclient`) is an oracle. Its answer to the app query, its answer to the single create-task request and its answer to each status fetch are inputs (`CloudFoundryTask.Oracle`). The requests a run makes are returned as a `Calls` record: the query, the create request if one was made, and the GUID passed to each fetch. Go's `(value, error)` pairs become `Result`. The texts of the source's own errors are kept by `Message`. Errors from the client pass through unchanged.

Files:

- `url_values.dfy`: the `Set`/`Add` behaviour of `net/url.Values` that the query is built with.
- `cloudfoundrytask.dfy`: the data and the three operations, `AppGuid` (a function), `CreateTask` and `Run` (methods), and the properties of the poll loop.
- `platform.dfy`: an idealised platform that answers the query by filtering a catalogue of deployed apps. It is used to prove that resolution finds the one app with that name in the space, and never an app of the same name in another space.
- `scenarios.dfy`: concrete runs derived from `Run`'s contract alone.

The source loop has no bound. The model polls over a finite answer sequence. When the answers run out before one stops the loop, it ends with the extra outcome `Exhausted`. The lemmas `StopIgnoresLaterAnswers` and `RunningPrefixIsSkipped` show that answers after the stopping one are never consulted. So the finite model agrees with the unbounded loop on every oracle long enough to contain the stop.

## Model

| member | source | states |
|---|---|---|
| `UrlValues.Set` | core/cloudfoundrytask.go:81 | the key then holds exactly the one given value; every other key is untouched |
| `UrlValues.Add` | core/cloudfoundrytask.go:82 | the given value is appended after those the key already held; every other key is untouched |
| `CloudFoundryTask.Message` | core/cloudfoundrytask.go:71-92 | a client error keeps its own text; "app '<name>' not found" / "app '<name>' not unique" start the resolution errors, which end with "'<spaceName>'"; "task failed"; "task state unknown: " followed by the literal state |
| `CloudFoundryTask.AppQuery` | core/cloudfoundrytask.go:80-82 | the query has the single key `q`, holding `name:<app>` then `space_guid:<space id>`, in that order |
| `CloudFoundryTask.AppGuid` | core/cloudfoundrytask.go:79-95 | success exactly when the query succeeded with one app, and then that app's GUID; a query error is returned unchanged; zero apps give "not found" and more than one "not unique", both naming the app and the space name |
| `CloudFoundryTask.CreateTask` | core/cloudfoundrytask.go:97-108 | always issues the app query; if resolution fails, its error is returned and no create request is made; otherwise exactly one request with the job's name, command and the resolved GUID as droplet, and the client's answer is returned as is |
| `CloudFoundryTask.StateStep` | core/cloudfoundrytask.go:66-74 | the loop continues exactly on `RUNNING`; it succeeds exactly on `SUCCEEDED`, and fails with "task failed" exactly on `FAILED`; every other state stops it with "task state unknown" carrying that state |
| `CloudFoundryTask.FirstStop` | core/cloudfoundrytask.go:60-75 | the index of the first status answer that ends the loop: all earlier answers are `RUNNING` snapshots, the one at the index is not |
| `CloudFoundryTask.Run` | core/cloudfoundrytask.go:47-77 | a submission failure (resolution or create) is the outcome, with no fetch; otherwise, with `k` the first non-`RUNNING` answer, exactly `k + 1` fetches and answer `k` decides: success, "task failed", the fetch error unchanged, or "task state unknown: <state>"; the first fetch asks for the created task's GUID and each later one for the previous answer's GUID |
| `CloudFoundryTask.StopIgnoresLaterAnswers` | core/cloudfoundrytask.go:60-75 | answers after the stopping one change neither where the loop stops nor its outcome |
| `CloudFoundryTask.RunningPrefixIsSkipped` | core/cloudfoundrytask.go:60-67 | a run of `RUNNING` answers only postpones the stop by its own length |
| `CloudFoundryTask.TaskMessagesDistinguishable` | core/cloudfoundrytask.go:70-73 | "task failed" differs from every unknown-state message, and an unknown-state message determines the state it reports |
| `CloudFoundryTask.ResolutionMessagesDistinguishable` | core/cloudfoundrytask.go:89-92 | for one app and space, the "not found" and "not unique" messages differ |
| `Platform.QueryFiltersAreConjunction` | core/cloudfoundrytask.go:80-83 | an app satisfies both query filters exactly when it has the name and is in the space |
| `Platform.QueryListsAppsInSpace` | core/cloudfoundrytask.go:80-83 | on an idealised platform the query lists exactly the apps with that name in that space |
| `Platform.ResolvesTheAppInSpace` | core/cloudfoundrytask.go:79-95 | on that platform, resolution succeeds exactly when one app of that name is in the space, with its GUID; none gives "not found", several give "not unique" |
| `Scenarios.SucceedsAfterTwoFetches` | core/cloudfoundrytask.go:60-69 | running then succeeded gives success after exactly two fetches of the created task, and a later answer is never read |
| `Scenarios.FailsWhenAppMissing` | core/cloudfoundrytask.go:89-90 | an empty app list fails with "not found" and no create or fetch request |
| `Scenarios.FailsWhenAppAmbiguous` | core/cloudfoundrytask.go:91-92 | two listed apps fail with "not unique" and no create or fetch request |
| `Scenarios.FailsOnUnknownState` | core/cloudfoundrytask.go:72-73 | an unknown state `WEIRD` fails after one fetch with "task state unknown: WEIRD" |

## Left out

- `BuildCloudFoundryContext` (core/cloudfoundrytask.go:26-45) is left out. It reads the process environment, looks up the service binding, makes unchecked type assertions on its credentials and constructs the client. All of that is environment I/O and foreign-library code. The binding name `scheduler-cf-login` is hard-coded (core/cloudfoundrytask.go:31).
- `NewCloudFoundryTask` (core/cloudfoundrytask.go:19-24) only stores the client and the environment. Here they are the `Oracle` and `Space` values.
- The backoff before each fetch (core/cloudfoundrytask.go:53-58, 61) is left out. It uses a library that is not part of this model, a floating-point factor of 1.1, random jitter and `time.Sleep`. A sleep has no observable effect in the model, so the delay bounds (2 s minimum, 10 s maximum) are not stated.
- The `cfclient` transport and wire formats behind `ListAppsByQuery`, `CreateTask` and `GetTaskByGuid` are not modelled. Their answers are inputs. `Platform` is an idealisation of the app query's semantics, not the real API.
- The URL encoding of `url.Values` is not modelled. Only the ordered list of `q` values is.
- The embedded job framework (`BareJob`) is not modelled. Only its `Name` and `Command` are used, as fields of `Job`.
- The task state is kept as the raw string, as the code does. It is not turned into a closed enumeration.
- Run: does not model the unbounded loop directly. It polls over a finite answer sequence and adds the outcome `Exhausted` for an oracle whose answers run out before one stops the loop. The unreachable trailing return at core/cloudfoundrytask.go:76 has no counterpart.
- This file starts no concurrent work and shares no state between runs. Overlapping runs under the scheduler are not modelled.
