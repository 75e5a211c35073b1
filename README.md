# worker — a Dafny model of the build worker

The worker takes a job order and runs it as a build inside Docker containers.
First it derives everything the build needs from the order:
- the bash build script (`prepareScript`);
- one service container per `container.secondary` entry, with a `name:alias` link to each;
- the checkout path `/home/<repository name>` and the host bind that mounts a scratch directory there;
- the artifact record;
- the primary container that runs the script.

Then it drives a promise chain over the container runtime:
1. start the secondaries;
2. start the primary, then wait for it, merging the wait's value into the result;
3. stop and remove the secondaries;
4. invoke the optional post-process hook;
5. remove the primary, merging its value.

For a complete order whose rejections all carry a reason, the chain ends in exactly one event on the job item: `error` when the first rejection carries a status code other than 404, otherwise `complete` with the result gathered so far.

The model is organised as follows:

- `Strings`: JavaScript's `Array.join`, its inverse split, and `Path.basename`.
- `Jobs`: the job order.
- `BuildScript`: `prepareScript`, as a specification function plus the imperative method that fills the line array.
- `JobConfig`: the containers, links, bind and artifact that `processItem` derives.
- `Lifecycle`: the promise chain as a fold of seven stages over a state (operations issued, result, rejection). It also holds the reference definitions that the chain is proved against: per-stage operations, the phase order, and the first rejected operation.
- `Worker`: the objects.
  - `Runtime` records every operation issued to it and answers with a fixed reply per job and operation.
  - `JobItem` accumulates emitted events.
  - `Worker.ProcessItem` runs the chain link by link, and is proved to issue exactly `Execute(...).trace` and to emit exactly `Emitted(...)`.

The container runtime and the hook are modelled, per job, as a total function from operations to replies. `Worker.Runtime` keys these functions by the job id, because each job has containers of its own, named `container.name + id` (lib/worker.js:145). So one build on a worker may succeed and the next fail. Within a job each operation is issued at most once (`Lifecycle.FullTraceOrdered`), so a fixed reply per operation of a job loses nothing. The scratch directory created by `tmp.Dir` is a parameter `dir`.

Two places where what the hook's callback (which rejects on error) and the repository's tests lead one to expect differs from the code; the model follows the code:
- The post-process hook is called but its promise is never returned (`postProcess` at lib/worker.js:107-121 evaluates `promise.promise` and returns `undefined`). The chain therefore never waits for the hook, and the hook's success or failure is ignored (`Lifecycle.HookOutcomeIgnored`).
- The tests in tests/worker.js do not match the code:
  - The expected script at tests/worker.js:10 has no colour escapes, and that test calls `prepare` with a bare array. The code emits ANSI green escape sequences around the echoed command; `BuildScript.ColouredNotPlain` shows that for any single command the generated script differs from the plain form the test expects.
  - The `put` tests (tests/worker.js:20-30, 43-53) pass orders without `reposity` or `container`. The code reads both unconditionally (lib/worker.js:129, 140), so for these orders it throws before any container is touched and emits nothing. The model takes every order to be complete (`Jobs.Job`).

## Model

| member | source | states |
|---|---|---|
| Strings.SplitJoin | lib/worker.js:135-136 | `Join` (`Array.prototype.join`) is undone by splitting on the same separator when no part contains it: a joined value reads back as exactly its parts |
| Strings.BasenameSuffix | lib/worker.js:135 | `Basename` (`Path.basename`): the base name holds no `/`, is a suffix of the path, and is either the whole path or preceded by a `/` |
| Strings.BasenameUnder | lib/worker.js:135-136 | prefixing a path with a directory and `/` does not change its base name |
| Strings.BasenameOfName | lib/worker.js:135 | a name without `/` is its own base name |
| BuildScript.PrepareScript | lib/worker.js:42-50 | the loop-built script equals `(` + setup step + the command lines joined by newlines + `)` |
| BuildScript.ScriptBracketed | lib/worker.js:49 | the script is one parenthesised group; with no setup and no commands it is `()` |
| BuildScript.ScriptLines | lib/worker.js:45-49 | with newline-free inputs the script body reads back as exactly one line per command, in order, with the setup glued to the first line |
| BuildScript.SetupPrefix | lib/worker.js:48-49 | unless `skipSetup`, the script opens with `cd <checkout> && git clone <uri> -b <branch> .;` |
| BuildScript.CommandLineSingle | lib/worker.js:46 | a newline-free command yields a newline-free script line |
| BuildScript.ColouredNotPlain | tests/worker.js:5-14 | a one-command script without setup is that command's green-echo line in parentheses, and never the plain text the test expects |
| BuildScript.CommandLineColoured | lib/worker.js:46 | every script line opens its echo with the escape that starts the green colour |
| JobConfig.LinksNameSecondaries | lib/worker.js:63-67 | `SecondaryLinks` (`getSecondaryLinks`): there is one link per secondary container, in the same order, and link i reads back as (name of container i, alias i) |
| JobConfig.CheckoutUnderHome | lib/worker.js:129-130 | the checkout path is the repository's directory directly under `/home`, so its base name is the repository name |
| JobConfig.BindParse | lib/worker.js:150 | the bind reads back as (scratch directory, checkout path) |
| JobConfig.ArtifactOf | lib/worker.js:132-138 | an artifact is produced iff the order names a path; it is named `<repo>_<id>_<basename>` and located at that path under the scratch directory |
| JobConfig.ArtifactNamesItsFile | lib/worker.js:135-136 | the artifact's name ends with the base name of the path it is read from |
| JobConfig.PrimaryWiring | lib/worker.js:142-151 | `PrimaryContainer`: bash runs the whole script as one argument; the container is named `<name><id>`; the bind mounts the scratch directory at the declared volume, which is where the setup clones; the artifact lies under the bind's host side |
| Lifecycle.IssueOnePerContainer | lib/worker.js:68-105 | the helpers' `Promise.all` fails exactly with the first rejected operation; a placeholder issues nothing and never fails |
| Lifecycle.StepTrace | lib/worker.js:159-173 | `Step`, one `.then` link: an unrejected link issues exactly its stage's operations, a whole group at a time |
| Lifecycle.StepRejection | lib/worker.js:159-173 | an unrejected link is rejected exactly by the first rejection among its own operations (`Promise.all` of a group, or the single primary call); the hook link is never rejected |
| Lifecycle.RunTrace | lib/worker.js:159-180 | once rejected, the chain does nothing more; otherwise it issues a prefix of its stages' operations, all of them when never rejected |
| Lifecycle.RunReaches | lib/worker.js:159-173 | from an unrejected state the chain issues exactly the operations of the stages it reaches, each stage whole, and carries the rejection of the last stage reached |
| Lifecycle.ReachedStops | lib/worker.js:159-173 | the stages reached are those up to and including the first stage holding a rejection: none before it holds one |
| Lifecycle.RunMerges | lib/worker.js:163-173 | the chain's result is the merges (`Merge`, lodash `_.merge`) of exactly the stages it reaches |
| Lifecycle.AbsorbChainPrefix | lib/worker.js:164-173 | after the first k links the result carries the primary removal's exit code if it ran and resolved with one, else the wait's, else its initial code |
| Lifecycle.JobRunsWholeLinks | lib/worker.js:159-180 | a job issues every operation of each link it reaches, all of a group even when one container rejects, nothing after the first link holding a rejection, and carries that link's rejection |
| Lifecycle.RunFailure | lib/worker.js:159-175 | the chain's rejection is always the first rejected operation it issued |
| Lifecycle.RunKeepsArtifact | lib/worker.js:163-173 | no link changes the artifact record |
| Lifecycle.FullTraceOrdered | lib/worker.js:159-173 | secondary starts, then the primary start, the wait, secondary stops, secondary removals, the hook and the primary removal; secondaries in list order; no operation repeats |
| Lifecycle.TraceFollowsOrder | lib/worker.js:159-180 | every job issues a prefix of that full sequence, hence in that order, and all of it when it is never rejected |
| Lifecycle.ErrorIffFirstRejectionNot404 | lib/worker.js:175-180 | `Settle`: `error` is emitted iff the first rejection's status code is not 404, and then carries that rejection; otherwise `complete` carries the artifact record and the exit code merged by the links that ran (after a 404 past the wait, the wait's) |
| Lifecycle.HookOutcomeIgnored | lib/worker.js:107-121 | replies that differ only on the hook give the same operations, result and event |
| Lifecycle.HookSeesWaitResult | lib/worker.js:168-169 | the chain continues from the state its first five links leave; when they were not rejected, the result handed to the hook is the artifact record with the wait's exit code |
| Lifecycle.CleanRunCompletes | lib/worker.js:159-174 | with no rejection, every operation is issued, and `complete` carries the artifact and the primary removal's exit code or else the wait's |
| Lifecycle.StepResult | lib/worker.js:163-173 | a link that runs merges only what it resolves with, and only the wait and the primary removal merge; a skipped link leaves the result alone; an unrejected link started unrejected |
| Lifecycle.RunButHook | lib/worker.js:168-170 | the chain does not depend on the hook's reply |
| Worker.Runtime.Perform | lib/worker.js:160-171 | an operation is recorded in the runtime's log and answered with the reply of that job's container |
| Worker.JobItem.Emit | lib/worker.js:174-179 | an emitted event is appended to the item's events |
| Worker.Worker.constructor | lib/worker.js:20-27 | a worker keeps whether `options.postProcess` is set and a connection to the container runtime; the source builds its own `Docker` client on the fixed socket, and the model injects the runtime in its place |
| Worker.Worker.SettleAll | lib/worker.js:159-167 | every operation of a helper is issued, and the group's outcome is the first rejection among them |
| Worker.Worker.PrimaryCall | lib/worker.js:160-173 | one call on the primary: recorded, and its value merged on resolution when asked, or its rejection returned |
| Worker.Worker.RunStage | lib/worker.js:159-173 | one link performs exactly the stage's step of the model chain, and logs exactly the operations that step issues |
| Worker.Worker.RunLinks | lib/worker.js:159-173 | the link loop ends in the model chain's state, and the runtime's log grows by exactly the operations issued |
| Worker.Worker.Conclude | lib/worker.js:172-180 | `.then`/`.catch` tail: emits the one event the chain settles to |
| Worker.Worker.ProcessItem | lib/worker.js:126-181 | the primary container is `PrimaryContainer(job, dir)`; the runtime sees exactly the model trace; exactly one event, `Emitted(...)`, is appended to the item |
| Worker.Worker.Put | lib/worker.js:183-187 | a fresh item for the order receives exactly one event, and the runtime sees the model trace |

## Left out

- The `onTimeout` handler (lib/worker.js:153-157) is left out. It removes the secondaries and emits `timeout` concurrently with the chain. The model has no concurrency, and nothing in the code stops it from firing alongside `complete` or `error`.
- Lifecycle.IssueOnePerContainer reports the first rejection in list order. `Promise.all` rejects with the first rejection in time, which depends on scheduling.
- Worker.Worker.SettleAll likewise returns the first rejection in list order, not the first in time.
- Errors thrown synchronously by the hook are not modelled; a hook error delivered through its callback is modelled, and ignored.
- Worker.Worker.ProcessItem always emits exactly one event. Two paths in the code emit none:
  - An order without `reposity` or `container` throws synchronously at lib/worker.js:129 or lib/worker.js:140. `Jobs.Job` always has both fields.
  - A rejection whose reason is `undefined` or `null` makes `status.statusCode` throw inside `.catch` (lib/worker.js:176), so no event fires and the rejection goes unhandled. `Lifecycle.Failure` always carries a reason; a reason without a status code is `Failure(None)`.
- Worker.Worker.Put runs the job's chain to completion before returning. In the source, `putItem` returns before the chain settles (lib/worker.js:183-187), so the operations of jobs on one worker may interleave; this is not modelled.
- Worker.Runtime logs operations without the job they belong to. Because the model runs one `Put` to completion before the next, each call's `ensures` names the stretch of the log that is that job's; with interleaving, the source has no such stretch.
- A listener that throws inside `emit('complete')` would send the chain into `.catch` and may cause a second emission; not modelled.
- Strings.Basename takes the text after the last `/`. Node's special handling of trailing slashes and of a missing `artifact_path` (`undefined`) is not modelled.
- The job id is kept as the decimal text that concatenation produces. `statusCode` is an integer, and a string `"404"`, which loose `!=` equates with 404, is not modelled.
- `_.merge` of a resolved value is modelled as overriding the result's exit code (`StatusCode` of the wait reply) only; other fields of the docker replies are not tracked.
- Lifecycle.HookOutcomeIgnored covers only the hook's reply. `_.merge` updates the `result` object in place, and the hook is handed that same object (lib/worker.js:169, 110). Since the chain does not wait for the hook, the hook may still read it after the primary removal's merge (lib/worker.js:173). A hook that writes to its argument changes what `complete` carries. The model treats the result as an immutable value, so this sharing and the hook's effects on the object are not modelled. Lifecycle.HookSeesWaitResult, Lifecycle.HookOutcomeIgnored and Lifecycle.RunKeepsArtifact hold for a hook that does not modify its argument.
- Lifecycle.Step and Worker.Worker.RunStage issue the hook operation without its argument: `postProcess(result, …)` hands the current result to the hook, and the operation log does not record it. Lifecycle.HookSeesWaitResult states what that result is.
- `Container`, `JobItem` internals, `PromisedDocker` and the `temporary` package are not part of this model. Containers are reduced to their configuration and the replies of their operations; the job item to its emitted events; the scratch directory to the parameter `dir`.
- The callback passed to `putItem` is handed to `JobItem` and is not part of this model.
- lib/client.js (the queue client feeding the worker) is not part of this model.
