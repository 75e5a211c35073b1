/**
 * The worker object: it owns the connection to the container runtime and
 * the optional post-process hook, and runs each submitted job item through
 * the lifecycle chain, emitting the terminal event on the item.
 */
module Worker {
  import opened Wrappers
  import opened Jobs
  import opened BuildScript
  import opened JobConfig
  import opened Lifecycle

  /**
   * The container runtime together with the post-process hook: it records
   * every operation issued to it and answers each with its fixed reply. Each
   * job has containers of its own (named after the job's id), so the replies
   * are given per job id, and different jobs may be answered differently.
   */
  class Runtime {
    const replies: string -> Replies
    var log: seq<Op>

    constructor (replies: string -> Replies)
      ensures this.replies == replies && log == []
    {
      this.replies := replies;
      log := [];
    }

    /** Issues `op` on a container of the job with identifier `id`. */
    method Perform(id: string, op: Op) returns (reply: Reply)
      modifies this
      ensures log == old(log) + [op] && reply == replies(id)(op)
    {
      log := log + [op];
      reply := replies(id)(op);
    }
  }

  /** A submitted job: the order and the events emitted on it so far. */
  class JobItem {
    const job: Job
    var events: seq<Event>

    constructor (job: Job)
      ensures this.job == job && events == []
    {
      this.job := job;
      events := [];
    }

    method Emit(e: Event)
      modifies this
      ensures events == old(events) + [e]
    {
      events := events + [e];
    }
  }

  class Worker {
    /** Whether `options.postProcess` is set. */
    const postProcess: bool
    const runtime: Runtime

    constructor (postProcess: bool, runtime: Runtime)
      ensures this.postProcess == postProcess && this.runtime == runtime
    {
      this.postProcess := postProcess;
      this.runtime := runtime;
    }

    /**
     * A start/stop/remove helper followed by `Promise.all`: every operation is
     * issued, and the group fails with the first rejection in list order.
     */
    method SettleAll(id: string, kind: Kind, containers: Option<seq<Target>>) returns (failure: Option<Failure>)
      modifies runtime
      ensures runtime.log == old(runtime.log) + Calls(Issue(kind, containers))
      ensures failure == AllSettled(Issue(kind, containers), runtime.replies(id))
    {
      var pending := Issue(kind, containers);
      failure := None;
      for i := 0 to |pending|
        invariant runtime.log == old(runtime.log) + Calls(pending[..i])
        invariant failure == AllSettled(pending[..i], runtime.replies(id))
      {
        assert pending[..i + 1][..i] == pending[..i];
        match pending[i]
        case Settled =>
        case Issued(op) =>
          var reply := runtime.Perform(id, op);
          if failure.None? && reply.Rejected? {
            failure := Some(reply.failure);
          }
      }
      assert pending[..|pending|] == pending;
    }

    /** One call on the primary container. */
    method PrimaryCall(id: string, op: Op, merge: bool, result: JobResult) returns (result': JobResult, failure: Option<Failure>)
      modifies runtime
      ensures runtime.log == old(runtime.log) + [op]
      ensures var st := Single(State([], result, None), op, merge, Context(0, false, runtime.replies(id)));
        result' == st.result && failure == st.failure
    {
      var reply := runtime.Perform(id, op);
      match reply
      case Rejected(f) =>
        result', failure := result, Some(f);
      case Resolved(d) =>
        result', failure := if merge then Merge(result, d) else result, None;
    }

    /**
     * One link of the chain: skipped once a call has been rejected, otherwise
     * the group or single call of that stage, or the hook call whose promise
     * is dropped.
     */
    method RunStage(id: string, stage: Stage, n: nat, ghost trace: seq<Op>, result: JobResult, failure: Option<Failure>)
      returns (ghost added: seq<Op>, result': JobResult, failure': Option<Failure>)
      modifies runtime
      ensures runtime.log == old(runtime.log) + added
      ensures Step(State(trace, result, failure), stage, Context(n, postProcess, runtime.replies(id))) ==
        State(trace + added, result', failure')
    {
      added, result', failure' := [], result, failure;
      if failure.None? {
        var secondaries := Targets(n);
        match stage
        case StartSecondaries =>
          failure' := SettleAll(id, Start, Some(secondaries));
          added := Calls(Issue(Start, Some(secondaries)));
        case StartPrimary =>
          result', failure' := PrimaryCall(id, Call(Start, Primary), false, result);
          added := [Call(Start, Primary)];
        case WaitPrimary =>
          result', failure' := PrimaryCall(id, Call(Wait, Primary), true, result);
          added := [Call(Wait, Primary)];
        case StopSecondaries =>
          failure' := SettleAll(id, Stop, Some(secondaries));
          added := Calls(Issue(Stop, Some(secondaries)));
        case RemoveSecondaries =>
          failure' := SettleAll(id, Remove, Some(secondaries));
          added := Calls(Issue(Remove, Some(secondaries)));
        case PostProcess =>
          if postProcess {
            // `postProcess(result, …)`: the hook's promise is dropped, so its
            // reply is never looked at; the `result` it is handed is not logged.
            var _ := runtime.Perform(id, Hook);
            added := [Hook];
          }
        case RemovePrimary =>
          result', failure' := PrimaryCall(id, Call(Remove, Primary), true, result);
          added := [Call(Remove, Primary)];
      }
    }

    /**
     * The promise chain: the links run in order, each one skipped once an
     * earlier call has been rejected.
     */
    method RunLinks(id: string, stages: seq<Stage>, n: nat, ghost trace: seq<Op>, result: JobResult, failure: Option<Failure>)
      returns (ghost issued: seq<Op>, result': JobResult, failure': Option<Failure>)
      modifies runtime
      ensures Run(State(trace, result, failure), stages, Context(n, postProcess, runtime.replies(id))) ==
        State(trace + issued, result', failure')
      ensures runtime.log == old(runtime.log) + issued
    {
      ghost var ctx := Context(n, postProcess, runtime.replies(id));
      issued, result', failure' := [], result, failure;
      assert trace + issued == trace && stages[0..] == stages;
      for k := 0 to |stages|
        invariant Run(State(trace + issued, result', failure'), stages[k..], ctx) == Run(State(trace, result, failure), stages, ctx)
        invariant runtime.log == old(runtime.log) + issued
      {
        RunAt(State(trace + issued, result', failure'), stages, k, ctx);
        ghost var added;
        added, result', failure' := RunStage(id, stages[k], n, trace + issued, result', failure');
        assert (trace + issued) + added == trace + (issued + added);
        issued := issued + added;
      }
      assert stages[|stages|..] == [];
      assert trace + [] == trace;
    }


    /**
     * `processItem`: derives the container configuration, then runs the
     * chain link by link, each link skipped once a call has been rejected,
     * and emits one terminal event on the item.
     */
    method ProcessItem(item: JobItem, dir: string) returns (primary: ContainerConfig)
      modifies item, runtime
      ensures primary == PrimaryContainer(item.job, dir)
      ensures runtime.log == old(runtime.log) + Execute(item.job, dir, postProcess, runtime.replies(item.job.id)).trace
      ensures item.events == old(item.events) + [Emitted(item.job, dir, postProcess, runtime.replies(item.job.id))]
    {
      var job := item.job;
      var checkoutpath := "/home/" + job.repository.name;
      var result := JobResult(ArtifactOf(job, dir), None);
      var secondaryContainers := SecondaryContainers(job.secondary);
      var secondaryLinks := SecondaryLinks(job.secondary);
      var script := PrepareScript(job, checkoutpath);
      primary := ContainerConfig(
        job.primaryImage, job.containerName + job.id, ["/bin/bash", "-c", script],
        true, Some(job.timeout), {checkoutpath}, secondaryLinks, Some(dir + ":" + checkoutpath));

      var failure;
      ghost var trace;
      trace, result, failure := RunLinks(job.id, Chain, |secondaryContainers|, [], result, None);
      assert [] + trace == trace;
      assert State(trace, result, failure) == Execute(job, dir, postProcess, runtime.replies(job.id));
      assert Settle(State(trace, result, failure)) == Emitted(job, dir, postProcess, runtime.replies(job.id));
      Conclude(item, trace, result, failure);
    }

    /**
     * The chain's `.then`/`.catch` tail: a rejection other than 404 is
     * emitted as an error; a clean run or a 404 completes with the result
     * gathered so far.
     */
    method Conclude(item: JobItem, ghost trace: seq<Op>, result: JobResult, failure: Option<Failure>)
      modifies item
      ensures item.events == old(item.events) + [Settle(State(trace, result, failure))]
    {
      match failure
      case None =>
        item.Emit(Complete(result));
      case Some(status) =>
        if status.statusCode != Some(404) {
          item.Emit(Error(status));
        } else {
          item.Emit(Complete(result));
        }
    }

    /** `putItem`: wraps the order in a fresh job item and processes it. */
    method Put(job: Job, dir: string) returns (item: JobItem)
      modifies runtime
      ensures fresh(item) && item.job == job
      ensures item.events == [Emitted(job, dir, postProcess, runtime.replies(job.id))]
      ensures runtime.log == old(runtime.log) + Execute(job, dir, postProcess, runtime.replies(job.id)).trace
    {
      item := new JobItem(job);
      var _ := ProcessItem(item, dir);
    }
  }
}
