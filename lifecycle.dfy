/**
 * The container lifecycle of one job (`processItem`'s promise chain) as a
 * sequence of stages over an abstract state: the operations issued so far,
 * the result accumulated so far and the rejection that stopped the chain, if
 * any. The container runtime and the post-process hook are a fixed function
 * from each operation to the reply it eventually settles with.
 */
module Lifecycle {
  import opened Wrappers
  import opened Jobs
  import opened JobConfig

  datatype Kind = Start | Wait | Stop | Remove

  datatype Target = Primary | Secondary(index: nat)

  /** An operation on a container, or the invocation of the post-process hook. */
  datatype Op = Call(kind: Kind, target: Target) | Hook

  /** A rejection; `statusCode` is its HTTP status code, absent for errors that carry none. */
  datatype Failure = Failure(statusCode: Option<int>)

  /**
   * The field of a resolved value that the chain merges into the result: the
   * exit code of the build (`StatusCode` in the runtime's wait reply).
   */
  datatype Data = Data(exitCode: Option<int>)

  datatype Reply = Resolved(data: Data) | Rejected(failure: Failure)

  /** How the runtime and the hook answer each operation. */
  type Replies = Op -> Reply

  /** A promise handed to `Promise.all`: an issued operation, or an already-resolved placeholder. */
  datatype Pending = Issued(op: Op) | Settled

  /** The `result` object: the artifact record and the exit code merged into it so far. */
  datatype JobResult = JobResult(artifact: Artifact, exitCode: Option<int>)

  /** The terminal events the chain emits on the job item. */
  datatype Event = Complete(result: JobResult) | Error(failure: Failure)

  /**
   * `startContainers` / `stopContainers` / `removeContainers`: one operation
   * per container, in list order; an absent list yields a single
   * already-resolved placeholder instead.
   */
  function Issue(kind: Kind, containers: Option<seq<Target>>): (r: seq<Pending>)
    ensures containers.None? ==> r == [Settled]
    ensures containers.Some? ==> |r| == |containers.value|
    ensures containers.Some? ==> forall i :: 0 <= i < |r| ==> r[i] == Issued(Call(kind, containers.value[i]))
  {
    match containers
    case None => [Settled]
    case Some(cs) => seq(|cs|, i requires 0 <= i < |cs| => Issued(Call(kind, cs[i])))
  }

  /** The operations behind a list of promises, in order. */
  function Calls(ps: seq<Pending>): seq<Op>
  {
    if ps == [] then []
    else Calls(ps[..|ps| - 1]) + match ps[|ps| - 1] { case Issued(op) => [op] case Settled => [] }
  }

  /** `Promise.all`: the first rejection in list order, if any. */
  function AllSettled(ps: seq<Pending>, replies: Replies): Option<Failure>
  {
    if ps == [] then None
    else
      var earlier := AllSettled(ps[..|ps| - 1], replies);
      if earlier.Some? then earlier
      else match ps[|ps| - 1]
        case Settled => None
        case Issued(op) => if replies(op).Rejected? then Some(replies(op).failure) else None
  }

  /** `_.merge(result, data)`: an exit code present in `data` overrides the result's. */
  function Merge(r: JobResult, d: Data): JobResult
  {
    r.(exitCode := if d.exitCode.Some? then d.exitCode else r.exitCode)
  }

  /** The links of the promise chain, in order. */
  datatype Stage =
    | StartSecondaries | StartPrimary | WaitPrimary | StopSecondaries
    | RemoveSecondaries | PostProcess | RemovePrimary

  const Chain: seq<Stage> :=
    [StartSecondaries, StartPrimary, WaitPrimary, StopSecondaries, RemoveSecondaries, PostProcess, RemovePrimary]

  /** What a job's chain runs against: how many secondaries, whether a hook is configured, the replies. */
  datatype Context = Context(secondaries: nat, hook: bool, replies: Replies)

  /** The secondary containers of a job, in order. */
  function Targets(n: nat): seq<Target>
  {
    seq(n, i requires 0 <= i < n => Secondary(i))
  }

  datatype State = State(trace: seq<Op>, result: JobResult, failure: Option<Failure>)

  /** `Promise.all(helper(secondaryContainers))`. */
  function Group(st: State, kind: Kind, ctx: Context): State
  {
    var pending := Issue(kind, Some(Targets(ctx.secondaries)));
    st.(trace := st.trace + Calls(pending), failure := AllSettled(pending, ctx.replies))
  }

  /** One operation on the primary container; its resolved value is merged when `merge` is set. */
  function Single(st: State, op: Op, merge: bool, ctx: Context): State
  {
    match ctx.replies(op)
    case Rejected(f) => st.(trace := st.trace + [op], failure := Some(f))
    case Resolved(d) => st.(trace := st.trace + [op], result := if merge then Merge(st.result, d) else st.result)
  }

  /**
   * One `.then` link: skipped once the chain is rejected. The hook is invoked
   * but its promise is never returned, so its reply plays no part.
   */
  function Step(st: State, stage: Stage, ctx: Context): State
  {
    if st.failure.Some? then st
    else match stage
      case StartSecondaries => Group(st, Start, ctx)
      case StartPrimary => Single(st, Call(Start, Primary), false, ctx)
      case WaitPrimary => Single(st, Call(Wait, Primary), true, ctx)
      case StopSecondaries => Group(st, Stop, ctx)
      case RemoveSecondaries => Group(st, Remove, ctx)
      case PostProcess => if ctx.hook then st.(trace := st.trace + [Hook]) else st
      case RemovePrimary => Single(st, Call(Remove, Primary), true, ctx)
  }

  function Run(st: State, stages: seq<Stage>, ctx: Context): State
    decreases |stages|
  {
    if stages == [] then st else Run(Step(st, stages[0], ctx), stages[1..], ctx)
  }

  /** The final `.then` and the `.catch`: which event the chain emits. */
  function Settle(st: State): Event
  {
    match st.failure
    case None => Complete(st.result)
    case Some(f) => if f.statusCode != Some(404) then Error(f) else Complete(st.result)
  }

  function Begin(job: Job, dir: string): State
  {
    State([], JobResult(ArtifactOf(job, dir), None), None)
  }

  function ContextOf(job: Job, hook: bool, replies: Replies): Context
  {
    Context(|SecondaryContainers(job.secondary)|, hook, replies)
  }

  /** The whole chain of a job. */
  function Execute(job: Job, dir: string, hook: bool, replies: Replies): State
  {
    Run(Begin(job, dir), Chain, ContextOf(job, hook, replies))
  }

  /** The event a job's chain emits. */
  function Emitted(job: Job, dir: string, hook: bool, replies: Replies): Event
  {
    Settle(Execute(job, dir, hook, replies))
  }

  // ---------------------------------------------------------------------
  // Reference definitions: the operations each stage issues, the order of
  // the phases, and the first rejected operation of a trace.
  // ---------------------------------------------------------------------

  /** One operation of `kind` per secondary container, in order. */
  function GroupOps(kind: Kind, n: nat): seq<Op>
  {
    seq(n, i requires 0 <= i < n => Call(kind, Secondary(i)))
  }

  /** The operations a stage issues when it runs. */
  function StageOps(stage: Stage, n: nat, hook: bool): seq<Op>
  {
    match stage
    case StartSecondaries => GroupOps(Start, n)
    case StartPrimary => [Call(Start, Primary)]
    case WaitPrimary => [Call(Wait, Primary)]
    case StopSecondaries => GroupOps(Stop, n)
    case RemoveSecondaries => GroupOps(Remove, n)
    case PostProcess => if hook then [Hook] else []
    case RemovePrimary => [Call(Remove, Primary)]
  }

  function Ops(stages: seq<Stage>, n: nat, hook: bool): seq<Op>
  {
    if stages == [] then [] else StageOps(stages[0], n, hook) + Ops(stages[1..], n, hook)
  }

  /** Every operation of a job whose chain is never rejected. */
  function FullTrace(n: nat, hook: bool): seq<Op>
  {
    Ops(Chain, n, hook)
  }

  /**
   * The phase of an operation: secondary starts, primary start, primary
   * wait, secondary stops, secondary removals, hook, primary removal.
   */
  function Phase(op: Op): nat
  {
    match op
    case Hook => 5
    case Call(kind, target) =>
      match kind
      case Start => if target.Primary? then 1 else 0
      case Wait => 2
      case Stop => 3
      case Remove => if target.Primary? then 6 else 4
  }

  function StagePhase(stage: Stage): nat
  {
    match stage
    case StartSecondaries => 0
    case StartPrimary => 1
    case WaitPrimary => 2
    case StopSecondaries => 3
    case RemoveSecondaries => 4
    case PostProcess => 5
    case RemovePrimary => 6
  }

  function Index(op: Op): nat
  {
    if op.Call? && op.target.Secondary? then op.target.index else 0
  }

  /** `a` must come strictly before `b`: an earlier phase, or an earlier container within a phase. */
  predicate Before(a: Op, b: Op)
  {
    Phase(a) < Phase(b) || (Phase(a) == Phase(b) && Index(a) < Index(b))
  }

  predicate Ordered(ops: seq<Op>)
  {
    forall i, j :: 0 <= i < j < |ops| ==> Before(ops[i], ops[j])
  }

  /** The first operation of `ops`, the hook excepted, whose reply is a rejection. */
  function FirstFailure(ops: seq<Op>, replies: Replies): Option<Failure>
  {
    if ops == [] then None
    else
      var earlier := FirstFailure(ops[..|ops| - 1], replies);
      var op := ops[|ops| - 1];
      if earlier.Some? then earlier
      else if op != Hook && replies(op).Rejected? then Some(replies(op).failure)
      else None
  }

  /** The rejection among a stage's own operations, if any (the hook's reply never counts). */
  function Rejection(stage: Stage, ctx: Context): Option<Failure>
  {
    FirstFailure(StageOps(stage, ctx.secondaries, ctx.hook), ctx.replies)
  }

  /**
   * How many of the stages run from an unrejected start: all of them up to
   * and including the first one whose operations include a rejection.
   */
  function Reached(stages: seq<Stage>, ctx: Context): (k: nat)
    ensures k <= |stages| && (stages != [] ==> 1 <= k)
    decreases |stages|
  {
    if stages == [] then 0
    else if Rejection(stages[0], ctx).Some? then 1
    else 1 + Reached(stages[1..], ctx)
  }

  /** The value an operation resolved with, merged in; a rejection merges nothing. */
  function MergeReply(r: JobResult, reply: Reply): JobResult
  {
    match reply
    case Resolved(d) => Merge(r, d)
    case Rejected(_) => r
  }

  /** What a stage that runs merges into the result: only the wait and the primary removal do. */
  function Absorbed(r: JobResult, stage: Stage, replies: Replies): JobResult
  {
    match stage
    case WaitPrimary => MergeReply(r, replies(Call(Wait, Primary)))
    case RemovePrimary => MergeReply(r, replies(Call(Remove, Primary)))
    case _ => r
  }

  /** The merges of the stages, in order. */
  function Absorb(r: JobResult, stages: seq<Stage>, replies: Replies): JobResult
  {
    if stages == [] then r
    else Absorbed(Absorb(r, stages[..|stages| - 1], replies), stages[|stages| - 1], replies)
  }

  /** The exit code an operation resolved with, if any. */
  function Code(reply: Reply): Option<int>
  {
    if reply.Resolved? then reply.data.exitCode else None
  }

  /**
   * The exit code a result carries once the first `k` links of the chain
   * have run: the primary removal's, when it ran and resolved with one; else
   * the wait's, when it ran and resolved with one; else the code it started with.
   */
  function CodeAfter(code: Option<int>, k: nat, replies: Replies): Option<int>
  {
    var waited := if k > 2 && Code(replies(Call(Wait, Primary))).Some? then Code(replies(Call(Wait, Primary))) else code;
    if k > 6 && Code(replies(Call(Remove, Primary))).Some? then Code(replies(Call(Remove, Primary))) else waited
  }

  // ---------------------------------------------------------------------
  // The helpers
  // ---------------------------------------------------------------------

  lemma {:induction false} CallsOfIssued(kind: Kind, cs: seq<Target>)
    ensures Calls(Issue(kind, Some(cs))) == seq(|cs|, i requires 0 <= i < |cs| => Call(kind, cs[i]))
  {
    if cs != [] {
      var ps := Issue(kind, Some(cs));
      var init := cs[..|cs| - 1];
      assert ps[..|ps| - 1] == Issue(kind, Some(init));
      CallsOfIssued(kind, init);
    }
  }

  lemma {:induction false} FirstFailureAppend(t: seq<Op>, u: seq<Op>, replies: Replies)
    ensures FirstFailure(t + u, replies) ==
      if FirstFailure(t, replies).Some? then FirstFailure(t, replies) else FirstFailure(u, replies)
  {
    if u == [] {
      assert t + u == t;
    } else {
      assert (t + u)[..|t + u| - 1] == t + u[..|u| - 1];
      FirstFailureAppend(t, u[..|u| - 1], replies);
    }
  }

  lemma {:induction false} AllSettledIsFirstFailure(ps: seq<Pending>, replies: Replies)
    requires forall i :: 0 <= i < |ps| ==> ps[i] != Issued(Hook)
    ensures AllSettled(ps, replies) == FirstFailure(Calls(ps), replies)
  {
    if ps != [] {
      var init := ps[..|ps| - 1];
      AllSettledIsFirstFailure(init, replies);
      var last := match ps[|ps| - 1] { case Issued(op) => [op] case Settled => [] };
      FirstFailureAppend(Calls(init), last, replies);
      if last != [] {
        assert last[..0] == [];
      }
    }
  }

  /**
   * The helpers issue one operation per container, in list order, and the
   * group fails with the first of them that is rejected; an absent list
   * issues nothing and its placeholder never fails.
   */
  lemma IssueOnePerContainer(kind: Kind, containers: Option<seq<Target>>, replies: Replies)
    ensures containers.None? ==>
      Calls(Issue(kind, containers)) == [] && AllSettled(Issue(kind, containers), replies) == None
    ensures containers.Some? ==>
      var cs := containers.value;
      Calls(Issue(kind, containers)) == seq(|cs|, i requires 0 <= i < |cs| => Call(kind, cs[i])) &&
      AllSettled(Issue(kind, containers), replies) == FirstFailure(Calls(Issue(kind, containers)), replies)
  {
    if containers.None? {
      assert [Settled][..0] == [];
    } else {
      CallsOfIssued(kind, containers.value);
      AllSettledIsFirstFailure(Issue(kind, containers), replies);
    }
  }

  // ---------------------------------------------------------------------
  // The chain
  // ---------------------------------------------------------------------

  /** A group stage issues one operation per secondary container, in order. */
  lemma GroupCalls(kind: Kind, n: nat)
    ensures Calls(Issue(kind, Some(Targets(n)))) == GroupOps(kind, n)
  {
    CallsOfIssued(kind, Targets(n));
  }

  lemma StepTrace(st: State, stage: Stage, ctx: Context)
    requires st.failure.None?
    ensures Step(st, stage, ctx).trace == st.trace + StageOps(stage, ctx.secondaries, ctx.hook)
  {
    var n := ctx.secondaries;
    match stage
    case StartSecondaries => GroupCalls(Start, n);
    case StopSecondaries => GroupCalls(Stop, n);
    case RemoveSecondaries => GroupCalls(Remove, n);
    case _ =>
  }

  /**
   * A rejected chain stays as it is; otherwise the chain issues the
   * operations of its stages in order, a whole stage at a time, and all of
   * them when it is never rejected.
   */
  lemma {:induction false} RunTrace(st: State, stages: seq<Stage>, ctx: Context)
    ensures st.failure.Some? ==> Run(st, stages, ctx) == st
    ensures st.failure.None? ==>
      st.trace <= Run(st, stages, ctx).trace <= st.trace + Ops(stages, ctx.secondaries, ctx.hook)
    ensures Run(st, stages, ctx).failure.None? ==>
      Run(st, stages, ctx).trace == st.trace + Ops(stages, ctx.secondaries, ctx.hook)
    decreases |stages|
  {
    if stages != [] {
      var next := Step(st, stages[0], ctx);
      RunTrace(next, stages[1..], ctx);
      if st.failure.None? {
        StepTrace(st, stages[0], ctx);
        var mine := StageOps(stages[0], ctx.secondaries, ctx.hook);
        var rest := Ops(stages[1..], ctx.secondaries, ctx.hook);
        assert st.trace + Ops(stages, ctx.secondaries, ctx.hook) == next.trace + rest;
      }
    }
  }

  lemma StepFailure(st: State, stage: Stage, ctx: Context)
    requires st.failure == FirstFailure(st.trace, ctx.replies)
    ensures Step(st, stage, ctx).failure == FirstFailure(Step(st, stage, ctx).trace, ctx.replies)
  {
    if st.failure.None? {
      match stage
      case StartSecondaries => GroupFailure(st, Start, ctx);
      case StartPrimary => SingleFailure(st, Call(Start, Primary), false, ctx);
      case WaitPrimary => SingleFailure(st, Call(Wait, Primary), true, ctx);
      case StopSecondaries => GroupFailure(st, Stop, ctx);
      case RemoveSecondaries => GroupFailure(st, Remove, ctx);
      case PostProcess => if ctx.hook { HookFailure(st, ctx); }
      case RemovePrimary => SingleFailure(st, Call(Remove, Primary), true, ctx);
    }
  }

  lemma GroupFailure(st: State, kind: Kind, ctx: Context)
    requires st.failure == None && FirstFailure(st.trace, ctx.replies) == None
    ensures Group(st, kind, ctx).failure == FirstFailure(Group(st, kind, ctx).trace, ctx.replies)
  {
    var pending := Issue(kind, Some(Targets(ctx.secondaries)));
    IssueOnePerContainer(kind, Some(Targets(ctx.secondaries)), ctx.replies);
    FirstFailureAppend(st.trace, Calls(pending), ctx.replies);
  }

  lemma SingleFailure(st: State, op: Op, merge: bool, ctx: Context)
    requires op != Hook
    requires st.failure == None && FirstFailure(st.trace, ctx.replies) == None
    ensures Single(st, op, merge, ctx).failure == FirstFailure(Single(st, op, merge, ctx).trace, ctx.replies)
  {
    FirstFailureAppend(st.trace, [op], ctx.replies);
    assert [op][..0] == [];
  }

  lemma HookFailure(st: State, ctx: Context)
    requires st.failure == None && FirstFailure(st.trace, ctx.replies) == None
    ensures FirstFailure(st.trace + [Hook], ctx.replies) == None
  {
    FirstFailureAppend(st.trace, [Hook], ctx.replies);
    assert [Hook][..0] == [];
  }

  /** The chain's rejection is the first rejected operation it issued (short-circuit). */
  lemma {:induction false} RunFailure(st: State, stages: seq<Stage>, ctx: Context)
    requires st.failure == FirstFailure(st.trace, ctx.replies)
    ensures Run(st, stages, ctx).failure == FirstFailure(Run(st, stages, ctx).trace, ctx.replies)
    decreases |stages|
  {
    if stages != [] {
      StepFailure(st, stages[0], ctx);
      RunFailure(Step(st, stages[0], ctx), stages[1..], ctx);
    }
  }

  /** No stage alters the artifact record. */
  lemma {:induction false} RunKeepsArtifact(st: State, stages: seq<Stage>, ctx: Context)
    ensures Run(st, stages, ctx).result.artifact == st.result.artifact
    decreases |stages|
  {
    if stages != [] {
      RunKeepsArtifact(Step(st, stages[0], ctx), stages[1..], ctx);
    }
  }

  /** Running the stages from index `k` is one step followed by the stages from `k + 1`. */
  lemma RunAt(st: State, stages: seq<Stage>, k: nat, ctx: Context)
    requires k < |stages|
    ensures Run(st, stages[k..], ctx) == Run(Step(st, stages[k], ctx), stages[k + 1..], ctx)
  {
    assert stages[k..][1..] == stages[k + 1..];
  }

  /** Replies that differ only on the hook. */
  ghost predicate AgreeButHook(r1: Replies, r2: Replies)
  {
    forall op :: op != Hook ==> r1(op) == r2(op)
  }

  lemma {:induction false} AllSettledButHook(ps: seq<Pending>, r1: Replies, r2: Replies)
    requires AgreeButHook(r1, r2)
    requires forall i :: 0 <= i < |ps| ==> ps[i] != Issued(Hook)
    ensures AllSettled(ps, r1) == AllSettled(ps, r2)
  {
    if ps != [] {
      AllSettledButHook(ps[..|ps| - 1], r1, r2);
    }
  }

  lemma {:induction false} RunButHook(st: State, stages: seq<Stage>, c1: Context, c2: Context)
    requires c1.secondaries == c2.secondaries && c1.hook == c2.hook
    requires AgreeButHook(c1.replies, c2.replies)
    ensures Run(st, stages, c1) == Run(st, stages, c2)
    decreases |stages|
  {
    if stages != [] {
      var n := c1.secondaries;
      if st.failure.None? {
        match stages[0]
        case StartSecondaries => AllSettledButHook(Issue(Start, Some(Targets(n))), c1.replies, c2.replies);
        case StopSecondaries => AllSettledButHook(Issue(Stop, Some(Targets(n))), c1.replies, c2.replies);
        case RemoveSecondaries => AllSettledButHook(Issue(Remove, Some(Targets(n))), c1.replies, c2.replies);
        case _ =>
      }
      assert Step(st, stages[0], c1) == Step(st, stages[0], c2);
      RunButHook(Step(st, stages[0], c1), stages[1..], c1, c2);
    }
  }

  // ---------------------------------------------------------------------
  // Order of the operations
  // ---------------------------------------------------------------------

  lemma StageOpsOrdered(stage: Stage, n: nat, hook: bool)
    ensures Ordered(StageOps(stage, n, hook))
    ensures forall i :: 0 <= i < |StageOps(stage, n, hook)| ==>
      Phase(StageOps(stage, n, hook)[i]) == StagePhase(stage)
  {
  }

  lemma {:induction false} OpsOrdered(stages: seq<Stage>, n: nat, hook: bool)
    requires forall i, j :: 0 <= i < j < |stages| ==> StagePhase(stages[i]) < StagePhase(stages[j])
    ensures Ordered(Ops(stages, n, hook))
    ensures stages != [] ==> forall i :: 0 <= i < |Ops(stages, n, hook)| ==>
      StagePhase(stages[0]) <= Phase(Ops(stages, n, hook)[i])
    decreases |stages|
  {
    if stages != [] {
      var rest := stages[1..];
      OpsOrdered(rest, n, hook);
      StageOpsOrdered(stages[0], n, hook);
      var s, t := StageOps(stages[0], n, hook), Ops(rest, n, hook);
      assert Ops(stages, n, hook) == s + t;
      forall j | 0 <= j < |t| ensures StagePhase(stages[0]) < Phase(t[j]) {
        assert StagePhase(stages[0]) < StagePhase(rest[0]);
      }
      forall i, j | 0 <= i < j < |s + t| ensures Before((s + t)[i], (s + t)[j]) {
        if j < |s| {
        } else if i < |s| {
          assert Phase((s + t)[i]) == StagePhase(stages[0]) < Phase(t[j - |s|]);
        } else {
          assert (s + t)[i] == t[i - |s|] && (s + t)[j] == t[j - |s|];
        }
      }
    }
  }

  /**
   * The operation order of a job that is never rejected: all secondary
   * starts, then the primary start, the wait, all secondary stops, all
   * secondary removals, the hook, and the primary removal last; within a
   * group the secondaries go in list order, and no operation repeats.
   */
  lemma FullTraceOrdered(n: nat, hook: bool)
    ensures Ordered(FullTrace(n, hook))
  {
    forall i, j | 0 <= i < j < |Chain| ensures StagePhase(Chain[i]) < StagePhase(Chain[j]) {
      assert forall k :: 0 <= k < |Chain| ==> StagePhase(Chain[k]) == k;
    }
    OpsOrdered(Chain, n, hook);
  }

  // ---------------------------------------------------------------------
  // What a job's chain does
  // ---------------------------------------------------------------------

  lemma PrefixRest<T>(t: seq<T>, u: seq<T>) returns (rest: seq<T>)
    requires t <= u
    ensures u == t + rest
  {
    rest := u[|t|..];
  }

  lemma OrderedPrefix(t: seq<Op>, u: seq<Op>)
    requires t <= u && Ordered(u)
    ensures Ordered(t)
  {
    forall i, j | 0 <= i < j < |t| ensures Before(t[i], t[j]) {
      assert t[i] == u[i] && t[j] == u[j];
    }
  }

  /**
   * Every job issues a prefix of the full operation sequence, so its
   * operations follow the order above; a job that is never rejected issues
   * all of it.
   */
  lemma TraceFollowsOrder(job: Job, dir: string, hook: bool, replies: Replies)
    ensures var st := Execute(job, dir, hook, replies);
      var full := FullTrace(|SecondaryContainers(job.secondary)|, hook);
      st.trace <= full && Ordered(st.trace) &&
      (st.failure.None? ==> st.trace == full)
  {
    var ctx := ContextOf(job, hook, replies);
    FullTraceOrdered(ctx.secondaries, hook);
    RunOrdered(Begin(job, dir), Chain, ctx);
  }

  /** A run from the empty trace issues an ordered prefix of its stages' operations, when those are ordered. */
  lemma RunOrdered(st: State, stages: seq<Stage>, ctx: Context)
    requires st.trace == [] && st.failure.None?
    requires Ordered(Ops(stages, ctx.secondaries, ctx.hook))
    ensures var full := Ops(stages, ctx.secondaries, ctx.hook);
      var t := Run(st, stages, ctx).trace;
      t <= full && Ordered(t) && (Run(st, stages, ctx).failure.None? ==> t == full)
  {
    RunTrace(st, stages, ctx);
    OrderedPrefix(Run(st, stages, ctx).trace, Ops(stages, ctx.secondaries, ctx.hook));
  }

  /**
   * Short-circuit and 404 tolerance: the chain emits `error` exactly when the
   * first rejected operation it issued carries a status code other than
   * 404, and then with that rejection; otherwise it emits `complete` with the
   * result the links that ran gathered: the artifact record and the exit
   * code of the primary removal or, failing that, of the wait, if they ran.
   */
  lemma ErrorIffFirstRejectionNot404(job: Job, dir: string, hook: bool, replies: Replies)
    ensures var st := Execute(job, dir, hook, replies);
      var first := FirstFailure(st.trace, replies);
      var e := Emitted(job, dir, hook, replies);
      var k := Reached(Chain, ContextOf(job, hook, replies));
      (e.Error? <==> first.Some? && first.value.statusCode != Some(404)) &&
      (e.Error? ==> e.failure == first.value) &&
      (e.Complete? ==> e.result == JobResult(ArtifactOf(job, dir), CodeAfter(None, k, replies)))
  {
    var b := Begin(job, dir);
    var ctx := ContextOf(job, hook, replies);
    var st := Run(b, Chain, ctx);
    RunFailure(b, Chain, ctx);
    SettleOf(st, replies);
    RunMerges(b, Chain, ctx);
    AbsorbChainPrefix(b.result, Reached(Chain, ctx), replies);
  }

  /** The event a state settles to, when its rejection is its trace's first. */
  lemma SettleOf(st: State, replies: Replies)
    requires st.failure == FirstFailure(st.trace, replies)
    ensures var first := FirstFailure(st.trace, replies);
      var e := Settle(st);
      (e.Error? <==> first.Some? && first.value.statusCode != Some(404)) &&
      (e.Error? ==> e.failure == first.value) &&
      (e.Complete? ==> e.result == st.result)
  {
  }

  /**
   * A job runs its links a whole link at a time: it issues every operation
   * of each link it reaches (all of a group, even when one of the group's
   * containers rejects) and nothing after the first link holding a
   * rejection, whose rejection the chain then carries.
   */
  lemma JobRunsWholeLinks(job: Job, dir: string, hook: bool, replies: Replies)
    ensures var ctx := ContextOf(job, hook, replies);
      var k := Reached(Chain, ctx);
      var st := Execute(job, dir, hook, replies);
      1 <= k <= |Chain| &&
      st.trace == Ops(Chain[..k], ctx.secondaries, hook) &&
      st.failure == Rejection(Chain[k - 1], ctx) &&
      (forall j :: 0 <= j < k - 1 ==> Rejection(Chain[j], ctx).None?) &&
      (k < |Chain| ==> st.failure.Some?)
  {
    var ctx := ContextOf(job, hook, replies);
    RunReaches(Begin(job, dir), Chain, ctx);
    ReachedStops(Chain, ctx);
    assert [] + Ops(Chain[..Reached(Chain, ctx)], ctx.secondaries, hook) == Ops(Chain[..Reached(Chain, ctx)], ctx.secondaries, hook);
  }

  /**
   * From an unrejected state the chain runs exactly the first
   * `Reached(stages, ctx)` stages, each one whole: it issues all of their
   * operations and carries the rejection of the last of them, if any.
   */
  lemma {:induction false} RunReaches(st: State, stages: seq<Stage>, ctx: Context)
    requires st.failure.None?
    ensures ReachesWhole(st, stages, ctx)
    decreases |stages|
  {
    if stages != [] {
      if Rejection(stages[0], ctx).Some? {
        ReachFirst(st, stages, ctx);
      } else {
        StepRejection(st, stages[0], ctx);
        RunReaches(Step(st, stages[0], ctx), stages[1..], ctx);
        ReachOn(st, stages, ctx);
      }
    }
  }

  /** The run issues the operations of the stages it reaches and carries the last one's rejection. */
  ghost predicate ReachesWhole(st: State, stages: seq<Stage>, ctx: Context)
  {
    var k := Reached(stages, ctx);
    var end := Run(st, stages, ctx);
    end.trace == st.trace + Ops(stages[..k], ctx.secondaries, ctx.hook) &&
    end.failure == (if k == 0 then None else Rejection(stages[k - 1], ctx))
  }

  lemma ReachFirst(st: State, stages: seq<Stage>, ctx: Context)
    requires st.failure.None? && stages != [] && Rejection(stages[0], ctx).Some?
    ensures ReachesWhole(st, stages, ctx)
  {
    var next := Step(st, stages[0], ctx);
    StepTrace(st, stages[0], ctx);
    StepRejection(st, stages[0], ctx);
    RunTrace(next, stages[1..], ctx);
    OpsCons(stages[0], [], ctx.secondaries, ctx.hook);
    assert stages[..1] == [stages[0]] + [];
    assert Ops([], ctx.secondaries, ctx.hook) == [];
  }

  lemma ReachOn(st: State, stages: seq<Stage>, ctx: Context)
    requires st.failure.None? && stages != [] && Rejection(stages[0], ctx).None?
    requires ReachesWhole(Step(st, stages[0], ctx), stages[1..], ctx)
    ensures ReachesWhole(st, stages, ctx)
  {
    var next := Step(st, stages[0], ctx);
    StepTrace(st, stages[0], ctx);
    var rest := stages[1..];
    var k' := Reached(rest, ctx);
    assert stages[..k' + 1] == [stages[0]] + rest[..k'];
    OpsCons(stages[0], rest[..k'], ctx.secondaries, ctx.hook);
    if k' > 0 {
      assert stages[k'] == rest[k' - 1];
    }
  }

  /**
   * The stages reached are those up to the first holding a rejection: every
   * earlier one is free of rejections, and when not all are reached the last
   * one reached holds a rejection.
   */
  lemma {:induction false} ReachedStops(stages: seq<Stage>, ctx: Context)
    ensures var k := Reached(stages, ctx);
      (forall j :: 0 <= j < k - 1 ==> Rejection(stages[j], ctx).None?) &&
      (0 < k < |stages| ==> Rejection(stages[k - 1], ctx).Some?)
    decreases |stages|
  {
    if stages != [] && Rejection(stages[0], ctx).None? {
      var rest := stages[1..];
      ReachedStops(rest, ctx);
      var k' := Reached(rest, ctx);
      forall j | 1 <= j < k' ensures Rejection(stages[j], ctx).None? {
        assert stages[j] == rest[j - 1];
      }
      if k' > 0 {
        assert stages[k'] == rest[k' - 1];
      }
    }
  }

  /** The result of a run from an unrejected state: the merges of the stages it reaches. */
  lemma {:induction false} RunMerges(st: State, stages: seq<Stage>, ctx: Context)
    requires st.failure.None?
    ensures Run(st, stages, ctx).result == Absorb(st.result, stages[..Reached(stages, ctx)], ctx.replies)
    decreases |stages|
  {
    if stages != [] {
      var next := Step(st, stages[0], ctx);
      StepRejection(st, stages[0], ctx);
      StepResult(st, stages[0], ctx);
      if Rejection(stages[0], ctx).Some? {
        RunTrace(next, stages[1..], ctx);
        assert stages[..1] == [stages[0]] && [stages[0]][..0] == [];
      } else {
        var rest := stages[1..];
        RunMerges(next, rest, ctx);
        var k' := Reached(rest, ctx);
        assert stages[..k' + 1] == [stages[0]] + rest[..k'];
        AbsorbCons(st.result, stages[0], rest[..k'], ctx.replies);
      }
    }
  }

  /** A run from an unrejected state that ends unrejected reached every stage. */
  lemma CleanRunReachesAll(st: State, stages: seq<Stage>, ctx: Context)
    requires st.failure.None? && Run(st, stages, ctx).failure.None?
    ensures Reached(stages, ctx) == |stages|
    ensures Run(st, stages, ctx).result == Absorb(st.result, stages, ctx.replies)
  {
    RunReaches(st, stages, ctx);
    ReachedStops(stages, ctx);
    RunMerges(st, stages, ctx);
    assert stages[..|stages|] == stages;
  }

  /** An unrejected link is rejected exactly by the first rejection among its own operations. */
  lemma StepRejection(st: State, stage: Stage, ctx: Context)
    requires st.failure.None?
    ensures Step(st, stage, ctx).failure == Rejection(stage, ctx)
  {
    var n := ctx.secondaries;
    match stage
    case StartSecondaries => GroupRejection(Start, n, ctx.replies);
    case StartPrimary => assert [Call(Start, Primary)][..0] == [];
    case WaitPrimary => assert [Call(Wait, Primary)][..0] == [];
    case StopSecondaries => GroupRejection(Stop, n, ctx.replies);
    case RemoveSecondaries => GroupRejection(Remove, n, ctx.replies);
    case PostProcess => assert [Hook][..0] == [];
    case RemovePrimary => assert [Call(Remove, Primary)][..0] == [];
  }

  lemma GroupRejection(kind: Kind, n: nat, replies: Replies)
    ensures AllSettled(Issue(kind, Some(Targets(n))), replies) == FirstFailure(GroupOps(kind, n), replies)
  {
    IssueOnePerContainer(kind, Some(Targets(n)), replies);
    GroupCalls(kind, n);
  }

  lemma {:induction false} AbsorbCons(r: JobResult, s: Stage, t: seq<Stage>, replies: Replies)
    ensures Absorb(r, [s] + t, replies) == Absorb(Absorbed(r, s, replies), t, replies)
  {
    if t == [] {
      assert [s] + t == [s] && [s][..0] == [];
    } else {
      var init := t[..|t| - 1];
      AbsorbCons(r, s, init, replies);
      assert ([s] + t)[..|[s] + t| - 1] == [s] + init;
    }
  }

  /** What the first `k` links of the chain merge into a result: the exit code `CodeAfter` names. */
  lemma {:induction false} AbsorbChainPrefix(r: JobResult, k: nat, replies: Replies)
    requires k <= |Chain|
    ensures Absorb(r, Chain[..k], replies) == r.(exitCode := CodeAfter(r.exitCode, k, replies))
  {
    if k > 0 {
      AbsorbChainPrefix(r, k - 1, replies);
      assert Chain[..k][..k - 1] == Chain[..k - 1];
      if k == 3 {
        assert Chain[2] == WaitPrimary;
      } else if k == 7 {
        assert Chain[6] == RemovePrimary;
      } else {
        assert StagePhase(Chain[k - 1]) == k - 1;
      }
    }
  }

  /** Running two runs of stages one after the other is running them joined. */
  lemma {:induction false} RunAppend(st: State, a: seq<Stage>, b: seq<Stage>, ctx: Context)
    ensures Run(st, a + b, ctx) == Run(Run(st, a, ctx), b, ctx)
    decreases |a|
  {
    if a == [] {
      assert a + b == b;
    } else {
      RunAppend(Step(st, a[0], ctx), a[1..], b, ctx);
      assert (a + b)[0] == a[0] && (a + b)[1..] == a[1..] + b;
    }
  }

  /** The state of a job's chain when it reaches its post-process link. */
  function BeforeHook(job: Job, dir: string, hook: bool, replies: Replies): State
  {
    Run(Begin(job, dir), Chain[..5], ContextOf(job, hook, replies))
  }

  /**
   * `postProcess(result, …)`: the chain goes on from the state its first
   * five links leave, and when none of them was rejected the result handed
   * to the hook is the artifact record with the wait's exit code.
   */
  lemma HookSeesWaitResult(job: Job, dir: string, hook: bool, replies: Replies)
    ensures var before := BeforeHook(job, dir, hook, replies);
      Chain[5] == PostProcess &&
      Execute(job, dir, hook, replies) == Run(before, Chain[5..], ContextOf(job, hook, replies)) &&
      (before.failure.None? ==>
        before.result == JobResult(ArtifactOf(job, dir), Code(replies(Call(Wait, Primary)))))
  {
    var ctx := ContextOf(job, hook, replies);
    var b := Begin(job, dir);
    RunAppend(b, Chain[..5], Chain[5..], ctx);
    assert Chain[..5] + Chain[5..] == Chain;
    if BeforeHook(job, dir, hook, replies).failure.None? {
      CleanRunReachesAll(b, Chain[..5], ctx);
      AbsorbChainPrefix(b.result, 5, replies);
    }
  }

  /** The hook's own success or failure never changes what the chain does or emits. */
  lemma HookOutcomeIgnored(job: Job, dir: string, hook: bool, r1: Replies, r2: Replies)
    requires AgreeButHook(r1, r2)
    ensures Execute(job, dir, hook, r1) == Execute(job, dir, hook, r2)
    ensures Emitted(job, dir, hook, r1) == Emitted(job, dir, hook, r2)
  {
    RunButHook(Begin(job, dir), Chain, ContextOf(job, hook, r1), ContextOf(job, hook, r2));
  }

  lemma {:induction false} FirstFailureNone(ops: seq<Op>, replies: Replies, i: nat)
    requires FirstFailure(ops, replies) == None
    requires i < |ops| && ops[i] != Hook
    ensures replies(ops[i]).Resolved?
  {
    if i < |ops| - 1 {
      FirstFailureNone(ops[..|ops| - 1], replies, i);
    }
  }

  /**
   * A job none of whose operations is rejected issues every operation and
   * completes with its artifact record and the wait's exit code, unless the
   * primary removal's value carries an exit code of its own.
   */
  lemma CleanRunCompletes(job: Job, dir: string, hook: bool, replies: Replies)
    requires FirstFailure(FullTrace(|SecondaryContainers(job.secondary)|, hook), replies) == None
    ensures Execute(job, dir, hook, replies).trace == FullTrace(|SecondaryContainers(job.secondary)|, hook)
    ensures replies(Call(Wait, Primary)).Resolved? && replies(Call(Remove, Primary)).Resolved?
    ensures var waited := replies(Call(Wait, Primary)).data.exitCode;
      var removed := replies(Call(Remove, Primary)).data.exitCode;
      Emitted(job, dir, hook, replies) ==
        Complete(JobResult(ArtifactOf(job, dir), if removed.Some? then removed else waited))
  {
    var b := Begin(job, dir);
    var ctx := ContextOf(job, hook, replies);
    var st := Run(b, Chain, ctx);
    CleanRunIssuesAll(job, dir, hook, replies);
    FullTraceHasPrimaryOps(ctx.secondaries, hook, replies);
    CleanRunReachesAll(b, Chain, ctx);
    AbsorbChainPrefix(b.result, |Chain|, replies);
    assert Chain[..|Chain|] == Chain;
    CleanEvent(st, b.result, replies);
  }

  /** The event of an unrejected state that went through the whole chain's merges. */
  lemma CleanEvent(st: State, r: JobResult, replies: Replies)
    requires r.exitCode == None && st.failure == None
    requires st.result == r.(exitCode := CodeAfter(r.exitCode, |Chain|, replies))
    requires replies(Call(Wait, Primary)).Resolved? && replies(Call(Remove, Primary)).Resolved?
    ensures var waited := replies(Call(Wait, Primary)).data.exitCode;
      var removed := replies(Call(Remove, Primary)).data.exitCode;
      Settle(st) == Complete(JobResult(r.artifact, if removed.Some? then removed else waited))
  {
  }

  /**
   * What one link does to the result: only the wait and the primary removal
   * merge a value in, and only when they run; a link that ends unrejected
   * started unrejected.
   */
  lemma StepResult(st: State, stage: Stage, ctx: Context)
    ensures Step(st, stage, ctx).failure.None? ==> st.failure.None?
    ensures Step(st, stage, ctx).result ==
      if st.failure.Some? then st.result else Absorbed(st.result, stage, ctx.replies)
  {
  }

  lemma CleanRunIssuesAll(job: Job, dir: string, hook: bool, replies: Replies)
    requires FirstFailure(FullTrace(|SecondaryContainers(job.secondary)|, hook), replies) == None
    ensures Execute(job, dir, hook, replies).failure == None
    ensures Execute(job, dir, hook, replies).trace == FullTrace(|SecondaryContainers(job.secondary)|, hook)
  {
    var b := Begin(job, dir);
    var ctx := ContextOf(job, hook, replies);
    var full := Ops(Chain, ctx.secondaries, hook);
    var st := Run(b, Chain, ctx);
    RunTrace(b, Chain, ctx);
    RunFailure(b, Chain, ctx);
    var tail := PrefixRest(st.trace, full);
    FirstFailureAppend(st.trace, tail, replies);
  }

  /** In a trace with no rejection, the wait and the primary removal resolved. */
  lemma FullTraceHasPrimaryOps(n: nat, hook: bool, replies: Replies)
    requires FirstFailure(FullTrace(n, hook), replies) == None
    ensures replies(Call(Wait, Primary)).Resolved? && replies(Call(Remove, Primary)).Resolved?
  {
    var full := FullTrace(n, hook);
    var g := GroupOps(Start, n);
    var tail := GroupOps(Stop, n) + (GroupOps(Remove, n) + ((if hook then [Hook] else []) + [Call(Remove, Primary)]));
    OpsOfChain(n, hook);
    assert full == g + ([Call(Start, Primary)] + ([Call(Wait, Primary)] + tail));
    assert full[|g| + 1] == Call(Wait, Primary);
    assert full[|full| - 1] == Call(Remove, Primary);
    FirstFailureNone(full, replies, |g| + 1);
    FirstFailureNone(full, replies, |full| - 1);
  }

  lemma OpsCons(stage: Stage, rest: seq<Stage>, n: nat, hook: bool)
    ensures Ops([stage] + rest, n, hook) == StageOps(stage, n, hook) + Ops(rest, n, hook)
  {
    assert ([stage] + rest)[1..] == rest;
  }

  /** The full trace, group by group. */
  lemma OpsOfChain(n: nat, hook: bool)
    ensures FullTrace(n, hook) ==
      GroupOps(Start, n) + ([Call(Start, Primary)] + ([Call(Wait, Primary)] + (GroupOps(Stop, n) +
      (GroupOps(Remove, n) + ((if hook then [Hook] else []) + [Call(Remove, Primary)])))))
  {
    var r6: seq<Stage> := [RemovePrimary];
    var r5 := [PostProcess] + r6;
    var r4 := [RemoveSecondaries] + r5;
    var r3 := [StopSecondaries] + r4;
    var r2 := [WaitPrimary] + r3;
    var r1 := [StartPrimary] + r2;
    assert Chain == [StartSecondaries] + r1;
    OpsCons(RemovePrimary, [], n, hook);
    assert [RemovePrimary] + [] == r6;
    assert Ops([], n, hook) == [];
    assert [Call(Remove, Primary)] + [] == [Call(Remove, Primary)];
    OpsCons(PostProcess, r6, n, hook);
    OpsCons(RemoveSecondaries, r5, n, hook);
    OpsCons(StopSecondaries, r4, n, hook);
    OpsCons(WaitPrimary, r3, n, hook);
    OpsCons(StartPrimary, r2, n, hook);
    OpsCons(StartSecondaries, r1, n, hook);
  }
}
