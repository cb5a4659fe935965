/**
 * The state machine the state-machine construct builds: a callback task that queues a message
 * carrying the task token and waits for a worker to hand the token back, then one of three Pass
 * states without a successor.
 *
 *   SendSQSMessageAndWaitForToken -> Success
 *     catch States.Timeout    -> Timeout
 *     catch States.TaskFailed -> Failure
 *
 * Catchers are tried in declaration order. In the Amazon States Language, `States.TaskFailed`
 * in a catcher matches every error name except `States.Timeout` (and `States.Runtime`, which no
 * catcher matches). What the worker does is a parameter: the signals it sends, each with the
 * seconds elapsed since the task started or since the previous signal.
 */
module CallbackWorkflow {
  import opened Wrappers
  import opened Json
  import opened Types

  datatype StateName = SendSqsMessageAndWaitForToken | Success | Timeout | Failure

  /** `Duration.minutes(5).toSeconds()`. */
  const HeartbeatSeconds: nat := 5 * 60

  const MessageTitle := "Task started by Step Functions"

  const TimeoutError := "States.Timeout"
  const TaskFailedError := "States.TaskFailed"
  const RuntimeErrorName := "States.Runtime"
  const ResultPathMatchFailureError := "States.ResultPathMatchFailure"

  /** The task's Parameters once `taskToken.$` is resolved against the context object. */
  function SendParameters(queueUrl: string, taskToken: string): Json
  {
    Obj(map[
      "QueueUrl" := Str(queueUrl),
      "MessageBody" := Obj(map["messageTitle" := Str(MessageTitle), "taskToken" := Str(taskToken)])])
  }

  /** One catcher: the error names it lists and the state it routes to. */
  datatype Catcher = Catcher(errorEquals: seq<string>, next: StateName)

  /** The two `addCatch` calls, in order. */
  const Catchers: seq<Catcher> := [Catcher([TimeoutError], Timeout), Catcher([TaskFailedError], Failure)]

  /** Whether an error called `name` is caught by a catcher listing `errorEquals`. */
  predicate Matches(errorEquals: seq<string>, name: string)
  {
    name != RuntimeErrorName &&
    (name in errorEquals || (TaskFailedError in errorEquals && name != TimeoutError))
  }

  /** The state the first matching catcher routes to, if any. */
  function CatchTarget(catchers: seq<Catcher>, name: string): (r: Option<StateName>)
    ensures r.Some? ==> exists i :: (0 <= i < |catchers| && Matches(catchers[i].errorEquals, name) &&
              catchers[i].next == r.value && forall j :: 0 <= j < i ==> !Matches(catchers[j].errorEquals, name))
    ensures r.None? <==> forall i :: 0 <= i < |catchers| ==> !Matches(catchers[i].errorEquals, name)
  {
    if catchers == [] then None
    else if Matches(catchers[0].errorEquals, name) then Some(catchers[0].next)
    else match CatchTarget(catchers[1..], name)
      case None => None
      case Some(s) =>
        assert forall j :: 1 <= j < |catchers| ==> catchers[1..][j - 1] == catchers[j];
        Some(s)
  }

  /** What a worker sends back about the task token. */
  datatype SignalKind =
    | Heartbeat
    | TaskSuccess(output: Json)
    | TaskFailure(error: string, cause: string)

  /** A signal and the seconds since the task started or since the previous signal. */
  datatype Signal = Signal(gap: nat, kind: SignalKind)

  /** How the waiting task ends. */
  datatype TaskEvent = Completed(output: Json) | Errored(error: string, cause: string) | TimedOut

  /**
   * Signal `i` is the worker's answer and arrives in time: it is the first signal that is not a
   * heartbeat, and neither it nor any signal before it comes more than `HeartbeatSeconds` after
   * the one before.
   */
  ghost predicate AnsweredAt(signals: seq<Signal>, i: nat)
  {
    i < |signals| && !signals[i].kind.Heartbeat? &&
    forall j :: 0 <= j <= i ==> signals[j].gap <= HeartbeatSeconds && (j < i ==> signals[j].kind.Heartbeat?)
  }

  /** Dropping a timely heartbeat at the front shifts the answer's position by one. */
  lemma AnsweredAfterHeartbeat(signals: seq<Signal>)
    requires signals != [] && signals[0].kind.Heartbeat? && signals[0].gap <= HeartbeatSeconds
    ensures !AnsweredAt(signals, 0)
    ensures forall i: nat :: 1 <= i ==> (AnsweredAt(signals, i) <==> AnsweredAt(signals[1..], i - 1))
  {
    forall i: nat | 1 <= i
      ensures AnsweredAt(signals, i) <==> AnsweredAt(signals[1..], i - 1)
    {
      if i < |signals| {
        assert forall j :: 1 <= j <= i ==> signals[1..][j - 1] == signals[j];
      }
    }
  }

  /**
   * The task ends at the first success or failure signal, unless before it more than
   * `HeartbeatSeconds` pass without a signal; a worker that goes quiet for good times out too.
   */
  function Resolve(signals: seq<Signal>): (r: TaskEvent)
    ensures r == TimedOut <==> !exists i: nat :: AnsweredAt(signals, i)
    ensures forall i: nat :: AnsweredAt(signals, i) ==>
              match signals[i].kind
              case TaskSuccess(output) => r == Completed(output)
              case TaskFailure(error, cause) => r == Errored(error, cause)
              case Heartbeat => false
    ensures (forall j :: 0 <= j < |signals| ==> signals[j].kind.Heartbeat?) ==> r == TimedOut
    ensures (exists i :: 0 <= i < |signals| && signals[i].gap > HeartbeatSeconds &&
               forall j :: 0 <= j < i ==> signals[j].kind.Heartbeat?) ==> r == TimedOut
    ensures r.Completed? ==> exists i :: (0 <= i < |signals| && signals[i].kind == TaskSuccess(r.output) &&
              forall j :: 0 <= j <= i ==> signals[j].gap <= HeartbeatSeconds && (j < i ==> signals[j].kind.Heartbeat?))
    ensures r.Errored? ==> exists i :: (0 <= i < |signals| && signals[i].kind == TaskFailure(r.error, r.cause) &&
              forall j :: 0 <= j <= i ==> signals[j].gap <= HeartbeatSeconds && (j < i ==> signals[j].kind.Heartbeat?))
  {
    if signals == [] then TimedOut
    else if signals[0].gap > HeartbeatSeconds then TimedOut
    else match signals[0].kind
      case TaskSuccess(output) => assert AnsweredAt(signals, 0); Completed(output)
      case TaskFailure(error, cause) => assert AnsweredAt(signals, 0); Errored(error, cause)
      case Heartbeat =>
        var r := Resolve(signals[1..]);
        assert forall j :: 1 <= j < |signals| ==> signals[1..][j - 1] == signals[j];
        AnsweredAfterHeartbeat(signals);
        assert forall i: nat :: AnsweredAt(signals[1..], i) ==> AnsweredAt(signals, i + 1);
        r
  }

  /** Everything the run depends on besides its input: where the message goes, and what the worker does with it. */
  datatype Context = Context(queueUrl: string, taskToken: string, worker: Json -> seq<Signal>)

  /** The output a catcher passes on: the error output replaces the state's input. */
  function ErrorOutput(error: string, cause: string): Json
  {
    Obj(map["Error" := Str(error), "Cause" := Str(cause)])
  }

  datatype StepResult = Next(state: StateName, output: Json) | End(output: Json) | Fault(error: string, cause: string)

  /** An error is routed by the catchers, or fails the run. */
  function Recover(error: string, cause: string): (r: StepResult)
    ensures r.Next? ==> r.state in {Timeout, Failure}
    ensures r.Fault? ==> error == RuntimeErrorName
  {
    match CatchTarget(Catchers, error)
    case Some(target) => Next(target, ErrorOutput(error, cause))
    case None =>
      assert !Matches(Catchers[1].errorEquals, error);
      Fault(error, cause)
  }

  /** The callback task leads to one of the Pass states, which end the run. */
  function Rank(st: StateName): nat
  {
    if st == SendSqsMessageAndWaitForToken then 1 else 0
  }

  /** Run one state. */
  function Step(ctx: Context, st: StateName, input: Json): (r: StepResult)
    ensures r.Next? ==> Rank(r.state) < Rank(st)
    ensures st != SendSqsMessageAndWaitForToken ==> r == End(input)
    ensures st == SendSqsMessageAndWaitForToken ==> !r.End?
    ensures r.Fault? ==> r.error == RuntimeErrorName
  {
    match st
    case SendSqsMessageAndWaitForToken => (
      match Resolve(ctx.worker(SendParameters(ctx.queueUrl, ctx.taskToken)))
      case Completed(output) =>
        (match SetField(input, "SQS", output)
         case Some(doc) => Next(Success, doc)
         case None => Recover(ResultPathMatchFailureError, ""))
      case Errored(error, cause) => Recover(error, cause)
      case TimedOut => Recover(TimeoutError, ""))
    case Success => End(input)
    case Timeout => End(input)
    case Failure => End(input)
  }

  /** The execution ends in a state with its output, or fails with an error and a cause. */
  datatype Outcome = Succeeded(finalState: StateName, output: Json) | Failed(error: string, cause: string)

  /** Run from `st` until a state ends the run or fails. */
  function RunFrom(ctx: Context, st: StateName, input: Json): (r: Outcome)
    decreases Rank(st)
  {
    match Step(ctx, st, input)
    case Next(next, doc) => RunFrom(ctx, next, doc)
    case End(output) => Succeeded(st, output)
    case Fault(error, cause) => Failed(error, cause)
  }

  /** A whole execution, started at the callback task. */
  function Run(ctx: Context, input: Json): (r: Outcome)
    ensures r.Succeeded? ==> r.finalState in {Success, Timeout, Failure}
    ensures r.Failed? ==> r.error == RuntimeErrorName
  {
    RunFrom(ctx, SendSqsMessageAndWaitForToken, input)
  }

  /** The worker's event for a run. */
  function Event(ctx: Context): TaskEvent
  {
    Resolve(ctx.worker(SendParameters(ctx.queueUrl, ctx.taskToken)))
  }

  /** The queued message names the queue and carries the title and the token. */
  lemma QueuedMessage(queueUrl: string, taskToken: string)
    ensures Get(SendParameters(queueUrl, taskToken), [Field("QueueUrl")]) == Some(Str(queueUrl))
    ensures Get(SendParameters(queueUrl, taskToken), [Field("MessageBody"), Field("messageTitle")]) ==
              Some(Str("Task started by Step Functions"))
    ensures Get(SendParameters(queueUrl, taskToken), [Field("MessageBody"), Field("taskToken")]) == Some(Str(taskToken))
  {
    var body := Obj(map["messageTitle" := Str(MessageTitle), "taskToken" := Str(taskToken)]);
    assert Get(SendParameters(queueUrl, taskToken), [Field("MessageBody")]) == Some(body);
    assert [Field("MessageBody"), Field("messageTitle")][1..] == [Field("messageTitle")];
    assert [Field("MessageBody"), Field("taskToken")][1..] == [Field("taskToken")];
  }

  /** States.Timeout goes to Timeout; every other catchable error, States.TaskFailed included, goes to Failure. */
  lemma CatcherRouting(name: string)
    ensures CatchTarget(Catchers, TimeoutError) == Some(Timeout)
    ensures CatchTarget(Catchers, TaskFailedError) == Some(Failure)
    ensures name != TimeoutError && name != RuntimeErrorName ==> CatchTarget(Catchers, name) == Some(Failure)
    ensures CatchTarget(Catchers, RuntimeErrorName) == None
  {
  }

  /** A success signal stores the worker's output at `$.SQS`, keeps every other field, and ends in Success. */
  lemma SuccessStoresOutput(ctx: Context, input: Json, output: Json)
    requires Event(ctx) == Completed(output) && input.Obj?
    ensures Run(ctx, input).Succeeded? && Run(ctx, input).finalState == Success
    ensures Get(Run(ctx, input).output, [Field("SQS")]) == Some(output)
    ensures forall k :: k != "SQS" ==> Get(Run(ctx, input).output, [Field(k)]) == Get(input, [Field(k)])
  {
  }

  /** A missed heartbeat ends in Timeout with the error as output. */
  lemma TimeoutRoutesToTimeout(ctx: Context, input: Json)
    requires Event(ctx) == TimedOut
    ensures Run(ctx, input) == Succeeded(Timeout, ErrorOutput("States.Timeout", ""))
  {
    CatcherRouting(TimeoutError);
  }

  /** A failure signal ends in Failure, or in Timeout when the worker names States.Timeout itself. */
  lemma FailureRoutesToFailure(ctx: Context, input: Json, error: string, cause: string)
    requires Event(ctx) == Errored(error, cause)
    ensures error == TimeoutError ==> Run(ctx, input) == Succeeded(Timeout, ErrorOutput(error, cause))
    ensures error != TimeoutError && error != RuntimeErrorName ==>
              Run(ctx, input) == Succeeded(Failure, ErrorOutput(error, cause))
  {
    CatcherRouting(error);
  }

  /** A worker silent for more than five minutes before its answer times the task out, whatever it says later. */
  lemma LateAnswerTimesOut(ctx: Context, input: Json, k: SignalKind)
    requires ctx.worker(SendParameters(ctx.queueUrl, ctx.taskToken)) == [Signal(HeartbeatSeconds + 1, k)]
    ensures Run(ctx, input) == Succeeded(Timeout, ErrorOutput("States.Timeout", ""))
  {
    var s := [Signal(HeartbeatSeconds + 1, k)];
    assert s[0].gap > HeartbeatSeconds;
    TimeoutRoutesToTimeout(ctx, input);
  }

  /** Every error but States.Runtime is caught, and its output is the error record. */
  lemma RecoverCatches(error: string, cause: string)
    requires error != RuntimeErrorName
    ensures Recover(error, cause).Next?
    ensures Recover(error, cause).output == ErrorOutput(error, cause)
  {
    CatcherRouting(error);
  }

  /**
   * No run fails: every way the task can end (success, a failure signal, a missed heartbeat,
   * a ResultPath that cannot be applied) leads to one of the three Pass states. The one
   * exception is a worker that reports the reserved name States.Runtime, which no catcher matches.
   */
  lemma NeverFails(ctx: Context, input: Json)
    requires !(Event(ctx).Errored? && Event(ctx).error == RuntimeErrorName)
    ensures Run(ctx, input).Succeeded?
    ensures Run(ctx, input).finalState in {Success, Timeout, Failure}
  {
    match Event(ctx)
    case Completed(output) => RecoverCatches(ResultPathMatchFailureError, "");
    case Errored(error, cause) => RecoverCatches(error, cause);
    case TimedOut => RecoverCatches(TimeoutError, "");
  }

  /** The queue the construct is given. */
  datatype Queue = Queue(queueUrl: string, queueArn: string)

  /**
   * The state machine resource: its definition is the chain above, sending to `queueUrl`, and
   * its role may send messages to the queue `sendMessageArn`.
   */
  datatype StateMachine = StateMachine(queueUrl: string, sendMessageArn: string)

  /** The EventBridge rule that starts the state machine on the environment's cron schedule. */
  datatype SchedulerRule = SchedulerRule(schedule: CronOptions, target: StateMachine, rolePrincipal: string)

  const EventsPrincipal := "events.amazonaws.com"

  const MissingScheduleMessage := "Cannot add scheduler due to missing environment.scheduleOptions"

  class StateMachineConstruct {
    var environment: Environment
    var stateMachine: StateMachine
    var scheduler: Option<SchedulerRule>

    /** Builds the state machine for `queue`, and a scheduler exactly when the environment has a schedule. */
    constructor (environment: Environment, queue: Queue)
      ensures this.environment == environment
      ensures stateMachine == StateMachine(queue.queueUrl, queue.queueArn)
      ensures scheduler.Some? <==> environment.scheduleOptions.Some?
      ensures scheduler.Some? ==>
                scheduler.value == SchedulerRule(environment.scheduleOptions.value, stateMachine, EventsPrincipal)
    {
      this.environment := environment;
      stateMachine := StateMachine(queue.queueUrl, queue.queueArn);
      scheduler := None;
      new;
      if environment.scheduleOptions.Some? {
        var added := AddScheduler();
      }
    }

    /** Adds the schedule rule, or refuses when the environment has no schedule. */
    method AddScheduler() returns (r: Result<(), string>)
      modifies this
      ensures environment == old(environment) && stateMachine == old(stateMachine)
      ensures environment.scheduleOptions.None? ==> r == Err(MissingScheduleMessage) && scheduler == old(scheduler)
      ensures environment.scheduleOptions.Some? ==>
                r.Ok? && scheduler == Some(SchedulerRule(environment.scheduleOptions.value, stateMachine, EventsPrincipal))
    {
      if environment.scheduleOptions.None? {
        return Err(MissingScheduleMessage);
      }
      scheduler := Some(SchedulerRule(environment.scheduleOptions.value, stateMachine, EventsPrincipal));
      return Ok(());
    }
  }
}
