/**
 The container entry point of cloud_wrapper.py: it reads its whole
 configuration from the process environment and either pulls one task from
 the queue or does nothing. A second branch meant to queue tasks tests the
 same command name as the first, so it is never taken.

 The environment is a map from variable names to values. As in cli.py, the
 queue is not an object: each operation returns what it did to the queue and
 to the transform, in order, and what it raised.
 */
module CloudWrapper {

  import opened Tasks
  import Decimal
  import QueuePull

  /** Body of a message whose dataset has no local file URI. */
  const NoLocalUriBody: string := "local_uri is None"

  /** The only command `run_command` acts on. */
  const PullCommand: string := "pull_from_queue"

  /** The text read for the visibility timeout when SQS_TIMEOUT_SEC is unset. */
  const DefaultTimeoutText: string := "500"

  /** The text read for MAKE_PUBLIC when it is unset. */
  const DefaultMakePublicText: string := "False"

  type Env = map<string, string>

  // ---------------------------------------------------------------------------
  // add_to_queue: one send_message per task

  /** The body of a queued message: the dataset's local file URI, or the
      placeholder when it has none. */
  function LocalBody(d: Dataset): (body: string)
    ensures d.localUri.Some? ==> body == d.localUri.value
    ensures d.localUri.None? ==> body == NoLocalUriBody
  {
    match d.localUri
    case Some(u) => u
    case None => NoLocalUriBody
  }

  /** The `send_message` call for one task: its body and, as the binary
      attribute, the pickled task. */
  function SendFor(task: Task): (sent: Effect)
    ensures sent.SendMessage? && sent.pickledTask == task
    ensures sent.body == LocalBody(task.dataset)
  {
    SendMessage(LocalBody(task.dataset), task)
  }

  /** `add_to_queue`: sends one message per task, in the order the task
      generator produced them; nothing here raises. */
  method AddToQueue(tasks: seq<Task>) returns (effects: seq<Effect>)
    ensures |effects| == |tasks|
    ensures forall k :: 0 <= k < |tasks| ==> effects[k] == SendFor(tasks[k])
  {
    effects := [];
    for i := 0 to |tasks|
      invariant |effects| == i
      invariant forall k :: 0 <= k < i ==> effects[k] == SendFor(tasks[k])
    {
      effects := effects + [SendFor(tasks[i])];
    }
  }

  /** The message the queue delivers for a `send_message` call: the body
      and the binary attribute as they were sent, under a receipt handle the
      queue chooses. */
  function Delivered(sent: Effect, receiptHandle: nat): (m: QueueMessage)
    requires sent.SendMessage?
  {
    QueueMessage(receiptHandle, sent.body, map[PickledTaskKey := sent.pickledTask])
  }

  /** A queued task comes back as it was sent: the delivered message carries
      the pickled task under the key the pull reads, and unpickling gives the
      task that was queued. */
  lemma DeliveredCarriesTask(task: Task, receiptHandle: nat)
    ensures var m := Delivered(SendFor(task), receiptHandle);
            && PickledTaskKey in m.attributes
            && m.attributes[PickledTaskKey] == task
  {
  }

  // ---------------------------------------------------------------------------
  // pull_from_queue

  /** `pull_from_queue`: the pull-execute-delete step with the given
      visibility timeout, passing `makePublic` on to the upload helper. */
  method PullFromQueue(received: seq<QueueMessage>, sqsTimeout: Option<int>, makePublic: bool,
                       localize: string -> string, executeOk: Task -> bool, uploadOk: string -> bool)
    returns (effects: seq<Effect>, outcome: Result<()>)
    ensures QueuePull.PullDoes(received, sqsTimeout, Some(makePublic), localize, executeOk, uploadOk,
                               effects, outcome)
    ensures forall k :: 1 <= k < |effects| ==> !effects[k].Receive?
    ensures forall k :: 0 <= k < |effects| && effects[k].Upload? ==> effects[k].makePublic == Some(makePublic)
    ensures QueuePull.DeletesOnlyAfterWork(effects)
    ensures QueuePull.Deletes(effects) <==> received != [] && outcome == Ok(())
  {
    effects, outcome := QueuePull.PullOne(received, sqsTimeout, Some(makePublic), localize, executeOk, uploadOk);
    QueuePull.PullDoesSafely(received, sqsTimeout, Some(makePublic), localize, executeOk, uploadOk, effects, outcome);
  }

  // ---------------------------------------------------------------------------
  // run_command: configuration from the environment

  /** `os.getenv(key)`. */
  function Getenv(env: Env, key: string): (value: Option<string>)
    ensures value.Some? <==> key in env
    ensures key in env ==> value == Some(env[key])
  {
    if key in env then Some(env[key]) else None
  }

  /** `os.getenv(key, default)`. */
  function GetenvOr(env: Env, key: string, default: string): (value: string)
    ensures key !in env ==> value == default
    ensures key in env ==> value == env[key]
  {
    if key in env then env[key] else default
  }

  /** `value in ['true', 'True']`. */
  predicate IsTrueFlag(value: string) {
    value == "true" || value == "True"
  }

  /** What `run_command` decides to do. */
  datatype Action =
    | Pull(queue: Option<string>, timeout: int, makePublic: bool)
    | Add(configFile: string, queue: Option<string>, expressions: string)
    | Idle

  /** The decision `run_command` takes from the environment, including the
      ValueError that `int()` raises on a visibility timeout that is not a
      number. Both branches test the same command, as the code does, so the
      queueing branch is never taken, and any other command, or none, does
      nothing. */
  function Dispatch(env: Env): (r: Result<Action>)
    ensures r.Err? ==> Getenv(env, "COMMAND") == Some(PullCommand) && r.error == ValueError
    ensures r.Ok? && r.value.Pull? ==> r.value.queue == Getenv(env, "SQS_QUEUE")
    ensures !(r.Ok? && r.value.Add?)
    ensures Getenv(env, "COMMAND") != Some(PullCommand) ==> r == Ok(Idle)
    ensures Getenv(env, "COMMAND") == Some(PullCommand)
            && Decimal.ParseInt(GetenvOr(env, "SQS_TIMEOUT_SEC", DefaultTimeoutText)).Ok? ==>
              r == Ok(Pull(Getenv(env, "SQS_QUEUE"),
                           Decimal.ParseInt(GetenvOr(env, "SQS_TIMEOUT_SEC", DefaultTimeoutText)).value,
                           IsTrueFlag(GetenvOr(env, "MAKE_PUBLIC", DefaultMakePublicText))))
  {
    var queue := Getenv(env, "SQS_QUEUE");
    var command := Getenv(env, "COMMAND");
    if command == Some(PullCommand) then
      match Decimal.ParseInt(GetenvOr(env, "SQS_TIMEOUT_SEC", DefaultTimeoutText))
      case Err(e) => Err(e)
      case Ok(timeout) => Ok(Pull(queue, timeout, IsTrueFlag(GetenvOr(env, "MAKE_PUBLIC", DefaultMakePublicText))))
    else if command == Some(PullCommand) then
      Ok(Add("", queue, GetenvOr(env, "EXPRESSIONS", "")))
    else
      Ok(Idle)
  }

  /** The pull command with nothing else set pulls from the configured queue
      with a 500-second visibility timeout and keeps the output private. */
  lemma DispatchDefaults(env: Env)
    requires Getenv(env, "COMMAND") == Some(PullCommand)
    requires "SQS_TIMEOUT_SEC" !in env && "MAKE_PUBLIC" !in env
    ensures Dispatch(env) == Ok(Pull(Getenv(env, "SQS_QUEUE"), 500, false))
  {
    DefaultTimeoutIs500();
    assert GetenvOr(env, "SQS_TIMEOUT_SEC", DefaultTimeoutText) == DefaultTimeoutText;
    assert !IsTrueFlag(GetenvOr(env, "MAKE_PUBLIC", DefaultMakePublicText));
  }

  /** The default timeout text is `str(500)`, so `int()` reads it as 500. */
  lemma DefaultTimeoutIs500()
    ensures Decimal.ParseInt(DefaultTimeoutText) == Ok(500)
  {
    assert Decimal.DigitChar(5) == '5' && Decimal.DigitChar(0) == '0';
    assert Decimal.NatToString(5) == ['5'];
    assert Decimal.NatToString(50) == Decimal.NatToString(5) + ['0'];
    assert Decimal.NatToString(500) == Decimal.NatToString(50) + ['0'];
    assert Decimal.IntToString(500) == DefaultTimeoutText;
    Decimal.IntToStringRoundTrip(500);
  }

  /** A timeout written as `str(t)` is read back as `t`, negative or not. */
  lemma DispatchTimeout(env: Env, t: int)
    requires Getenv(env, "COMMAND") == Some(PullCommand)
    requires Getenv(env, "SQS_TIMEOUT_SEC") == Some(Decimal.IntToString(t))
    ensures Dispatch(env).Ok? && Dispatch(env).value.Pull? && Dispatch(env).value.timeout == t
  {
    Decimal.IntToStringRoundTrip(t);
  }

  /** The output is made public exactly when MAKE_PUBLIC is set to `true` or `True`. */
  lemma DispatchMakePublic(env: Env)
    ensures Dispatch(env).Ok? && Dispatch(env).value.Pull? ==>
              (Dispatch(env).value.makePublic <==> "MAKE_PUBLIC" in env && IsTrueFlag(env["MAKE_PUBLIC"]))
  {
  }

  /** `run_command` raises exactly when the command is the pull command and
      the timeout text is not a number `int()` accepts. */
  lemma DispatchErrors(env: Env)
    ensures Dispatch(env).Err? <==>
              Getenv(env, "COMMAND") == Some(PullCommand)
              && Decimal.ParseInt(GetenvOr(env, "SQS_TIMEOUT_SEC", DefaultTimeoutText)).Err?
  {
  }

  /** `run_command`: acts on the decision. `received` is what the queue
      returns to the pull, `tasks` what the task generator would produce for
      the queueing branch. */
  method RunCommand(env: Env, received: seq<QueueMessage>, tasks: seq<Task>,
                    localize: string -> string, executeOk: Task -> bool, uploadOk: string -> bool)
    returns (effects: seq<Effect>, outcome: Result<()>)
    ensures Dispatch(env).Err? ==> effects == [] && outcome == Err(ValueError)
    ensures Dispatch(env) == Ok(Idle) ==> effects == [] && outcome == Ok(())
    ensures Dispatch(env).Ok? && Dispatch(env).value.Pull? ==>
              var action := Dispatch(env).value;
              && QueuePull.PullDoes(received, Some(action.timeout), Some(action.makePublic),
                                    localize, executeOk, uploadOk, effects, outcome)
              && (forall k :: 1 <= k < |effects| ==> !effects[k].Receive?)
              && (forall k :: 0 <= k < |effects| && effects[k].Upload? ==>
                    effects[k].makePublic == Some(action.makePublic))
              && QueuePull.DeletesOnlyAfterWork(effects)
              && (QueuePull.Deletes(effects) <==> received != [] && outcome == Ok(()))
  {
    match Dispatch(env)
    case Err(e) =>
      effects, outcome := [], Err(e);
    case Ok(Pull(_, timeout, makePublic)) =>
      effects, outcome := PullFromQueue(received, Some(timeout), makePublic, localize, executeOk, uploadOk);
    case Ok(Add(_, _, _)) =>
      effects := AddToQueue(tasks);
      outcome := Ok(());
    case Ok(Idle) =>
      effects, outcome := [], Ok(());
  }
}
