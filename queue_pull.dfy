/**
 The pull-execute-delete step that both entry points perform: request at most
 one message from the queue, unpickle the task it carries, point the task at
 a local output location, run it, upload the result, and only then delete
 the message. A failure anywhere before the delete leaves the message on the
 queue, to become visible again once its visibility timeout runs out.

 The transform and the upload helper are not part of this model: whether
 each of them completes is given by `executeOk` and `uploadOk`, and the
 local location that the upload helper picks for an output location is
 given by `localize`.
 */
module QueuePull {

  import opened Tasks

  /** The task as it is run: its output location replaced by the local
      one, everything else as it was received. */
  function Localized(task: Task, localize: string -> string): (run: Task)
    ensures run.dataset == task.dataset
    ensures run.outputLocation == localize(task.outputLocation)
  {
    task.(outputLocation := localize(task.outputLocation))
  }

  /** What one pull does, given what the queue returns and whether the
      transform and the upload complete: exactly one request, for at most one
      message, and it comes first; an empty receive does nothing more; a
      message without the pickled task raises KeyError before anything runs;
      otherwise the task with its output location made local is executed, the
      output is uploaded to the original location and the message is deleted,
      stopping at the first failure. */
  ghost predicate PullDoes(received: seq<QueueMessage>, visibilityTimeout: Option<int>, uploadArg: Option<bool>,
                           localize: string -> string, executeOk: Task -> bool, uploadOk: string -> bool,
                           effects: seq<Effect>, outcome: Result<()>)
  {
    var request := Receive(visibilityTimeout, MaxPulledMessages);
    && |effects| >= 1 && effects[0] == request
    && (received == [] ==> effects == [request] && outcome == Ok(()))
    && (received != [] && PickledTaskKey !in received[0].attributes ==>
          effects == [request] && outcome == Err(KeyError))
    && (received != [] && PickledTaskKey in received[0].attributes ==>
          var task := received[0].attributes[PickledTaskKey];
          var run := Localized(task, localize);
          var work := [Execute(run), Upload(task.outputLocation, uploadArg), Delete(received[0].receiptHandle)];
          && (!executeOk(run) ==> effects[1..] == work[..1] && outcome == Err(CollaboratorError))
          && (executeOk(run) && !uploadOk(task.outputLocation) ==>
                effects[1..] == work[..2] && outcome == Err(CollaboratorError))
          && (executeOk(run) && uploadOk(task.outputLocation) ==> effects[1..] == work && outcome == Ok(())))
  }

  /** A message is deleted only right after its task ran and its output was uploaded. */
  ghost predicate DeletesOnlyAfterWork(effects: seq<Effect>) {
    forall k :: 0 <= k < |effects| && effects[k].Delete? ==>
      k >= 2 && effects[k - 2].Execute? && effects[k - 1].Upload?
  }

  ghost predicate Deletes(effects: seq<Effect>) {
    exists k :: 0 <= k < |effects| && effects[k].Delete?
  }

  /** What every pull guarantees: no second request, every upload gets the
      given argument, a delete only right after execute and upload, and a
      delete exactly when a received message was processed without failure. */
  lemma PullDoesSafely(received: seq<QueueMessage>, visibilityTimeout: Option<int>, uploadArg: Option<bool>,
                       localize: string -> string, executeOk: Task -> bool, uploadOk: string -> bool,
                       effects: seq<Effect>, outcome: Result<()>)
    requires PullDoes(received, visibilityTimeout, uploadArg, localize, executeOk, uploadOk, effects, outcome)
    ensures forall k :: 1 <= k < |effects| ==> !effects[k].Receive?
    ensures forall k :: 0 <= k < |effects| && effects[k].Upload? ==> effects[k].makePublic == uploadArg
    ensures DeletesOnlyAfterWork(effects)
    ensures Deletes(effects) <==> received != [] && outcome == Ok(())
  {
    if received != [] && PickledTaskKey in received[0].attributes {
      var task := received[0].attributes[PickledTaskKey];
      var run := Localized(task, localize);
      if executeOk(run) && uploadOk(task.outputLocation) {
        assert effects[3].Delete?;
      }
    }
  }

  /** One pull: request at most one message and process it. */
  method PullOne(received: seq<QueueMessage>, visibilityTimeout: Option<int>, uploadArg: Option<bool>,
                 localize: string -> string, executeOk: Task -> bool, uploadOk: string -> bool)
    returns (effects: seq<Effect>, outcome: Result<()>)
    ensures PullDoes(received, visibilityTimeout, uploadArg, localize, executeOk, uploadOk, effects, outcome)
  {
    effects := [Receive(visibilityTimeout, MaxPulledMessages)];
    if |received| > 0 {
      var message := received[0];
      if PickledTaskKey !in message.attributes {
        outcome := Err(KeyError);
        return;
      }
      var task := message.attributes[PickledTaskKey];
      var destination := task.outputLocation;
      task := task.(outputLocation := localize(destination));
      effects := effects + [Execute(task)];
      if !executeOk(task) {
        outcome := Err(CollaboratorError);
        return;
      }
      effects := effects + [Upload(destination, uploadArg)];
      if !uploadOk(destination) {
        outcome := Err(CollaboratorError);
        return;
      }
      effects := effects + [Delete(message.receiptHandle)];
      outcome := Ok(());
    } else {
      outcome := Ok(());
    }
  }
}
