/**
 Values shared by the command-line entry points (cli.py) and the cloud entry
 point (cloud_wrapper.py): the dataset and task records that the task
 generator produces, the queue messages built from them, the Python
 exceptions the code can raise, and the effects it has on the queue and on
 the transform.

 Serialisation is not modelled byte by byte: a pickled task is represented by
 the task itself, so unpickling what was pickled gives the task back.
 */
module Tasks {

  datatype Option<T> = None | Some(value: T)

  /** The Python exceptions the modelled code raises or lets through. */
  datatype Error =
    | IndexError          // `uris[0]` on an empty list of locations
    | UnboundLocalError   // `count` read although the loop never bound it
    | KeyError            // a received message without the 'pickled_task' attribute
    | ValueError          // `int(...)` of a non-number, `Path.as_uri` of a relative path
    | CollaboratorError   // raised inside the transform or the upload helper

  datatype Result<T> = Ok(value: T) | Err(error: Error)

  /** The part of an indexed dataset the code reads: its list of location
      URIs (None when the index has none) and its local file URI. */
  datatype Dataset = Dataset(uris: Option<seq<string>>, localUri: Option<string>)

  /** A unit of work: one dataset and the output location from its settings. */
  datatype Task = Task(dataset: Dataset, outputLocation: string)

  /** One entry of a `send_messages` batch: the body, the entry Id and the
      pickled task carried as the binary message attribute. */
  datatype Entry = Entry(body: string, id: string, pickledTask: Task)

  /** A message as received from the queue: its receipt handle, its body and
      its message attributes, each binary attribute holding a pickled task. */
  datatype QueueMessage = QueueMessage(receiptHandle: nat, body: string, attributes: map<string, Task>)

  /** What the code does to the outside world, in the order it does it. */
  datatype Effect =
    | SendMessage(body: string, pickledTask: Task)           // queue.send_message
    | Receive(visibilityTimeout: Option<int>, maxMessages: nat)  // queue.receive_messages
    | Execute(task: Task)                                    // execute_task
    | Upload(destination: string, makePublic: Option<bool>)  // upload_if_needed
    | Delete(receiptHandle: nat)                             // message.delete

  /** The message attribute that carries the pickled task. */
  const PickledTaskKey: string := "pickled_task"

  /** At most this many messages are requested by one pull. */
  const MaxPulledMessages: nat := 1
}
