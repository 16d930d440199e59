# datacube-alchemist entry points in Dafny

datacube-alchemist applies a transform to datasets indexed in an Open Data
Cube and writes the outputs, possibly to S3. Its entry points decide which
work to do and hand it around through an SQS queue:

- `addtoqueue` and `add_to_queue` queue one message per task.
- `addtoqueuequick` queues the messages in batches whose pickled sizes add
  up to a little over 180000 bytes.
- `pullfromqueue` and `pull_from_queue` take one task off the queue, run
  it, upload its output and only then delete the message.
- `run_one` turns its input into a dataset location.
- `run_command` configures the container entry point from the environment.

The model keeps the decisions and the order of effects and leaves the libraries out:

- Every call into the queue, the transform or the upload helper is an
  `Effect` value, except the `send_messages` calls of `addtoqueuequick`:
  that operation returns its batches, one list of entries per call.
  Each operation returns the effects or batches it produced, in order,
  together with the exception it raised, if any (`Result` with an `Error`).
- Python exceptions are error values:
  - `IndexError` when `uris[0]` meets an empty list;
  - `UnboundLocalError` when `addtoqueuequick` reads `count` after an
    empty loop;
  - `KeyError` when a message has no `pickled_task` attribute;
  - `ValueError` from `int()` and from `Path.as_uri`;
  - `CollaboratorError` when the transform or the upload raises.
- A pickled task is represented by the task itself, so unpickling gives back
  what was pickled.

Modules:

- `Tasks` (tasks.dfy): the shared records, errors and effects.
- `Decimal` (decimal.dfy): `str(n)` for message Ids and `int(s)` for the
  timeout setting, with their round trip.
- `QueuePull` (queue_pull.dfy): the pull-execute-delete step that both
  entry points share.
- `Cli` (cli.dfy): the command-line entry points.
- `CloudWrapper` (cloud_wrapper.dfy): the environment-driven entry point.

The main results:

- The batches of `addtoqueuequick`, concatenated, are the per-task entries
  in task order, with distinct Ids.
- Every batch is non-empty. Each batch stayed within the threshold until its
  last entry, and every batch but the last went over it.
- These rules fix the batching completely (`CutsDetermineBatches`).
- Pulling deletes a message only right after its task ran and its output
  was uploaded.
- The queueing branch of `run_command` can never be taken.

## Model

| member | source | states |
|---|---|---|
| Cli.UriBody | datacube_alchemist/cli.py:98 | the body is the first location URI when the dataset has a list of them, "location not known." when it has none, and IndexError exactly when the list is empty |
| Cli.HasSchemeSeparator | datacube_alchemist/cli.py:57 | the scan answers true only on inputs of at least three characters, and always when the input starts with "://" |
| Cli.GoodPrefix | datacube_alchemist/cli.py:91-100 | the tasks before the returned index all have a body and the task at that index, if any, raises |
| Cli.GoodPrefixAt | datacube_alchemist/cli.py:91-100 | any index with those two properties is the one GoodPrefix returns |
| Cli.HasSchemeSeparatorSpec | datacube_alchemist/cli.py:57 | the left-to-right scan answers true exactly when "://" occurs somewhere in the input |
| Cli.InputUrl | datacube_alchemist/cli.py:57-62 | an input containing "://" is used as it is; otherwise an absolute path becomes its file:// URI and a relative path raises ValueError |
| Cli.InputUrlIsUrl | datacube_alchemist/cli.py:57-62 | every location run_one looks up contains "://", so classifying it again leaves it unchanged |
| Cli.AddToQueue | datacube_alchemist/cli.py:90-101 | sends exactly the messages of the tasks before the first one that raises, in order; reports the number of tasks (0 for none) or raises IndexError; progress is logged once for each multiple of 100 below the count reached, in increasing order |
| Cli.AddToQueueQuick | datacube_alchemist/cli.py:128-156 | raises UnboundLocalError on no tasks and IndexError at an empty location list; the batches concatenate to the entries in task order with distinct Ids; on success every entry is sent; on failure the unsent entries weigh at most 180000; batches are cut where the total first goes over 180000 |
| Cli.EnqueueAll | datacube_alchemist/cli.py:128-152 | the loop either stops at the first task with an empty location list, raising IndexError with count bound to that index, or runs to the end with count unbound exactly when there were no tasks and otherwise the last index; in both cases what was pushed and what is pending are the per-task entries so far, in order, the pending entries weigh at most 180000 and every pushed batch went over 180000 only with its last entry |
| Cli.AddEntry | datacube_alchemist/cli.py:143-152 | appending one entry either pushes the pending list with it and resets the list and the running total (total over 180000) or keeps it pending; no entry is lost or reordered and the pending total stays within 180000 |
| Cli.AppendEntry | datacube_alchemist/cli.py:135-143 | the message built for task i has the body of its first URI, the Id str(i) and the pickled task, extends the entries in task order, and adds the size of the pickled task to the pending total |
| Cli.Raised | datacube_alchemist/cli.py:138 | when the loop raises at a task, some task of the list raises, what was pushed is a prefix of the entries in order with distinct Ids, the unsent entries weigh at most 180000 and the pushed batches obey the cutting rule |
| Cli.SendBatch | datacube_alchemist/cli.py:147-152 | pushing the pending list once its total exceeds 180000 appends exactly its entries to what was sent, and the new batch went over the threshold only with its last entry |
| Cli.SendRemainder | datacube_alchemist/cli.py:153-155 | the final push of a non-empty remainder appends exactly its entries and keeps the cutting rule; nothing is pushed for an empty remainder |
| Cli.Stopped | datacube_alchemist/cli.py:130-156 | wherever the loop stops, what was sent is a prefix of the entries in order, the Ids are distinct and what is left unsent is within the threshold |
| Cli.Finished | datacube_alchemist/cli.py:153-156 | after the loop runs to the end and the remainder is pushed, every entry was sent in order with distinct Ids, and the outcome is UnboundLocalError for no tasks and the task count otherwise |
| Cli.CutsBound | datacube_alchemist/cli.py:134-148 | a batch weighs at most 180000 plus the size of its last entry |
| Cli.CutsDetermineBatches | datacube_alchemist/cli.py:143-155 | two batchings of the same entries that both obey the cutting rule are equal, so the contract of AddToQueueQuick determines its batches |
| Cli.SqsTimeout | datacube_alchemist/cli.py:175-177 | the --sqs_timeout value when one is given, 400 otherwise |
| Cli.PullFromQueue | datacube_alchemist/cli.py:173-204 | satisfies PullDoes with the given timeout or 400 and no make_public argument: one receive of at most one message first; nothing more on an empty receive; KeyError without the pickled task; otherwise execute of the received task with its output made local, upload to its original location, delete, stopping at the first failure, and success when both complete. Hence no second receive, a delete only right after execute and upload, and a delete exactly when the pull succeeds on a received message |
| QueuePull.PullOne | datacube_alchemist/cli.py:185-204 | satisfies PullDoes: one receive of at most one message first; nothing more on an empty receive; KeyError without the pickled task; otherwise execute of the received task with its output location made local, then upload of its original location with the given make_public argument, then delete, stopping at the first failure, and success exactly when both execute and upload complete |
| QueuePull.PullDoesSafely | datacube_alchemist/cli.py:185-204 | any run PullDoes admits receives only once, passes the given make_public argument to every upload, deletes only right after an execute and an upload, and deletes exactly when a message was received and the pull succeeded |
| QueuePull.Localized | datacube_alchemist/cli.py:194-196 | the task that runs keeps its dataset and has its output location replaced by the local location chosen for it |
| Decimal.NatToStringValue | datacube_alchemist/cli.py:139 | reading back the digits of str(n) gives n |
| Decimal.NatToStringInjective | datacube_alchemist/cli.py:139 | distinct counters give distinct message Ids |
| Decimal.NatToString | datacube_alchemist/cli.py:139 | str(n) is non-empty and all decimal digits, and a single digit exactly when n < 10 |
| Decimal.IntToString | datacube_alchemist/cloud_wrapper.py:71 | str(i) is non-empty, starts with "-" exactly for a negative i, and is all digits otherwise |
| Decimal.TrimStart | datacube_alchemist/cloud_wrapper.py:71 | int() drops leading white space: the result is a suffix of the input, everything dropped is white space, the result does not start with white space, and it is the input itself when the input has no white space; white space is " \t\n\r\v\f" and the non-ASCII characters str.isspace accepts, not U+001C to U+001F |
| Decimal.TrimEnd | datacube_alchemist/cloud_wrapper.py:71 | int() drops trailing white space: the result is a prefix of the input, everything dropped is white space, the result does not end with white space, and it is the input itself when the input has no white space; white space is as for TrimStart |
| Decimal.SeparatorNotSkipped | datacube_alchemist/cloud_wrapper.py:71 | int() of text that starts with one of the ASCII separators U+001C to U+001F raises ValueError, because int() does not skip them |
| Decimal.IntToStringRoundTrip | datacube_alchemist/cloud_wrapper.py:71 | int(str(i)) == i for every integer, negative ones included, with no limit on the number of digits |
| Decimal.ParseInt | datacube_alchemist/cloud_wrapper.py:71 | int() of a string that is not a number raises ValueError and nothing else |
| CloudWrapper.AddToQueue | datacube_alchemist/cloud_wrapper.py:25-32 | exactly one send per task, in order, whose body is the local URI or "local_uri is None" and whose attribute is the pickled task |
| CloudWrapper.LocalBody | datacube_alchemist/cloud_wrapper.py:31 | the message body is the local URI when the dataset has one and "local_uri is None" otherwise |
| CloudWrapper.SendFor | datacube_alchemist/cloud_wrapper.py:27-32 | the send_message call for a task carries that task as its pickled attribute and the body LocalBody gives |
| CloudWrapper.DeliveredCarriesTask | datacube_alchemist/cloud_wrapper.py:27-47 | representation note: a pickled task is the task itself, so a message as add_to_queue sent it carries the task under the key pull_from_queue reads; this holds by construction and is not a property of the source |
| CloudWrapper.PullFromQueue | datacube_alchemist/cloud_wrapper.py:34-58 | satisfies PullDoes with the given timeout and make_public passed to the upload: the received task, with its output made local, is executed, then uploaded, then deleted, stopping at the first failure, with success when both complete; hence no second receive, a delete only right after execute and upload, and a delete exactly when the pull succeeds on a received message |
| CloudWrapper.Getenv | datacube_alchemist/cloud_wrapper.py:68-69 | os.getenv(key) is the variable's value when it is set and None exactly when it is unset |
| CloudWrapper.GetenvOr | datacube_alchemist/cloud_wrapper.py:71-72 | os.getenv(key, default) is the variable's value when it is set and the default when it is unset |
| CloudWrapper.Dispatch | datacube_alchemist/cloud_wrapper.py:68-81 | the pull command with a timeout text int() accepts pulls from SQS_QUEUE with the parsed timeout and with make_public true exactly for "true" or "True"; otherwise the pull command raises ValueError, and only then; the add_to_queue branch is never chosen because it repeats the first condition; any other command, or none, does nothing |
| CloudWrapper.DispatchDefaults | datacube_alchemist/cloud_wrapper.py:68-74 | with COMMAND=pull_from_queue and nothing else set, the pull uses the configured queue, a timeout of 500 and make_public false |
| CloudWrapper.DefaultTimeoutIs500 | datacube_alchemist/cloud_wrapper.py:71 | int() reads the default text "500" as 500 |
| CloudWrapper.DispatchTimeout | datacube_alchemist/cloud_wrapper.py:71 | a timeout set to str(t) is read as t |
| CloudWrapper.DispatchMakePublic | datacube_alchemist/cloud_wrapper.py:72-73 | make_public is true exactly when MAKE_PUBLIC is set to "true" or "True" |
| CloudWrapper.DispatchErrors | datacube_alchemist/cloud_wrapper.py:69-71 | run_command raises exactly when the command is pull_from_queue and the timeout text is not a number int() accepts, with no limit on the number of digits |
| CloudWrapper.RunCommand | datacube_alchemist/cloud_wrapper.py:61-81 | a bad timeout raises ValueError with no effect; other commands have no effect; pull_from_queue satisfies PullDoes with the parsed timeout and make_public flag, so it receives once, executes the received task, uploads with the flag, deletes only after execute and upload, and deletes exactly when the pull succeeds on a received message |

## Left out

- Queue calls (`boto3.resource`, `get_queue_by_name`, `send_message`, `send_messages`, `receive_messages`, `delete`) are network I/O. They appear only as effects or as returned batches, and the queue never fails in the model.
- `_push_messages` (datacube_alchemist/cli.py:104-106) is a single `send_messages` call. It is the append of one batch to the batches `AddToQueueQuick` returns; its response is discarded in the source too.
- `cloudpickle.dumps` and `cloudpickle.loads` are opaque serialisation. A pickled task is the task itself.
- `sys.getsizeof` of a pickled task is the parameter `size`. The size of the whole message dict (line 140) is only printed and never used. The unused `chunk = 3` is left out.
- `Alchemist`, `generate_tasks`, `generate_task`, the `Datacube` location lookup and `execute_task` live in modules that are not part of this model. Tasks arrive as a parameter, and whether the transform completes is the parameter `executeOk`.
- `S3Upload` is an unseen module. The local location it picks is the parameter `localize`, whether `upload_if_needed` completes is `uploadOk`, and a failure of its constructor is not modelled.
- `run_one` does not execute anything here. Only its input classification is modelled, and `Path.as_uri`'s normalisation and percent-encoding are the parameter `encodePath`.
- `run_many` and `setup_dask_client` are distributed execution with dask. They are left out.
- Logging, `print` and click's option parsing are presentation. The only exceptions are the progress counts of `addtoqueue` and the `--sqs_timeout` default of 400.
- `pull_from_queue` assigns the output location of the unpickled task in place. The model builds the updated task as a new value, which is equivalent because nothing else holds the task.
- `pull_from_queue` passes `sqs_timeout=None` straight to the queue when called without a timeout. `run_command` always passes a number. Whether boto3 accepts None is outside the model.
- Decimal.ParseInt: does not model the limit of 4300 decimal digits that Python 3.11 and later (and the 3.7 to 3.10 security releases) put on `int()` of a string by default, settable through `PYTHONINTMAXSTRDIGITS`. A longer timeout text raises ValueError there and is read here. The limit depends on the interpreter version and its environment, neither of which the model fixes.
- Decimal.IntToStringRoundTrip: holds for every integer because the model has no digit limit; under the limit above, `str` itself raises for integers of more than 4300 digits.
- CloudWrapper.DispatchErrors: the "exactly when" leaves out the ValueError that the digit limit above raises for a timeout text of more than 4300 digits.
- Decimal.ParseInt: non-ASCII decimal digits, which Python's `int()` also accepts, are rejected here. The contract states only that every failure is ValueError; what is accepted is pinned down by the round trip with `str`.
- tests/conftest.py holds only a test fixture and no logic.
- The commented-out block in `addtoqueuequick` (datacube_alchemist/cli.py:158-171) is a string literal that never runs.
