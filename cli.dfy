/**
 The command-line entry points of cli.py: classifying the input of
 `run_one`, queueing tasks one message at a time (`addtoqueue`) or in
 size-bounded batches (`addtoqueuequick`), and pulling one task
 (`pullfromqueue`).

 The queue is not an object here: each entry point returns what it sent to
 the queue, in order, and what it raised. The tasks are the ones the task
 generator produced, given as a parameter; `size` gives, for each task, the
 byte size `sys.getsizeof` reports for its pickled form.
 */
module Cli {

  import opened Tasks
  import Decimal
  import QueuePull

  /** Body of a message whose dataset has no list of location URIs. */
  const UnknownLocationBody: string := "location not known."

  /** `addtoqueuequick` sends its batch once the pickled sizes add up to more than this. */
  const BatchThreshold: nat := 180000

  /** `addtoqueue` logs its progress at every multiple of this counter value. */
  const ProgressStep: nat := 100

  /** The click default of `pullfromqueue --sqs_timeout`. */
  const DefaultSqsTimeout: int := 400

  // ---------------------------------------------------------------------------
  // Message bodies

  /** The body of a queued message: the first location URI of the dataset
      when it has a list of them, the placeholder when it has none, and an
      IndexError when the list is empty. */
  function UriBody(d: Dataset): (r: Result<string>)
    ensures r.Ok? <==> d.uris != Some([])
    ensures r.Err? ==> r.error == IndexError
    ensures d.uris.Some? && r.Ok? ==> r.value == d.uris.value[0]
    ensures d.uris.None? ==> r == Ok(UnknownLocationBody)
  {
    match d.uris
    case None => Ok(UnknownLocationBody)
    case Some(us) => if |us| == 0 then Err(IndexError) else Ok(us[0])
  }

  /** The first `n` tasks all have a message body. */
  ghost predicate Located(tasks: seq<Task>, n: nat)
    requires n <= |tasks|
  {
    forall i :: 0 <= i < n ==> UriBody(tasks[i].dataset).Ok?
  }

  /** The number of tasks before the first one whose body raises. */
  function GoodPrefix(tasks: seq<Task>): (n: nat)
    ensures n <= |tasks| && Located(tasks, n)
    ensures n < |tasks| ==> UriBody(tasks[n].dataset).Err?
    decreases |tasks|
  {
    if tasks == [] || UriBody(tasks[0].dataset).Err? then 0 else 1 + GoodPrefix(tasks[1..])
  }

  /** The tasks before the first one that raises are exactly the located prefix. */
  lemma GoodPrefixAt(tasks: seq<Task>, n: nat)
    requires n <= |tasks| && Located(tasks, n)
    requires n < |tasks| ==> UriBody(tasks[n].dataset).Err?
    ensures GoodPrefix(tasks) == n
  {
  }

  // ---------------------------------------------------------------------------
  // run_one: the input is a URL or a local path

  /** The separator between a URL's scheme and the rest starts at `i`. */
  predicate SeparatorAt(s: string, i: nat) {
    i + 3 <= |s| && s[i..i + 3] == "://"
  }

  /** Python's `'://' in s`, scanning from the left. */
  function HasSchemeSeparator(s: string): (found: bool)
    ensures found ==> |s| >= 3
    ensures SeparatorAt(s, 0) ==> found
    decreases |s|
  {
    if |s| < 3 then false
    else if s[..3] == "://" then true
    else HasSchemeSeparator(s[1..])
  }

  /** The scan finds the separator exactly when it occurs somewhere. */
  lemma {:induction false} HasSchemeSeparatorSpec(s: string)
    ensures HasSchemeSeparator(s) <==> exists i: nat :: SeparatorAt(s, i)
    decreases |s|
  {
    if |s| < 3 {
      assert forall i: nat :: !SeparatorAt(s, i);
    } else if s[..3] == "://" {
      assert SeparatorAt(s, 0);
    } else {
      HasSchemeSeparatorSpec(s[1..]);
      forall i: nat | SeparatorAt(s, i) ensures SeparatorAt(s[1..], i - 1) {
        assert i != 0;
        SeparatorShift(s, i - 1);
      }
      forall i: nat | SeparatorAt(s[1..], i) ensures SeparatorAt(s, i + 1) {
        SeparatorShift(s, i);
      }
    }
  }

  /** Dropping the first character moves every separator one place left. */
  lemma SeparatorShift(s: string, i: nat)
    requires |s| >= 1
    ensures SeparatorAt(s, i + 1) <==> SeparatorAt(s[1..], i)
  {
    if i + 4 <= |s| {
      assert s[1..][i..i + 3] == s[i + 1..i + 4];
    }
  }

  /** A POSIX path is absolute when it starts at the root. */
  predicate IsAbsolutePath(p: string) {
    |p| > 0 && p[0] == '/'
  }

  /** The dataset location `run_one` looks up: the input itself when it
      looks like a URL, otherwise the `file://` URI of the local path, where
      `encodePath` stands for the normalisation and percent-encoding that
      `Path.as_uri` applies. `Path.as_uri` raises ValueError on a relative
      path. */
  function InputUrl(input: string, encodePath: string -> string): (r: Result<string>)
    ensures HasSchemeSeparator(input) ==> r == Ok(input)
    ensures !HasSchemeSeparator(input) && IsAbsolutePath(input) ==> r == Ok("file://" + encodePath(input))
    ensures !HasSchemeSeparator(input) && !IsAbsolutePath(input) ==> r == Err(ValueError)
  {
    if HasSchemeSeparator(input) then Ok(input)
    else if IsAbsolutePath(input) then Ok("file://" + encodePath(input))
    else Err(ValueError)
  }

  /** Every location `run_one` looks up is a URL, so classifying it again
      keeps it as it is. */
  lemma InputUrlIsUrl(input: string, encodePath: string -> string)
    requires InputUrl(input, encodePath).Ok?
    ensures HasSchemeSeparator(InputUrl(input, encodePath).value)
    ensures InputUrl(InputUrl(input, encodePath).value, encodePath) == InputUrl(input, encodePath)
  {
    var url := InputUrl(input, encodePath).value;
    if !HasSchemeSeparator(input) {
      assert SeparatorAt(url, 4);
      HasSchemeSeparatorSpec(url);
    }
  }

  // ---------------------------------------------------------------------------
  // addtoqueue: one send_message per task

  /** The `send_message` calls for the first `n` tasks. */
  ghost function UriSends(tasks: seq<Task>, n: nat): (sent: seq<Effect>)
    requires n <= |tasks| && Located(tasks, n)
  {
    seq(n, i requires 0 <= i < n => SendMessage(UriBody(tasks[i].dataset).value, tasks[i]))
  }

  /** `addtoqueue`: sends one message per task, in order, logging its
      progress at every hundredth counter value, and finally reports
      `count + 1` items with the counter starting at -1. An empty list of
      locations raises IndexError at that task, after its progress line and
      after the messages of the tasks before it were sent. */
  method AddToQueue(tasks: seq<Task>) returns (effects: seq<Effect>, progress: seq<int>, outcome: Result<int>)
    ensures effects == UriSends(tasks, GoodPrefix(tasks))
    ensures outcome == if GoodPrefix(tasks) == |tasks| then Ok(|tasks|) else Err(IndexError)
    ensures var reached := if outcome.Ok? then |tasks| else GoodPrefix(tasks) + 1;
            forall c :: c in progress <==> 0 <= c < reached && c % ProgressStep == 0
    ensures forall j, k :: 0 <= j < k < |progress| ==> progress[j] < progress[k]
  {
    effects, progress := [], [];
    var count := -1;
    var i := 0;
    while i < |tasks|
      invariant 0 <= i <= |tasks| && Located(tasks, i)
      invariant count == i - 1
      invariant effects == UriSends(tasks, i)
      invariant forall c :: c in progress <==> 0 <= c < i && c % ProgressStep == 0
      invariant forall j, k :: 0 <= j < k < |progress| ==> progress[j] < progress[k]
    {
      count := i;
      if count % ProgressStep == 0 {
        assert forall j :: 0 <= j < |progress| ==> progress[j] in progress;
        progress := progress + [count];
      }
      var body := UriBody(tasks[i].dataset);
      if body.Err? {
        outcome := Err(body.error);
        return;
      }
      effects := effects + [SendMessage(body.value, tasks[i])];
      i := i + 1;
      assert effects == UriSends(tasks, i);
    }
    outcome := Ok(count + 1);
  }

  // ---------------------------------------------------------------------------
  // addtoqueuequick: size-bounded batches

  /** The batch entries for the first `n` tasks: Id `str(i)` for the i-th task. */
  ghost function Entries(tasks: seq<Task>, n: nat): (es: seq<Entry>)
    requires n <= |tasks| && Located(tasks, n)
    ensures |es| == n
    decreases n
  {
    if n == 0 then [] else Entries(tasks, n - 1) + [EntryFor(tasks, n - 1)]
  }

  /** The batch entry of the i-th task. */
  ghost function EntryFor(tasks: seq<Task>, i: nat): (e: Entry)
    requires i < |tasks| && UriBody(tasks[i].dataset).Ok?
  {
    Entry(UriBody(tasks[i].dataset).value, Decimal.NatToString(i), tasks[i])
  }

  lemma {:induction false} EntriesAt(tasks: seq<Task>, n: nat, j: nat)
    requires n <= |tasks| && Located(tasks, n) && j < n
    ensures Entries(tasks, n)[j] == EntryFor(tasks, j)
    decreases n
  {
    if j < n - 1 {
      EntriesAt(tasks, n - 1, j);
    }
  }

  /** The sum of the pickled sizes of a batch, as `sum_size` adds them up. */
  ghost function Total(batch: seq<Entry>, size: Task -> nat): (total: nat)
    decreases |batch|
  {
    if batch == [] then 0 else Total(batch[..|batch| - 1], size) + size(batch[|batch| - 1].pickledTask)
  }

  /** All batches one after the other, in the order they were sent. */
  ghost function Flatten(batches: seq<seq<Entry>>): (entries: seq<Entry>)
    decreases |batches|
  {
    if batches == [] then [] else Flatten(batches[..|batches| - 1]) + batches[|batches| - 1]
  }

  ghost predicate UniqueIds(entries: seq<Entry>) {
    forall j, k :: 0 <= j < k < |entries| ==> entries[j].id != entries[k].id
  }

  /** A batch is not empty and stayed within the threshold until its last
      entry was added. */
  ghost predicate CutAt(batch: seq<Entry>, size: Task -> nat) {
    batch != [] && Total(batch[..|batch| - 1], size) <= BatchThreshold
  }

  /** Where `addtoqueuequick` cuts: every batch is cut at its last entry,
      and every batch but the last went over the threshold. */
  ghost predicate Cuts(batches: seq<seq<Entry>>, size: Task -> nat) {
    && (forall k :: 0 <= k < |batches| ==> CutAt(batches[k], size))
    && (forall k :: 0 <= k < |batches| - 1 ==> Total(batches[k], size) > BatchThreshold)
  }

  /** `addtoqueuequick`: appends one entry per task to a pending batch,
      adding the pickled size of each task to a running total; whenever the
      total goes over the threshold the pending batch is sent and both are
      reset. A non-empty remainder is sent at the end. The final report
      reads the counter of the loop, which an empty task list never binds:
      that raises UnboundLocalError. An empty list of locations raises
      IndexError, and the pending entries are then never sent. */
  method AddToQueueQuick(tasks: seq<Task>, size: Task -> nat)
    returns (pushed: seq<seq<Entry>>, outcome: Result<int>)
    ensures outcome == if tasks == [] then Err(UnboundLocalError)
                       else if GoodPrefix(tasks) < |tasks| then Err(IndexError)
                       else Ok(|tasks|)
    // each entry is sent at most once, in task order, with its own Id ...
    ensures SentInOrder(tasks, pushed)
    ensures UniqueIds(Flatten(pushed))
    // ... every entry is sent on success, and only entries within the threshold are lost on failure
    ensures outcome.Ok? ==> Flatten(pushed) == Entries(tasks, |tasks|)
    ensures outcome.Err? ==> LostWithin(tasks, pushed, size)
    // batches are cut where the running total first goes over the threshold
    ensures Cuts(pushed, size)
    ensures outcome.Err? ==> AllOver(pushed, size)
  {
    var messages, count, raised;
    pushed, messages, count, raised := EnqueueAll(tasks, size);
    if raised.Some? {
      outcome := Err(raised.value);
      Raised(tasks, size, count.value, pushed, messages);
      return;
    }
    var sent := pushed;
    if |messages| >= 1 {
      pushed := pushed + [messages];
    }
    outcome := match count
      case None => Err(UnboundLocalError)
      case Some(c) => Ok(c + 1);
    Finished(tasks, size, sent, messages, pushed, outcome);
  }

  /** The loop of `addtoqueuequick`, up to the end of the tasks or up to the
      first task whose list of locations is empty, where the IndexError it
      raises is returned in `raised`. `count` is the loop counter as the
      loop leaves it, `messages` the pending batch. */
  method EnqueueAll(tasks: seq<Task>, size: Task -> nat)
    returns (pushed: seq<seq<Entry>>, messages: seq<Entry>, count: Option<nat>, raised: Option<Error>)
    ensures raised.Some? ==>
              && raised.value == IndexError && count.Some? && count.value < |tasks|
              && Located(tasks, count.value) && UriBody(tasks[count.value].dataset).Err?
              && Flatten(pushed) + messages == Entries(tasks, count.value)
    ensures raised.None? ==>
              && Located(tasks, |tasks|) && Flatten(pushed) + messages == Entries(tasks, |tasks|)
              && (count.None? <==> tasks == []) && (count.Some? ==> count.value == |tasks| - 1)
    ensures Total(messages, size) <= BatchThreshold && SentOver(pushed, size)
  {
    pushed, messages := [], [];
    var sumSize: nat := 0;
    count := None;
    var i := 0;
    while i < |tasks|
      invariant 0 <= i <= |tasks| && Located(tasks, i)
      invariant count.None? <==> i == 0
      invariant count.Some? ==> count.value == i - 1
      invariant Flatten(pushed) + messages == Entries(tasks, i)
      invariant sumSize == Total(messages, size) <= BatchThreshold
      invariant SentOver(pushed, size)
    {
      var task := tasks[i];
      count := Some(i);
      sumSize := sumSize + size(task);
      var body := UriBody(task.dataset);
      if body.Err? {
        raised := Some(body.error);
        return;
      }
      var message := Entry(body.value, Decimal.NatToString(i), task);
      AppendEntry(tasks, i, pushed, messages, message, size);
      pushed, messages, sumSize := AddEntry(pushed, messages, sumSize, message, size);
      i := i + 1;
    }
    raised := None;
  }

  /** What was sent is the entries of the first tasks, in order: the tasks
      before the first one that raised, or all of them. */
  ghost predicate SentInOrder(tasks: seq<Task>, pushed: seq<seq<Entry>>) {
    var all := Entries(tasks, GoodPrefix(tasks));
    |Flatten(pushed)| <= |all| && Flatten(pushed) == all[..|Flatten(pushed)|]
  }

  /** The entries built but never sent weigh no more than the threshold. */
  ghost predicate LostWithin(tasks: seq<Task>, pushed: seq<seq<Entry>>, size: Task -> nat)
    requires SentInOrder(tasks, pushed)
  {
    var all := Entries(tasks, GoodPrefix(tasks));
    Total(all[|Flatten(pushed)|..], size) <= BatchThreshold
  }

  /** Every batch went over the threshold. */
  ghost predicate AllOver(pushed: seq<seq<Entry>>, size: Task -> nat) {
    forall k :: 0 <= k < |pushed| ==> Total(pushed[k], size) > BatchThreshold
  }

  /** The batches sent inside the loop: each is cut at its last entry and
      went over the threshold with it. */
  ghost predicate SentOver(pushed: seq<seq<Entry>>, size: Task -> nat) {
    forall k :: 0 <= k < |pushed| ==> CutAt(pushed[k], size) && Total(pushed[k], size) > BatchThreshold
  }

  /** Batches that all went over the threshold obey the cutting rule. */
  lemma SentOverCuts(pushed: seq<seq<Entry>>, size: Task -> nat)
    requires SentOver(pushed, size)
    ensures Cuts(pushed, size) && AllOver(pushed, size)
  {
  }

  /** Appending the entry of the next task to the pending batch. */
  lemma AppendEntry(tasks: seq<Task>, i: nat, pushed: seq<seq<Entry>>, messages: seq<Entry>, message: Entry,
                    size: Task -> nat)
    requires i < |tasks| && Located(tasks, i) && UriBody(tasks[i].dataset).Ok?
    requires message == Entry(UriBody(tasks[i].dataset).value, Decimal.NatToString(i), tasks[i])
    requires Flatten(pushed) + messages == Entries(tasks, i)
    ensures Located(tasks, i + 1)
    ensures Flatten(pushed) + (messages + [message]) == Entries(tasks, i + 1)
    ensures Total(messages + [message], size) == Total(messages, size) + size(tasks[i])
  {
    assert (messages + [message])[..|messages|] == messages;
  }

  /** The rest of one turn of the loop of `addtoqueuequick`, once the
      entry is built and its pickled size added to the running total: the
      entry joins the pending batch, and when the total is over the
      threshold the batch is sent and the batch and the total are reset. */
  method AddEntry(pushed: seq<seq<Entry>>, messages: seq<Entry>, sumSize: nat, message: Entry, size: Task -> nat)
    returns (pushed': seq<seq<Entry>>, messages': seq<Entry>, sumSize': nat)
    requires SentOver(pushed, size) && Total(messages, size) <= BatchThreshold
    requires sumSize == Total(messages + [message], size)
    ensures sumSize > BatchThreshold ==> pushed' == pushed + [messages + [message]] && messages' == [] && sumSize' == 0
    ensures sumSize <= BatchThreshold ==> pushed' == pushed && messages' == messages + [message] && sumSize' == sumSize
    ensures Flatten(pushed') + messages' == Flatten(pushed) + (messages + [message])
    ensures sumSize' == Total(messages', size) <= BatchThreshold
    ensures SentOver(pushed', size)
  {
    pushed', messages', sumSize' := pushed, messages + [message], sumSize;
    if sumSize' > BatchThreshold {
      SendBatch(pushed', messages', size);
      pushed' := pushed' + [messages'];
      sumSize' := 0;
      messages' := [];
    }
  }

  /** Sending a batch that just went over the threshold. */
  lemma SendBatch(pushed: seq<seq<Entry>>, batch: seq<Entry>, size: Task -> nat)
    requires SentOver(pushed, size)
    requires batch != [] && Total(batch[..|batch| - 1], size) <= BatchThreshold < Total(batch, size)
    ensures SentOver(pushed + [batch], size)
    ensures Flatten(pushed + [batch]) + [] == Flatten(pushed) + batch
  {
    FlattenSnoc(pushed, batch);
    var final := pushed + [batch];
    assert forall k :: 0 <= k < |pushed| ==> final[k] == pushed[k];
  }

  /** At a task whose location list is empty: what was sent so far obeys
      the conclusions of AddToQueueQuick for the IndexError it raises. */
  lemma Raised(tasks: seq<Task>, size: Task -> nat, i: nat, pushed: seq<seq<Entry>>, messages: seq<Entry>)
    requires i < |tasks| && Located(tasks, i) && UriBody(tasks[i].dataset).Err?
    requires Flatten(pushed) + messages == Entries(tasks, i)
    requires Total(messages, size) <= BatchThreshold && SentOver(pushed, size)
    ensures GoodPrefix(tasks) < |tasks|
    ensures SentInOrder(tasks, pushed)
    ensures UniqueIds(Flatten(pushed))
    ensures LostWithin(tasks, pushed, size)
    ensures Cuts(pushed, size) && AllOver(pushed, size)
  {
    SentOverCuts(pushed, size);
    Stopped(tasks, size, i, pushed, messages, Err(IndexError));
  }

  /** Sending the remainder, when there is one, after the loop. */
  lemma SendRemainder(sent: seq<seq<Entry>>, messages: seq<Entry>, pushed: seq<seq<Entry>>, size: Task -> nat)
    requires SentOver(sent, size) && Total(messages, size) <= BatchThreshold
    requires pushed == if |messages| >= 1 then sent + [messages] else sent
    ensures Flatten(pushed) == Flatten(sent) + messages
    ensures Cuts(pushed, size)
  {
    if |messages| >= 1 {
      assert pushed == sent + [messages];
      FlattenSnoc(sent, messages);
      TotalPrefix(messages, |messages| - 1, size);
      assert forall k :: 0 <= k < |sent| ==> pushed[k] == sent[k];
      assert pushed[|sent|] == messages;
    } else {
      SentOverCuts(sent, size);
      assert messages == [];
    }
  }

  /** After the last task: the remainder, if any, is sent as a last batch
      and the conclusions of AddToQueueQuick hold. */
  lemma Finished(tasks: seq<Task>, size: Task -> nat, sent: seq<seq<Entry>>, messages: seq<Entry>,
                 pushed: seq<seq<Entry>>, outcome: Result<int>)
    requires Located(tasks, |tasks|)
    requires Flatten(sent) + messages == Entries(tasks, |tasks|)
    requires Total(messages, size) <= BatchThreshold && SentOver(sent, size)
    requires pushed == if |messages| >= 1 then sent + [messages] else sent
    requires outcome == if tasks == [] then Err(UnboundLocalError) else Ok(|tasks|)
    ensures outcome == if tasks == [] then Err(UnboundLocalError)
                       else if GoodPrefix(tasks) < |tasks| then Err(IndexError)
                       else Ok(|tasks|)
    ensures SentInOrder(tasks, pushed)
    ensures UniqueIds(Flatten(pushed))
    ensures outcome.Ok? ==> Flatten(pushed) == Entries(tasks, |tasks|)
    ensures outcome.Err? ==> LostWithin(tasks, pushed, size)
    ensures Cuts(pushed, size)
    ensures outcome.Err? ==> AllOver(pushed, size)
  {
    SendRemainder(sent, messages, pushed, size);
    assert Flatten(pushed) + [] == Entries(tasks, |tasks|);
    if tasks == [] {
      assert pushed == [];
    }
    Stopped(tasks, size, |tasks|, pushed, [], outcome);
  }

  /** Sending one more batch appends its entries to what was sent. */
  lemma FlattenSnoc(batches: seq<seq<Entry>>, batch: seq<Entry>)
    ensures Flatten(batches + [batch]) == Flatten(batches) + batch
  {
    assert (batches + [batch])[..|batches|] == batches;
  }

  /** Where the loop stops, at the end or at the task that raised: what
      was sent, followed by what is pending, is the entries of the tasks
      before that point, so what was sent is a prefix of them, carries
      unique Ids, and leaves behind at most a batch within the threshold.
      Its conclusions are those of AddToQueueQuick. */
  lemma Stopped(tasks: seq<Task>, size: Task -> nat, n: nat, pushed: seq<seq<Entry>>, pending: seq<Entry>,
                outcome: Result<int>)
    requires n <= |tasks| && Located(tasks, n)
    requires n < |tasks| ==> UriBody(tasks[n].dataset).Err?
    requires Flatten(pushed) + pending == Entries(tasks, n)
    requires Total(pending, size) <= BatchThreshold
    requires outcome == if tasks == [] then Err(UnboundLocalError)
                        else if n < |tasks| then Err(IndexError)
                        else Ok(|tasks|)
    requires outcome.Ok? ==> pending == []
    ensures outcome == if tasks == [] then Err(UnboundLocalError)
                       else if GoodPrefix(tasks) < |tasks| then Err(IndexError)
                       else Ok(|tasks|)
    ensures SentInOrder(tasks, pushed)
    ensures UniqueIds(Flatten(pushed))
    ensures outcome.Ok? ==> Flatten(pushed) == Entries(tasks, |tasks|)
    ensures outcome.Err? ==> LostWithin(tasks, pushed, size)
  {
    GoodPrefixAt(tasks, n);
    var all := Entries(tasks, n);
    var sent := Flatten(pushed);
    assert sent == all[..|sent|] && pending == all[|sent|..];
    assert SentInOrder(tasks, pushed);
    forall j, k | 0 <= j < k < |sent| ensures sent[j].id != sent[k].id {
      EntriesAt(tasks, n, j);
      EntriesAt(tasks, n, k);
      if sent[j].id == sent[k].id {
        Decimal.NatToStringInjective(j, k);
      }
    }
  }

  /** A batch that obeys the rule weighs at most the threshold plus the
      size of its last entry. */
  lemma CutsBound(pushed: seq<seq<Entry>>, size: Task -> nat, k: nat)
    requires Cuts(pushed, size) && k < |pushed|
    ensures Total(pushed[k], size) <= BatchThreshold + size(pushed[k][|pushed[k]| - 1].pickledTask)
  {
  }

  /** Splitting off the first batch. */
  lemma {:induction false} FlattenCons(batches: seq<seq<Entry>>)
    requires batches != []
    ensures Flatten(batches) == batches[0] + Flatten(batches[1..])
    decreases |batches|
  {
    var n := |batches|;
    if n > 1 {
      var init := batches[..n - 1];
      FlattenCons(init);
      assert init[1..] == batches[1..][..n - 2];
      assert init[0] == batches[0];
    } else {
      assert batches[1..] == [];
    }
  }

  /** A prefix of a batch never weighs more than the batch. */
  lemma {:induction false} TotalPrefix(batch: seq<Entry>, j: nat, size: Task -> nat)
    requires j <= |batch|
    ensures Total(batch[..j], size) <= Total(batch, size)
    decreases |batch|
  {
    if j < |batch| {
      var init := batch[..|batch| - 1];
      TotalPrefix(init, j, size);
      assert init[..j] == batch[..j];
    } else {
      assert batch[..j] == batch;
    }
  }

  /** Cutting is deterministic: a sequence of entries has only one batching
      that obeys the rule, so the contract of AddToQueueQuick fixes its
      batches. */
  lemma {:induction false} CutsDetermineBatches(b1: seq<seq<Entry>>, b2: seq<seq<Entry>>, size: Task -> nat)
    requires Cuts(b1, size) && Cuts(b2, size)
    requires Flatten(b1) == Flatten(b2)
    ensures b1 == b2
    decreases |b1|
  {
    if b1 == [] || b2 == [] {
      if b1 != [] {
        FlattenCons(b1);
      } else if b2 != [] {
        FlattenCons(b2);
      }
    } else {
      FlattenCons(b1);
      FlattenCons(b2);
      var x, y := b1[0], b2[0];
      FirstBatchesEqual(b1, b2, size);
      assert Flatten(b1[1..]) == Flatten(b1)[|x|..] == Flatten(b2[1..]);
      CutsTail(b1, size);
      CutsTail(b2, size);
      CutsDetermineBatches(b1[1..], b2[1..], size);
      assert b1 == [x] + b1[1..] && b2 == [y] + b2[1..];
    }
  }

  /** The batches after the first obey the rule on their own. */
  lemma CutsTail(batches: seq<seq<Entry>>, size: Task -> nat)
    requires batches != [] && Cuts(batches, size)
    ensures Cuts(batches[1..], size)
  {
    assert forall k :: 0 <= k < |batches| - 1 ==> batches[1..][k] == batches[k + 1];
  }

  /** Two batchings that obey the rule start with the same batch: a
      shorter first batch would have stayed within the threshold, so it would
      be the whole batching, yet the other first batch is longer still. */
  lemma FirstBatchesEqual(b1: seq<seq<Entry>>, b2: seq<seq<Entry>>, size: Task -> nat)
    requires b1 != [] && b2 != []
    requires Cuts(b1, size) && Cuts(b2, size)
    requires Flatten(b1) == Flatten(b2)
    ensures b1[0] == b2[0]
  {
    FlattenCons(b1);
    FlattenCons(b2);
    var x, y := b1[0], b2[0];
    if |x| < |y| {
      ShorterFirstWithin(b1, b2, size);
      assert false;
    } else if |y| < |x| {
      ShorterFirstWithin(b2, b1, size);
      assert false;
    } else {
      assert x == Flatten(b1)[..|x|] == y;
    }
  }

  /** A first batch shorter than another batching's first batch is a prefix
      of that batch without its last entry, so it stayed within the
      threshold, and it is all of its batching's entries. */
  lemma ShorterFirstWithin(b1: seq<seq<Entry>>, b2: seq<seq<Entry>>, size: Task -> nat)
    requires b1 != [] && b2 != []
    requires Cuts(b2, size)
    requires Flatten(b1) == b1[0] + Flatten(b1[1..]) == b2[0] + Flatten(b2[1..])
    requires |b1[0]| < |b2[0]|
    ensures Total(b1[0], size) <= BatchThreshold
    ensures |b1| > 1
  {
    var x, y := b1[0], b2[0];
    var init := y[..|y| - 1];
    assert x == Flatten(b1)[..|x|] == y[..|x|];
    assert x == init[..|x|];
    TotalPrefix(init, |x|, size);
  }

  // ---------------------------------------------------------------------------
  // pullfromqueue

  /** The visibility timeout `pullfromqueue` is called with: the value of
      `--sqs_timeout` when it is given, the click default otherwise. */
  function SqsTimeout(option: Option<int>): (t: int)
    ensures option.Some? ==> t == option.value
    ensures option.None? ==> t == 400
  {
    match option
    case Some(t) => t
    case None => DefaultSqsTimeout
  }

  /** `pullfromqueue`: the pull-execute-delete step with the visibility
      timeout from the command line and the upload helper called with its
      own default for making the output public. */
  method PullFromQueue(received: seq<QueueMessage>, sqsTimeoutOption: Option<int>,
                       localize: string -> string, executeOk: Task -> bool, uploadOk: string -> bool)
    returns (effects: seq<Effect>, outcome: Result<()>)
    ensures QueuePull.PullDoes(received, Some(SqsTimeout(sqsTimeoutOption)), None, localize, executeOk, uploadOk,
                               effects, outcome)
    ensures forall k :: 1 <= k < |effects| ==> !effects[k].Receive?
    ensures forall k :: 0 <= k < |effects| && effects[k].Upload? ==> effects[k].makePublic == None
    ensures QueuePull.DeletesOnlyAfterWork(effects)
    ensures QueuePull.Deletes(effects) <==> received != [] && outcome == Ok(())
  {
    var sqsTimeout := SqsTimeout(sqsTimeoutOption);
    effects, outcome := QueuePull.PullOne(received, Some(sqsTimeout), None, localize, executeOk, uploadOk);
    QueuePull.PullDoesSafely(received, Some(sqsTimeout), None, localize, executeOk, uploadOk, effects, outcome);
  }
}
