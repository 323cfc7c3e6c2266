/**
 * One step of `queue_worker` (app.py:121-131): take the head of a topic's
 * queue and append it to that topic's file of the day. Iterating the step
 * writes a queue's records in the order they were put on it.
 */
module Worker {
  import opened Options
  import opened Registry
  import opened Dispatch
  import opened Storage

  /** The lines a sequence of records is written as, one per record, in order. */
  function Lines(rs: seq<Record>): (ls: seq<string>)
    ensures |ls| == |rs|
    ensures forall k | 0 <= k < |rs| :: ls[k] == Serialize(rs[k])
  {
    if rs == [] then [] else Lines(rs[..|rs| - 1]) + [Serialize(rs[|rs| - 1])]
  }

  /** One worker step on values: a pending queue and the lines of the topic's file. */
  function Step(queue: seq<Record>, file: seq<string>): (seq<Record>, seq<string>)
    requires queue != []
  {
    (queue[1..], file + [Serialize(queue[0])])
  }

  /** `n` worker steps in a row, every write succeeding. */
  function Drain(queue: seq<Record>, file: seq<string>, n: nat): (seq<Record>, seq<string>)
    requires n <= |queue|
    decreases n
  {
    if n == 0 then (queue, file)
    else
      var (q, f) := Step(queue, file);
      Drain(q, f, n - 1)
  }

  /**
   * `queue_worker`, one iteration: take the head of `topic`'s queue and hand
   * it to `process_data`. When the write fails the record is gone from the
   * queue all the same. On an empty queue the worker would wait; here the
   * step does nothing and reports that it took nothing.
   */
  method QueueWorkerStep(queues: TopicQueues, fs: FileSystem, topic: string, date: string,
                         writable: bool) returns (took: bool)
    requires queues.Valid() && IsTopic(topic)
    modifies queues, fs`logs
    ensures queues.Valid()
    ensures took <==> old(queues.queues)[topic] != []
    ensures !took ==> queues.queues == old(queues.queues) && fs.logs == old(fs.logs)
    ensures took ==> queues.queues == old(queues.queues)[topic := old(queues.queues)[topic][1..]]
    ensures took ==>
      fs.logs == if writable
                 then Appended(old(fs.logs), DailyLogPath(topic, date), Serialize(old(queues.queues)[topic][0]))
                 else old(fs.logs)
    ensures took && writable ==>
      (queues.queues[topic], FileLines(fs.logs, DailyLogPath(topic, date)))
      == Step(old(queues.queues)[topic], FileLines(old(fs.logs), DailyLogPath(topic, date)))
  {
    var data := queues.Get(topic);
    took := data.Some?;
    if took {
      fs.ProcessData(topic, data.value, date, writable);
    }
  }

  /** The lines of two record sequences, one after the other. */
  lemma LinesConcat(a: seq<Record>, b: seq<Record>)
    ensures Lines(a + b) == Lines(a) + Lines(b)
  {
  }

  /**
   * FIFO: `n` steps leave the queue without its first `n` records and append
   * their lines to the file in queue order.
   */
  lemma {:induction false} DrainWritesInEnqueueOrder(queue: seq<Record>, file: seq<string>, n: nat)
    requires n <= |queue|
    ensures Drain(queue, file, n) == (queue[n..], file + Lines(queue[..n]))
  {
    if n == 0 {
      assert queue[..0] == [] && queue[0..] == queue;
      assert file + Lines([]) == file;
    } else {
      var rest, written := queue[1..], file + [Serialize(queue[0])];
      assert Drain(queue, file, n) == Drain(rest, written, n - 1);
      DrainWritesInEnqueueOrder(rest, written, n - 1);
      assert rest[n - 1..] == queue[n..];
      HeadLineFirst(queue, file, n);
    }
  }

  /** Writing the head first, then the next `n - 1` records, writes the first `n` records. */
  lemma HeadLineFirst(queue: seq<Record>, file: seq<string>, n: nat)
    requires 0 < n <= |queue|
    ensures file + [Serialize(queue[0])] + Lines(queue[1..][..n - 1]) == file + Lines(queue[..n])
  {
  }

  /**
   * End to end: once a batch has been dispatched, draining topic `t`'s queue
   * writes the records that were already pending, then the batch's records
   * for `t` in batch order.
   */
  lemma BatchWrittenInOrder(pending: seq<Record>, file: seq<string>, items: seq<Element>, t: string)
    ensures var queue := pending + Routed(Handled(items), t);
      Drain(queue, file, |queue|).1 == file + Lines(pending) + Lines(Routed(Handled(items), t))
  {
    var queue := pending + Routed(Handled(items), t);
    DrainWritesInEnqueueOrder(queue, file, |queue|);
    assert queue[..|queue|] == queue;
    LinesConcat(pending, Routed(Handled(items), t));
  }

  /** A step for one topic leaves the day's file of every other topic unchanged. */
  lemma OtherTopicsFilesUntouched(files: map<string, seq<string>>, t1: string, t2: string,
                                  date: string, line: string)
    requires IsTopic(t1) && IsTopic(t2) && t1 != t2 && '/' !in date
    ensures FileLines(Appended(files, DailyLogPath(t1, date), line), DailyLogPath(t2, date))
            == FileLines(files, DailyLogPath(t2, date))
  {
    TopicsHaveNoSlash(t1);
    TopicsHaveNoSlash(t2);
    if DailyLogPath(t1, date) == DailyLogPath(t2, date) {
      DailyLogPathInjective(t1, date, t2, date);
    }
  }
}
