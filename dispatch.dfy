/**
 * Batch dispatch of the `/log` endpoint (app.py:164-196): every record of a
 * batch is routed by its topic to that topic's FIFO queue, unknown topics are
 * reported one error entry each, and a status is chosen.
 */
module Dispatch {
  import opened Options
  import opened Registry

  /** The request body as `request.get_json(force=True)` sees it. */
  datatype Body =
    | Unparsable                 // not JSON: get_json raises
    | NotAList                   // JSON, but not an array
    | Batch(items: seq<Element>) // a JSON array

  /** An element of a batch array. */
  datatype Element = Object(rec: Record) | NonObject

  /** The handler's response: the status code and the payload's counts and errors. */
  datatype Response =
    | BadRequest                                                     // 400
    | Queued(processed: nat)                                         // 202
    | MultiStatus(processed: nat, errorCount: nat, errors: seq<string>) // 207
    | InternalError                                                  // 500

  /** The HTTP status of a response. */
  function StatusCode(r: Response): int {
    match r
    case BadRequest => 400
    case Queued(_) => 202
    case MultiStatus(_, _, _) => 207
    case InternalError => 500
  }

  /** Elements on which the loop raises: no `.get`, or a topic `in` cannot hash. */
  predicate Faults(e: Element) {
    e.NonObject? || e.rec.topic.Unhashable?
  }

  /** An element whose topic is a key of the queue table. */
  predicate Accepted(e: Element) {
    e.Object? && e.rec.topic.Text? && IsTopic(e.rec.topic.name)
  }

  /** An element whose record is put on topic `t`'s queue. */
  predicate RoutesTo(e: Element, t: string) {
    Accepted(e) && e.rec.topic.name == t
  }

  predicate FaultFree(items: seq<Element>) {
    forall j | 0 <= j < |items| :: !Faults(items[j])
  }

  /** The index of the first element on which the loop raises, or |items|. */
  function FaultIndex(items: seq<Element>): (k: nat)
    ensures k <= |items|
    ensures forall j | 0 <= j < k :: !Faults(items[j])
    ensures k < |items| ==> Faults(items[k])
  {
    if items == [] then 0
    else if Faults(items[0]) then 0
    else 1 + FaultIndex(items[1..])
  }

  /** The elements the loop handles before it returns or raises. */
  function Handled(items: seq<Element>): (h: seq<Element>)
    ensures FaultFree(h)
  {
    items[..FaultIndex(items)]
  }

  /** The records a batch contributes to topic `t`'s queue, in batch order. */
  function Routed(items: seq<Element>, t: string): seq<Record> {
    if items == [] then []
    else
      var e := items[|items| - 1];
      Routed(items[..|items| - 1], t) + (if RoutesTo(e, t) then [e.rec] else [])
  }

  /** The records of a batch that are queued, whatever their topic, in batch order. */
  function AcceptedRecords(items: seq<Element>): seq<Record> {
    if items == [] then []
    else
      var e := items[|items| - 1];
      AcceptedRecords(items[..|items| - 1]) + (if Accepted(e) then [e.rec] else [])
  }

  /** How many elements of a batch are queued. */
  function AcceptedCount(items: seq<Element>): nat {
    if items == [] then 0
    else AcceptedCount(items[..|items| - 1]) + (if Accepted(items[|items| - 1]) then 1 else 0)
  }

  /**
   * The error entries of a batch, one per rejected element, in batch order.
   * (A faulting element contributes none: the loop never gets past it.)
   */
  function Errors(items: seq<Element>): seq<string> {
    if items == [] then []
    else
      var e := items[|items| - 1];
      Errors(items[..|items| - 1])
        + (if Accepted(e) || Faults(e) then [] else [NotSupported(e.rec.topic)])
  }

  /** The response `log_handler` gives for a body. */
  function Respond(body: Body): Response {
    match body
    case Unparsable => InternalError
    case NotAList => BadRequest
    case Batch(items) =>
      if FaultIndex(items) < |items| then InternalError
      else
        var errors := Errors(items);
        if |errors| > 0 then MultiStatus(AcceptedCount(items), |errors|, errors)
        else Queued(AcceptedCount(items))
  }

  /** The per-topic queues, `topics_queues`. */
  class TopicQueues {
    var queues: map<string, seq<Record>>

    ghost predicate Valid()
      reads this
    {
      queues.Keys == TOPIC_SET
    }

    /** All queues are created empty, one per registered topic. */
    constructor ()
      ensures Valid()
      ensures forall t | t in TOPIC_SET :: queues[t] == []
    {
      queues := map t | t in TOPIC_SET :: [];
    }

    /**
     * `queue.get` on one topic's queue: the head record, which leaves the
     * queue. On an empty queue Python's `get` blocks; here it returns
     * None and nothing changes.
     */
    method Get(topic: string) returns (data: Option<Record>)
      requires Valid() && IsTopic(topic)
      modifies this
      ensures Valid()
      ensures old(queues)[topic] == [] ==> data == None && queues == old(queues)
      ensures old(queues)[topic] != [] ==>
        && data == Some(old(queues)[topic][0])
        && queues == old(queues)[topic := old(queues)[topic][1..]]
    {
      var pending := queues[topic];
      if pending == [] {
        return None;
      }
      data := Some(pending[0]);
      queues := queues[topic := pending[1..]];
    }

    /**
     * `log_handler`. Records with a known topic are put on their queue in batch
     * order; records before an element on which the loop raises stay queued
     * even though the response is then a 500.
     */
    method LogHandler(body: Body) returns (resp: Response)
      requires Valid()
      modifies this
      ensures Valid()
      ensures resp == Respond(body)
      ensures !body.Batch? ==> queues == old(queues)
      ensures body.Batch? ==>
        forall t | t in TOPIC_SET :: queues[t] == old(queues)[t] + Routed(Handled(body.items), t)
    {
      if !body.Batch? {
        resp := if body.NotAList? then BadRequest else InternalError;
        return;
      }
      var items := body.items;
      ghost var initial := queues;
      var processed, errorCount, errors := 0, 0, [];
      var i := 0;
      assert items[..0] == [];
      while i < |items|
        invariant 0 <= i <= |items|
        invariant Progress(items, i, queues, initial, processed, errors)
        invariant errorCount == |errors|
      {
        var e := items[i];
        if e.NonObject? || e.rec.topic.Unhashable? {
          FaultResponse(items, i, queues, initial, processed, errors);
          resp := InternalError;
          return;
        }
        var topic := e.rec.topic;
        if topic.Text? && topic.name in queues {
          PutAdvances(items, i, queues, initial, processed, errors);
          queues := queues[topic.name := queues[topic.name] + [e.rec]];
          processed := processed + 1;
        } else {
          RejectAdvances(items, i, queues, initial, processed, errors);
          errorCount := errorCount + 1;
          errors := errors + [NotSupported(topic)];
        }
        i := i + 1;
      }
      FinalResponse(items, queues, initial, processed, errors);
      if errorCount > 0 {
        resp := MultiStatus(processed, errorCount, errors);
      } else {
        resp := Queued(processed);
      }
    }
  }

  /**
   * What the loop has built once it has handled the whole batch: the
   * response `Respond` describes, and every queue extended by what the batch
   * routes to it.
   */
  lemma FinalResponse(items: seq<Element>, qs: map<string, seq<Record>>,
                      initial: map<string, seq<Record>>, processed: nat, errors: seq<string>)
    requires Progress(items, |items|, qs, initial, processed, errors)
    ensures qs.Keys == TOPIC_SET
    ensures forall t | t in TOPIC_SET :: qs[t] == initial[t] + Routed(Handled(items), t)
    ensures Respond(Batch(items))
      == if |errors| > 0 then MultiStatus(processed, |errors|, errors) else Queued(processed)
  {
    assert items[..|items|] == items;
    FaultIndexIsFirst(items, |items|);
    QueuesExtendedAll(qs, initial, items[..|items|]);
  }

  /**
   * What the loop has built when element `i` raises: a 500, and every queue
   * extended by what the elements before `i` route to it.
   */
  lemma FaultResponse(items: seq<Element>, i: nat, qs: map<string, seq<Record>>,
                      initial: map<string, seq<Record>>, processed: nat, errors: seq<string>)
    requires i < |items| && Faults(items[i])
    requires Progress(items, i, qs, initial, processed, errors)
    ensures qs.Keys == TOPIC_SET
    ensures forall t | t in TOPIC_SET :: qs[t] == initial[t] + Routed(Handled(items), t)
    ensures Respond(Batch(items)) == InternalError
  {
    FaultIndexIsFirst(items, i);
    QueuesExtendedAll(qs, initial, items[..i]);
  }

  /**
   * Every queue holds its initial content followed by what `prefix` routes
   * to it, written out for the three registered topics.
   */
  ghost predicate QueuesExtended(qs: map<string, seq<Record>>, initial: map<string, seq<Record>>,
                                 prefix: seq<Element>)
  {
    && qs.Keys == initial.Keys == TOPIC_SET
    && qs["Themes"] == initial["Themes"] + Routed(prefix, "Themes")
    && qs["topic2"] == initial["topic2"] + Routed(prefix, "topic2")
    && qs["base"] == initial["base"] + Routed(prefix, "base")
  }

  /** The three-topic form of `QueuesExtended` covers every registered topic. */
  lemma QueuesExtendedAll(qs: map<string, seq<Record>>, initial: map<string, seq<Record>>,
                          prefix: seq<Element>)
    requires QueuesExtended(qs, initial, prefix)
    ensures forall t | t in TOPIC_SET :: qs[t] == initial[t] + Routed(prefix, t)
  {
    forall t | t in TOPIC_SET
      ensures qs[t] == initial[t] + Routed(prefix, t)
    {
      RegisteredTopics(t);
    }
  }

  /** What the loop of `log_handler` has built once it has handled the first `i` elements. */
  ghost predicate Progress(items: seq<Element>, i: nat, qs: map<string, seq<Record>>,
                           initial: map<string, seq<Record>>, processed: nat, errors: seq<string>)
  {
    && i <= |items|
    && (forall j | 0 <= j < i :: !Faults(items[j]))
    && QueuesExtended(qs, initial, items[..i])
    && processed == AcceptedCount(items[..i])
    && errors == Errors(items[..i])
  }

  /** Putting an accepted element on its queue advances the loop by one element. */
  lemma PutAdvances(items: seq<Element>, i: nat, qs: map<string, seq<Record>>,
                    initial: map<string, seq<Record>>, processed: nat, errors: seq<string>)
    requires i < |items| && Accepted(items[i])
    requires Progress(items, i, qs, initial, processed, errors)
    ensures items[i].rec.topic.name in qs
    ensures Progress(items, i + 1,
                     qs[items[i].rec.topic.name := qs[items[i].rec.topic.name] + [items[i].rec]],
                     initial, processed + 1, errors)
  {
    PrefixStep(items, i);
    PutExtendsRouted(qs, qs[items[i].rec.topic.name := qs[items[i].rec.topic.name] + [items[i].rec]],
                     initial, items, i);
  }

  /** Reporting a rejected element advances the loop by one element. */
  lemma RejectAdvances(items: seq<Element>, i: nat, qs: map<string, seq<Record>>,
                       initial: map<string, seq<Record>>, processed: nat, errors: seq<string>)
    requires i < |items| && !Faults(items[i]) && !Accepted(items[i])
    requires Progress(items, i, qs, initial, processed, errors)
    ensures Progress(items, i + 1, qs, initial, processed, errors + [NotSupported(items[i].rec.topic)])
  {
    PrefixStep(items, i);
    PutExtendsRouted(qs, qs, initial, items, i);
  }

  /** Putting element i on its topic's queue extends each queue by what element i routes to it. */
  lemma PutExtendsRouted(before: map<string, seq<Record>>, after: map<string, seq<Record>>,
                         initial: map<string, seq<Record>>, items: seq<Element>, i: nat)
    requires i < |items| && !Faults(items[i])
    requires QueuesExtended(before, initial, items[..i])
    requires Accepted(items[i]) ==>
      after == before[items[i].rec.topic.name := before[items[i].rec.topic.name] + [items[i].rec]]
    requires !Accepted(items[i]) ==> after == before
    ensures QueuesExtended(after, initial, items[..i + 1])
  {
    RoutedStep(items, i);
    if Accepted(items[i]) {
      RegisteredTopics(items[i].rec.topic.name);
    }
  }

  /** How the records routed from a prefix extend by one element. */
  lemma RoutedStep(items: seq<Element>, i: nat)
    requires i < |items|
    ensures forall t :: (Routed(items[..i + 1], t)
      == Routed(items[..i], t) + (if RoutesTo(items[i], t) then [items[i].rec] else []))
  {
    assert items[..i + 1][..i] == items[..i];
  }

  /** How the counts and the error entries of a prefix extend by one element. */
  lemma PrefixStep(items: seq<Element>, i: nat)
    requires i < |items|
    ensures AcceptedCount(items[..i + 1])
      == AcceptedCount(items[..i]) + (if Accepted(items[i]) then 1 else 0)
    ensures !Faults(items[i]) ==> (Errors(items[..i + 1])
      == Errors(items[..i]) + (if Accepted(items[i]) then [] else [NotSupported(items[i].rec.topic)]))
  {
    assert items[..i + 1][..i] == items[..i];
  }

  /** The first faulting element is the only index with a fault-free prefix and a fault (or the end). */
  lemma FaultIndexIsFirst(items: seq<Element>, k: nat)
    requires k <= |items| && forall j | 0 <= j < k :: !Faults(items[j])
    requires k < |items| ==> Faults(items[k])
    ensures FaultIndex(items) == k
  {
  }

  /** Count conservation: every handled record is either queued or reported. */
  lemma {:induction false} CountsConserved(items: seq<Element>)
    requires FaultFree(items)
    ensures AcceptedCount(items) + |Errors(items)| == |items|
  {
    if items != [] {
      var init := items[..|items| - 1];
      assert forall j | 0 <= j < |init| :: init[j] == items[j];
      CountsConserved(init);
    }
  }

  /** The error entries of a prefix of the batch are a prefix of the batch's entries. */
  lemma {:induction false} ErrorsOfPrefix(items: seq<Element>, k: nat)
    requires k <= |items|
    ensures Errors(items[..k]) <= Errors(items)
    decreases |items|
  {
    if k < |items| {
      var init := items[..|items| - 1];
      assert init[..k] == items[..k];
      ErrorsOfPrefix(init, k);
    } else {
      assert items[..k] == items;
    }
  }

  /**
   * Errors appear in batch order: the rejected element at index k has its
   * entry "Topic '<topic>' not supported" right after the entries of the
   * elements before it.
   */
  lemma ErrorsInBatchOrder(items: seq<Element>, k: nat)
    requires k < |items| && !Accepted(items[k]) && !Faults(items[k])
    ensures |Errors(items[..k])| < |Errors(items)|
    ensures Errors(items)[|Errors(items[..k])|] == NotSupported(items[k].rec.topic)
  {
    ErrorsOfPrefix(items, k + 1);
    var p := items[..k + 1];
    assert p[..|p| - 1] == items[..k];
  }

  /** Accepted elements produce no error entry. */
  lemma {:induction false} NoErrorsWhenAllAccepted(items: seq<Element>)
    requires forall j | 0 <= j < |items| :: Accepted(items[j])
    ensures FaultFree(items)
    ensures Errors(items) == [] && AcceptedCount(items) == |items|
  {
    if items != [] {
      var init := items[..|items| - 1];
      assert forall j | 0 <= j < |init| :: init[j] == items[j];
      NoErrorsWhenAllAccepted(init);
    }
  }

  /** The records routed from a prefix of the batch are a prefix of those routed from the batch. */
  lemma {:induction false} RoutedOfPrefix(items: seq<Element>, t: string, k: nat)
    requires k <= |items|
    ensures Routed(items[..k], t) <= Routed(items, t)
    decreases |items|
  {
    if k < |items| {
      var init := items[..|items| - 1];
      assert init[..k] == items[..k];
      RoutedOfPrefix(init, t, k);
    } else {
      assert items[..k] == items;
    }
  }

  /**
   * FIFO routing: a record routed to topic t lands in t's contribution right
   * after the records for t that came before it in the batch.
   */
  lemma RoutedInBatchOrder(items: seq<Element>, t: string, k: nat)
    requires k < |items| && RoutesTo(items[k], t)
    ensures |Routed(items[..k], t)| < |Routed(items, t)|
    ensures Routed(items, t)[|Routed(items[..k], t)|] == items[k].rec
  {
    RoutedOfPrefix(items, t, k + 1);
    var p := items[..k + 1];
    assert p[..|p| - 1] == items[..k];
  }

  /** Every routed record carries the topic it was routed to. */
  lemma {:induction false} RoutedCarryTopic(items: seq<Element>, t: string)
    ensures forall r | r in Routed(items, t) :: r.topic == Text(t) && IsTopic(t)
  {
    if items != [] {
      RoutedCarryTopic(items[..|items| - 1], t);
    }
  }

  /** A topic no element of the batch names gets nothing: its queue is unchanged. */
  lemma {:induction false} RoutedEmptyWithoutMatch(items: seq<Element>, t: string)
    requires forall j | 0 <= j < |items| :: !RoutesTo(items[j], t)
    ensures Routed(items, t) == []
  {
    if items != [] {
      var init := items[..|items| - 1];
      assert forall j | 0 <= j < |init| :: init[j] == items[j];
      RoutedEmptyWithoutMatch(init, t);
    }
  }

  /** What the last element of a batch adds to topic `t`'s share, as a multiset. */
  lemma RoutedLast(items: seq<Element>, t: string)
    requires items != []
    ensures var e := items[|items| - 1];
      multiset(Routed(items, t))
      == multiset(Routed(items[..|items| - 1], t)) + (if RoutesTo(e, t) then multiset{e.rec} else multiset{})
  {
  }

  /** The three queues' shares together are the accepted records, as a multiset. */
  lemma {:induction false} RoutedPartition(items: seq<Element>)
    ensures multiset(Routed(items, "Themes")) + multiset(Routed(items, "topic2"))
            + multiset(Routed(items, "base"))
            == multiset(AcceptedRecords(items))
  {
    if items != [] {
      var init, e := items[..|items| - 1], items[|items| - 1];
      RoutedPartition(init);
      RoutedLast(items, "Themes");
      RoutedLast(items, "topic2");
      RoutedLast(items, "base");
      assert multiset(AcceptedRecords(items))
             == multiset(AcceptedRecords(init)) + (if Accepted(e) then multiset{e.rec} else multiset{});
      if Accepted(e) {
        RegisteredTopics(e.rec.topic.name);
      }
    }
  }

  /** One accepted record per processed count. */
  lemma {:induction false} AcceptedRecordsCounted(items: seq<Element>)
    ensures |AcceptedRecords(items)| == AcceptedCount(items)
  {
    if items != [] {
      AcceptedRecordsCounted(items[..|items| - 1]);
    }
  }

  /**
   * The three queues together receive exactly the accepted records, each
   * once, and as many as the processed count says.
   */
  lemma RoutedTotal(items: seq<Element>)
    ensures multiset(Routed(items, "Themes")) + multiset(Routed(items, "topic2"))
            + multiset(Routed(items, "base"))
            == multiset(AcceptedRecords(items))
    ensures |AcceptedRecords(items)| == AcceptedCount(items)
    ensures |Routed(items, "Themes")| + |Routed(items, "topic2")| + |Routed(items, "base")|
            == AcceptedCount(items)
  {
    RoutedPartition(items);
    AcceptedRecordsCounted(items);
    assert |multiset(AcceptedRecords(items))| == |AcceptedRecords(items)|;
  }

  /**
   * The status rule: 400 exactly for a non-list body; for a list without a
   * faulting element, 207 exactly when some record was rejected, else 202, and
   * the reported counts add up to the batch length.
   */
  lemma StatusRule(body: Body)
    ensures StatusCode(Respond(body)) == 400 <==> body.NotAList?
    ensures body.Batch? && FaultFree(body.items) ==>
      var items := body.items;
      && (StatusCode(Respond(body)) == 207 <==> |Errors(items)| > 0)
      && (StatusCode(Respond(body)) == 202 <==> |Errors(items)| == 0)
      && (Respond(body).MultiStatus? ==>
            Respond(body).processed + Respond(body).errorCount == |items|
            && Respond(body).errors == Errors(items))
      && (Respond(body).Queued? ==> Respond(body).processed == |items|)
  {
    if body.Batch? && FaultFree(body.items) {
      FaultIndexIsFirst(body.items, |body.items|);
      assert body.items[..|body.items|] == body.items;
      CountsConserved(body.items);
    }
  }

  /** A batch whose every topic is known is queued in full with no errors. */
  lemma AllKnownTopicsQueued(items: seq<Element>)
    requires forall j | 0 <= j < |items| :: Accepted(items[j])
    ensures Respond(Batch(items)) == Queued(|items|)
  {
    NoErrorsWhenAllAccepted(items);
    assert items[..|items|] == items;
    FaultIndexIsFirst(items, |items|);
  }

  /** A single record with an unknown topic: a 207 naming it, and nothing queued. */
  lemma UnknownTopicReported(json: string)
    ensures Respond(Batch([Object(Record(Text("unknown"), json))]))
            == MultiStatus(0, 1, ["Topic 'unknown' not supported"])
    ensures forall t :: Routed([Object(Record(Text("unknown"), json))], t) == []
  {
    var items := [Object(Record(Text("unknown"), json))];
    assert items[..1] == items;
    assert !IsTopic("unknown") by {
      assert "unknown"[0] != "Themes"[0] && "unknown"[0] != "topic2"[0] && "unknown"[0] != "base"[0];
    }
    assert NotSupported(Text("unknown")) == "Topic 'unknown' not supported";
    FaultIndexIsFirst(items, 1);
    assert items[..0] == [];
    assert Errors(items) == ["Topic 'unknown' not supported"];
    assert AcceptedCount(items) == 0;
  }

  /**
   * An element the loop cannot handle makes the response a 500, yet every
   * queue has already received what the elements before it route to it.
   */
  lemma FaultAfterQueuedRecord(items: seq<Element>, k: nat)
    requires k < |items| && Faults(items[k])
    requires forall j | 0 <= j < k :: !Faults(items[j])
    ensures Respond(Batch(items)) == InternalError
    ensures forall t :: Routed(Handled(items), t) == Routed(items[..k], t)
  {
    FaultIndexIsFirst(items, k);
  }
}
