/**
 * The fixed topic table of the ingestion service and the shape of the
 * records submitted to it (app.py:22-26).
 */
module Registry {

  /** The keys of `topics_queues`, in their insertion order. */
  const TOPICS: seq<string> := ["Themes", "topic2", "base"]

  /** The same keys as a set: the only topics the service accepts. */
  const TOPIC_SET: set<string> := set t | t in TOPICS

  /** `topic in topics_queues` for a string topic. */
  predicate IsTopic(name: string) {
    name in TOPIC_SET
  }

  /** What `data.get('topic')` finds in a submitted JSON object. */
  datatype TopicField =
    | Absent                 // no "topic" key, or JSON null: Python sees None
    | Text(name: string)     // a JSON string
    | Scalar(shown: string)  // a number or a boolean, with its Python str() rendering
    | Unhashable             // a JSON array or object: `in` on a dict raises TypeError

  /**
   * A JSON object submitted in a batch. Only the topic field is interpreted;
   * `json` is the line `json.dump` writes for the whole object, which is
   * persisted verbatim.
   */
  datatype Record = Record(topic: TopicField, json: string)

  /** The serialized form of a record, without its terminating newline. */
  function Serialize(r: Record): string {
    r.json
  }

  /** How an f-string renders a topic field that can be rendered. */
  function Shown(f: TopicField): string
    requires !f.Unhashable?
  {
    match f
    case Absent => "None"
    case Text(name) => name
    case Scalar(shown) => shown
  }

  /** The error entry `log_handler` reports for a record it rejects. */
  function NotSupported(f: TopicField): string
    requires !f.Unhashable?
  {
    "Topic '" + Shown(f) + "' not supported"
  }

  /** The registered topics are exactly the three keys of the table. */
  lemma RegisteredTopics(t: string)
    ensures IsTopic(t) <==> t == "Themes" || t == "topic2" || t == "base"
  {
  }

  /** No registered topic contains a path separator. */
  lemma TopicsHaveNoSlash(t: string)
    requires IsTopic(t)
    ensures '/' !in t
  {
  }
}
