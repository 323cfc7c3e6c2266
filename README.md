# Ingestion and authorization core of a small logging service

The service (a single Flask application, `app.py`) accepts batches of JSON
records on `/log`. It routes each record by its `topic` field to one of
three per-topic FIFO queues (`Themes`, `topic2`, `base`). It reports one
error entry per record whose topic it does not know, and answers 202, 207,
400 or 500. Worker threads take records off the queues and append each one
as a JSON line to `./data/<topic>/<date>/<date>.json`. A daily job converts
yesterday's file of each topic to `<date>.parquet` in the same directory
and keeps the source file. `/validate_user` checks a username against an
allow-list. The allow-list is read from `./users_config.json` and reloaded
lazily when the file's modification time moves past the cached one.

This project models that core in Dafny:

- `Registry` (registry.dfy): the fixed topic table and the shape of a
  submitted record. A record has a topic field (absent or null, a string,
  another scalar, or an unhashable array or object) and the JSON text that
  is written for it.
- `Dispatch` (dispatch.dfy): the `log_handler` loop as a method of a
  `TopicQueues` class that owns a `map<string, seq<Record>>`, plus the
  specification functions `Routed`, `Errors`, `AcceptedCount` and `Respond`
  and the lemmas about them.
- `ConfigCache` (config_cache.dfy): `load_user_config`, `validate_user` and
  `validate_user_handler` as methods of a `UserCache` class holding the
  cached modification time and user list. The config file is an input value
  (missing, or modification time plus parse outcome plus document, where a
  document is JSON null, another non-object, or an object). Each
  method is tied to a pure function (`Reload`, `Authorize`,
  `HandleValidate`), and the hot-reload rules are lemmas about those
  functions.
- `Storage` (storage.dfy): path derivation. It also has a `FileSystem`
  class with `logs`, a map from path to lines, and `archives`, a map from
  Parquet path to the rows it was built from. `process_data`,
  `compress_to_parquet` and one run of the loop in `schedule_compression`
  are its methods.
- `Worker` (worker.dfy): one step of `queue_worker`, and the FIFO lemma for
  repeated steps.

Inputs that come from outside the program are parameters:

- the date string that `datetime.now().strftime` would give;
- whether a file write succeeds (`writable`);
- whether the pandas/pyarrow conversion succeeds (`converts`, or the set
  `broken` of topics whose conversion raises);
- the state of the config file.

## Model

| member | source | states |
|---|---|---|
| `Registry.Serialize` | app.py:90 | the line `json.dump` writes for a record, carried by the record itself |
| `Registry.IsTopic` | app.py:180 | a string topic is accepted exactly when it is a key of `topics_queues` |
| `Registry.Shown` | app.py:185 | how a topic value is printed into an error entry: `None` when absent or null, the string itself, or the scalar's Python text |
| `Registry.NotSupported` | app.py:185 | the error entry `Topic '<topic>' not supported` for a rejected record |
| `Registry.RegisteredTopics` | app.py:22-26 | the registered topics are exactly `Themes`, `topic2` and `base` |
| `Registry.TopicsHaveNoSlash` | app.py:22-26 | no registered topic contains a path separator, so a topic is always one directory level |
| `Dispatch.StatusCode` | app.py:172-196 | the HTTP status of each response: 400 at line 172, 207 at 191, 202 at 193, 500 at 196 |
| `Dispatch.Faults` | app.py:179-180 | the two ways the loop raises: `data.get` on an element that is not an object, and `in` on a topic that is an array or object |
| `Dispatch.Accepted` | app.py:180 | `topic in topics_queues` for every topic value: only a string naming a registered topic is accepted; absent, null and other scalars are not |
| `Dispatch.RoutesTo` | app.py:180-181 | an element is put on topic t's queue exactly when it is accepted and its topic is t |
| `Dispatch.FaultIndex` | app.py:178-180 | the index of the first batch element on which the loop raises (not an object, or an unhashable topic), or the batch length; every element before it is handled |
| `Dispatch.Handled` | app.py:178-180 | the elements the loop gets through before it returns or raises contain no faulting element |
| `Dispatch.Routed` | app.py:178-182 | the records of the batch whose topic is t, in batch order: what the loop puts on t's queue |
| `Dispatch.AcceptedRecords` | app.py:178-182 | the records that take the `put` branch, whatever their queue, in batch order |
| `Dispatch.AcceptedCount` | app.py:178-182 | the number of records with a registered topic: the loop's processed count |
| `Dispatch.Errors` | app.py:178-185 | one `Topic '<topic>' not supported` entry per record with an unregistered topic, in batch order |
| `Dispatch.Respond` | app.py:169-196 | the response to a body: 500 when it does not parse or an element faults, 400 for a non-list, 207 with counts and errors when some topic is unknown, 202 with the count otherwise |
| `Dispatch.TopicQueues.constructor` | app.py:22-26 | one empty queue per registered topic, and no other queue |
| `Dispatch.TopicQueues.Get` | app.py:127 | the head record leaves its topic's queue and no other queue changes; on an empty queue nothing changes |
| `Dispatch.TopicQueues.LogHandler` | app.py:164-196 | the response is `Respond(body)`; a non-list or unparsable body changes no queue; for a list, every queue becomes its old content followed by the records routed to it from the elements handled before any fault, in batch order, so queues with no matching record are unchanged |
| `Dispatch.PutExtendsRouted` | app.py:180-182 | putting one accepted record on its queue extends exactly that queue by that record |
| `Dispatch.FinalResponse` | app.py:178-193 | once the loop has handled the whole batch, its counts and error list give the response `Respond` describes, and every queue is its old content followed by what the batch routes to it |
| `Dispatch.FaultResponse` | app.py:178-196 | when element i raises, the response is 500 and every queue is its old content followed by what the elements before i route to it |
| `Dispatch.CountsConserved` | app.py:174-185 | for a batch without a faulting element, processed count plus error count equals the batch length |
| `Dispatch.ErrorsOfPrefix` | app.py:183-185 | the error entries of a prefix of the batch are a prefix of the batch's error entries |
| `Dispatch.ErrorsInBatchOrder` | app.py:183-185 | a rejected record at index k has the entry `Topic '<topic>' not supported` at the position right after the entries of the records before it |
| `Dispatch.NoErrorsWhenAllAccepted` | app.py:180-182 | a batch whose every topic is known produces no error entry and counts every record |
| `Dispatch.RoutedOfPrefix` | app.py:180-182 | what a prefix of the batch routes to a topic is a prefix of what the whole batch routes to it |
| `Dispatch.RoutedInBatchOrder` | app.py:180-182 | a record routed to topic t lands in t's queue right after the records for t that came before it in the batch (FIFO) |
| `Dispatch.RoutedCarryTopic` | app.py:179-181 | every record routed to a queue carries that queue's topic, and the topic is registered |
| `Dispatch.RoutedEmptyWithoutMatch` | app.py:180-181 | a topic that no element names receives nothing, so its queue is unchanged |
| `Dispatch.RoutedTotal` | app.py:180-182 | the three queues together receive exactly the accepted records: the union of their contributions is the multiset of accepted records, and their sizes add up to the processed count |
| `Dispatch.StatusRule` | app.py:171-172 | 400 exactly for a non-list body; for a list without a faulting element, 207 exactly when there is an error entry and 202 exactly when there is none; a 207 carries counts summing to the batch length and the errors in order, and a 202 counts every record |
| `Dispatch.AllKnownTopicsQueued` | app.py:187-193 | a batch whose every topic is known is answered 202 with the batch length as its count |
| `Dispatch.UnknownTopicReported` | app.py:183-191 | a single record with topic `unknown` gives 207 with errors `["Topic 'unknown' not supported"]` and routes nothing to any queue |
| `Dispatch.FaultAfterQueuedRecord` | app.py:178-196 | in any batch, when element k is the first one the loop cannot handle, the response is 500 while every queue has already received what the elements before k route to it |
| `ConfigCache.Member` | app.py:56-59 | `username in` the list: only a string can be a member |
| `ConfigCache.Given` | app.py:72 | the username is truthy: present, and a non-empty string or a truthy other value |
| `ConfigCache.Reload` | app.py:31-48 | the returned config is present only if the file exists, is strictly newer than the cached time, and parses; the cached time then becomes the file's time; otherwise the time is kept; it never decreases. A file holding JSON null comes back as the document `Null`: `load_user_config` returns None there, but only after advancing the time |
| `ConfigCache.Authorize` | app.py:50-59 | the cached time is the one `Reload` leaves, and any answer is membership of the user in the list the check ends with; nothing loaded or a null document answers from the previous list, an object replaces the list, any other document raises |
| `ConfigCache.HandleValidate` | app.py:66-77 | a missing or empty username gives 400 and leaves the cache untouched; otherwise the cache becomes what `Authorize` leaves; the status is one of 200, 400, 403, 500 |
| `ConfigCache.UserCache.constructor` | app.py:29 | the cached time starts at 0 and the cached list is empty |
| `ConfigCache.UserCache.LoadUserConfig` | app.py:31-48 | the new cached time and the returned config are those of `Reload` on the old cached time |
| `ConfigCache.UserCache.ValidateUser` | app.py:50-59 | the new cache and the answer are those of `Authorize` on the old cache |
| `ConfigCache.UserCache.ValidateUserHandler` | app.py:66-77 | the new cache and the status are those of `HandleValidate` on the old cache |
| `ConfigCache.ReloadWhenNewer` | app.py:37-43 | a present, strictly newer, parsable file is always loaded and its time cached |
| `ConfigCache.NoReloadOtherwise` | app.py:44-48 | a missing, not newer, or unparsable file returns None and keeps the cached time |
| `ConfigCache.ReloadIdempotent` | app.py:37-41 | checking the same file again right after a check loads nothing |
| `ConfigCache.LoadReplacesWholesale` | app.py:57-59 | a successful load replaces the list with the file's `valid_users`, empty when the key is missing, whatever the previous list was |
| `ConfigCache.StaleSourceKeepsCache` | app.py:55-56 | when nothing is loaded the previous list answers and the cache is unchanged |
| `ConfigCache.ParseFailureIsRetried` | app.py:38-47 | a parse failure leaves the cache as it was, so the next check of that same file loads it once it parses |
| `ConfigCache.NullConfigKeepsListAndAdvances` | app.py:40-56 | a newer file holding JSON null advances the cached time, keeps the previous list and answers from it, so the handler gives 200 or 403 and never 500 |
| `ConfigCache.NonObjectConfigIsSkippedAfterOneFault` | app.py:41-58 | a file that is JSON but neither an object nor null advances the cached time and makes that one check fail with 500; later checks of that file use the previous list |
| `ConfigCache.HandlerStatusRule` | app.py:71-77 | 400 exactly when the username is missing or empty; otherwise 200 exactly when the user is in the resulting list, 403 exactly when not, 500 exactly when the check raised |
| `ConfigCache.AliceThenBob` | app.py:50-77 | with `{"valid_users": ["alice"]}`, alice gets 200 and loads the list, then bob gets 403 |
| `Storage.DailyDirectory` | app.py:84-85 | the directory `./data/<topic>/<date>` |
| `Storage.DailyLogPath` | app.py:84-86 | the daily log `./data/<topic>/<date>/<date>.json` |
| `Storage.ArchivePath` | app.py:104-107 | the archive `./data/<topic>/<date>/<date>.parquet` beside yesterday's log |
| `Storage.Compacted` | app.py:109-112 | the archives after converting one topic's log for a date: its rows stored at the archive path when the log exists and converts, otherwise unchanged |
| `Storage.CompactedAll` | app.py:138-139 | the archives after converting each topic of a list in turn |
| `Storage.FileLines` | app.py:89 | the lines of a file; opening a missing file in append mode starts from no lines |
| `Storage.Appended` | app.py:89-91 | appending creates the file if needed, adds exactly the one line at its end, and leaves every other file as it was |
| `Storage.FileSystem.ProcessData` | app.py:79-97 | a successful call appends the record's serialized line to `./data/<topic>/<date>/<date>.json` and changes nothing else; a failed write changes nothing |
| `Storage.FileSystem.CompressToParquet` | app.py:99-119 | when yesterday's log exists and converts, the archive beside it holds the log's rows; otherwise nothing changes; the log files are never changed or removed |
| `Storage.FileSystem.ScheduleCompression` | app.py:137-139 | one run converts every registered topic in turn; the logs are unchanged |
| `Storage.FirstSlashAfter` | app.py:85-86 | after a slash-free path component the first separator is the one that ends it |
| `Storage.SplitAtSlash` | app.py:85-86 | a path that starts with a slash-free component determines that component and the rest |
| `Storage.DatedPathInjective` | app.py:85-86 | for one extension, distinct slash-free (topic, date) pairs give distinct paths |
| `Storage.DailyLogPathInjective` | app.py:84-86 | two log writes land in the same file only for the same topic and date |
| `Storage.ArchivePathInjective` | app.py:104-107 | two topics' archives for one date are different files |
| `Storage.ArchiveBesideLog` | app.py:104-107 | the log path ends in `.json`; the archive path is the log path with that extension replaced by `.parquet`, in the same directory |
| `Storage.ArchiveIsNeverALog` | app.py:106-107 | no archive path is ever a log path, so compaction never overwrites a log |
| `Storage.CompactionIdempotent` | app.py:109-113 | converting the same date twice leaves the archives as converting it once |
| `Storage.CompactionRunIsolated` | app.py:138-139 | after a run, every topic that has a log and converts has its archive with the log's rows, whatever failed for other topics |
| `Storage.MissingLogSkipped` | app.py:109 | a run in which no topic has a log for the date leaves the archives exactly as they were |
| `Storage.MissingTopicLogSkipped` | app.py:109 | a topic without a log for the date keeps its archive as it was, absent or with its old rows, whatever the run does for the other topics |
| `Worker.Lines` | app.py:89-91 | the lines repeated appends of the records write, one per record, in order |
| `Worker.Step` | app.py:127-128 | one successful worker step: the queue loses its head and the file gains that record's line |
| `Worker.Drain` | app.py:125-129 | n successful worker steps on one queue and its file |
| `Worker.QueueWorkerStep` | app.py:125-131 | a step on a non-empty queue removes its head and, if the write succeeds, appends that record's line to the topic's file of the day, which is `Step` on the queue and the file; a failed write loses the record; no other queue or file changes |
| `Worker.LinesConcat` | app.py:89-91 | the lines of two record sequences written one after the other |
| `Worker.DrainWritesInEnqueueOrder` | app.py:125-129 | n successful steps remove the first n records and append their lines to the file in queue order (FIFO) |
| `Worker.BatchWrittenInOrder` | app.py:180-181 | after a batch is dispatched, draining a topic's queue writes the records already pending, then the batch's records for that topic in batch order |
| `Worker.OtherTopicsFilesUntouched` | app.py:84-91 | a step for one topic leaves every other topic's file for the day unchanged |

## Left out

- Flask routing, `request`, `jsonify` and the message texts of the
  payloads, such as `Processed N items, with M errors`. A handler returns
  a `Response` value or a status code carrying the counts and error list.
- The health probe `GET /`, which always returns 200.
- The global error handler (app.py:199-205), except that a raised check in
  `validate_user` is reported as status 500.
- The `/validate_user` request body that is not a JSON object. The model
  starts from the value of its `username` field.
- `valid_users` values that are not lists of strings. Python would use
  `in` on whatever they are. A `"valid_users": null` entry is also left
  out: `.get` returns None there and the next `in` raises.
- `get_template` (app.py:144-162): plain file serving.
- The thread pool, the blocking behaviour of `queue.Queue.get`,
  `task_done`, and the `while True` loop of `queue_worker`. Only one
  dequeue-and-append step is modelled.
- `TopicQueues.Get`: where `queue.get` in app.py would block on an empty queue, it
  returns None and changes nothing.
- `Worker.QueueWorkerStep`: on an empty queue it returns false and changes
  nothing, because the blocking `get` is not modelled.
- The `threading.Timer` rescheduling in `schedule_compression`. One run of
  its loop over the topics is modelled.
- `datetime.now()`, `timedelta` and `strftime`. Today's and yesterday's
  date strings are parameters.
- JSON serialization: a record carries the line `json.dump` writes for it.
- The pandas/pyarrow conversion. An archive is represented by the rows of
  the log it came from, and whether the conversion succeeds is a parameter.
  A partially written Parquet file after a failed write is not modelled.
- `os.makedirs`: directories are implicit in the path-to-lines map. A write
  failure after the directory was created is modelled only as "no file
  changed".
- Partial writes of a line, and the `print` logging of every error.
- The preload of the allow-list in the `__main__` block (app.py:213-215).
  It differs from the first check in two ways. A config whose parsed value
  is falsy (`{}`, `[]`, `0`, `""`, `false`, `null`) is not stored, but the
  time still advances, so no later check fails on that file. A truthy
  non-object such as `["alice"]` raises at app.py:215; the exception is
  caught at app.py:226, so no worker, no compaction and no server is
  started.
- Concurrency between handlers, workers and the compaction job.
- A maximum size for daily files: `app.py` has no size check, so appends
  are unbounded. Records are queued, so a 202 or 207 only says that a
  record was queued, not that it was written.

## Notes on the code as written

- A batch element that is not an object, or whose topic is a JSON array or
  object, makes the handler answer 500. The records before it have already
  been put on their queues, and the 500 does not undo that. This holds for
  every batch and every first faulting element (`Dispatch.FaultAfterQueuedRecord`).
- A config file that is valid JSON but neither an object nor null advances
  the cached modification time before `validate_user` fails on it. Only that one
  check fails with 500. Later checks use the previous list until the file
  changes again (`ConfigCache.NonObjectConfigIsSkippedAfterOneFault`).
- A config file holding JSON null also advances the cached time, but
  `load_user_config` returns None for it, so the check answers from the
  previous list and the file is never loaded until it changes again
  (`ConfigCache.NullConfigKeepsListAndAdvances`).
