/**
 * The daily log files and their Parquet archives (app.py:79-119, 133-142):
 * path derivation, the one-line append of `process_data`, and the
 * yesterday-to-archive conversion of `compress_to_parquet`.
 */
module Storage {
  import opened Registry

  /** `./data/<topic>/<date>`, the directory of one topic's day. */
  function DailyDirectory(topic: string, date: string): string {
    "./data/" + topic + "/" + date
  }

  /** `./data/<topic>/<date>/<date>.json`, the newline-delimited JSON log of that day. */
  function DailyLogPath(topic: string, date: string): string {
    DailyDirectory(topic, date) + "/" + date + ".json"
  }

  /** `./data/<topic>/<date>/<date>.parquet`, the archive of that day. */
  function ArchivePath(topic: string, date: string): string {
    DailyDirectory(topic, date) + "/" + date + ".parquet"
  }

  /** The lines of a text file; opening in append mode creates a missing file empty. */
  function FileLines(files: map<string, seq<string>>, path: string): seq<string> {
    if path in files then files[path] else []
  }

  /** The files after one line is appended to `path`: that file grows by the line, no other changes. */
  function Appended(files: map<string, seq<string>>, path: string, line: string): (r: map<string, seq<string>>)
    ensures r.Keys == files.Keys + {path}
    ensures r[path] == FileLines(files, path) + [line]
    ensures forall p | p in files && p != path :: r[p] == files[p]
  {
    files[path := FileLines(files, path) + [line]]
  }

  /**
   * The archives after converting `topic`'s log of `date`: when the log
   * exists and the conversion succeeds, the archive holds the log's rows;
   * otherwise nothing changes.
   */
  function Compacted(logs: map<string, seq<string>>, archives: map<string, seq<string>>,
                     topic: string, date: string, converts: bool): map<string, seq<string>>
  {
    var source := DailyLogPath(topic, date);
    if converts && source in logs then archives[ArchivePath(topic, date) := logs[source]]
    else archives
  }

  /** The archives after converting the log of `date` for each topic of `topics` in turn. */
  function CompactedAll(logs: map<string, seq<string>>, archives: map<string, seq<string>>,
                        topics: seq<string>, date: string, broken: set<string>): map<string, seq<string>>
  {
    if topics == [] then archives
    else
      var last := topics[|topics| - 1];
      Compacted(logs, CompactedAll(logs, archives, topics[..|topics| - 1], date, broken),
                last, date, last !in broken)
  }

  /**
   * The file system as the service sees it. Text files are sequences of
   * lines; a Parquet file is represented by the rows it was converted from.
   */
  class FileSystem {
    var logs: map<string, seq<string>>
    var archives: map<string, seq<string>>

    constructor (logs0: map<string, seq<string>>, archives0: map<string, seq<string>>)
      ensures logs == logs0 && archives == archives0
    {
      logs := logs0;
      archives := archives0;
    }

    /**
     * `process_data`: append the record's JSON line to today's file of its
     * topic. When the write fails (`writable` false) the error is only
     * logged and no file changes.
     */
    method ProcessData(topic: string, data: Record, date: string, writable: bool)
      modifies this`logs
      ensures logs == if writable then Appended(old(logs), DailyLogPath(topic, date), Serialize(data))
                      else old(logs)
    {
      if !writable {
        return;
      }
      var filename := DailyLogPath(topic, date);
      logs := logs[filename := FileLines(logs, filename) + [Serialize(data)]];
    }

    /**
     * `compress_to_parquet` for the date `yesterday`: convert the log when it
     * exists; `converts` says whether reading and writing the table succeed.
     * The source log is never removed.
     */
    method CompressToParquet(topic: string, yesterday: string, converts: bool)
      modifies this`archives
      ensures archives == Compacted(logs, old(archives), topic, yesterday, converts)
      ensures logs == old(logs)
    {
      var sourceFilename := DailyLogPath(topic, yesterday);
      var targetFilename := ArchivePath(topic, yesterday);
      if sourceFilename in logs && converts {
        archives := archives[targetFilename := logs[sourceFilename]];
      }
    }

    /**
     * One run of `schedule_compression`: every registered topic in turn; a
     * topic in `broken` fails to convert, which stops no other topic.
     */
    method ScheduleCompression(yesterday: string, broken: set<string>)
      modifies this`archives
      ensures archives == CompactedAll(logs, old(archives), TOPICS, yesterday, broken)
      ensures logs == old(logs)
    {
      var i := 0;
      while i < |TOPICS|
        invariant 0 <= i <= |TOPICS|
        invariant archives == CompactedAll(logs, old(archives), TOPICS[..i], yesterday, broken)
      {
        assert TOPICS[..i + 1][..i] == TOPICS[..i];
        CompressToParquet(TOPICS[i], yesterday, TOPICS[i] !in broken);
        i := i + 1;
      }
      assert TOPICS[..i] == TOPICS;
    }
  }

  /** The index of the first path separator of a string that has one. */
  function FirstSlash(s: string): (k: nat)
    requires '/' in s
    ensures k < |s| && s[k] == '/'
  {
    if s[0] == '/' then 0 else 1 + FirstSlash(s[1..])
  }

  /** After a slash-free head, the first separator is the one that follows it. */
  lemma {:induction false} FirstSlashAfter(a: string, x: string)
    requires '/' !in a
    ensures FirstSlash(a + "/" + x) == |a|
  {
    if a != [] {
      assert (a + "/" + x)[1..] == a[1..] + "/" + x;
      FirstSlashAfter(a[1..], x);
    }
  }

  /** Splitting at the first separator: a slash-free head is determined by the string. */
  lemma SplitAtSlash(a: string, x: string, b: string, y: string)
    requires '/' !in a && '/' !in b
    requires a + "/" + x == b + "/" + y
    ensures a == b && x == y
  {
    FirstSlashAfter(a, x);
    FirstSlashAfter(b, y);
    assert a == (a + "/" + x)[..|a|];
    assert b == (b + "/" + y)[..|b|];
    assert x == (a + "/" + x)[|a| + 1..];
    assert y == (b + "/" + y)[|b| + 1..];
  }

  /** Distinct (topic, date) pairs without separators name distinct files of one extension. */
  lemma DatedPathInjective(t1: string, d1: string, t2: string, d2: string, ext: string)
    requires '/' !in t1 && '/' !in t2 && '/' !in d1 && '/' !in d2
    requires DailyDirectory(t1, d1) + "/" + d1 + ext == DailyDirectory(t2, d2) + "/" + d2 + ext
    ensures t1 == t2 && d1 == d2
  {
    var p1 := "./data/" + t1 + "/" + d1 + "/" + d1 + ext;
    var p2 := "./data/" + t2 + "/" + d2 + "/" + d2 + ext;
    assert p1[7..] == t1 + "/" + (d1 + "/" + d1 + ext);
    assert p2[7..] == t2 + "/" + (d2 + "/" + d2 + ext);
    SplitAtSlash(t1, d1 + "/" + d1 + ext, t2, d2 + "/" + d2 + ext);
    assert d1 + "/" + d1 + ext == d1 + "/" + (d1 + ext);
    assert d2 + "/" + d2 + ext == d2 + "/" + (d2 + ext);
    SplitAtSlash(d1, d1 + ext, d2, d2 + ext);
  }

  /** Two log writes land in the same file only for the same topic and day. */
  lemma DailyLogPathInjective(t1: string, d1: string, t2: string, d2: string)
    requires '/' !in t1 && '/' !in t2 && '/' !in d1 && '/' !in d2
    requires DailyLogPath(t1, d1) == DailyLogPath(t2, d2)
    ensures t1 == t2 && d1 == d2
  {
    DatedPathInjective(t1, d1, t2, d2, ".json");
  }

  /** Two topics' archives of one day are different files. */
  lemma ArchivePathInjective(t1: string, d1: string, t2: string, d2: string)
    requires '/' !in t1 && '/' !in t2 && '/' !in d1 && '/' !in d2
    requires ArchivePath(t1, d1) == ArchivePath(t2, d2)
    ensures t1 == t2 && d1 == d2
  {
    DatedPathInjective(t1, d1, t2, d2, ".parquet");
  }

  /**
   * The archive sits in the log's directory and differs from the log's path
   * only in its extension.
   */
  lemma ArchiveBesideLog(topic: string, date: string)
    ensures |DailyLogPath(topic, date)| >= 5
    ensures DailyLogPath(topic, date)[|DailyLogPath(topic, date)| - 5..] == ".json"
    ensures ArchivePath(topic, date) == DailyLogPath(topic, date)[..|DailyLogPath(topic, date)| - 5] + ".parquet"
    ensures ArchivePath(topic, date)[..|DailyDirectory(topic, date)| + 1] == DailyDirectory(topic, date) + "/"
  {
  }

  /** No archive is ever a log file, so compaction never writes over a log. */
  lemma ArchiveIsNeverALog(t1: string, d1: string, t2: string, d2: string)
    ensures ArchivePath(t1, d1) != DailyLogPath(t2, d2)
  {
    var a := ArchivePath(t1, d1);
    var l := DailyLogPath(t2, d2);
    assert a[|a| - 1] == 't' && l[|l| - 1] == 'n';
  }

  /** Converting the same day twice leaves the archives as converting it once. */
  lemma CompactionIdempotent(logs: map<string, seq<string>>, archives: map<string, seq<string>>,
                             topic: string, date: string, converts: bool)
    ensures Compacted(logs, Compacted(logs, archives, topic, date, converts), topic, date, converts)
            == Compacted(logs, archives, topic, date, converts)
  {
  }

  /**
   * After a run, each topic that converts and has a log for the day has an
   * archive holding that log's rows, whatever happened to the other topics.
   */
  lemma {:induction false} CompactionRunIsolated(logs: map<string, seq<string>>,
                                                 archives: map<string, seq<string>>,
                                                 topics: seq<string>, date: string,
                                                 broken: set<string>, t: string)
    requires forall k | 0 <= k < |topics| :: '/' !in topics[k]
    requires '/' !in date && t in topics && t !in broken && DailyLogPath(t, date) in logs
    ensures ArchivePath(t, date) in CompactedAll(logs, archives, topics, date, broken)
    ensures CompactedAll(logs, archives, topics, date, broken)[ArchivePath(t, date)]
            == logs[DailyLogPath(t, date)]
  {
    var init := topics[..|topics| - 1];
    var last := topics[|topics| - 1];
    if last == t {
    } else {
      assert t in init by {
        var k :| 0 <= k < |topics| && topics[k] == t;
        assert init[k] == t;
      }
      CompactionRunIsolated(logs, archives, init, date, broken, t);
      if ArchivePath(last, date) == ArchivePath(t, date) {
        ArchivePathInjective(last, date, t, date);
      }
    }
  }

  /** A topic without a log for the day gets no new archive: a missing source is skipped. */
  lemma {:induction false} MissingLogSkipped(logs: map<string, seq<string>>,
                                             archives: map<string, seq<string>>,
                                             topics: seq<string>, date: string,
                                             broken: set<string>)
    requires forall k | 0 <= k < |topics| :: DailyLogPath(topics[k], date) !in logs
    ensures CompactedAll(logs, archives, topics, date, broken) == archives
  {
    if topics != [] {
      var init := topics[..|topics| - 1];
      assert forall k | 0 <= k < |init| :: init[k] == topics[k];
      MissingLogSkipped(logs, archives, init, date, broken);
    }
  }

  /**
   * A topic without a log for the day keeps its archive as it was (absent
   * or unchanged), whatever the other topics of the run do.
   */
  lemma {:induction false} MissingTopicLogSkipped(logs: map<string, seq<string>>,
                                                  archives: map<string, seq<string>>,
                                                  topics: seq<string>, date: string,
                                                  broken: set<string>, t: string)
    requires forall k | 0 <= k < |topics| :: '/' !in topics[k]
    requires '/' !in date && '/' !in t && DailyLogPath(t, date) !in logs
    ensures (ArchivePath(t, date) in CompactedAll(logs, archives, topics, date, broken))
            == (ArchivePath(t, date) in archives)
    ensures ArchivePath(t, date) in archives ==>
      CompactedAll(logs, archives, topics, date, broken)[ArchivePath(t, date)]
      == archives[ArchivePath(t, date)]
  {
    if topics != [] {
      var init := topics[..|topics| - 1];
      var last := topics[|topics| - 1];
      assert forall k | 0 <= k < |init| :: init[k] == topics[k];
      MissingTopicLogSkipped(logs, archives, init, date, broken, t);
      if ArchivePath(last, date) == ArchivePath(t, date) {
        ArchivePathInjective(last, date, t, date);
      }
    }
  }
}
