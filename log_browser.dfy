// The log browser of log_browser.py: classifying log files by the directory
// their path names, listing them newest first, formatting sizes, selecting a
// log by its 1-based number, showing the first lines of a log, and the
// line classification of a session log summary.
//
// The file system is outside the model: a scan receives the directory
// listing (each sub-directory with its files, sizes and modification
// times), and viewing a log receives the lines of the file.
module LogBrowser {
  import opened Wrappers
  import Text
  import Sorting

  datatype LogType = Spectrum | Signal | Waterfall | Device | Session | Other

  /** The keyword of each log type, in the order get_log_type tests them. */
  const TypeRules: seq<(string, LogType)> := [
    ("spectrum_data", Spectrum), ("signal_captures", Signal), ("waterfall_data", Waterfall),
    ("device_monitoring", Device), ("session_logs", Session)
  ]

  /** get_log_type on the path's text. */
  function GetLogType(path: string): (t: LogType)
    ensures t == Spectrum ==> Text.Contains(path, "spectrum_data")
    ensures t == Signal ==> Text.Contains(path, "signal_captures")
    ensures t == Waterfall ==> Text.Contains(path, "waterfall_data")
    ensures t == Device ==> Text.Contains(path, "device_monitoring")
    ensures t == Session ==> Text.Contains(path, "session_logs")
  {
    if Text.Contains(path, "spectrum_data") then Spectrum
    else if Text.Contains(path, "signal_captures") then Signal
    else if Text.Contains(path, "waterfall_data") then Waterfall
    else if Text.Contains(path, "device_monitoring") then Device
    else if Text.Contains(path, "session_logs") then Session
    else Other
  }

  /**
   * get_log_type is the first-match rule table: the type of the first keyword
   * the path contains, and OTHER iff it contains none.
   */
  lemma GetLogTypeIsFirstMatch(path: string)
    ensures GetLogType(path) == Other <==> forall k :: 0 <= k < |TypeRules| ==> !Text.Contains(path, TypeRules[k].0)
    ensures forall k :: 0 <= k < |TypeRules| && Text.Contains(path, TypeRules[k].0)
                        && (forall j :: 0 <= j < k ==> !Text.Contains(path, TypeRules[j].0)) ==>
                        GetLogType(path) == TypeRules[k].1
  {
    assert TypeRules[0] == ("spectrum_data", Spectrum);
    assert TypeRules[1] == ("signal_captures", Signal);
    assert TypeRules[2] == ("waterfall_data", Waterfall);
    assert TypeRules[3] == ("device_monitoring", Device);
    assert TypeRules[4] == ("session_logs", Session);
  }

  // ---- sizes -----------------------------------------------------------------

  const KiB: int := 1024
  const MiB: int := 1024 * 1024

  /** format_size. */
  function FormatSize(sizeBytes: int): (r: string)
    ensures |r| >= 3 && r[|r| - 1] == 'B' && r[|r| - 2] in " KM"
  {
    if sizeBytes < KiB then Text.IntToString(sizeBytes) + " B"
    else if sizeBytes < MiB then Text.FormatFixed(sizeBytes as real / KiB as real, 1) + " KB"
    else Text.FormatFixed(sizeBytes as real / MiB as real, 1) + " MB"
  }

  /**
   * Bytes below 1 KiB are printed whole; otherwise the value shown in KB or
   * MB is at least 1 and, in KB, below 1024.
   */
  lemma FormatSizeScale(sizeBytes: int)
    ensures sizeBytes < KiB ==> FormatSize(sizeBytes) == Text.IntToString(sizeBytes) + " B"
    ensures KiB <= sizeBytes < MiB ==>
              var v := sizeBytes as real / KiB as real;
              1.0 <= v < 1024.0 && FormatSize(sizeBytes) == Text.FormatFixed(v, 1) + " KB"
    ensures MiB <= sizeBytes ==>
              var v := sizeBytes as real / MiB as real;
              1.0 <= v && FormatSize(sizeBytes) == Text.FormatFixed(v, 1) + " MB"
  {
  }

  /** 1024 bytes are "1.0 KB". */
  lemma FormatSizeOneKilobyte()
    ensures FormatSize(1024) == "1.0 KB"
  {
    Text.FormatFixedWhole(1);
    assert 1024 as real / KiB as real == 1 as real;
  }

  // ---- the log list ------------------------------------------------------------

  /** A file of a log sub-directory, as the scan sees it. */
  datatype FileStat = FileStat(path: string, relativePath: string, isFile: bool, size: int, modified: real)

  /** An entry of the logs directory: a sub-directory with its files, or something else. */
  datatype DirEntry = DirEntry(isDir: bool, files: seq<FileStat>)

  datatype LogEntry = LogEntry(path: string, relativePath: string, logType: LogType, size: int, modified: real)

  function EntryOf(f: FileStat): (e: LogEntry)
    ensures e.path == f.path && e.logType == GetLogType(f.path)
  {
    LogEntry(f.path, f.relativePath, GetLogType(f.path), f.size, f.modified)
  }

  /** The log entries of one sub-directory's files, in listing order. */
  function FilesOf(files: seq<FileStat>): seq<LogEntry>
  {
    if files == [] then []
    else (if files[0].isFile then [EntryOf(files[0])] else []) + FilesOf(files[1..])
  }

  /** The log entries of the listing, sub-directory by sub-directory. */
  function Collected(entries: seq<DirEntry>): seq<LogEntry>
  {
    if entries == [] then []
    else (if entries[0].isDir then FilesOf(entries[0].files) else []) + Collected(entries[1..])
  }

  /** The order scan_logs sorts by: newer first. */
  predicate NewerFirst(a: LogEntry, b: LogEntry)
  {
    a.modified >= b.modified
  }

  lemma NewerFirstTotal()
    ensures Sorting.Total(NewerFirst)
  {
  }

  /** Logs modified at the same time keep the order the directory listing gave them. */
  lemma ScanOrderStable(entries: seq<DirEntry>, modified: real)
    ensures var same := (e: LogEntry) => e.modified == modified;
            Sorting.Keep(Sorting.Sort(Collected(entries), NewerFirst), same) == Sorting.Keep(Collected(entries), same)
  {
    Sorting.SortStable(Collected(entries), NewerFirst, (e: LogEntry) => e.modified == modified);
  }

  lemma FilesOfStep(files: seq<FileStat>, j: nat)
    requires j < |files|
    ensures FilesOf(files[j..]) == (if files[j].isFile then [EntryOf(files[j])] else []) + FilesOf(files[j + 1..])
  {
    assert files[j..][1..] == files[j + 1..];
  }

  lemma CollectedStep(entries: seq<DirEntry>, d: nat)
    requires d < |entries|
    ensures Collected(entries[d..]) == (if entries[d].isDir then FilesOf(entries[d].files) else []) + Collected(entries[d + 1..])
  {
    assert entries[d..][1..] == entries[d + 1..];
  }

  /** A file of the listing is listed iff it is a regular file inside a sub-directory. */
  lemma {:induction false} FilesOfMembers(files: seq<FileStat>)
    ensures forall e :: e in FilesOf(files) <==> exists f :: f in files && f.isFile && e == EntryOf(f)
  {
    if files != [] {
      FilesOfMembers(files[1..]);
      assert files == [files[0]] + files[1..];
    }
  }

  /** The inner loop of scan_logs: the regular files of one sub-directory. */
  method FilesIn(files: seq<FileStat>) returns (found: seq<LogEntry>)
    ensures found == FilesOf(files)
  {
    found := [];
    var j := 0;
    while j < |files|
      invariant 0 <= j <= |files|
      invariant found + FilesOf(files[j..]) == FilesOf(files)
    {
      FilesOfStep(files, j);
      if files[j].isFile {
        assert (found + [EntryOf(files[j])]) + FilesOf(files[j + 1..]) == found + ([EntryOf(files[j])] + FilesOf(files[j + 1..]));
        found := found + [EntryOf(files[j])];
      }
      j := j + 1;
    }
    assert files[j..] == [];
  }

  class LogBrowser {
    var logFiles: seq<LogEntry>

    /** A browser over the logs directory: the log list is scanned at once. */
    constructor (dirExists: bool, entries: seq<DirEntry>)
      ensures !dirExists ==> logFiles == []
      ensures dirExists ==> logFiles == Sorting.Sort(Collected(entries), NewerFirst)
    {
      logFiles := [];
      new;
      ScanLogs(dirExists, entries);
    }

    /**
     * scan_logs: the regular files of every sub-directory, newest first; files
     * modified at the same time keep their listing order.  When the logs
     * directory does not exist the list is empty.
     */
    method ScanLogs(dirExists: bool, entries: seq<DirEntry>)
      modifies this
      ensures !dirExists ==> logFiles == []
      ensures dirExists ==> logFiles == Sorting.Sort(Collected(entries), NewerFirst)
      ensures Sorting.SortedBy(logFiles, NewerFirst)
      ensures dirExists ==> multiset(logFiles) == multiset(Collected(entries))
    {
      logFiles := [];
      if !dirExists {
        return;
      }
      var found: seq<LogEntry> := [];
      var d := 0;
      while d < |entries|
        invariant 0 <= d <= |entries|
        invariant found + Collected(entries[d..]) == Collected(entries)
      {
        CollectedStep(entries, d);
        if entries[d].isDir {
          var files := FilesIn(entries[d].files);
          assert (found + files) + Collected(entries[d + 1..]) == found + (files + Collected(entries[d + 1..]));
          found := found + files;
        }
        d := d + 1;
      }
      assert entries[d..] == [];
      assert found == Collected(entries);
      NewerFirstTotal();
      Sorting.SortSorted(found, NewerFirst);
      logFiles := Sorting.Sort(found, NewerFirst);
    }

    /** The log with 1-based number `index`, or None for a number out of range. */
    function Selected(index: int): (r: Option<LogEntry>)
      reads this
      ensures r.None? <==> index < 1 || index > |logFiles|
      ensures r.Some? ==> r.value == logFiles[index - 1]
    {
      if index < 1 || index > |logFiles| then None else Some(logFiles[index - 1])
    }

    /**
     * view_log_summary: nothing for a number out of range; otherwise the
     * entry, and for a session log the summary of its lines.
     */
    function ViewLogSummary(index: int, fileLines: seq<string>): (r: Option<(LogEntry, Option<SessionSummary>)>)
      reads this
      ensures r.None? <==> Selected(index).None?
      ensures r.Some? ==> r.value.0 == logFiles[index - 1]
      ensures r.Some? ==> (r.value.1.Some? <==> r.value.0.logType == Session)
      ensures r.Some? && r.value.1.Some? ==> r.value.1.value == SessionOf(fileLines)
    {
      match Selected(index)
      case None => None
      case Some(log) => Some((log, if log.logType == Session then Some(SessionOf(fileLines)) else None))
    }

    /**
     * view_log_content: nothing for a number out of range; otherwise the
     * first `lines` lines of the file with trailing whitespace removed, and
     * whether the file had more.
     */
    function ViewLogContent(index: int, fileLines: seq<string>, lines: int := 20): (r: Option<(seq<string>, bool)>)
      reads this
      ensures r.None? <==> Selected(index).None?
      ensures r.Some? ==> var n := if lines < 0 then 0 else if lines > |fileLines| then |fileLines| else lines;
                |r.value.0| == n && (forall i :: 0 <= i < n ==> r.value.0[i] == Text.StripRight(fileLines[i]))
                && (r.value.1 <==> |fileLines| > n)
    {
      if Selected(index).None? then None
      else
        var n := if lines < 0 then 0 else if lines > |fileLines| then |fileLines| else lines;
        Some((seq(n, i requires 0 <= i < n => Text.StripRight(fileLines[i])), |fileLines| > n))
    }
  }

  // ---- session logs --------------------------------------------------------------

  /** How summarize_session_log reads one stripped line. */
  datatype LineKind = KeyValue | Event | Ignored

  function Kind(line: string): (k: LineKind)
    ensures k == KeyValue <==> ':' in line && !Text.StartsWith(line, "[")
    ensures k == Event <==> Text.StartsWith(line, "[")
    ensures k == Ignored <==> ':' !in line && !Text.StartsWith(line, "[")
  {
    if ':' in line && !Text.StartsWith(line, "[") then KeyValue
    else if Text.StartsWith(line, "[") then Event
    else Ignored
  }

  /** The position of the first `c` in `s`. */
  function FirstIndex(s: string, c: char): (i: nat)
    requires c in s
    ensures i < |s| && s[i] == c && c !in s[..i]
  {
    if s[0] == c then 0
    else
      var j := FirstIndex(s[1..], c);
      assert s[1..][..j] == s[1..j + 1];
      j + 1
  }

  /** line.split(':', 1): the text before the first colon and the text after it. */
  function SplitColon(line: string): (r: (string, string))
    requires ':' in line
    ensures r.0 + ":" + r.1 == line
    ensures ':' !in r.0
  {
    var i := FirstIndex(line, ':');
    assert line == line[..i] + ":" + line[i + 1..];
    (line[..i], line[i + 1..])
  }

  /** What summarize_session_log gathers: the line count, the session info (keys in first-seen order) and the events. */
  datatype SessionSummary = SessionSummary(totalLines: nat, infoKeys: seq<string>, info: map<string, string>, events: seq<string>)

  /** One line of the loop. */
  function AddLine(s: SessionSummary, raw: string): SessionSummary
  {
    var line := Text.Strip(raw);
    match Kind(line)
    case KeyValue =>
      var kv := SplitColon(line);
      var key := Text.Strip(kv.0);
      s.(infoKeys := if key in s.info then s.infoKeys else s.infoKeys + [key], info := s.info[key := Text.Strip(kv.1)])
    case Event => s.(events := s.events + [line])
    case Ignored => s
  }

  /** The summary of the lines read so far. */
  function Gathered(lines: seq<string>): SessionSummary
  {
    if lines == [] then SessionSummary(0, [], map[], [])
    else AddLine(Gathered(lines[..|lines| - 1]), lines[|lines| - 1])
  }

  /** The summary of a whole session log. */
  function SessionOf(lines: seq<string>): SessionSummary
  {
    Gathered(lines).(totalLines := |lines|)
  }

  /** The events are exactly the stripped lines that start with '[', in file order. */
  function EventLines(lines: seq<string>): seq<string>
  {
    if lines == [] then []
    else EventLines(lines[..|lines| - 1])
         + (if Kind(Text.Strip(lines[|lines| - 1])) == Event then [Text.Strip(lines[|lines| - 1])] else [])
  }

  /** A stripped line is a key/value line naming `key`. */
  predicate LineNames(raw: string, key: string)
  {
    var line := Text.Strip(raw);
    Kind(line) == KeyValue && Text.Strip(SplitColon(line).0) == key
  }

  /** Some line of the log is a key/value line naming `key`. */
  predicate NamesKey(lines: seq<string>, key: string)
  {
    exists i :: 0 <= i < |lines| && LineNames(lines[i], key)
  }

  lemma {:induction false} GatheredEvents(lines: seq<string>)
    ensures Gathered(lines).events == EventLines(lines)
    ensures forall e :: e in Gathered(lines).events ==> Text.StartsWith(e, "[")
  {
    if lines != [] {
      GatheredEvents(lines[..|lines| - 1]);
    }
  }

  lemma NamesKeyStep(init: seq<string>, raw: string, key: string)
    ensures NamesKey(init + [raw], key) <==> NamesKey(init, key) || LineNames(raw, key)
  {
    var lines := init + [raw];
    if NamesKey(init, key) {
      NamesKeyKept(init, raw, key);
    }
    if LineNames(raw, key) {
      assert lines[|init|] == raw;
    }
    if NamesKey(lines, key) && !LineNames(raw, key) {
      NamesKeyEarlier(init, raw, key);
    }
  }

  lemma NamesKeyKept(init: seq<string>, raw: string, key: string)
    requires NamesKey(init, key)
    ensures NamesKey(init + [raw], key)
  {
    var i :| 0 <= i < |init| && LineNames(init[i], key);
    assert (init + [raw])[i] == init[i];
  }

  lemma NamesKeyEarlier(init: seq<string>, raw: string, key: string)
    requires NamesKey(init + [raw], key) && !LineNames(raw, key)
    ensures NamesKey(init, key)
  {
    var lines := init + [raw];
    var i :| 0 <= i < |lines| && LineNames(lines[i], key);
    assert i != |init|;
    assert lines[i] == init[i];
  }

  /** One line adds at most its own key to the info, and the key list follows the dictionary. */
  lemma AddLineInfo(s: SessionSummary, raw: string)
    requires forall key :: key in s.info <==> key in s.infoKeys
    ensures forall key :: key in AddLine(s, raw).info <==> key in s.info || LineNames(raw, key)
    ensures forall key :: key in AddLine(s, raw).info <==> key in AddLine(s, raw).infoKeys
  {
    var line := Text.Strip(raw);
    if Kind(line) == KeyValue {
      var kv := SplitColon(line);
      var key := Text.Strip(kv.0);
      var t := AddLine(s, raw);
      assert t.info == s.info[key := Text.Strip(kv.1)];
      assert t.infoKeys == if key in s.info then s.infoKeys else s.infoKeys + [key];
      assert forall k :: LineNames(raw, k) <==> k == key;
    } else {
      assert AddLine(s, raw).info == s.info && AddLine(s, raw).infoKeys == s.infoKeys;
      assert forall k :: !LineNames(raw, k);
    }
  }

  lemma {:induction false} GatheredInfo(lines: seq<string>)
    ensures forall key :: key in Gathered(lines).info <==> NamesKey(lines, key)
    ensures forall key :: key in Gathered(lines).info <==> key in Gathered(lines).infoKeys
  {
    if lines != [] {
      var init := lines[..|lines| - 1];
      var raw := lines[|lines| - 1];
      assert lines == init + [raw];
      GatheredInfo(init);
      AddLineInfo(Gathered(init), raw);
      forall key
        ensures key in Gathered(lines).info <==> NamesKey(lines, key)
      {
        NamesKeyStep(init, raw, key);
      }
    }
  }

  /** A key's value comes from the last line that names it. */
  lemma LastValueWins(lines: seq<string>, raw: string)
    requires Kind(Text.Strip(raw)) == KeyValue
    ensures var kv := SplitColon(Text.Strip(raw));
            Gathered(lines + [raw]).info[Text.Strip(kv.0)] == Text.Strip(kv.1)
  {
    assert (lines + [raw])[..|lines|] == lines;
  }

  /** summarize_session_log's loop over the file's lines. */
  method SummarizeSessionLog(lines: seq<string>) returns (s: SessionSummary)
    ensures s == SessionOf(lines)
    ensures s.totalLines == |lines| && s.events == EventLines(lines)
    ensures forall key :: key in s.info <==> NamesKey(lines, key)
  {
    var acc := SessionSummary(0, [], map[], []);
    var k := 0;
    while k < |lines|
      invariant 0 <= k <= |lines|
      invariant acc == Gathered(lines[..k])
    {
      assert lines[..k + 1][..k] == lines[..k];
      acc := AddLine(acc, lines[k]);
      k := k + 1;
    }
    assert lines[..k] == lines;
    GatheredEvents(lines);
    GatheredInfo(lines);
    s := acc.(totalLines := |lines|);
  }
}
