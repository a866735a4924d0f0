/**
 The CSV data logger: closed or open, writing one header row when a log is
 started and one timestamped row per logged sample vector while it is open.
 Files are modelled as sequences of rows on an in-memory disk; the text
 encoding of a CSV row is not modelled.
 */
module DataLogger {

  import SeriesBuffer

  datatype Option<T> = None | Some(value: T)

  /** One CSV field: a piece of text (timestamp, column name) or a sample value. */
  datatype Cell = Text(text: string) | Number(value: SeriesBuffer.Sample)

  type Row = seq<Cell>

  /** LOG_DIRECTORY */
  const LogDirectory: string := "logs"

  /** The logger's state. `open` stands for the file handle and CSV writer,
      which the program always sets and clears together; `logFile` is the
      path of the last log started, kept after the log is closed; `disk`
      maps each file path to the rows the file holds. */
  datatype Logger = Logger(logDir: string, logFile: Option<string>, open: bool, disk: map<string, seq<Row>>)

  /** An open logger has a file to write to. */
  predicate Valid(l: Logger)
  {
    l.open ==> l.logFile.Some? && l.logFile.value in l.disk
  }

  /** `DataLogger.__init__`: nothing open, no log file chosen yet. Creating
      the directory is not modelled. */
  function NewLogger(logDir: string, disk: map<string, seq<Row>>): (l: Logger)
    ensures Valid(l)
    ensures !l.open && l.logFile == None
    ensures l.logDir == logDir && l.disk == disk
  {
    Logger(logDir, None, false, disk)
  }

  /** `os.path.join(directory, name)` with the POSIX separator: a relative
      name is placed after the directory, with a `/` between them exactly
      when the directory is non-empty and does not already end in one. */
  function JoinPath(directory: string, name: string): (path: string)
    ensures |name| > 0 && name[0] == '/' ==> path == name
    ensures !(|name| > 0 && name[0] == '/') ==>
              && |directory| + |name| <= |path| <= |directory| + |name| + 1
              && path[..|directory|] == directory
              && path[|path| - |name|..] == name
              && (|path| == |directory| + |name| + 1 ==> path[|directory|] == '/')
              && (|path| == |directory| + |name| + 1 <==> directory != [] && directory[|directory| - 1] != '/')
  {
    if |name| > 0 && name[0] == '/' then name
    else if directory == [] || directory[|directory| - 1] == '/' then directory + name
    else directory + "/" + name
  }

  /** File name of a log started at `stamp` (the `%Y%m%d_%H%M%S` rendering of the start time). */
  function LogFileName(stamp: string): (name: string)
    ensures |name| == |stamp| + 13
    ensures name[..9] == "dass_log_" && name[9..|name| - 4] == stamp && name[|name| - 4..] == ".csv"
  {
    "dass_log_" + stamp + ".csv"
  }

  /** Where a log started at `stamp` is written. */
  function LogPath(logDir: string, stamp: string): (path: string)
    ensures logDir == LogDirectory ==> path == "logs/dass_log_" + stamp + ".csv"
  {
    JoinPath(logDir, LogFileName(stamp))
  }

  /** Text cells for a list of names, in order. */
  function TextCells(names: seq<string>): (cells: Row)
    ensures |cells| == |names|
    ensures forall i :: 0 <= i < |names| ==> cells[i] == Text(names[i])
  {
    seq(|names|, i requires 0 <= i < |names| => Text(names[i]))
  }

  /** Number cells for a data vector, in order. */
  function NumberCells(data: seq<SeriesBuffer.Sample>): (cells: Row)
    ensures |cells| == |data|
    ensures forall i :: 0 <= i < |data| ==> cells[i] == Number(data[i])
  {
    seq(|data|, i requires 0 <= i < |data| => Number(data[i]))
  }

  /** The header row: "Timestamp" followed by the channel names. */
  function Header(channelNames: seq<string>): (row: Row)
    ensures |row| == 1 + |channelNames|
    ensures row[0] == Text("Timestamp")
    ensures forall i :: 0 <= i < |channelNames| ==> row[i + 1] == Text(channelNames[i])
  {
    [Text("Timestamp")] + TextCells(channelNames)
  }

  /** A data row: the timestamp followed by the values, unchanged. */
  function DataRow(stamp: string, data: seq<SeriesBuffer.Sample>): (row: Row)
    ensures |row| == 1 + |data|
    ensures row[0] == Text(stamp)
    ensures forall i :: 0 <= i < |data| ==> row[i + 1] == Number(data[i])
  {
    [Text(stamp)] + NumberCells(data)
  }

  /** `DataLogger.start_logging`: open `<logDir>/dass_log_<stamp>.csv` for
      writing, which empties any file already at that path, and write the
      header. A logger that was already open is not closed first; its file
      keeps the rows it has. */
  function StartLogging(l: Logger, channelNames: seq<string>, stamp: string): (r: Logger)
    ensures Valid(r)
    ensures r.open
    ensures r.logFile == Some(LogPath(l.logDir, stamp))
    ensures r.disk[r.logFile.value] == [Header(channelNames)]
    ensures forall f :: f in l.disk && f != r.logFile.value ==> f in r.disk && r.disk[f] == l.disk[f]
    ensures r.disk.Keys == l.disk.Keys + {r.logFile.value}
    ensures r.logDir == l.logDir
  {
    var path := LogPath(l.logDir, stamp);
    l.(logFile := Some(path), open := true, disk := l.disk[path := [Header(channelNames)]])
  }

  /** `DataLogger.log_data`: while open, append the row `[stamp] + data` to
      the current file; while closed, do nothing. */
  function LogData(l: Logger, data: seq<SeriesBuffer.Sample>, stamp: string): (r: Logger)
    requires Valid(l)
    ensures Valid(r)
    ensures !l.open ==> r == l
    ensures l.open ==> r.disk == l.disk[l.logFile.value := l.disk[l.logFile.value] + [DataRow(stamp, data)]]
    ensures r.open == l.open && r.logFile == l.logFile && r.logDir == l.logDir
  {
    if !l.open then l
    else
      var path := l.logFile.value;
      l.(disk := l.disk[path := l.disk[path] + [DataRow(stamp, data)]])
  }

  /** `DataLogger.stop_logging`: close the file if one is open. The file and
      its rows stay on disk, and the logger still remembers its path. */
  function StopLogging(l: Logger): (r: Logger)
    ensures Valid(r)
    ensures !r.open
    ensures r.disk == l.disk && r.logFile == l.logFile && r.logDir == l.logDir
  {
    l.(open := false)
  }

  /** Logging while open adds exactly one row, timestamp first, data after it unchanged. */
  lemma LogDataAppendsOneRow(l: Logger, data: seq<SeriesBuffer.Sample>, stamp: string)
    requires Valid(l) && l.open
    ensures var f := l.logFile.value;
            var rows := LogData(l, data, stamp).disk[f];
            && |rows| == |l.disk[f]| + 1
            && rows[..|l.disk[f]|] == l.disk[f]
            && |rows[|rows| - 1]| == 1 + |data|
            && rows[|rows| - 1][0] == Text(stamp)
            && rows[|rows| - 1][1..] == NumberCells(data)
  {
    var f := l.logFile.value;
    var rows := LogData(l, data, stamp).disk[f];
    assert rows == l.disk[f] + [DataRow(stamp, data)];
    assert rows[..|l.disk[f]|] == l.disk[f];
  }

  /** Stopping twice is the same as stopping once. */
  lemma StopLoggingIdempotent(l: Logger)
    ensures StopLogging(StopLogging(l)) == StopLogging(l)
  {
  }

  /** Once stopped, later `log_data` calls write nothing. */
  lemma LogAfterStopIsNoOp(l: Logger, data: seq<SeriesBuffer.Sample>, stamp: string)
    ensures LogData(StopLogging(l), data, stamp) == StopLogging(l)
  {
  }

  /** A log started in the same second as the previous one, whether that one
      is still open or already stopped, reuses its path and discards its rows. */
  lemma RestartInSameSecondOverwrites(l: Logger, names: seq<string>, stamp: string)
    requires l.logFile == Some(LogPath(l.logDir, stamp))
    ensures StartLogging(l, names, stamp).disk[l.logFile.value] == [Header(names)]
  {
  }
}
