# DASS acquisition core in Dafny

DASS is a desktop data acquisition tool for serial and Modbus devices.
This project models the part of `DASS_Ver_1_channel_name_3_auto_save.py`
that does not depend on hardware, widgets or threads. It has three pieces:

- **`SeriesBuffer`** models the display history kept by `PlotManager`.
  There is one list of samples per channel. `update_data` appends a value
  and evicts the oldest once a list holds more than `MAX_DATA_POINTS` (100).
  A channel index out of range is ignored.
- **`DataLogger`** models the CSV logger as a closed/open state machine over
  an in-memory disk, which maps each path to the rows of that file.
  `start_logging` opens `<log_dir>/dass_log_<stamp>.csv` and writes the
  header `Timestamp, <names…>`. `log_data` appends `[stamp] + data` only
  while the logger is open. `stop_logging` closes the logger and is safe to
  repeat.
- **`Acquisition`** models the `acquisition_active` flag and the start and
  stop handlers of `DASSApplication`. It also models one pass through the
  body of `_acquisition_loop`: a non-empty vector is logged as one row, and
  value *i* is pushed into channel *i*'s buffer. `Loop` runs passes while
  the flag is set. Lemmas follow a whole session (start, N passes, stop) to
  the file it leaves behind and to the buffers' contents
  (`SessionLog`, `SessionBuffers`).

Samples are `real`. The model does no arithmetic on them. Timestamps are
opaque strings passed in as parameters: the `%Y%m%d_%H%M%S` stamp used in
the file name, and the millisecond stamp that starts each row. The vector a
pass reads is an input of any length. In the program it is
`channel_count` random numbers from `_read_data`.

Notes on what the code does:
- Starting acquisition does not clear or reallocate the display buffers
  (lines 706-728). Samples from an earlier session stay in them until they
  are pushed out. `StartAcquisition` states this (`r.plot == app.plot`).
- The log name is always `dass_log_<stamp>.csv` inside `logs` (lines 63, 282-283, 539); `Acquisition.Inv` keeps the directory fixed.
- The path is opened in `'w'` mode (line 285). A log started in the same
  second as the previous one reuses that path and empties the earlier file
  (`DataLogger.RestartInSameSecondOverwrites`).
- `stop_logging` keeps `log_file` (lines 310-313). The logger still names
  the last file after it is closed.
- `start_logging` on a logger that is already open does not explicitly
  close the previous file; its rows were already flushed. The acquisition handlers never do this, because the
  `acquisition_active` guard prevents it (lines 708-709).

## Model

| member | source | states |
|---|---|---|
| SeriesBuffer.Push | DASS_Ver_1_channel_name_3_auto_save.py:364-369 | one push onto a list within capacity yields the last 100 of the list followed by the new value: the new value is last, at most one value is evicted and the capacity bound is kept |
| SeriesBuffer.PushAllKeepsLast | DASS_Ver_1_channel_name_3_auto_save.py:364-369 | after any number of pushes, a channel list equals the last 100 of everything put into it, in insertion order, and never holds more than 100 values |
| SeriesBuffer.OverflowKeepsNewest | DASS_Ver_1_channel_name_3_auto_save.py:62 | after pushing 100 + k values (k ≥ 1) onto an empty list, it holds exactly 100 values: the newest ones |
| SeriesBuffer.Init | DASS_Ver_1_channel_name_3_auto_save.py:330-331 | a new plot manager has exactly `channel_count` empty lists (none when the count is negative) and is within capacity |
| SeriesBuffer.UpdateData | DASS_Ver_1_channel_name_3_auto_save.py:355-369 | an index outside [0, channel_count) changes nothing; a valid index replaces only that channel's list, by its last 100 values with the new value appended; every other channel's list is unchanged; all lists stay within capacity |
| SeriesBuffer.ApplyUpdatesPerChannel | DASS_Ver_1_channel_name_3_auto_save.py:363-369 | after any sequence of `update_data` calls, each channel holds the last 100 of its earlier contents followed by exactly the values addressed to it, in call order |
| SeriesBuffer.FreshBuffersKeepLast | DASS_Ver_1_channel_name_3_auto_save.py:330-369 | from freshly built buffers, each channel holds the last min(n, 100) of the n values pushed to it |
| DataLogger.NewLogger | DASS_Ver_1_channel_name_3_auto_save.py:257-268 | a new logger is closed, has no log file and leaves the disk as it is |
| DataLogger.JoinPath | DASS_Ver_1_channel_name_3_auto_save.py:283 | POSIX `os.path.join`: an absolute name is returned as is; otherwise the name follows the directory, with one `/` inserted only when the directory is non-empty and does not already end in `/` |
| DataLogger.LogFileName | DASS_Ver_1_channel_name_3_auto_save.py:282-283 | the name is `dass_log_`, then the stamp, then `.csv`, with nothing else added, so the stamp can be read back from between the prefix and the suffix |
| DataLogger.LogPath | DASS_Ver_1_channel_name_3_auto_save.py:63 | with the default directory, a log started at stamp s is written to `logs/dass_log_s.csv` |
| DataLogger.Header | DASS_Ver_1_channel_name_3_auto_save.py:289 | the header row has one more column than there are names: `Timestamp` first, then each channel name in order |
| DataLogger.DataRow | DASS_Ver_1_channel_name_3_auto_save.py:303-304 | a data row has one more column than the data: the timestamp first, then each value unchanged and in order |
| DataLogger.StartLogging | DASS_Ver_1_channel_name_3_auto_save.py:275-291 | the logger becomes open on the path derived from the stamp; that file holds exactly one row, the header; every other file is unchanged |
| DataLogger.LogData | DASS_Ver_1_channel_name_3_auto_save.py:293-306 | when closed, nothing changes; when open, exactly one data row is appended to the current file, no other file changes, and the logger stays open |
| DataLogger.StopLogging | DASS_Ver_1_channel_name_3_auto_save.py:308-313 | afterwards the logger is closed; the files and the remembered log path are unchanged |
| DataLogger.LogDataAppendsOneRow | DASS_Ver_1_channel_name_3_auto_save.py:300-306 | logging while open keeps the earlier rows as a prefix and adds one row of width 1 + len(data), with the timestamp first and the data after it |
| DataLogger.StopLoggingIdempotent | DASS_Ver_1_channel_name_3_auto_save.py:308-313 | stopping twice is the same as stopping once |
| DataLogger.LogAfterStopIsNoOp | DASS_Ver_1_channel_name_3_auto_save.py:300-301 | after a stop, `log_data` adds no rows |
| DataLogger.RestartInSameSecondOverwrites | DASS_Ver_1_channel_name_3_auto_save.py:283-285 | a log started at the same stamp as the previous one, open or already stopped, empties that file back to just the header |
| Acquisition.NewApp | DASS_Ver_1_channel_name_3_auto_save.py:542-546 | a new application is idle with three channels named `Channel_1`–`Channel_3`, a closed logger on `logs` with no log file yet, and three empty buffers; the session invariant holds |
| Acquisition.StartAcquisition | DASS_Ver_1_channel_name_3_auto_save.py:706-723 | a start while active is a no-op. A start from idle sets the flag and opens `logs/dass_log_<stamp>.csv`, whose only row is the header of the current names; other files are unchanged and no other file is created. The buffers are not cleared, and the session invariant is kept |
| Acquisition.StopAcquisition | DASS_Ver_1_channel_name_3_auto_save.py:730-742 | a stop while idle is a no-op; from active it clears the flag and closes the logger, leaving files and buffers as they are; the session invariant is kept |
| Acquisition.PlotRow | DASS_Ver_1_channel_name_3_auto_save.py:762-763 | after `update_data(i, data[i])` for every i, channel c (for c < len(data)) holds its last 100 with data[c] appended; channels beyond the data are unchanged |
| Acquisition.Tick | DASS_Ver_1_channel_name_3_auto_save.py:755-763 | an empty vector changes nothing. A non-empty vector appends exactly one row to the open log (none when the logger is closed) and pushes value i to channel i. It never changes the flag or the names, and it keeps the session invariant |
| Acquisition.Loop | DASS_Ver_1_channel_name_3_auto_save.py:749-768 | any run of passes keeps the session invariant and leaves the flag, the names and the log path unchanged |
| Acquisition.LoopAppendsRows | DASS_Ver_1_channel_name_3_auto_save.py:751-759 | while active, the open log grows by exactly one row per non-empty vector, in pass order; no other file changes |
| Acquisition.LoopKeepsLastPerChannel | DASS_Ver_1_channel_name_3_auto_save.py:751-763 | while active, each channel's buffer is the last 100 of its earlier contents followed by the values the passes sent to it, in order |
| Acquisition.LoggedRowsWidth | DASS_Ver_1_channel_name_3_auto_save.py:303-305 | when every vector has `width` values, every logged row has width + 1 columns, and (for width > 0) there is one row per pass |
| Acquisition.SessionLog | DASS_Ver_1_channel_name_3_auto_save.py:706-742 | start from idle, then passes, then stop: the session ends idle with the logger closed. The stamp-named log holds the header of the names captured at start, followed by one row per non-empty vector |
| Acquisition.SessionLogShape | DASS_Ver_1_channel_name_3_auto_save.py:706-768 | with one value per channel on each of N passes, the session's file has exactly N + 1 rows, each as wide as the header |
| Acquisition.SessionBuffers | DASS_Ver_1_channel_name_3_auto_save.py:706-768 | start from idle, then passes, then stop: each channel's buffer holds the last 100 of what it held before the start (not cleared) followed by the values the passes sent to it, in order |
| Acquisition.LaterSessionsLogInLogs | DASS_Ver_1_channel_name_3_auto_save.py:539 | the application's logger always writes in `logs`: after a whole first session, a second start at stamp t opens `logs/dass_log_t.csv` |
| Acquisition.StartTwiceIsStartOnce | DASS_Ver_1_channel_name_3_auto_save.py:708-709 | starting twice without a stop is the same as starting once: one log and one set of buffers |
| Acquisition.NamesCapturedAtStart | DASS_Ver_1_channel_name_3_auto_save.py:711-715 | editing channel names after the start changes neither the log nor the buffers, because only the start reads the names |
| Acquisition.LoopSplit | DASS_Ver_1_channel_name_3_auto_save.py:751-768 | the loop carries nothing from one pass to the next except the application state: running the passes of `a` and then those of `b` ends in the same state as running the passes of `a + b` |
| Acquisition.RenameBetweenPasses | DASS_Ver_1_channel_name_3_auto_save.py:711-715 | editing the channel names between any two passes of a session leaves the log and the buffers exactly as the uninterrupted session leaves them |

## Left out

- Tkinter widgets, dialogs, button states, the activity log (`_log_message`), `_on_connect`, `_on_disconnect` and `_on_closing`: this is interface plumbing. `_on_disconnect` and `_on_closing` reach the core only by calling `_on_stop_acquisition`, which `StopAcquisition` models.
- `PlotManager.refresh_plot` and the matplotlib figure, lines and canvas: this is rendering.
- `SerialHandler` and `ModbusHandler`: they wrap pyserial and pymodbus, whose behaviour is not visible here. The start handler does not read the connection state, so the model has no connected flag.
- Threads, `join(timeout=2)`, `time.sleep` and `root.after`. Passes and handlers are modelled as running one after another. A pass that finishes inside the stop's join is modelled as a `Tick` before `StopAcquisition`. Interleavings inside a pass are not modelled. One is a pass that outlasts the 2-second join: it may still push to the buffers after the logger is closed. Another is `stop_logging` (lines 311-313) running between the check at line 300 and `writerow` at line 305: `log_data` then raises, and the pass writes no row and makes no push.
- Exceptions and the handler of `_acquisition_loop` (lines 770-772). `writerow` or `flush` (lines 305-306) may raise `OSError`; the handler then skips that pass's buffer pushes. `open` (line 285) may raise after line 283 has already replaced `log_file`; that leaves the flag clear and `log_file` naming a file that was never created. The model's file operations always succeed.
- `_read_data`'s random numbers: the vector is an input. The program contains no register-word decoding or signal conditioning, so the model has none either.
- `datetime.now()` formatting: timestamps are opaque strings.
- `os.makedirs`, file handles, flushing and the CSV text encoding of a row (including how a float is printed): a file is a sequence of rows of cells.
- DataLogger.JoinPath: models the POSIX separator only. Windows `\` handling and drive letters are not modelled.
