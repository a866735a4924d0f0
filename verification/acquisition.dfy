/**
 The application's acquisition session: the `acquisition_active` flag, the
 start and stop handlers that drive the data logger, and the body of the
 acquisition loop that logs one sample vector and pushes its values into the
 per-channel display buffers. Widgets, threads and sleeping are not modelled;
 the vector a tick reads is an input.
 */
module Acquisition {

  import SeriesBuffer
  import DataLogger

  /** DEFAULT_CHANNEL_COUNT, the channel count every application starts with. */
  const DefaultChannelCount: nat := 3

  /** The default texts of the channel name entries, `Channel_<i+1>`. */
  const DefaultChannelNames: seq<string> := ["Channel_1", "Channel_2", "Channel_3"]

  /** The state the acquisition handlers read and write. `channelNames` is
      what the channel name entries currently hold. */
  datatype App = App(
    active: bool,
    channelCount: int,
    channelNames: seq<string>,
    logger: DataLogger.Logger,
    plot: SeriesBuffer.PlotBuffers)

  /** What holds of every application state the handlers can reach: the
      logger is open exactly while acquisition is active, it writes into
      LOG_DIRECTORY, the buffers are well formed and there is one buffer and
      one name entry per channel. */
  predicate Inv(app: App)
  {
    && DataLogger.Valid(app.logger)
    && app.logger.logDir == DataLogger.LogDirectory
    && SeriesBuffer.Valid(app.plot)
    && app.plot.channelCount == app.channelCount
    && |app.channelNames| == SeriesBuffer.ListCount(app.channelCount)
    && (app.active <==> app.logger.open)
  }

  /** The application as constructed: idle, three channels with their default
      names, a closed logger over `disk`, and empty buffers. */
  function NewApp(disk: map<string, seq<DataLogger.Row>>): (app: App)
    ensures Inv(app)
    ensures !app.active && !app.logger.open && app.logger.disk == disk
    ensures app.logger.logDir == DataLogger.LogDirectory && app.logger.logFile == DataLogger.None
    ensures app.channelCount == 3 && app.channelNames == ["Channel_1", "Channel_2", "Channel_3"]
    ensures |app.plot.buffers| == 3 && forall c :: 0 <= c < 3 ==> app.plot.buffers[c] == []
  {
    App(false, DefaultChannelCount, DefaultChannelNames,
        DataLogger.NewLogger(DataLogger.LogDirectory, disk),
        SeriesBuffer.Init(DefaultChannelCount))
  }

  /** `_on_start_acquisition`: ignored while active; otherwise the current
      channel names become the header of a new log and the flag is set. The
      display buffers are left as they are. */
  function StartAcquisition(app: App, stamp: string): (r: App)
    ensures app.active ==> r == app
    ensures !app.active ==> && r.active && r.logger.open
                            && r.logger.logFile == DataLogger.Some(DataLogger.LogPath(app.logger.logDir, stamp))
                            && DataLogger.LogPath(app.logger.logDir, stamp) in r.logger.disk
                            && r.logger.disk[DataLogger.LogPath(app.logger.logDir, stamp)] == [DataLogger.Header(app.channelNames)]
    ensures !app.active ==> forall f :: f in app.logger.disk && f != r.logger.logFile.value ==>
                                          f in r.logger.disk && r.logger.disk[f] == app.logger.disk[f]
    ensures !app.active ==> r.logger.disk.Keys == app.logger.disk.Keys + {r.logger.logFile.value}
    ensures Inv(app) && !app.active ==> r.logger.logFile == DataLogger.Some("logs/dass_log_" + stamp + ".csv")
    ensures r.logger.logDir == app.logger.logDir
    ensures r.plot == app.plot && r.channelNames == app.channelNames && r.channelCount == app.channelCount
    ensures Inv(app) ==> Inv(r)
  {
    if app.active then app
    else app.(logger := DataLogger.StartLogging(app.logger, app.channelNames, stamp), active := true)
  }

  /** `_on_stop_acquisition`: ignored while idle; otherwise clear the flag and
      close the log, whose rows stay on disk. */
  function StopAcquisition(app: App): (r: App)
    ensures !app.active ==> r == app
    ensures !r.active && (app.active ==> !r.logger.open)
    ensures r.logger.disk == app.logger.disk && r.logger.logFile == app.logger.logFile
    ensures r.logger.logDir == app.logger.logDir
    ensures r.plot == app.plot && r.channelNames == app.channelNames && r.channelCount == app.channelCount
    ensures Inv(app) ==> Inv(r)
  {
    if !app.active then app
    else app.(active := false, logger := DataLogger.StopLogging(app.logger))
  }

  /** The `for i, value in enumerate(data): update_data(i, value)` loop:
      value i goes to channel i; values beyond the channel count are dropped. */
  function PlotRow(p: SeriesBuffer.PlotBuffers, data: seq<SeriesBuffer.Sample>): (r: SeriesBuffer.PlotBuffers)
    requires SeriesBuffer.Valid(p)
    ensures SeriesBuffer.Valid(r)
    ensures r.channelCount == p.channelCount && |r.buffers| == |p.buffers|
    ensures forall c :: 0 <= c < |p.buffers| ==>
              r.buffers[c] == if c < |data|
                              then SeriesBuffer.LastN(p.buffers[c] + [data[c]], SeriesBuffer.MaxDataPoints)
                              else p.buffers[c]
    decreases |data|
  {
    if |data| == 0 then p
    else
      var k := |data| - 1;
      var prev := PlotRow(p, data[..k]);
      var r := SeriesBuffer.UpdateData(prev, k, data[k]);
      assert forall c :: 0 <= c < |p.buffers| ==>
               r.buffers[c] == if c < |data|
                               then SeriesBuffer.LastN(p.buffers[c] + [data[c]], SeriesBuffer.MaxDataPoints)
                               else p.buffers[c]
      by {
        forall c | 0 <= c < |p.buffers|
          ensures r.buffers[c] == if c < |data|
                                  then SeriesBuffer.LastN(p.buffers[c] + [data[c]], SeriesBuffer.MaxDataPoints)
                                  else p.buffers[c]
        {
          if c < k {
            assert data[..k][c] == data[c];
          }
        }
      }
      r
  }

  /** One pass through the body of `_acquisition_loop` with the vector
      `data` read and `stamp` the time it is logged at: an empty vector does
      nothing; otherwise it is logged as one row and value i is pushed to
      channel i. The pushes do not consult the logger: run on a closed
      logger, a pass writes no row but still pushes. */
  function Tick(app: App, data: seq<SeriesBuffer.Sample>, stamp: string): (r: App)
    requires DataLogger.Valid(app.logger) && SeriesBuffer.Valid(app.plot)
    ensures |data| == 0 ==> r == app
    ensures |data| > 0 && app.logger.open ==>
              var f := app.logger.logFile.value;
              r.logger.disk == app.logger.disk[f := app.logger.disk[f] + [DataLogger.DataRow(stamp, data)]]
    ensures !app.logger.open ==> r.logger == app.logger
    ensures r.logger.open == app.logger.open && r.logger.logFile == app.logger.logFile
    ensures r.logger.logDir == app.logger.logDir
    ensures |r.plot.buffers| == |app.plot.buffers|
    ensures forall c :: 0 <= c < |app.plot.buffers| ==>
              r.plot.buffers[c] == if c < |data|
                                   then SeriesBuffer.LastN(app.plot.buffers[c] + [data[c]], SeriesBuffer.MaxDataPoints)
                                   else app.plot.buffers[c]
    ensures r.active == app.active && r.channelNames == app.channelNames && r.channelCount == app.channelCount
    ensures Inv(app) ==> Inv(r)
  {
    if |data| == 0 then app
    else app.(logger := DataLogger.LogData(app.logger, data, stamp), plot := PlotRow(app.plot, data))
  }

  /** What one pass of the loop reads: the sample vector and the time it is logged at. */
  datatype TickInput = TickInput(data: seq<SeriesBuffer.Sample>, stamp: string)

  /** `_acquisition_loop`: passes run while the flag is set, one per input. */
  function Loop(app: App, inputs: seq<TickInput>): (r: App)
    requires Inv(app)
    ensures Inv(r)
    ensures r.active == app.active && r.channelNames == app.channelNames
    ensures r.logger.logFile == app.logger.logFile && r.logger.logDir == app.logger.logDir
    decreases |inputs|
  {
    if !app.active || |inputs| == 0 then app
    else Loop(Tick(app, inputs[0].data, inputs[0].stamp), inputs[1..])
  }

  /** The rows a sequence of loop passes writes: one per non-empty vector. */
  function LoggedRows(inputs: seq<TickInput>): (rows: seq<DataLogger.Row>)
    decreases |inputs|
  {
    if |inputs| == 0 then []
    else (if |inputs[0].data| > 0 then [DataLogger.DataRow(inputs[0].stamp, inputs[0].data)] else [])
         + LoggedRows(inputs[1..])
  }

  /** The values a sequence of loop passes sends to channel `c`, in order. */
  function Column(inputs: seq<TickInput>, c: nat): (values: seq<SeriesBuffer.Sample>)
    decreases |inputs|
  {
    if |inputs| == 0 then []
    else (if c < |inputs[0].data| then [inputs[0].data[c]] else []) + Column(inputs[1..], c)
  }

  /** While active, the loop appends to the open log exactly the rows of its
      non-empty vectors, in order, and touches no other file. */
  lemma {:induction false} LoopAppendsRows(app: App, inputs: seq<TickInput>)
    requires Inv(app) && app.active
    ensures var f := app.logger.logFile.value;
            && f in Loop(app, inputs).logger.disk
            && Loop(app, inputs).logger.disk[f] == app.logger.disk[f] + LoggedRows(inputs)
            && Loop(app, inputs).logger.disk.Keys == app.logger.disk.Keys
            && forall g :: g in app.logger.disk && g != f ==> Loop(app, inputs).logger.disk[g] == app.logger.disk[g]
    decreases |inputs|
  {
    var f := app.logger.logFile.value;
    if |inputs| == 0 {
      assert app.logger.disk[f] + [] == app.logger.disk[f];
    } else {
      var next := Tick(app, inputs[0].data, inputs[0].stamp);
      assert Loop(app, inputs) == Loop(next, inputs[1..]);
      LoopAppendsRows(next, inputs[1..]);
      var head := if |inputs[0].data| > 0 then [DataLogger.DataRow(inputs[0].stamp, inputs[0].data)] else [];
      assert next.logger.disk[f] == app.logger.disk[f] + head;
      assert LoggedRows(inputs) == head + LoggedRows(inputs[1..]);
      SeriesBuffer.ConcatAssoc(app.logger.disk[f], head, LoggedRows(inputs[1..]));
    }
  }

  /** While active, each channel's buffer holds the last MaxDataPoints of
      what it held followed by the values the loop sent to it. */
  lemma {:induction false} LoopKeepsLastPerChannel(app: App, inputs: seq<TickInput>, c: nat)
    requires Inv(app) && app.active
    requires c < |app.plot.buffers|
    ensures c < |Loop(app, inputs).plot.buffers|
    ensures Loop(app, inputs).plot.buffers[c]
            == SeriesBuffer.LastN(app.plot.buffers[c] + Column(inputs, c), SeriesBuffer.MaxDataPoints)
    decreases |inputs|
  {
    var before := app.plot.buffers[c];
    if |inputs| == 0 {
      assert before + [] == before;
    } else {
      var data := inputs[0].data;
      var next := Tick(app, data, inputs[0].stamp);
      assert Loop(app, inputs) == Loop(next, inputs[1..]);
      LoopKeepsLastPerChannel(next, inputs[1..], c);
      var rest := Column(inputs[1..], c);
      if c < |data| {
        assert next.plot.buffers[c] == SeriesBuffer.LastN(before + [data[c]], SeriesBuffer.MaxDataPoints);
        assert Column(inputs, c) == [data[c]] + rest;
        SeriesBuffer.LastNAbsorb(before + [data[c]], rest, SeriesBuffer.MaxDataPoints);
        SeriesBuffer.ConcatAssoc(before, [data[c]], rest);
      } else {
        assert Column(inputs, c) == rest;
        assert next.plot.buffers[c] == before;
      }
    }
  }

  /** Every row written by the loop has the header's width when every vector
      has one value per channel. */
  lemma {:induction false} LoggedRowsWidth(inputs: seq<TickInput>, width: nat)
    requires forall k :: 0 <= k < |inputs| ==> |inputs[k].data| == width
    ensures forall k :: 0 <= k < |LoggedRows(inputs)| ==> |LoggedRows(inputs)[k]| == 1 + width
    ensures width > 0 ==> |LoggedRows(inputs)| == |inputs|
    decreases |inputs|
  {
    if |inputs| > 0 {
      LoggedRowsWidth(inputs[1..], width);
    }
  }

  /** A whole session from idle: start, run the loop, stop. The log named
      after the start time holds the header of the names captured at start
      followed by one row per non-empty vector; the acquisition ends idle
      with the logger closed. */
  lemma SessionLog(app: App, startStamp: string, inputs: seq<TickInput>)
    requires Inv(app) && !app.active
    ensures var r := StopAcquisition(Loop(StartAcquisition(app, startStamp), inputs));
            var f := DataLogger.LogPath(app.logger.logDir, startStamp);
            && !r.active && !r.logger.open && Inv(r)
            && r.logger.logFile == DataLogger.Some(f)
            && f in r.logger.disk
            && r.logger.disk[f] == [DataLogger.Header(app.channelNames)] + LoggedRows(inputs)
  {
    var s := StartAcquisition(app, startStamp);
    LoopAppendsRows(s, inputs);
  }

  /** With one value per channel on every pass, a session of N passes leaves
      a file of N + 1 rows, each as wide as the header. */
  lemma SessionLogShape(app: App, startStamp: string, inputs: seq<TickInput>)
    requires Inv(app) && !app.active && app.channelCount > 0
    requires forall k :: 0 <= k < |inputs| ==> |inputs[k].data| == app.channelCount
    ensures var r := StopAcquisition(Loop(StartAcquisition(app, startStamp), inputs));
            var f := DataLogger.LogPath(app.logger.logDir, startStamp);
            && f in r.logger.disk
            && |r.logger.disk[f]| == |inputs| + 1
            && forall k :: 0 <= k < |r.logger.disk[f]| ==> |r.logger.disk[f][k]| == 1 + app.channelCount
  {
    SessionLog(app, startStamp, inputs);
    LoggedRowsWidth(inputs, app.channelCount);
    var f := DataLogger.LogPath(app.logger.logDir, startStamp);
    var rows := [DataLogger.Header(app.channelNames)] + LoggedRows(inputs);
    forall k | 0 <= k < |rows|
      ensures |rows[k]| == 1 + app.channelCount
    {
      if k > 0 {
        assert rows[k] == LoggedRows(inputs)[k - 1];
      }
    }
  }

  /** A whole session from idle, as seen by the buffers: they are not
      cleared at the start, and each channel ends with the last MaxDataPoints
      of its earlier contents followed by the values the passes sent to it. */
  lemma SessionBuffers(app: App, startStamp: string, inputs: seq<TickInput>, c: nat)
    requires Inv(app) && !app.active
    requires c < |app.plot.buffers|
    ensures var r := StopAcquisition(Loop(StartAcquisition(app, startStamp), inputs));
            && c < |r.plot.buffers|
            && r.plot.buffers[c]
               == SeriesBuffer.LastN(app.plot.buffers[c] + Column(inputs, c), SeriesBuffer.MaxDataPoints)
  {
    LoopKeepsLastPerChannel(StartAcquisition(app, startStamp), inputs, c);
  }

  /** Every session of an application writes inside `logs`: after a first
      session from a fresh application, a second start at stamp `t` opens
      `logs/dass_log_<t>.csv`. */
  lemma LaterSessionsLogInLogs(disk: map<string, seq<DataLogger.Row>>, s: string, inputs: seq<TickInput>, t: string)
    ensures var first := StopAcquisition(Loop(StartAcquisition(NewApp(disk), s), inputs));
            && !first.active
            && StartAcquisition(first, t).logger.logFile == DataLogger.Some("logs/dass_log_" + t + ".csv")
  {
  }

  /** A second start while active changes nothing: one log, one set of buffers. */
  lemma StartTwiceIsStartOnce(app: App, first: string, second: string)
    ensures StartAcquisition(StartAcquisition(app, first), second) == StartAcquisition(app, first)
  {
  }

  /** Renaming a channel after the start does not change what the loop
      writes: the header was fixed at start and ticks never read the names. */
  lemma NamesCapturedAtStart(app: App, names: seq<string>, inputs: seq<TickInput>)
    requires Inv(app) && |names| == |app.channelNames|
    ensures Loop(app.(channelNames := names), inputs).logger == Loop(app, inputs).logger
    ensures Loop(app.(channelNames := names), inputs).plot == Loop(app, inputs).plot
    decreases |inputs|
  {
    if app.active && |inputs| > 0 {
      NamesCapturedAtStart(Tick(app, inputs[0].data, inputs[0].stamp), names, inputs[1..]);
    }
  }

  /** The loop has no memory beyond the application state: running the
      passes of `a` and then those of `b` is running the passes of `a + b`. */
  lemma {:induction false} LoopSplit(app: App, a: seq<TickInput>, b: seq<TickInput>)
    requires Inv(app)
    ensures Loop(app, a + b) == Loop(Loop(app, a), b)
    decreases |a|
  {
    if app.active && |a| > 0 {
      var next := Tick(app, a[0].data, a[0].stamp);
      assert (a + b)[0] == a[0];
      assert (a + b)[1..] == a[1..] + b;
      LoopSplit(next, a[1..], b);
    } else if |a| == 0 {
      assert a + b == b;
    }
  }

  /** Renaming the channels at any point of a session, between any two
      passes, leaves the log and the buffers exactly as an uninterrupted run
      would leave them. */
  lemma RenameBetweenPasses(app: App, names: seq<string>, a: seq<TickInput>, b: seq<TickInput>)
    requires Inv(app) && |names| == |app.channelNames|
    ensures Loop(Loop(app, a).(channelNames := names), b).logger == Loop(app, a + b).logger
    ensures Loop(Loop(app, a).(channelNames := names), b).plot == Loop(app, a + b).plot
  {
    LoopSplit(app, a, b);
    NamesCapturedAtStart(Loop(app, a), names, b);
  }
}
