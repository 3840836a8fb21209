/** The main window of the power meter: the widget texts it keeps, the
    slots that receive a reading from either meter, the folder and logging
    buttons, and the slot that composes one log record per logger tick. */
module PowermeterGui {
  import opened PowerText
  import SampleBuffer
  import opened LoggerThread

  datatype Option<T> = None | Some(value: T)

  /** What one call of the log slot hands to the log handler: the file name
      it passes to `basicConfig` and the line it writes. */
  datatype LogRecord = LogRecord(file: string, line: string)

  const LoggingNotActive: string := "Logging: Not active"
  const LoggingActive: string := "Logging: Active"
  const StartCaption: string := "Start logging"
  const StopCaption: string := "Stop logging"
  /** Texts of the two warning boxes (both titled "Error:"). */
  const NoFolderWarning: string := "No logging folder set yet"
  const NoFilenameWarning: string := "No filename set yet"

  /** The form widget, reduced to the texts of the widgets that the logic
      reads or writes, and the current logger. */
  class UI {
    var currentPowerLabel: string
    var currentPowerLabel2: string
    /** Text of the filename line edit; the user may type anything into it. */
    var logFilename: string
    var logFoldername: string
    var logActive: string
    /** Caption of the start/stop button. */
    var startLoggingButton: string
    /** The logger of the current or of the last session; none before the first. */
    var logger: Logger?

    /** The activity label and the button caption agree; an active session
        has a logger whose flag is set, and the logger left over from an
        ended session is stopped. */
    ghost predicate Valid()
      reads this, logger
    {
      ((logActive == LoggingNotActive && startLoggingButton == StartCaption) ||
       (logActive == LoggingActive && startLoggingButton == StopCaption && logger != null)) &&
      (logActive == LoggingActive && logger != null ==> logger.isLogging) &&
      (logActive == LoggingNotActive && logger != null ==> !logger.isLogging)
    }

    /** The texts the window is built with. */
    ghost predicate InInitialState()
      reads this
    {
      currentPowerLabel == "" && currentPowerLabel2 == "" &&
      logFilename == FilenameNotSet && logFoldername == FolderNotSet &&
      logActive == LoggingNotActive && startLoggingButton == StartCaption &&
      logger == null
    }

    constructor ()
      ensures Valid() && InInitialState()
    {
      currentPowerLabel, currentPowerLabel2 := "", "";
      logFilename := FilenameNotSet;
      logFoldername := FolderNotSet;
      logActive := LoggingNotActive;
      startLoggingButton := StartCaption;
      logger := null;
    }

    /** The folder button: `chosen` is what the folder dialog returns (the
        empty string when it is cancelled). */
    method GetDirectoryButtonClicked(chosen: string)
      modifies this`logFoldername
      ensures logFoldername == FolderLabel(chosen)
      ensures SliceFrom(logFoldername, FolderPrefixLength) == chosen
    {
      logFoldername := FolderPrefix + chosen;
      FolderRoundTrip(chosen);
    }

    /** The start/stop button. The two guards come first, so an unset folder
        or filename refuses stopping as well as starting; otherwise the click
        starts a new logger or stops the running one. */
    method StartLoggingButtonClicked() returns (warning: Option<string>)
      requires Valid()
      modifies this`logActive, this`startLoggingButton, this`logger, logger
      ensures Valid()
      ensures old(logFoldername) == FolderNotSet ==>
        warning == Some(NoFolderWarning) && unchanged(this) &&
        (logger != null ==> unchanged(logger))
      ensures old(logFoldername) != FolderNotSet && old(logFilename) == FilenameNotSet ==>
        warning == Some(NoFilenameWarning) && unchanged(this) &&
        (logger != null ==> unchanged(logger))
      ensures old(logFoldername) != FolderNotSet && old(logFilename) != FilenameNotSet &&
              old(logActive) == LoggingNotActive ==>
        warning == None && logActive == LoggingActive && startLoggingButton == StopCaption &&
        logger != null && fresh(logger) && logger.isLogging &&
        (old(logger) != null ==> old(logger).isLogging == old(logger.isLogging))
      ensures old(logFoldername) != FolderNotSet && old(logFilename) != FilenameNotSet &&
              old(logActive) == LoggingActive ==>
        warning == None && logActive == LoggingNotActive && startLoggingButton == StartCaption &&
        old(logger) != null && logger == old(logger) && !logger.isLogging
    {
      if logFoldername == FolderNotSet {
        return Some(NoFolderWarning);
      }
      if logFilename == FilenameNotSet {
        return Some(NoFilenameWarning);
      }
      warning := None;
      if logActive == LoggingNotActive && logFoldername != FolderNotSet {
        logActive := LoggingActive;
        startLoggingButton := StopCaption;
        logger := new Logger();
      } else if logActive == LoggingActive {
        logger.Stop();
        logActive := LoggingNotActive;
        startLoggingButton := StartCaption;
      }
    }

    /** The log slot, run on every logger tick: the file is the folder label
        without its prefix, a slash and the filename; the line is the
        handler's `timestamp` and both power labels without their prefix. */
    method WriteLog(timestamp: string) returns (record: LogRecord)
      ensures record.file == LogPath(logFoldername, logFilename)
      ensures record.line == LogLine(timestamp, LogMessage(currentPowerLabel, currentPowerLabel2))
      ensures forall dir :: logFoldername == FolderLabel(dir) ==>
        record.file == dir + "/" + logFilename
      ensures forall shown1, shown2 ::
        currentPowerLabel == PowerLabel1(shown1) && currentPowerLabel2 == PowerLabel2(shown2) ==>
        record.line == timestamp + "," + shown1 + " mW," + shown2 + " mW"
    {
      var file := SliceFrom(logFoldername, FolderPrefixLength) + "/" + logFilename;
      var message := SliceFrom(currentPowerLabel, PowerPrefixLength) + "," +
                     SliceFrom(currentPowerLabel2, PowerPrefixLength);
      record := LogRecord(file, timestamp + "," + message);
      forall dir | logFoldername == FolderLabel(dir)
        ensures record.file == dir + "/" + logFilename
      {
        LogPathOfChosenFolder(dir, logFilename);
      }
      forall shown1, shown2 |
        currentPowerLabel == PowerLabel1(shown1) && currentPowerLabel2 == PowerLabel2(shown2)
        ensures record.line == timestamp + "," + shown1 + " mW," + shown2 + " mW"
      {
        LogMessageOfReadings(shown1, shown2);
      }
    }
  }

  /** The main window: the two histories `data1` and `data2` that the plots
      draw, the form widget, and the formatting of a reading to three
      decimals, which is left uninterpreted. */
  class Powermeter {
    var data1: seq<real>
    var data2: seq<real>
    const formWidget: UI
    /** The text of a reading rounded to three decimal places. */
    const formatPower: real -> string

    ghost predicate Valid()
      reads this, formWidget, formWidget.logger
    {
      |data1| == SampleBuffer.Capacity && |data2| == SampleBuffer.Capacity && formWidget.Valid()
    }

    constructor (formatPower: real -> string)
      ensures Valid() && fresh(formWidget) && formWidget.InInitialState()
      ensures data1 == SampleBuffer.Initial() && data2 == SampleBuffer.Initial()
      ensures this.formatPower == formatPower
    {
      data1 := SampleBuffer.Initial();
      data2 := SampleBuffer.Initial();
      formWidget := new UI();
      this.formatPower := formatPower;
    }

    /** A reading from meter 1: its label shows the formatted value and
        `data1` shifts by one towards the newest reading. Nothing of meter 2
        changes, and nothing else of the form either. */
    method OnDataReceived(powervalue: real)
      modifies this`data1, formWidget`currentPowerLabel
      ensures formWidget.currentPowerLabel == PowerLabel1(formatPower(powervalue))
      ensures data1 == SampleBuffer.Receive(old(data1), powervalue)
      ensures |data1| == |old(data1)|
      ensures old(data1) != [] ==> data1 == old(data1)[1..] + [powervalue]
      ensures data2 == old(data2) && formWidget.currentPowerLabel2 == old(formWidget.currentPowerLabel2)
      ensures old(Valid()) ==> Valid()
    {
      formWidget.currentPowerLabel := PowerPrefix1 + formatPower(powervalue) + PowerUnit;
      data1 := data1 + [powervalue];
      data1 := data1[1..];
    }

    /** A reading from meter 2, the mirror image of `OnDataReceived`. */
    method OnDataReceived2(powervalue2: real)
      modifies this`data2, formWidget`currentPowerLabel2
      ensures formWidget.currentPowerLabel2 == PowerLabel2(formatPower(powervalue2))
      ensures data2 == SampleBuffer.Receive(old(data2), powervalue2)
      ensures |data2| == |old(data2)|
      ensures old(data2) != [] ==> data2 == old(data2)[1..] + [powervalue2]
      ensures data1 == old(data1) && formWidget.currentPowerLabel == old(formWidget.currentPowerLabel)
      ensures old(Valid()) ==> Valid()
    {
      formWidget.currentPowerLabel2 := PowerPrefix2 + formatPower(powervalue2) + PowerUnit;
      data2 := data2 + [powervalue2];
      data2 := data2[1..];
    }
  }

  /** One session from a freshly built window: choose the folder `dir`,
      type `filename`, click start, receive one reading per meter, let the
      logger tick once. A record is written exactly when both guards let the
      click through, and it goes to `dir/filename` with both readings. */
  method FirstLogRecord(formatPower: real -> string, dir: string, filename: string,
                        v1: real, v2: real, timestamp: string)
    returns (record: Option<LogRecord>)
    ensures record.Some? <==> dir != "Not set yet" && filename != FilenameNotSet
    ensures record.Some? ==>
      record.value == LogRecord(dir + "/" + filename,
                                timestamp + "," + formatPower(v1) + " mW," + formatPower(v2) + " mW")
  {
    var meter := new Powermeter(formatPower);
    var ui := meter.formWidget;
    ui.GetDirectoryButtonClicked(dir);
    ui.logFilename := filename;
    FolderGuardRefusesExactly(dir);
    var warning := ui.StartLoggingButtonClicked();
    meter.OnDataReceived(v1);
    meter.OnDataReceived2(v2);
    if warning.Some? {
      return None;
    }
    var logger := ui.logger;
    var ticks := logger.Work([false]);
    assert |ticks| == 1;
    var r := ui.WriteLog(timestamp);
    record := Some(r);
  }
}
