# Power meter dashboard: sample histories, logging toggle and log records

This project models the logic inside the Qt GUI of the two-channel power
meter dashboard (`powermeter.py`). Each power meter's readings arrive at a
slot. The slot shows the reading in a label and shifts it into a history of
600 values that the plots draw. A start/stop button runs a logging worker,
but only after a folder and a filename are set. On every tick the worker
makes the window compose one log record. The record's file path and message
are recovered from the widget texts by cutting off fixed-length prefixes.

Modules:

- `PowerText` (pure): the widget texts and their prefixes, Python's `s[n:]`
  slicing, the folder label, the power labels, the log path, the log message
  and the log line.
- `SampleBuffer` (pure): the history as a value. `Receive` is "append, then
  delete index 0". `ReceiveAll` applies a sequence of readings.
- `LoggerThread`: the `Logger` class, whose `isLogging` flag is cleared by
  `Stop`. Its `Work` loop runs while the flag is set. `Ticks` gives the
  number of iterations.
- `PowermeterGui`: the `UI` class, whose fields are the texts of the labels,
  the line edit and the button, plus the current logger. It has the folder
  button, the start/stop button and the log slot. The `Powermeter` class
  holds the two histories `data1` and `data2` and the two reading slots.

Modelling decisions:

- Readings are `real`. The three-decimal rendering of a reading is the
  uninterpreted function `formatPower: real -> string`, passed to the
  `Powermeter` constructor. It is total: every reading has a text. In the
  source, `Decimal(v).quantize(...)` raises `InvalidOperation` on an infinite
  or very large reading. The label is set (powermeter.py:224) before the
  append (powermeter.py:225), so such a reading aborts the slot and leaves
  that meter's history unchanged. The model does not capture this.
- The module-level lists `data1` and `data2` become `seq<real>` fields of
  `Powermeter`. A slot reassigns the field twice, once for the append and
  once for the delete of index 0.
- The folder dialog's answer, the handler's timestamp and the other
  thread's calls of `stop()` are all parameters.
- The comment above the reading slots says the new value goes into the first
  position and the last element is dropped. The code does the opposite: it
  appends at the end and deletes index 0. The model follows the code.
- Python's `list.append` followed by `del l[0]` leaves an empty list empty.
  `Receive` keeps that case. The length invariant of 600 is a consequence of
  the initial value, not a precondition of the slots.
- The folder label before any choice, "Folder where logs will be saved: Not
  set yet", is the label of a directory named "Not set yet". The folder guard
  therefore refuses exactly that directory
  (`FolderGuardRefusesExactly`). A cancelled dialog returns the empty
  string. That label passes the guard and sends the log to `"/" + filename`
  (`CancelledDialogPath`).
- The guards run before the stop branch. So resetting the filename text, or
  choosing a directory named "Not set yet", while logging is active makes
  the stop click refuse as well.

## Model

| member | source | states |
|---|---|---|
| `PowerText.SliceFrom` | powermeter.py:367-369 | `s[n:]`: empty when `s` has at most `n` characters, otherwise the part of `s` after its first `n` characters |
| `PowerText.FolderLabel` | powermeter.py:244 | the folder label is the 33-character prefix followed by exactly the chosen directory |
| `PowerText.PowerLabel1` | powermeter.py:224 | meter 1's label is the 17-character prefix "Current Power 1: " followed by exactly the formatted value and " mW" |
| `PowerText.PowerLabel2` | powermeter.py:235 | meter 2's label is the 17-character prefix "Current Power 2: " followed by exactly the formatted value and " mW" |
| `PowerText.LogPath` | powermeter.py:367 | the log path for the label of a chosen directory `d` is `d + "/" + f`; a label of at most 33 characters gives `"/" + f` (with `LogPathOfChosenFolder` and `CancelledDialogPath`) |
| `PowerText.LogMessage` | powermeter.py:369 | for power labels showing `fmt1` and `fmt2` the message is `fmt1 + " mW," + fmt2 + " mW"`; two labels of at most 17 characters give "," (with `LogMessageOfReadings` and `LogMessageBeforeFirstReading`) |
| `PowerText.LogLine` | powermeter.py:368 | the line of the `'%(asctime)s,%(message)s'` format: the timestamp, then a comma, then exactly the message |
| `PowerText.FolderRoundTrip` | powermeter.py:367 | cutting 33 characters off the label of directory `d` gives back `d` |
| `PowerText.LogPathOfChosenFolder` | powermeter.py:367 | the log file for chosen directory `d` and filename `f` is `d + "/" + f` |
| `PowerText.FolderGuardRefusesExactly` | powermeter.py:250 | the folder label equals the not-set text if and only if the chosen directory is "Not set yet" |
| `PowerText.CancelledDialogPath` | powermeter.py:244 | after a cancelled dialog (empty directory) the folder guard passes and the log file is `"/" + f` |
| `PowerText.PowerLabelRoundTrip` | powermeter.py:369 | cutting 17 characters off either power label gives the formatted value followed by " mW" |
| `PowerText.LogMessageOfReadings` | powermeter.py:369 | with both meters showing readings, the message is `fmt1 + " mW," + fmt2 + " mW"` |
| `PowerText.LogMessageBeforeFirstReading` | powermeter.py:369 | an empty power label contributes nothing: the message is "," before any reading, and `"," + fmt2 + " mW"` before meter 1's first reading |
| `SampleBuffer.Initial` | powermeter.py:20-21 | a history starts as exactly 600 zeros |
| `SampleBuffer.Receive` | powermeter.py:225-226 | a reading keeps the length, moves every kept entry one place towards the front, puts the reading last and drops the oldest |
| `SampleBuffer.ReceiveAll` | powermeter.py:225-226 | a sequence of readings keeps the history's length |
| `SampleBuffer.ReceiveAllKeepsNewest` | powermeter.py:225-226 | after readings `vs` the history is the newest entries of `old + vs`, as many as the old history had, in arrival order |
| `SampleBuffer.HistoryFromStart` | powermeter.py:20-21 | from program start a history always has 600 entries: the last 600 readings once 600 have arrived, the remaining zeros followed by all readings before that |
| `LoggerThread.Ticks` | powermeter.py:110-112 | the loop can tick at most once per observed sleep, and never when it starts inactive |
| `LoggerThread.TicksUntilFirstStop` | powermeter.py:110-116 | a first stop during the k-th sleep ends the loop after exactly k + 1 ticks, so no iteration begins after `stop()` |
| `LoggerThread.TicksWithoutStop` | powermeter.py:110-112 | without a stop the loop ticks on every observed iteration |
| `LoggerThread.Logger.constructor` | powermeter.py:103-106 | a new logger has its flag set |
| `LoggerThread.Logger.Stop` | powermeter.py:114-116 | `stop()` clears the flag |
| `LoggerThread.Logger.Work` | powermeter.py:108-112 | the loop emits `Ticks(old flag, stops)` ticks, each with payload "1". The flag stays set exactly when it was set and no stop came |
| `PowermeterGui.UI.constructor` | powermeter.py:295-327 | the initial widget texts: empty power labels, "Select a filename", the not-set folder label, "Logging: Not active", "Start logging", no logger |
| `PowermeterGui.UI.GetDirectoryButtonClicked` | powermeter.py:243-244 | the folder label becomes the prefix plus the dialog's answer, from which the 33-character cut recovers the answer |
| `PowermeterGui.UI.StartLoggingButtonClicked` | powermeter.py:246-279 | an unset folder gives the folder warning and changes nothing, and so does an unset filename. Otherwise an inactive session becomes active with "Stop logging" and a fresh logger whose flag is set. An active session has its logger stopped and goes back to "Not active" with "Start logging". Label, caption and logger flag always agree (`Valid`) |
| `PowermeterGui.UI.WriteLog` | powermeter.py:365-369 | the record's file is `d + "/" + filename` for a folder label of directory `d`. Its line is `timestamp + "," + fmt1 + " mW," + fmt2 + " mW"` for power labels showing `fmt1` and `fmt2` |
| `PowermeterGui.Powermeter.constructor` | powermeter.py:189-197 | both histories start as 600 zeros and the form starts in its initial state |
| `PowermeterGui.Powermeter.OnDataReceived` | powermeter.py:222-226 | meter 1's label shows the formatted reading and `data1` becomes `old[1..] + [v]` with the same length. `data2` and meter 2's label are unchanged, and nothing else of the form changes |
| `PowermeterGui.Powermeter.OnDataReceived2` | powermeter.py:233-237 | meter 2's label shows the formatted reading and `data2` becomes `old[1..] + [v]` with the same length. `data1` and meter 1's label are unchanged, and nothing else of the form changes |
| `PowermeterGui.FirstLogRecord` | powermeter.py:363-369 | from a fresh window: choose folder `d`, type filename `f`, click start, one reading per meter, one tick. A record is written if and only if `d` is not "Not set yet" and `f` is not "Select a filename". It goes to `d/f` and its line holds both formatted readings |

## Left out

- The serial workers `Worker` and `Worker2` (powermeter.py:26-62) are left out. They are serial-port I/O, so a reading is an opaque input to the slots.
- The dummy sources `DummySerial1` and `DummySerial2` (powermeter.py:67-96) are left out. They use randomness and sleeping.
- Float and decimal arithmetic is left out. That covers the watts-to-milliwatts scaling, the `"{0:.3f}"` rounding and the `Decimal` quantisation. Formatting is the uninterpreted `formatPower`.
- Qt threads, signals, slots and the timer-driven plot canvases (powermeter.py:118-185, 201-215) are left out. They are UI and concurrency plumbing. The logger's tick signal is modelled only as the sequence of emitted payloads.
- The `logging` library's file handling is left out: `basicConfig`, which configures a handler only on its first call, the timestamp and the file truncation. That is foreign library behaviour. Only the file path and the written line are modelled, and the timestamp is a parameter.
- The warning message boxes are modelled as the returned warning text. Their modality and display are not modelled.
- The widget layout in `UI.__init__` and `main()` are UI only. Only the initial texts are taken.
- testpower.py is left out. It is an instrument query loop with no logic beyond I/O.
- LoggerThread.Logger.Work: stops after at most `|stops|` iterations even when the flag is still set, while the source loops forever. The other thread's `stop()` calls are a schedule, one entry per sleep, rather than real concurrency.
- PowermeterGui.UI.StartLoggingButtonClicked: requires `Valid()`. That is the agreement of the activity label with the button caption, and with the flag of the current logger: set while active, cleared once stopped. Every method of the window keeps it. Code that writes `logActive` directly is not modelled.
