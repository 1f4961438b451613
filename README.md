# Surface Dial session model

This project models in Dafny the `Hardware` class of the macOS Surface Dial
driver (`Dial/Device/Hardware.swift`). The class opens the dial (vendor
0x045E, product 0x091B) over HID and sends it a welcome buzz and its
sensitivity setting. It then reads input reports in a loop, decodes each
report into a button state and an optional rotation step, and tells an
input handler about button *edges* and rotations. When a read fails it
disconnects, and a supervisor loop reconnects.

The HID library is replaced by an abstract transport:

- a device is an opaque `Handle` carrying its serial number;
- what the open attempts return is a parameter;
- what the reads return is a script, `incoming`. A script that has run out
  reads as an error;
- everything written to or closed on a device goes to a `log`;
- every call on the input handler goes to `notified`.

The application settings are passed in as a `Config` value:

- whether haptics are enabled;
- whether the application runs in agent mode;
- the current controller's auto-trigger preference;
- the user's rotation polarity.

Modules, one per file:

- `Wrappers`: the optional value used for Swift optionals.
- `DialReport`: identifiers, the input report, and its decoder `Parse`.
- `Haptics`: the 5-byte buzz report and the 8-byte sensitivity report, each
  with a decoder that reads it back.
- `DebounceGate`: the body of the read loop as a function. `Step` is one
  report and `Run` is a stream. This module holds the edge and rotation
  properties.
- `Transport`: read results, the buffer-size cut, and what one connected
  session of reads consumes and decodes.
- `DialHardware`: the `Hardware` class with its methods and both loops.
  `Supervise` specifies the reconnecting supervisor.

The class invariant `Valid()` says three things:

- the status is `Connected` exactly while a handle is open;
- that status names the handle's serial number;
- the last button state and the handler calls are what `Run` makes of every
  report dispatched so far, starting from the released state.

The invariant holds across reconnects. From it, `NotifiedEdgesAlternate`
derives that the handler only ever sees alternating edges, starting with a
press.

Three points a reader may not expect. The model follows the code in each
case:

- `disconnect` clears the handle before it calls the sensitivity reset. The
  reset therefore finds no device, so the "auto-triggers off" report is never
  sent on disconnect (`Hardware.swift:147`, `:156`, `:162`).
- The auto-trigger style byte of the sensitivity report is the Buzz mode's
  0x03, and 0x02 (None) without auto-triggers (`Hardware.swift:173`).
- `parse` reads byte 0 without checking the length. `Parse` therefore
  requires at least one byte. Its only caller guarantees this, because it
  parses only after a read returned a positive count.

## Model

| member | source | states |
|---|---|---|
| `Wrappers.Option.GetOr` | Dial/Device/Hardware.swift:133 | `x ?? d` is the wrapped value when present, `d` otherwise |
| `DialReport.InputReport.DebugMessage` | Dial/Device/Hardware.swift:76-83 | a report has a debug message exactly when it is unknown, and that message is "(unknown)" |
| `DialReport.ApplyPolarity` | Dial/Device/Hardware.swift:223 | an absent direction stays absent; a present one is mapped through the configured polarity |
| `DialReport.Parse` | Dial/Device/Hardware.swift:201-227 | unknown exactly when byte 0 is not 0x01 or fewer than 4 bytes arrived; pressed exactly when bit 0 of byte 1 is set; no direction exactly when byte 2 is zero or byte 3 is neither 0x00 nor 0xFF; 0x00 and 0xFF give clockwise and counter-clockwise after the polarity |
| `DialReport.ParseIgnoresTrailingBytes` | Dial/Device/Hardware.swift:203-217 | bytes after the fourth never change the decoded report |
| `DialReport.ParseEncodeDial` | Dial/Device/Hardware.swift:201-223 | decoding a canonical report gives back its button state and step, with the polarity applied (round trip) |
| `DialReport.DialReportsAreCanonical` | Dial/Device/Hardware.swift:202-223 | every byte string that decodes to a dial report decodes the same as some canonical report |
| `DialReport.ParseExamples` | Dial/Device/Hardware.swift:202-225 | concrete decodings: press with a clockwise step, counter-clockwise step, no rotation flag, an unknown direction byte, a short report, a foreign report id |
| `Haptics.HapticsMode.RawValue` | Dial/Device/Hardware.swift:63-69 | the wire values of the haptic modes lie in 0x02..0x04 |
| `Haptics.RawValueInjective` | Dial/Device/Hardware.swift:63-69 | distinct haptic modes have distinct wire values |
| `Haptics.BuzzReport` | Dial/Device/Hardware.swift:187-197 | the buzz report is exactly `[0x01, n-1, 0x03, 0x00, 0x00]` for a count n ≥ 1 |
| `Haptics.BuzzReportRoundTrip` | Dial/Device/Hardware.swift:187-197 | reading a buzz report back yields the repeat count it was built from |
| `Haptics.SensitivityReport` | Dial/Device/Hardware.swift:164-179 | the sensitivity report is 8 bytes: id 0x01, 360 little-endian in bytes 1-2, style 0x03 with auto-triggers and 0x02 without, zeros elsewhere |
| `Haptics.SensitivityReportRoundTrip` | Dial/Device/Hardware.swift:164-179 | reading a sensitivity report back yields 360 steps and the auto-trigger flag it was built from |
| `DebounceGate.Step` | Dial/Device/Hardware.swift:285-303 | an unknown report leaves the last state alone and emits nothing; a dial report sets the last state to its button |
| `DebounceGate.StepEdges` | Dial/Device/Hardware.swift:287-294 | one pass emits a press (release) edge exactly when the report is pressed (released) and the last state released (pressed), so at most one edge, and only on a change of state |
| `DebounceGate.StepRotations` | Dial/Device/Hardware.swift:296-298 | one pass emits exactly one rotation, carrying the report's button state, when the report has a direction, and none otherwise, whatever the last state |
| `DebounceGate.ChangesAppend` | Dial/Device/Hardware.swift:284-304 | the edges of two call sequences in a row are the edges of each, concatenated |
| `DebounceGate.RotationsAppend` | Dial/Device/Hardware.swift:284-304 | the rotations of two call sequences in a row are the rotations of each, concatenated |
| `DebounceGate.EdgeHistoryConcat` | Dial/Device/Hardware.swift:286-300 | two alternating edge histories that meet in one state form a single alternating history |
| `DebounceGate.RunEdgeHistory` | Dial/Device/Hardware.swift:284-304 | over any stream of reports the emitted edges alternate, the first differs from the starting state, and the gate ends in the state of the last edge |
| `DebounceGate.Run` | Dial/Device/Hardware.swift:284-304 | the read loop's dispatch over a stream of reports: an empty stream leaves the state and emits nothing, and each report emits at most two handler calls (an edge and a rotation) |
| `DebounceGate.RunAppend` | Dial/Device/Hardware.swift:284-304 | splitting a stream splits its trace, with the state carried across the split |
| `DebounceGate.RunSnoc` | Dial/Device/Hardware.swift:284-304 | one more report extends the trace by that report's pass |
| `DebounceGate.RunLastIsLastDial` | Dial/Device/Hardware.swift:300 | after a stream the last button state is that of the last dial report, or the initial state if there was none |
| `DebounceGate.ReleasedStreamIsSilent` | Dial/Device/Hardware.swift:32 | from the initial released state, a stream that never shows the button down emits no edge and stays released |
| `DebounceGate.RunRotations` | Dial/Device/Hardware.swift:296-298 | exactly one rotation per report with a direction is emitted, in order, each carrying that report's button state, whatever the button history |
| `DebounceGate.DebounceExample` | Dial/Device/Hardware.swift:286-300 | the levels released, released, pressed, pressed, released produce exactly the edges pressed, released |
| `Transport.ReadCount` | Dial/Device/Hardware.swift:36 | a read yields -1 on error, otherwise the bytes delivered cut at the 1024-byte buffer; it is ≤ 0 exactly on an error or an empty delivery |
| `Transport.SessionLength` | Dial/Device/Hardware.swift:284-285 | a session consumes no more reads than the script holds, and none only from an empty script |
| `Transport.SessionRestFollowsSession` | Dial/Device/Hardware.swift:284-285 | what a session leaves is exactly the script after the reads it consumed |
| `Transport.SessionReports` | Dial/Device/Hardware.swift:232-245 | a session decodes one report per read except its last |
| `Transport.SessionLengthStopsAtFailure` | Dial/Device/Hardware.swift:232-237 | every read of a session but its last delivered bytes, and unless the script ran out, its last read failed |
| `Transport.SessionReportsDecodeReads` | Dial/Device/Hardware.swift:239-242 | the i-th decoded report is the parse of the bytes the i-th read delivered |
| `Transport.SessionContinues` | Dial/Device/Hardware.swift:232-245 | a session whose first read succeeds decodes it and goes on with the rest of the script |
| `Transport.SessionEnds` | Dial/Device/Hardware.swift:232-237 | a session whose first read fails ends there, having decoded nothing |
| `DialHardware.ConnectionStatus.IsConnected` | Dial/Device/Hardware.swift:53-60 | a status is connected exactly when it is not `disconnected` |
| `DialHardware.ConnectTransfers` | Dial/Device/Hardware.swift:132-133 | opening a device sends it the 3-times buzz (only with haptics on) and then the sensitivity report with the controller's auto-trigger preference, off in agent mode; all to that device, and no close |
| `DialHardware.Supervise` | Dial/Device/Hardware.swift:274-309 | the reconnecting outer loop as a function of the open results and the read script: with no attempts nothing happens, it never consumes more than the script, and with no device and only failed opens nothing is sent |
| `DialHardware.SuperviseCycle` | Dial/Device/Hardware.swift:275-304 | the supervisor's cycles from one attempt on are that attempt's cycle followed by the rest |
| `DialHardware.SuperviseWithoutDevice` | Dial/Device/Hardware.swift:276-284 | with no device open and every open attempt failing, nothing is read, dispatched or sent |
| `DialHardware.SuperviseLeavesSuffix` | Dial/Device/Hardware.swift:275-304 | the supervisor consumes reads from the front of the script only |
| `DialHardware.Hardware.NotifiedEdgesAlternate` | Dial/Device/Hardware.swift:286-300 | over the session's whole life, reconnects included, the handler sees alternating edges starting with a press, the last of which is the held button state |
| `DialHardware.Hardware.constructor` | Dial/Device/Hardware.swift:30-38 | a new session is disconnected, with no device, no thread, not running, and the button released |
| `DialHardware.Hardware.IsConnected` | Dial/Device/Hardware.swift:94-96 | connected exactly when a handle is open, which is exactly when the status says connected |
| `DialHardware.Hardware.Connect` | Dial/Device/Hardware.swift:124-137 | the handle becomes the open result; on success the status names the serial and the log gains the buzz (when haptics are on) then the sensitivity report; on failure nothing is sent and the status stays disconnected; returns whether a device is open |
| `DialHardware.Hardware.Disconnect` | Dial/Device/Hardware.swift:139-158 | with no device nothing changes; otherwise the handle is cleared, the device closed and the status disconnected, with no report sent |
| `DialHardware.Hardware.InitSensitivity` | Dial/Device/Hardware.swift:161-181 | nothing is sent without a device; otherwise exactly one sensitivity report, with auto-triggers forced off in agent mode |
| `DialHardware.Hardware.Buzz` | Dial/Device/Hardware.swift:183-199 | the count defaults to 1; nothing is written for a count of 0, with haptics off or without a device; otherwise exactly one buzz report for that count |
| `DialHardware.Hardware.Read` | Dial/Device/Hardware.swift:229-246 | without a device returns nil and changes nothing; a read of ≤ 0 bytes disconnects and returns nil; otherwise returns the parse of the delivered bytes, with the connection untouched |
| `DialHardware.Hardware.HandleReport` | Dial/Device/Hardware.swift:285-303 | the last state and handler calls advance by exactly one `Step` of the report; nil leaves them unchanged |
| `DialHardware.Hardware.ServeConnection` | Dial/Device/Hardware.swift:284-304 | serving an open device consumes exactly one session of reads, closes the device, and leaves the last state and handler calls as `Run` over the session's reports; without a device nothing changes |
| `DialHardware.Hardware.Cycle` | Dial/Device/Hardware.swift:275-304 | one supervisor cycle connects unless a device is open, then serves it until it drops: it logs the opening reports and the close, dispatches one session's reports, and ends disconnected |
| `DialHardware.Hardware.ThreadProc` | Dial/Device/Hardware.swift:274-309 | while running, the reports dispatched, the transfers logged, the script left and the handler calls are those of `Supervise` over the open attempts; when not running nothing changes |
| `DialHardware.Hardware.Start` | Dial/Device/Hardware.swift:250-259 | the session has a thread and is running |
| `DialHardware.Hardware.Stop` | Dial/Device/Hardware.swift:261-271 | the session is no longer running and has no thread; without a thread nothing else changes; with one the device is released |

## Left out

- Threads and timing are left out. This covers the `Thread`, the semaphore and its interruptible 60-second back-off, the busy-wait in `stop`, the background `hid_close`, and the 10 ms delayed write of `buttonState` in `parse`. The model is sequential: `Start` only sets the flags; `Stop` clears them and releases the device, without the semaphore wake-up or the wait for the thread to finish.
- DialHardware.Hardware.ThreadProc: runs one supervisor cycle per entry of `opens` (the entry is unused when a device is already open), not until `stop` is called, because the model has no concurrent `Stop` to end the loop.
- The HID C library is replaced by the abstract transport: open, read, write, send-feature, close, exit and the manufacturer/serial string getters. A handle's serial number is carried in `Handle`.
- The pointer-level `ReadBuffer` is not modelled. A read hands over at most 1024 bytes (`Transport.ReadCount`).
- `print` logging and the hex formatting of the bytes read are not modelled.
- The input handler is modelled as a log of its calls. A session with no handler installed (`inputHandler == nil`) is not modelled separately: the calls are recorded as if a handler were present.
- `Direction.multiply` and the global direction setting are not part of this model. They are stood in for by `Polarity`, an arbitrary map of the two directions.
- The application settings (`Defaults`, the current controller, agent mode) are inputs in a `Config` value. A single operation reads them from its `Config` as the code does; the loop methods below take one `Config` for their whole run.
- DialHardware.Hardware.ServeConnection: the rotation polarity is fixed for the whole session, while the code re-reads the global direction on every parse (line 223), so a polarity change during a session is not modelled.
- DialHardware.Hardware.Cycle: the settings are fixed for the cycle, while the code re-reads the haptics switch, the controller's auto-trigger preference and agent mode at the connect (lines 133, 163, 186) and the polarity on every parse (line 223).
- DialHardware.Hardware.ThreadProc: one `Config` serves every reconnect and every read of the run, so a settings change between or during cycles is not modelled.
- DialHardware.Supervise: specifies the supervisor for one fixed `Config`, the same settings for every cycle, as `ThreadProc` takes them.
- The `Callback` forwarding struct (lines 312-331) only forwards to `buzz` and `initSensitivity`, which are modelled.
- `deinit` is not modelled (it calls `stop` and the library's exit).
- MacDial/ScrollPlayPause.swift and MacDial/KeyboardController.swift are not part of this model. They hold wall-clock timing, floating point and OS event posting.
