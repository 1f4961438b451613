/**
 * The Surface Dial session (`Hardware`): the device handle and connection
 * status, the outbound haptic commands, the read-and-dispatch loop and the
 * supervisor loop that reconnects, all over the abstract transport of
 * module Transport.
 */
module DialHardware {
  import opened Wrappers
  import opened DialReport
  import opened Haptics
  import opened DebounceGate
  import opened Transport

  datatype ConnectionStatus = Connected(serial: string) | Disconnected
  {
    predicate IsConnected()
      ensures IsConnected() <==> this != Disconnected
    {
      Connected?
    }
  }

  /** The settings the session reads on demand from the application. */
  datatype Config = Config(
    /** whether haptic feedback is on at all */
    hapticsEnabled: bool,
    /** whether the application runs in the mode where it must not inject input */
    isAgent: bool,
    /** the current controller's auto-trigger preference, absent without a controller */
    controllerAutoTriggers: Option<bool>,
    /** the configured rotation polarity, applied to each decoded direction */
    polarity: Polarity)

  /** What opening the device `h` writes to it: the welcome buzz, then the sensitivity setting. */
  function ConnectTransfers(h: Handle, config: Config): (r: seq<Transfer>)
    ensures |r| == if config.hapticsEnabled then 2 else 1
    ensures forall i :: 0 <= i < |r| ==> r[i].handle == h && !r[i].Closed?
    ensures config.hapticsEnabled ==> r[0] == OutputReport(h, BuzzReport(3))
    ensures r[|r| - 1] == FeatureReport(h, SensitivityReport(config.controllerAutoTriggers.GetOr(false) && !config.isAgent))
  {
    (if config.hapticsEnabled then [OutputReport(h, BuzzReport(3))] else [])
      + [FeatureReport(h, SensitivityReport(config.controllerAutoTriggers.GetOr(false) && !config.isAgent))]
  }

  /**
   * What the supervisor's cycles amount to: the reports they dispatch, the
   * transfers they make and the script they leave.
   */
  datatype Supervision = Supervision(reports: seq<InputReport>, transfers: seq<Transfer>, rest: seq<ReadResult>)

  /**
   * The supervisor's cycles from the device `current` (open or not): one
   * cycle per entry of `opens`. A cycle with no device open takes the entry
   * as the result of its open attempt; the entry is unused when a device is
   * already open. An open device is served for one session and closed.
   */
  function Supervise(current: Option<Handle>, opens: seq<Option<Handle>>, script: seq<ReadResult>, config: Config): (s: Supervision)
    ensures opens == [] ==> s == Supervision([], [], script)
    ensures |s.rest| <= |script|
    ensures current.None? && (forall i :: 0 <= i < |opens| ==> opens[i].None?) ==> s.transfers == []
    decreases |opens|
  {
    if opens == [] then Supervision([], [], script)
    else
      var h := if current.Some? then current else opens[0];
      var next := Supervise(None, opens[1..], if h.Some? then SessionRest(script) else script, config);
      if h.None? then next
      else
        var opening := if current.Some? then [] else ConnectTransfers(h.value, config);
        Supervision(SessionReports(script, config.polarity) + next.reports,
                    opening + [Closed(h.value)] + next.transfers,
                    next.rest)
  }

  /** The supervisor's cycles from the `a`-th open result on: its first cycle and the rest. */
  lemma SuperviseCycle(current: Option<Handle>, opens: seq<Option<Handle>>, a: nat, script: seq<ReadResult>, config: Config)
    requires a < |opens|
    ensures var h := if current.Some? then current else opens[a];
            var next := Supervise(None, opens[a + 1..], if h.Some? then SessionRest(script) else script, config);
            Supervise(current, opens[a..], script, config)
            == if h.None? then next
               else Supervision(SessionReports(script, config.polarity) + next.reports,
                                (if current.Some? then [] else ConnectTransfers(h.value, config)) + [Closed(h.value)] + next.transfers,
                                next.rest)
  {
    assert opens[a..][0] == opens[a] && opens[a..][1..] == opens[a + 1..];
  }

  /** With no device open and every open attempt failing, the supervisor reads and sends nothing. */
  lemma {:induction false} SuperviseWithoutDevice(opens: seq<Option<Handle>>, script: seq<ReadResult>, config: Config)
    requires forall i :: 0 <= i < |opens| ==> opens[i].None?
    ensures Supervise(None, opens, script, config) == Supervision([], [], script)
    decreases |opens|
  {
    if opens != [] {
      SuperviseWithoutDevice(opens[1..], script, config);
    }
  }

  /** The supervisor consumes reads from the front of the script only: what it leaves is a suffix. */
  lemma {:induction false} SuperviseLeavesSuffix(current: Option<Handle>, opens: seq<Option<Handle>>, script: seq<ReadResult>, config: Config)
    ensures var rest := Supervise(current, opens, script, config).rest;
            |rest| <= |script| && rest == script[|script| - |rest|..]
    decreases |opens|
  {
    if opens != [] {
      var h := if current.Some? then current else opens[0];
      var after := if h.Some? then SessionRest(script) else script;
      SessionRestFollowsSession(script);
      assert after == script[|script| - |after|..];
      SuperviseLeavesSuffix(None, opens[1..], after, config);
      var rest := Supervise(None, opens[1..], after, config).rest;
      assert rest == after[|after| - |rest|..];
      assert after[|after| - |rest|..] == script[|script| - |rest|..];
    }
  }

  lemma ConcatAssoc<T>(a: seq<T>, b: seq<T>, c: seq<T>)
    ensures (a + b) + c == a + (b + c)
  {
  }


  class Hardware {
    var connectionStatus: ConnectionStatus
    var lastButtonState: ButtonState
    var dev: Option<Handle>
    var hasThread: bool
    var isRunning: bool

    /** The transport: what the device's coming reads will return. */
    var incoming: seq<ReadResult>
    /** The transport: every report written to and every close of a device, in order. */
    var log: seq<Transfer>
    /** The calls made on the input handler, in order. */
    var notified: seq<Notification>
    /** Every report the read loop has dispatched, in order. */
    ghost var dispatched: seq<InputReport>

    /**
     * The status is `Connected` exactly while a handle is open, and names
     * that device's serial number; the last button state and the calls made
     * on the handler are what the gate makes of every report dispatched so
     * far, from the initial released state.
     */
    ghost predicate Valid()
      reads this
    {
      && (dev.Some? <==> connectionStatus.Connected?)
      && (dev.Some? ==> connectionStatus.serial == dev.value.serial)
      && Run(Released, dispatched) == Trace(lastButtonState, notified)
    }

    /**
     * Across the whole life of the session, reconnects included, the handler
     * is told of alternating button edges only, starting with a press, and
     * the last of them is the button state the session holds.
     */
    lemma NotifiedEdgesAlternate()
      requires Valid()
      ensures EdgeHistory(Released, Changes(notified), lastButtonState)
    {
      RunEdgeHistory(Released, dispatched);
    }

    constructor (script: seq<ReadResult>)
      ensures Valid()
      ensures connectionStatus == Disconnected && lastButtonState == Released && dev == None
      ensures !hasThread && !isRunning
      ensures incoming == script && log == [] && notified == [] && dispatched == []
    {
      connectionStatus := Disconnected;
      lastButtonState := Released;
      dev := None;
      hasThread := false;
      isRunning := false;
      incoming := script;
      log := [];
      notified := [];
      dispatched := [];
    }

    function IsConnected(): (b: bool)
      reads this
      ensures Valid() ==> (b <==> connectionStatus.IsConnected())
    {
      dev.Some?
    }

    /**
     * Opens the dial; `openResult` is what the HID library's open returned. On
     * success the status names the device, the dial buzzes three times and
     * receives the current sensitivity setting. The only caller tries this
     * while no device is open.
     */
    method Connect(openResult: Option<Handle>, config: Config) returns (connected: bool)
      requires Valid() && !IsConnected()
      modifies this`dev, this`connectionStatus, this`log
      ensures Valid()
      ensures connected == IsConnected() && dev == openResult
      ensures connectionStatus == if openResult.Some? then Connected(openResult.value.serial) else Disconnected
      ensures openResult.None? ==> log == old(log)
      ensures openResult.Some? ==> log == old(log) + ConnectTransfers(openResult.value, config)
    {
      dev := openResult;
      if IsConnected() {
        connectionStatus := Connected(dev.value.serial);
        Buzz(config, 3);
        InitSensitivity(config.controllerAutoTriggers.GetOr(false), config);
      }
      connected := IsConnected();
    }

    /**
     * Releases the open device, if any: the handle is cleared before it is
     * closed, so the sensitivity reset that follows finds no device and
     * sends nothing. With no device open nothing changes.
     */
    method Disconnect(config: Config)
      requires Valid()
      modifies this`dev, this`connectionStatus, this`log
      ensures Valid() && dev == None
      ensures old(dev).None? ==> connectionStatus == old(connectionStatus) && log == old(log)
      ensures old(dev).Some? ==> connectionStatus == Disconnected && log == old(log) + [Closed(old(dev).value)]
    {
      if dev.Some? {
        var deviceToClose := dev.value;
        dev := None;
        log := log + [Closed(deviceToClose)];
        connectionStatus := Disconnected;
        InitSensitivity(false, config);
      }
    }

    /**
     * Sends the sensitivity feature report to the open device; auto-triggers
     * are forced off in the mode that must not inject input.
     */
    method InitSensitivity(autoTriggers: bool, config: Config)
      modifies this`log
      ensures dev.None? ==> log == old(log)
      ensures dev.Some? ==> log == old(log) + [FeatureReport(dev.value, SensitivityReport(autoTriggers && !config.isAgent))]
    {
      if IsConnected() {
        var effective := autoTriggers && !config.isAgent;
        var stepsLo := (SensitivitySteps & 0xFF) as Byte;
        var stepsHi := ((SensitivitySteps >> 8) & 0xFF) as Byte;
        var buf: seq<Byte> := [];
        buf := buf + [DialReportId];
        buf := buf + [stepsLo];
        buf := buf + [stepsHi];
        buf := buf + [0x00];
        buf := buf + [if effective then 0x03 else 0x02];
        buf := buf + [0x00];
        buf := buf + [0x00];
        buf := buf + [0x00];
        assert buf == SensitivityReport(effective);
        log := log + [FeatureReport(dev.value, buf)];
      }
    }

    /**
     * Buzzes the dial `repeatCount` times: nothing is written for a count of
     * zero, with haptics turned off, or with no device open.
     */
    method Buzz(config: Config, repeatCount: Byte := 1)
      modifies this`log
      ensures repeatCount == 0 || !config.hapticsEnabled || dev.None? ==> log == old(log)
      ensures repeatCount > 0 && config.hapticsEnabled && dev.Some? ==>
        log == old(log) + [OutputReport(dev.value, BuzzReport(repeatCount))]
    {
      if repeatCount == 0 {
        return;
      }
      if config.hapticsEnabled && IsConnected() {
        var buf: seq<Byte> := [];
        buf := buf + [DialReportId];
        buf := buf + [repeatCount - 1];
        buf := buf + [HapticsBuzz.RawValue()];
        buf := buf + [0x00];
        buf := buf + [0x00];
        assert buf == BuzzReport(repeatCount);
        log := log + [OutputReport(dev.value, buf)];
      }
    }

    /**
     * One blocking read. Without a device nothing happens; a read that
     * returns no bytes, or an error, disconnects; otherwise the bytes
     * delivered are decoded.
     */
    method Read(config: Config) returns (report: Option<InputReport>)
      requires Valid()
      modifies this`dev, this`connectionStatus, this`log, this`incoming
      ensures Valid()
      ensures old(dev).None? ==> report.None? && unchanged(this)
      ensures old(dev).Some? ==> incoming == AfterRead(old(incoming))
      ensures old(dev).Some? && ReadCount(NextRead(old(incoming))) <= 0 ==>
        && report.None? && dev.None? && connectionStatus == Disconnected
        && log == old(log) + [Closed(old(dev).value)]
      ensures old(dev).Some? && ReadCount(NextRead(old(incoming))) > 0 ==>
        report == Some(Decode(NextRead(old(incoming)), config.polarity))
      ensures report.Some? ==> dev == old(dev) && connectionStatus == old(connectionStatus) && log == old(log)
    {
      if dev.None? {
        return None;
      }
      var result := NextRead(incoming);
      incoming := AfterRead(incoming);
      var readBytes := ReadCount(result);
      if readBytes <= 0 {
        Disconnect(config);
        return None;
      }
      report := Some(Parse(result.data[..readBytes], config.polarity));
      assert report == Some(Decode(result, config.polarity));
    }

    /**
     * The body of the read loop for one read: button edges against the last
     * state, then the rotation, then the new last state. Unknown reports and
     * failed reads are skipped.
     */
    method HandleReport(report: Option<InputReport>)
      requires Valid()
      modifies this`lastButtonState, this`notified, this`dispatched
      ensures Valid()
      ensures report.None? ==>
        lastButtonState == old(lastButtonState) && notified == old(notified) && dispatched == old(dispatched)
      ensures report.Some? ==>
        && lastButtonState == Step(old(lastButtonState), report.value).last
        && notified == old(notified) + Step(old(lastButtonState), report.value).events
        && dispatched == old(dispatched) + [report.value]
    {
      if report.Some? {
        ghost var step := Step(lastButtonState, report.value);
        RunSnoc(Released, dispatched, report.value);
        match report.value {
          case Dial(button, direction) =>
          if button == Pressed && lastButtonState == Released {
            notified := notified + [ButtonChanged(Pressed)];
          } else if button == Released && lastButtonState == Pressed {
            notified := notified + [ButtonChanged(Released)];
          }
          assert notified == old(notified) + EdgeOf(lastButtonState, button);
          if direction.Some? {
            notified := notified + [Rotated(direction.value, button)];
          }
          ConcatAssoc(old(notified), EdgeOf(lastButtonState, button), RotationOf(report.value));
          lastButtonState := button;
          case Unknown =>
        }
        dispatched := dispatched + [report.value];
      }
    }

    /**
     * The inner loop of the supervisor: read and dispatch while a device is
     * open. It consumes one session of reads, ending with the read that
     * disconnects, and tells the handler what the gate makes of the reports.
     */
    method ServeConnection(config: Config)
      requires Valid()
      modifies this`dev, this`connectionStatus, this`log, this`incoming, this`lastButtonState, this`notified, this`dispatched
      ensures Valid() && !IsConnected()
      ensures old(dev).None? ==> unchanged(this)
      ensures old(dev).Some? ==>
        && connectionStatus == Disconnected
        && incoming == SessionRest(old(incoming))
        && log == old(log) + [Closed(old(dev).value)]
        && dispatched == old(dispatched) + SessionReports(old(incoming), config.polarity)
        && lastButtonState == Run(old(lastButtonState), SessionReports(old(incoming), config.polarity)).last
        && notified == old(notified) + Run(old(lastButtonState), SessionReports(old(incoming), config.polarity)).events
    {
      ghost var script := incoming;
      ghost var h := dev;
      while IsConnected()
        invariant Valid()
        invariant h.None? ==> unchanged(this)
        invariant IsConnected() ==>
          && dev == h && log == old(log) && connectionStatus == old(connectionStatus)
          && SessionRest(script) == SessionRest(incoming)
          && old(dispatched) + SessionReports(script, config.polarity)
             == dispatched + SessionReports(incoming, config.polarity)
        invariant !IsConnected() && h.Some? ==>
          && connectionStatus == Disconnected
          && log == old(log) + [Closed(h.value)]
          && incoming == SessionRest(script)
          && dispatched == old(dispatched) + SessionReports(script, config.polarity)
        decreases |incoming|, if dev.Some? then 1 else 0
      {
        ghost var rest, before := incoming, dispatched;
        ghost var ok := ReadCount(NextRead(rest)) > 0;
        if ok {
          SessionContinues(rest, config.polarity);
          ConcatAssoc(before, [Decode(rest[0], config.polarity)], SessionReports(rest[1..], config.polarity));
        } else {
          SessionEnds(rest, config.polarity);
        }
        var report := Read(config);
        HandleReport(report);
      }
      if h.Some? {
        RunAppend(Released, old(dispatched), SessionReports(script, config.polarity));
      }
    }

    /**
     * One cycle of the supervisor loop: open a device unless one is open
     * (`openResult` is what the attempt returns), then serve the connection
     * until it drops. The cycle ends with no device open.
     */
    method Cycle(openResult: Option<Handle>, config: Config)
      requires Valid()
      modifies this`dev, this`connectionStatus, this`log, this`incoming, this`lastButtonState, this`notified, this`dispatched
      ensures Valid() && !IsConnected() && isRunning == old(isRunning)
      ensures old(dev).None? && openResult.None? ==> unchanged(this)
      ensures old(dev).Some? || openResult.Some? ==>
        var h := if old(dev).Some? then old(dev).value else openResult.value;
        && dispatched == old(dispatched) + SessionReports(old(incoming), config.polarity)
        && log == old(log) + (if old(dev).Some? then [] else ConnectTransfers(h, config)) + [Closed(h)]
        && incoming == SessionRest(old(incoming))
    {
      if !IsConnected() {
        var connected := Connect(openResult, config);
      }
      ServeConnection(config);
    }

    /**
     * The supervisor loop, run on the session's thread while it is running:
     * each cycle connects if no device is open (`opens` lists what each open
     * attempt returns), serves the connection until it drops, then backs
     * off. One cycle is modelled per entry of `opens`.
     */
    method ThreadProc(opens: seq<Option<Handle>>, config: Config)
      requires Valid()
      modifies this`dev, this`connectionStatus, this`log, this`incoming, this`lastButtonState, this`notified, this`dispatched
      ensures Valid()
      ensures !isRunning ==> unchanged(this)
      ensures isRunning && opens != [] ==> !IsConnected()
      ensures isRunning ==>
        var s := Supervise(old(dev), opens, old(incoming), config);
        && dispatched == old(dispatched) + s.reports
        && log == old(log) + s.transfers
        && incoming == s.rest
        && lastButtonState == Run(old(lastButtonState), s.reports).last
        && notified == old(notified) + Run(old(lastButtonState), s.reports).events
    {
      ghost var whole := Supervise(dev, opens, incoming, config);
      var attempt := 0;
      while isRunning && attempt < |opens|
        invariant Valid()
        invariant 0 <= attempt <= |opens|
        invariant attempt == 0 ==> unchanged(this)
        invariant attempt > 0 ==> isRunning
        invariant attempt > 0 ==> !IsConnected()
        invariant old(dispatched) + whole.reports == dispatched + Supervise(dev, opens[attempt..], incoming, config).reports
        invariant old(log) + whole.transfers == log + Supervise(dev, opens[attempt..], incoming, config).transfers
        invariant whole.rest == Supervise(dev, opens[attempt..], incoming, config).rest
      {
        ghost var cur, inc, before, logBefore := dev, incoming, dispatched, log;
        ghost var h := if cur.Some? then cur else opens[attempt];
        ghost var next := Supervise(None, opens[attempt + 1..], if h.Some? then SessionRest(inc) else inc, config);
        SuperviseCycle(cur, opens, attempt, inc, config);
        Cycle(opens[attempt], config);
        if h.Some? {
          ghost var opening := if cur.Some? then [] else ConnectTransfers(h.value, config);
          assert log == logBefore + opening + [Closed(h.value)];
          ConcatAssoc(before, SessionReports(inc, config.polarity), next.reports);
          ConcatAssoc(logBefore, opening + [Closed(h.value)], next.transfers);
          ConcatAssoc(logBefore, opening, [Closed(h.value)]);
        }
        // The interruptible backoff before the next attempt changes nothing here.
        attempt := attempt + 1;
      }
      if isRunning {
        assert opens[attempt..] == [];
        RunAppend(Released, old(dispatched), whole.reports);
      }
    }

    /** Marks the session running and gives it its supervisor thread. */
    method Start()
      modifies this`hasThread, this`isRunning
      ensures hasThread && isRunning
    {
      hasThread := true;
      isRunning := true;
    }

    /**
     * Stops the session: clears the running flag and, when a supervisor
     * thread exists, wakes its backoff, releases the device and forgets the
     * thread once it has finished. Without a thread only the flag changes.
     */
    method Stop(config: Config)
      requires Valid()
      modifies this`isRunning, this`hasThread, this`dev, this`connectionStatus, this`log
      ensures Valid() && !isRunning && !hasThread
      ensures !old(hasThread) ==> dev == old(dev) && connectionStatus == old(connectionStatus) && log == old(log)
      ensures old(hasThread) ==> dev.None? && connectionStatus == Disconnected
      ensures old(hasThread) && old(dev).None? ==> log == old(log)
      ensures old(hasThread) && old(dev).Some? ==> log == old(log) + [Closed(old(dev).value)]
    {
      isRunning := false;
      if hasThread {
        Disconnect(config);
        hasThread := false;
      }
    }
  }
}
