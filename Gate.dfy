/**
 * The report dispatch of the session's read loop: against the last button
 * state it has seen, it tells the input handler only of button *edges*, and
 * it reports a rotation for every dial report that carries a direction.
 * `Step` is one pass of the loop body, `Run` a whole stream of reports.
 */
module DebounceGate {
  import opened Wrappers
  import opened DialReport

  /** A call the loop makes on the input handler. */
  datatype Notification =
    | ButtonChanged(state: ButtonState)
    | Rotated(direction: Direction, button: ButtonState)

  /** The button state the gate ends with and the notifications it issued. */
  datatype Trace = Trace(last: ButtonState, events: seq<Notification>)

  /** The button states carried by the edge notifications, in order. */
  function Changes(events: seq<Notification>): (s: seq<ButtonState>)
    ensures |s| <= |events|
  {
    if events == [] then []
    else (if events[0].ButtonChanged? then [events[0].state] else []) + Changes(events[1..])
  }

  /** The rotation notifications, in order. */
  function Rotations(events: seq<Notification>): (s: seq<Notification>)
    ensures |s| <= |events|
    ensures forall i :: 0 <= i < |s| ==> s[i].Rotated?
  {
    if events == [] then []
    else (if events[0].Rotated? then [events[0]] else []) + Rotations(events[1..])
  }

  /** The rotation a single report asks for, whatever the gate's state. */
  function RotationOf(report: InputReport): seq<Notification>
  {
    if report.Dial? && report.direction.Some? then [Rotated(report.direction.value, report.button)] else []
  }

  /** The edge notification a dial report's button state asks for, against the last state. */
  function EdgeOf(last: ButtonState, button: ButtonState): seq<Notification>
  {
    if button == Pressed && last == Released then [ButtonChanged(Pressed)]
    else if button == Released && last == Pressed then [ButtonChanged(Released)]
    else []
  }

  /** One pass of the dispatch: the report just read against the last button state. */
  function Step(last: ButtonState, report: InputReport): (t: Trace)
    ensures report.Unknown? ==> t == Trace(last, [])
    ensures report.Dial? ==> t.last == report.button
  {
    match report
    case Unknown => Trace(last, [])
    case Dial(button, _) => Trace(button, EdgeOf(last, button) + RotationOf(report))
  }

  /**
   * The edges one pass tells the handler of: a press (release) exactly when
   * a pressed (released) report follows the opposite state, so at most one.
   */
  lemma StepEdges(last: ButtonState, report: InputReport)
    ensures ButtonChanged(Pressed) in Step(last, report).events
            <==> report.Dial? && report.button == Pressed && last == Released
    ensures ButtonChanged(Released) in Step(last, report).events
            <==> report.Dial? && report.button == Released && last == Pressed
    ensures Changes(Step(last, report).events) == if report.Dial? && report.button != last then [report.button] else []
  {
    if report.Dial? {
      var edge, rotation := EdgeOf(last, report.button), RotationOf(report);
      assert Changes(rotation) == [] by {
        assert rotation != [] ==> rotation[1..] == [];
      }
      assert Changes(edge) == if report.button != last then [report.button] else [] by {
        assert edge != [] ==> edge[1..] == [];
      }
      ChangesAppend(edge, rotation);
    }
  }

  /** The rotation one pass tells the handler of: the report's own, whatever the last state. */
  lemma StepRotations(last: ButtonState, report: InputReport)
    ensures Rotations(Step(last, report).events) == RotationOf(report)
  {
    if report.Dial? {
      var edge, rotation := EdgeOf(last, report.button), RotationOf(report);
      assert Rotations(edge) == [] by {
        assert edge != [] ==> edge[1..] == [];
      }
      assert Rotations(rotation) == rotation by {
        assert rotation != [] ==> rotation[1..] == [];
      }
      RotationsAppend(edge, rotation);
    }
  }

  /** The dispatch applied to each report of a stream in turn. */
  function Run(last: ButtonState, reports: seq<InputReport>): (t: Trace)
    ensures reports == [] ==> t == Trace(last, [])
    ensures |t.events| <= 2 * |reports|
    decreases |reports|
  {
    if reports == [] then Trace(last, [])
    else
      var first := Step(last, reports[0]);
      var rest := Run(first.last, reports[1..]);
      assert |first.events| <= 2 by {
        if reports[0].Dial? {
          assert |EdgeOf(last, reports[0].button)| <= 1 && |RotationOf(reports[0])| <= 1;
        }
      }
      Trace(rest.last, first.events + rest.events)
  }

  /**
   * A history of edges from `initial`: each edge differs from the state
   * before it (so edges alternate), and `current` is the state after the last.
   */
  ghost predicate EdgeHistory(initial: ButtonState, changes: seq<ButtonState>, current: ButtonState)
  {
    && (|changes| > 0 ==> changes[0] != initial)
    && (forall i :: 0 < i < |changes| ==> changes[i] != changes[i - 1])
    && current == if changes == [] then initial else changes[|changes| - 1]
  }

  lemma {:induction false} ChangesAppend(a: seq<Notification>, b: seq<Notification>)
    ensures Changes(a + b) == Changes(a) + Changes(b)
  {
    if a != [] {
      assert (a + b)[1..] == a[1..] + b;
      ChangesAppend(a[1..], b);
    } else {
      assert a + b == b;
    }
  }

  lemma {:induction false} RotationsAppend(a: seq<Notification>, b: seq<Notification>)
    ensures Rotations(a + b) == Rotations(a) + Rotations(b)
  {
    if a != [] {
      assert (a + b)[1..] == a[1..] + b;
      RotationsAppend(a[1..], b);
    } else {
      assert a + b == b;
    }
  }

  /** Two edge histories that meet in the middle form one. */
  lemma EdgeHistoryConcat(a: ButtonState, c1: seq<ButtonState>, b: ButtonState, c2: seq<ButtonState>, d: ButtonState)
    requires EdgeHistory(a, c1, b) && EdgeHistory(b, c2, d)
    ensures EdgeHistory(a, c1 + c2, d)
  {
    var c := c1 + c2;
    forall i | 0 < i < |c|
      ensures c[i] != c[i - 1]
    {
      if i < |c1| {
        assert c[i] == c1[i] && c[i - 1] == c1[i - 1];
      } else if i == |c1| {
        assert c[i] == c2[0] && c[i - 1] == c1[|c1| - 1];
      } else {
        assert c[i] == c2[i - |c1|] && c[i - 1] == c2[i - 1 - |c1|];
      }
    }
    if c2 == [] {
      assert c == c1;
    }
  }

  /**
   * Whatever the stream, the edges the gate issues alternate, the first
   * differs from the state the gate started in, and the gate ends in the
   * state of the last edge.
   */
  lemma {:induction false} RunEdgeHistory(last: ButtonState, reports: seq<InputReport>)
    ensures EdgeHistory(last, Changes(Run(last, reports).events), Run(last, reports).last)
    decreases |reports|
  {
    if reports != [] {
      var first := Step(last, reports[0]);
      var rest := Run(first.last, reports[1..]);
      StepEdges(last, reports[0]);
      RunEdgeHistory(first.last, reports[1..]);
      ChangesAppend(first.events, rest.events);
      EdgeHistoryConcat(last, Changes(first.events), first.last, Changes(rest.events), rest.last);
    }
  }

  /** Splitting a stream splits the trace: the gate carries its state across. */
  lemma {:induction false} RunAppend(last: ButtonState, a: seq<InputReport>, b: seq<InputReport>)
    ensures Run(last, a + b).last == Run(Run(last, a).last, b).last
    ensures Run(last, a + b).events == Run(last, a).events + Run(Run(last, a).last, b).events
    decreases |a|
  {
    if a == [] {
      assert a + b == b;
    } else {
      var first := Step(last, a[0]);
      assert (a + b)[0] == a[0] && (a + b)[1..] == a[1..] + b;
      RunAppend(first.last, a[1..], b);
      var mid := Run(first.last, a[1..]).last;
      var tail := Run(mid, b);
      calc {
        Run(last, a + b).events;
        first.events + Run(first.last, a[1..] + b).events;
        first.events + (Run(first.last, a[1..]).events + tail.events);
        (first.events + Run(first.last, a[1..]).events) + tail.events;
      }
    }
  }

  /** Dispatching one more report extends the trace by that report's pass. */
  lemma RunSnoc(last: ButtonState, reports: seq<InputReport>, report: InputReport)
    ensures Run(last, reports + [report]).last == Step(Run(last, reports).last, report).last
    ensures Run(last, reports + [report]).events == Run(last, reports).events + Step(Run(last, reports).last, report).events
  {
    RunAppend(last, reports, [report]);
    assert [report][1..] == [];
  }

  /** The button state of the most recent dial report, or `initial` if there was none. */
  function LastDialButton(initial: ButtonState, reports: seq<InputReport>): ButtonState
  {
    if reports == [] then initial
    else if reports[|reports| - 1].Dial? then reports[|reports| - 1].button
    else LastDialButton(initial, reports[..|reports| - 1])
  }

  /** After a stream, the gate holds the button state of the last dial report. */
  lemma {:induction false} RunLastIsLastDial(last: ButtonState, reports: seq<InputReport>)
    ensures Run(last, reports).last == LastDialButton(last, reports)
  {
    if reports != [] {
      var init := reports[..|reports| - 1];
      assert reports == init + [reports[|reports| - 1]];
      RunAppend(last, init, [reports[|reports| - 1]]);
      RunLastIsLastDial(last, init);
    }
  }

  /** A stream that never shows the button down, from the released baseline, issues no edge. */
  lemma {:induction false} ReleasedStreamIsSilent(reports: seq<InputReport>)
    requires forall i :: 0 <= i < |reports| && reports[i].Dial? ==> reports[i].button == Released
    ensures Changes(Run(Released, reports).events) == []
    ensures Run(Released, reports).last == Released
  {
    if reports != [] {
      var first := Step(Released, reports[0]);
      StepEdges(Released, reports[0]);
      ReleasedStreamIsSilent(reports[1..]);
      ChangesAppend(first.events, Run(first.last, reports[1..]).events);
    }
  }

  /** The rotations of a stream, read off the reports alone. */
  function RotationsOf(reports: seq<InputReport>): seq<Notification>
  {
    if reports == [] then [] else RotationOf(reports[0]) + RotationsOf(reports[1..])
  }

  /**
   * The gate issues exactly one rotation per report with a direction, in
   * order, each carrying that report's button state: the button history
   * has no say in it.
   */
  lemma {:induction false} RunRotations(last: ButtonState, reports: seq<InputReport>)
    ensures Rotations(Run(last, reports).events) == RotationsOf(reports)
    decreases |reports|
  {
    if reports != [] {
      var first := Step(last, reports[0]);
      StepRotations(last, reports[0]);
      RunRotations(first.last, reports[1..]);
      RotationsAppend(first.events, Run(first.last, reports[1..]).events);
    }
  }

  /** Debounce example: repeated levels give one edge per change, here two. */
  lemma DebounceExample()
    ensures Changes(Run(Released, [Dial(Released, None), Dial(Released, None), Dial(Pressed, None),
                                   Dial(Pressed, None), Dial(Released, None)]).events)
            == [Pressed, Released]
  {
  }
}
