/**
 * The HID transport as the session sees it: an opaque handle, the results
 * of successive blocking reads, and a log of what went out to the device.
 */
module Transport {
  import opened Wrappers
  import opened DialReport

  /** An open device, with the serial number string it reports. */
  datatype Handle = Handle(id: nat, serial: string)

  /** One blocking read: the bytes the device delivered, or an I/O error. */
  datatype ReadResult = Received(data: seq<Byte>) | ReadError

  /** Capacity of the session's read buffer. */
  const ReadBufferSize: nat := 1024

  /**
   * The count a read returns: the bytes copied into the buffer (a longer
   * report is cut at the buffer's end), or -1 on an error.
   */
  function ReadCount(r: ReadResult): (n: int)
    ensures n <= ReadBufferSize
    ensures n <= 0 <==> r.ReadError? || r.data == []
    ensures r.ReadError? ==> n == -1
    ensures r.Received? ==> n <= |r.data| && (n == |r.data| || n == ReadBufferSize)
  {
    match r
    case ReadError => -1
    case Received(data) => if |data| < ReadBufferSize then |data| else ReadBufferSize
  }

  /** The report a successful read decodes to: the bytes it copied into the buffer, parsed. */
  function Decode(r: ReadResult, polarity: Polarity): InputReport
    requires ReadCount(r) > 0
  {
    Parse(r.data[..ReadCount(r)], polarity)
  }

  /** Everything the session sends to or does with the device. */
  datatype Transfer =
    | OutputReport(handle: Handle, bytes: seq<Byte>)
    | FeatureReport(handle: Handle, bytes: seq<Byte>)
    | Closed(handle: Handle)

  /** The result the next read returns: an exhausted script reads as an error. */
  function NextRead(script: seq<ReadResult>): (r: ReadResult)
    ensures script == [] ==> r.ReadError?
    ensures script != [] ==> r == script[0]
  {
    if script == [] then ReadError else script[0]
  }

  /** The script after one read. */
  function AfterRead(script: seq<ReadResult>): (rest: seq<ReadResult>)
    ensures script == [] ==> rest == []
    ensures script != [] ==> rest == script[1..]
  {
    if script == [] then [] else script[1..]
  }

  /**
   * How many reads one connected session consumes: every read up to and
   * including the first that returns no bytes. When the script runs out
   * first, the read that finds it empty fails without consuming anything.
   */
  function SessionLength(results: seq<ReadResult>): (n: nat)
    ensures n <= |results|
    ensures n == 0 <==> results == []
  {
    if results == [] then 0
    else if ReadCount(results[0]) <= 0 then 1
    else 1 + SessionLength(results[1..])
  }

  /** The script left once a connected session has ended. */
  function SessionRest(results: seq<ReadResult>): (rest: seq<ReadResult>)
    ensures |rest| <= |results|
  {
    if results == [] then []
    else if ReadCount(results[0]) <= 0 then results[1..]
    else SessionRest(results[1..])
  }

  /** What a session leaves of the script is what follows the reads it consumed. */
  lemma {:induction false} SessionRestFollowsSession(results: seq<ReadResult>)
    ensures SessionRest(results) == results[SessionLength(results)..]
  {
    if results != [] && ReadCount(results[0]) > 0 {
      SessionRestFollowsSession(results[1..]);
      assert results[1..][SessionLength(results[1..])..] == results[1 + SessionLength(results[1..])..];
    }
  }

  /** The reports a connected session decodes: one per read before the first failed one. */
  function SessionReports(results: seq<ReadResult>, polarity: Polarity): (rs: seq<InputReport>)
    ensures |rs| <= SessionLength(results) <= |rs| + 1
  {
    if results == [] || ReadCount(results[0]) <= 0 then []
    else [Decode(results[0], polarity)] + SessionReports(results[1..], polarity)
  }

  /**
   * A session reads on while reads succeed: every read but its last
   * delivered bytes, and unless the script ran out its last read failed.
   */
  lemma {:induction false} SessionLengthStopsAtFailure(results: seq<ReadResult>)
    ensures forall i :: 0 <= i < SessionLength(results) - 1 ==> ReadCount(results[i]) > 0
    ensures SessionLength(results) < |results| ==> ReadCount(results[SessionLength(results) - 1]) <= 0
  {
    if results != [] && ReadCount(results[0]) > 0 {
      SessionLengthStopsAtFailure(results[1..]);
    }
  }

  /** The decoded reports are those of the session's successful reads, in order. */
  lemma {:induction false} SessionReportsDecodeReads(results: seq<ReadResult>, polarity: Polarity)
    ensures forall i :: 0 <= i < |SessionReports(results, polarity)| ==>
      ReadCount(results[i]) > 0 && SessionReports(results, polarity)[i] == Decode(results[i], polarity)
  {
    if results != [] && ReadCount(results[0]) > 0 {
      SessionReportsDecodeReads(results[1..], polarity);
    }
  }

  /** A session that starts with a successful read decodes it and goes on with the rest. */
  lemma SessionContinues(script: seq<ReadResult>, polarity: Polarity)
    requires ReadCount(NextRead(script)) > 0
    ensures SessionRest(script) == SessionRest(script[1..])
    ensures SessionReports(script, polarity)
         == [Decode(script[0], polarity)] + SessionReports(script[1..], polarity)
  {
  }

  /** A session that starts with a failed read ends there, having decoded nothing. */
  lemma SessionEnds(script: seq<ReadResult>, polarity: Polarity)
    requires ReadCount(NextRead(script)) <= 0
    ensures SessionRest(script) == AfterRead(script)
    ensures SessionReports(script, polarity) == []
  {
  }
}
