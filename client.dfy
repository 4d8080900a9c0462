/** The playback side (`AudioClient`): `startPlaying` rejects a second start,
    then a worker connects to the server, reports `onConnected`, relays every
    chunk read from the socket to the audio track and, in its catch/finally
    pair, decides which of `onError` and `onDisconnected` fire.

    The worker runs here to completion inside `StartPlaying`, driven by a
    script: the outcome of the timed connect and the results of the
    successive socket reads. A stop from the UI thread is a read event. */
module Client {
  import opened Basics

  const TimeoutMessage := "Connection timed out. Check IP and network."
  const FailureMessage := "Connection failed. Check IP and network."

  /** How `socket.connect(address, 5000)` ends. */
  datatype ConnectOutcome = ConnectOk | ConnectTimeout | ConnectFailure

  /** One turn of the relay loop, as the environment plays it. */
  datatype ReadEvent =
    | Data(bytes: seq<byte>)  // read returned |bytes| bytes, written to the track
    | EndOfStream             // read returned -1: the server closed the stream
    | ReadFailure             // read (or the track write) threw
    | StopRequested           // stopPlaying ran on the UI thread before the next loop test
    | StopDuringRead          // stopPlaying ran while read was blocked; the closed socket made read throw

  /** What the outside world sees: callbacks to the UI and writes to the
      audio track, in the order they happen. */
  datatype Event =
    | OnConnected
    | OnError(message: string)
    | OnDisconnected
    | TrackWrite(chunk: seq<byte>)

  /** Every chunk the script delivers fits the read buffer. */
  predicate ChunksFit(script: seq<ReadEvent>, bufferSize: nat) {
    forall k :: 0 <= k < |script| && script[k].Data? ==> |script[k].bytes| <= bufferSize
  }

  /** What the worker produces after `onConnected`: the relay loop, the catch
      and the finally. A script that runs out reads as end of stream. */
  function PlaybackLog(script: seq<ReadEvent>): seq<Event>
    decreases |script|
  {
    if script == [] then [OnDisconnected]
    else match script[0]
      case Data(b) => [TrackWrite(b)] + PlaybackLog(script[1..])
      case EndOfStream => [OnDisconnected]
      case ReadFailure => [OnError(FailureMessage), OnDisconnected]
      case StopRequested => []
      case StopDuringRead => [OnError(FailureMessage)]
  }

  /** The full log of one accepted `startPlaying` call. */
  function ClientLog(connect: ConnectOutcome, script: seq<ReadEvent>): seq<Event> {
    match connect
    case ConnectTimeout => [OnError(TimeoutMessage)]
    case ConnectFailure => [OnError(FailureMessage)]
    case ConnectOk => [OnConnected] + PlaybackLog(script)
  }

  // ---------------------------------------------------------------------
  // Views of a log and of a script

  /** The callbacks of a log, in order. */
  function Callbacks(log: seq<Event>): seq<Event>
    decreases |log|
  {
    if log == [] then []
    else (if log[0].TrackWrite? then [] else [log[0]]) + Callbacks(log[1..])
  }

  /** The chunks written to the audio track, in order. */
  function TrackChunks(log: seq<Event>): seq<seq<byte>>
    decreases |log|
  {
    if log == [] then []
    else (if log[0].TrackWrite? then [log[0].chunk] else []) + TrackChunks(log[1..])
  }

  /** The number of leading `Data` events: the reads that reach the track. */
  function DataRun(script: seq<ReadEvent>): (n: nat)
    ensures n <= |script|
    ensures forall k :: 0 <= k < n ==> script[k].Data?
    ensures n < |script| ==> !script[n].Data?
    decreases |script|
  {
    if script == [] || !script[0].Data? then 0 else 1 + DataRun(script[1..])
  }

  /** The chunks of the leading `Data` events. */
  function DataChunks(script: seq<ReadEvent>): seq<seq<byte>>
    decreases |script|
  {
    if script == [] || !script[0].Data? then [] else [script[0].bytes] + DataChunks(script[1..])
  }

  /** The event that ends the relay loop; running out counts as end of stream. */
  function Ending(script: seq<ReadEvent>): (e: ReadEvent)
    ensures !e.Data?
  {
    var n := DataRun(script);
    if n == |script| then EndOfStream else script[n]
  }

  /** The callbacks the catch and finally add for each way the loop ends. */
  function Finale(e: ReadEvent): seq<Event> {
    match e
    case EndOfStream => [OnDisconnected]
    case ReadFailure => [OnError(FailureMessage), OnDisconnected]
    case StopDuringRead => [OnError(FailureMessage)]
    case _ => []
  }

  // ---------------------------------------------------------------------
  // Lemmas

  lemma {:induction false} CallbacksAppend(a: seq<Event>, b: seq<Event>)
    ensures Callbacks(a + b) == Callbacks(a) + Callbacks(b)
    decreases |a|
  {
    if a == [] {
      assert a + b == b;
    } else {
      assert (a + b)[1..] == a[1..] + b;
      CallbacksAppend(a[1..], b);
    }
  }

  lemma {:induction false} TrackChunksAppend(a: seq<Event>, b: seq<Event>)
    ensures TrackChunks(a + b) == TrackChunks(a) + TrackChunks(b)
    decreases |a|
  {
    if a == [] {
      assert a + b == b;
    } else {
      assert (a + b)[1..] == a[1..] + b;
      TrackChunksAppend(a[1..], b);
    }
  }

  /** The chunks of the leading `Data` events are exactly those events'
      bytes, one per event and in order. */
  lemma {:induction false} DataChunksAre(script: seq<ReadEvent>)
    ensures |DataChunks(script)| == DataRun(script)
    ensures forall k :: 0 <= k < DataRun(script) ==> DataChunks(script)[k] == script[k].bytes
    decreases |script|
  {
    if script != [] && script[0].Data? {
      DataChunksAre(script[1..]);
      forall k | 1 <= k < DataRun(script)
        ensures DataChunks(script)[k] == script[k].bytes
      {
        assert script[1..][k - 1] == script[k];
      }
    }
  }

  /** After `onConnected`, the callbacks are determined by how the loop ends
      and the track receives exactly the leading data chunks. */
  lemma {:induction false} PlaybackShape(script: seq<ReadEvent>)
    ensures Callbacks(PlaybackLog(script)) == Finale(Ending(script))
    ensures TrackChunks(PlaybackLog(script)) == DataChunks(script)
    decreases |script|
  {
    if script != [] && script[0].Data? {
      var rest := script[1..];
      PlaybackShape(rest);
      CallbacksAppend([TrackWrite(script[0].bytes)], PlaybackLog(rest));
      TrackChunksAppend([TrackWrite(script[0].bytes)], PlaybackLog(rest));
      assert Ending(script) == Ending(rest) by {
        if DataRun(rest) < |rest| {
          assert script[DataRun(script)] == rest[DataRun(rest)];
        }
      }
    } else {
      OnlyCallbacks(PlaybackLog(script));
    }
  }

  /** A log without track writes is its own list of callbacks. */
  lemma {:induction false} OnlyCallbacks(log: seq<Event>)
    requires forall k :: 0 <= k < |log| ==> !log[k].TrackWrite?
    ensures Callbacks(log) == log && TrackChunks(log) == []
    decreases |log|
  {
    if log != [] {
      OnlyCallbacks(log[1..]);
    }
  }

  /** The callback discipline of one accepted start: a failed connect gives
      only the matching `onError`; a connected run gives `onConnected` first,
      then, by how the relay ended, `onDisconnected` (end of stream),
      `onError` and `onDisconnected` (an exception while still playing),
      nothing more (a stop between reads) or `onError` alone (a stop that broke
      a blocked read). */
  lemma ClientCallbacks(connect: ConnectOutcome, script: seq<ReadEvent>)
    ensures Callbacks(ClientLog(connect, script)) ==
      match connect
      case ConnectTimeout => [OnError(TimeoutMessage)]
      case ConnectFailure => [OnError(FailureMessage)]
      case ConnectOk => [OnConnected] + Finale(Ending(script))
  {
    if connect == ConnectOk {
      PlaybackShape(script);
      CallbacksAppend([OnConnected], PlaybackLog(script));
    }
  }

  /** Byte-exact relay: the track receives the bytes of the leading `Data`
      reads, chunk by chunk and in order, and nothing when the connect
      failed. */
  lemma ClientTrackWrites(connect: ConnectOutcome, script: seq<ReadEvent>)
    ensures connect != ConnectOk ==> TrackChunks(ClientLog(connect, script)) == []
    ensures connect == ConnectOk ==>
      |TrackChunks(ClientLog(connect, script))| == DataRun(script) &&
      forall k :: 0 <= k < DataRun(script) ==> TrackChunks(ClientLog(connect, script))[k] == script[k].bytes
  {
    if connect == ConnectOk {
      PlaybackShape(script);
      TrackChunksAppend([OnConnected], PlaybackLog(script));
      DataChunksAre(script);
    }
  }

  /** `onConnected` fires only after a successful connect, exactly once, and
      before anything reaches the track. */
  lemma ConnectedOnceFirst(connect: ConnectOutcome, script: seq<ReadEvent>)
    ensures var log := ClientLog(connect, script);
      (OnConnected in log <==> connect == ConnectOk) &&
      (connect == ConnectOk ==> log[0] == OnConnected && OnConnected !in log[1..])
  {
    if connect == ConnectOk {
      PlaybackShape(script);
      NotACallback(OnConnected, PlaybackLog(script));
    }
  }

  /** A callback missing from the callbacks of a log is missing from the log. */
  lemma {:induction false} NotACallback(e: Event, log: seq<Event>)
    requires !e.TrackWrite? && e !in Callbacks(log)
    ensures e !in log
    decreases |log|
  {
    if log != [] {
      CallbacksAppend([log[0]], log[1..]);
      assert log == [log[0]] + log[1..];
      NotACallback(e, log[1..]);
    }
  }

  /** When `onDisconnected` fires, it fires once and is the last event. */
  lemma {:induction false} DisconnectedLast(script: seq<ReadEvent>)
    ensures var log := PlaybackLog(script);
      OnDisconnected in log ==>
        log[|log| - 1] == OnDisconnected && OnDisconnected !in log[..|log| - 1]
    decreases |script|
  {
    if script != [] && script[0].Data? {
      var log := PlaybackLog(script);
      var rest := PlaybackLog(script[1..]);
      DisconnectedLast(script[1..]);
      assert log == [TrackWrite(script[0].bytes)] + rest;
      if OnDisconnected in log {
        assert log[..|log| - 1] == [TrackWrite(script[0].bytes)] + rest[..|rest| - 1];
      }
    }
  }

  /** `onError` and `onDisconnected` both fire exactly when a connected run
      ends in an exception while still playing. */
  lemma ErrorAndDisconnected(connect: ConnectOutcome, script: seq<ReadEvent>)
    ensures var cbs := Callbacks(ClientLog(connect, script));
      (OnDisconnected in cbs && OnError(FailureMessage) in cbs) <==>
        (connect == ConnectOk && Ending(script) == ReadFailure)
  {
    ClientCallbacks(connect, script);
  }

  /** A stop from the UI thread during playback suppresses `onDisconnected`. */
  lemma StopSuppressesDisconnected(connect: ConnectOutcome, script: seq<ReadEvent>)
    requires Ending(script) == StopRequested || Ending(script) == StopDuringRead
    ensures OnDisconnected !in ClientLog(connect, script)
  {
    ClientCallbacks(connect, script);
    NotACallback(OnDisconnected, ClientLog(connect, script));
  }

  // ---------------------------------------------------------------------
  // The class

  class AudioClient {
    var isPlaying: bool
    var hasAudioTrack: bool    // audioTrack != null
    var hasClientSocket: bool  // clientSocket != null

    constructor()
      ensures !isPlaying && !hasAudioTrack && !hasClientSocket
    {
      isPlaying, hasAudioTrack, hasClientSocket := false, false, false;
    }

    /** `stopPlaying`: clear the flag, stop and release the track, close the
        socket. The new state does not depend on the old one, so a second
        call changes nothing. */
    method StopPlaying()
      modifies this
      ensures !isPlaying && !hasAudioTrack && !hasClientSocket
    {
      isPlaying := false;
      hasAudioTrack := false;
      hasClientSocket := false;
    }

    /** `startPlaying`: a no-op while playing; otherwise the worker's whole
        run, whose log is `ClientLog`. Every run ends stopped. */
    method StartPlaying(connect: ConnectOutcome, script: seq<ReadEvent>, bufferSize: nat)
      returns (log: seq<Event>)
      requires bufferSize > 0 && ChunksFit(script, bufferSize)
      modifies this
      ensures old(isPlaying) ==> log == [] && unchanged(this)
      ensures !old(isPlaying) ==> log == ClientLog(connect, script)
      ensures !old(isPlaying) ==> !isPlaying && !hasAudioTrack && !hasClientSocket
    {
      if isPlaying {
        return [];
      }
      log := Worker(connect, script, bufferSize);
    }

    /** The body of the thread `startPlaying` spawns. */
    method Worker(connect: ConnectOutcome, script: seq<ReadEvent>, bufferSize: nat)
      returns (log: seq<Event>)
      requires !isPlaying
      requires bufferSize > 0 && ChunksFit(script, bufferSize)
      modifies this
      ensures log == ClientLog(connect, script)
      ensures !isPlaying && !hasAudioTrack && !hasClientSocket
    {
      log := [];
      var caught: Option<string> := None;
      match connect {
        case ConnectTimeout =>
          caught := Some(TimeoutMessage);
        case ConnectFailure =>
          caught := Some(FailureMessage);
        case ConnectOk =>
          hasClientSocket := true;
          isPlaying := true;
          log := log + [OnConnected];
          hasAudioTrack := true;
          var buffer := new byte[bufferSize];
          var i := 0;
          while isPlaying
            invariant 0 <= i <= |script|
            invariant caught == None
            invariant isPlaying ==> log + PlaybackLog(script[i..]) == ClientLog(connect, script)
            invariant !isPlaying ==> log == ClientLog(connect, script)
            invariant !isPlaying ==> !hasAudioTrack && !hasClientSocket
            decreases |script| - i
          {
            if i == |script| {
              break;
            }
            assert script[i..][1..] == script[i + 1..];
            match script[i] {
              case Data(bytes) =>
                forall k | 0 <= k < |bytes| {
                  buffer[k] := bytes[k];
                }
                assert buffer[..|bytes|] == bytes;
                log := log + [TrackWrite(buffer[..|bytes|])];
              case EndOfStream =>
                break;
              case ReadFailure =>
                caught := Some(FailureMessage);
                break;
              case StopRequested =>
                StopPlaying();
              case StopDuringRead =>
                StopPlaying();
                caught := Some(FailureMessage);
                break;
            }
            i := i + 1;
          }
      }
      if caught.Some? {
        log := log + [OnError(caught.value)];
      }
      var wasPlaying := isPlaying;
      StopPlaying();
      if wasPlaying {
        log := log + [OnDisconnected];
      }
    }
  }
}
