/** The capture side (`AudioCaptureService`): `onStartCommand` checks its
    intent, saves and sets the mute status of the music stream and starts
    streaming; the streaming worker binds the listener on port 8080, builds the
    recorder and then serves one client at a time, relaying every captured
    buffer to it; `onDestroy` stops everything and unmutes when the stream was
    not muted before.

    The worker thread's body is the method `RunWorker`, driven by a script of
    accept and capture outcomes. `StartStreaming` only records that a worker
    was started; `RunWorker` consumes one such start. A concurrent `onDestroy`
    reaches the worker as the events that clear `isStreaming`. */
module Server {
  import opened Basics

  /** `Service.START_STICKY` and `Service.START_NOT_STICKY`. */
  const StartSticky := 1
  const StartNotSticky := 2

  /** The fixed listening port. */
  const Port := 8080

  /** The intent given to `onStartCommand`: its result code and whether it
      carries the media projection data extra. */
  datatype Intent = Intent(resultCode: int, hasProjectionData: bool)

  /** How the worker's set-up ends. */
  datatype Setup =
    | Ready           // listener bound, recorder built and recording
    | BindFailed      // the listener could not be bound
    | RecorderFailed  // bound, but the capture configuration or recorder could not be built

  /** One turn of a client's relay loop. */
  datatype Capture =
    | Frame(bytes: seq<byte>, sent: bool)  // read returned |bytes| > 0; sent: the write did not throw
    | NoFrame                              // read returned 0 or less
    | Fault                                // the client's block threw (caught and swallowed)
    | Halt                                 // onDestroy cleared isStreaming before the next loop test

  /** One turn of the accept loop. */
  datatype Turn =
    | Client(captures: seq<Capture>)  // accept returned a client, served over these captures
    | AcceptFailed                    // accept threw (and the exception was swallowed)
    | Shutdown                        // onDestroy cleared isStreaming before the next loop test

  /** What one accepted client got: the bytes written to it. */
  datatype Session = Session(received: seq<byte>)

  /** Every frame of the script is a legal result of
      `read(buffer, 0, bufferSize)`. */
  predicate FramesFit(turns: seq<Turn>, bufferSize: nat) {
    forall t, k :: 0 <= t < |turns| && turns[t].Client? && 0 <= k < |turns[t].captures| ==>
      FrameFits(turns[t].captures[k], bufferSize)
  }

  predicate FrameFits(c: Capture, bufferSize: nat) {
    c.Frame? ==> 0 < |c.bytes| <= bufferSize
  }

  predicate CapturesFit(captures: seq<Capture>, bufferSize: nat) {
    forall k :: 0 <= k < |captures| ==> FrameFits(captures[k], bufferSize)
  }

  // ---------------------------------------------------------------------
  // Specification of the relay

  /** The bytes one client receives: the frames up to the first read of 0 or
      less, the first failed write or the stop. A script that runs out reads
      as a read of 0 or less. */
  function Served(captures: seq<Capture>): seq<byte>
    decreases |captures|
  {
    if captures == [] then []
    else match captures[0]
      case Frame(b, sent) => if sent then b + Served(captures[1..]) else []
      case _ => []
  }

  /** The client's loop ended because streaming was switched off. */
  predicate Halted(captures: seq<Capture>)
    decreases |captures|
  {
    captures != [] &&
    match captures[0]
    case Frame(_, sent) => sent && Halted(captures[1..])
    case NoFrame => false
    case Fault => false
    case Halt => true
  }

  /** The sessions of the accept loop, in accept order, when it is entered
      with `isStreaming` set. A script that runs out reads as a shutdown. */
  function Deliveries(turns: seq<Turn>): seq<Session>
    decreases |turns|
  {
    if turns == [] then []
    else match turns[0]
      case Shutdown => []
      case AcceptFailed => Deliveries(turns[1..])
      case Client(c) =>
        [Session(Served(c))] + (if Halted(c) then [] else Deliveries(turns[1..]))
  }

  predicate SentFrame(c: Capture) {
    c.Frame? && c.sent
  }

  /** The number of leading frames that were written. */
  function SentRun(captures: seq<Capture>): (n: nat)
    ensures n <= |captures|
    ensures forall k :: 0 <= k < n ==> SentFrame(captures[k])
    ensures n < |captures| ==> !SentFrame(captures[n])
    decreases |captures|
  {
    if captures == [] || !SentFrame(captures[0]) then 0 else 1 + SentRun(captures[1..])
  }

  /** The turns of a script without its failed accepts. */
  function WithoutAcceptFailures(turns: seq<Turn>): (r: seq<Turn>)
    ensures |r| <= |turns|
    ensures forall t :: t in r <==> t in turns && !t.AcceptFailed?
    decreases |turns|
  {
    if turns == [] then []
    else (if turns[0].AcceptFailed? then [] else [turns[0]]) + WithoutAcceptFailures(turns[1..])
  }

  // ---------------------------------------------------------------------
  // Lemmas

  /** A client receives exactly the bytes of the leading written frames,
      one buffer prefix after the other. */
  lemma {:induction false} ServedIsSentFrames(captures: seq<Capture>, k: nat)
    requires k <= SentRun(captures)
    ensures Served(captures) == Served(captures[..k]) + Served(captures[k..])
    ensures k == SentRun(captures) ==> Served(captures[k..]) == []
    decreases k
  {
    if k > 0 {
      var rest := captures[1..];
      ServedIsSentFrames(rest, k - 1);
      assert captures[..k][1..] == rest[..k - 1];
      assert captures[k..] == rest[k - 1..];
    } else {
      assert captures[..0] == [];
    }
  }

  /** Nothing after the first read of 0 or less, failed write, exception or stop
      reaches the client. */
  lemma {:induction false} ServedStopsAtFirstUnsent(captures: seq<Capture>, more: seq<Capture>)
    requires SentRun(captures) < |captures|
    ensures Served(captures + more) == Served(captures)
    decreases |captures|
  {
    if SentFrame(captures[0]) {
      assert (captures + more)[1..] == captures[1..] + more;
      ServedStopsAtFirstUnsent(captures[1..], more);
    }
  }

  /** The loop of a client halts the server exactly when the first unwritten
      turn is a stop. */
  lemma {:induction false} HaltedAt(captures: seq<Capture>)
    ensures Halted(captures) <==>
      SentRun(captures) < |captures| && captures[SentRun(captures)] == Halt
    decreases |captures|
  {
    if captures != [] && SentFrame(captures[0]) {
      HaltedAt(captures[1..]);
      if SentRun(captures[1..]) < |captures[1..]| {
        assert captures[SentRun(captures)] == captures[1..][SentRun(captures[1..])];
      }
    }
  }

  /** A failed write, a read of 0 or less or an exception ends only the
      current client:
      the accept loop goes on with the next turn. */
  lemma ClientFailureKeepsServing(captures: seq<Capture>, rest: seq<Turn>)
    requires SentRun(captures) < |captures| && captures[SentRun(captures)] != Halt
    ensures Deliveries([Client(captures)] + rest) ==
      [Session(Served(captures))] + Deliveries(rest)
  {
    HaltedAt(captures);
    assert ([Client(captures)] + rest)[1..] == rest;
  }

  /** Failed accepts are swallowed: removing them from the script changes
      no session. */
  lemma {:induction false} AcceptFailuresSwallowed(turns: seq<Turn>)
    ensures Deliveries(WithoutAcceptFailures(turns)) == Deliveries(turns)
    decreases |turns|
  {
    if turns != [] {
      AcceptFailuresSwallowed(turns[1..]);
      var r := WithoutAcceptFailures(turns);
      if turns[0].AcceptFailed? {
        assert r == WithoutAcceptFailures(turns[1..]);
      } else {
        assert r == [turns[0]] + WithoutAcceptFailures(turns[1..]);
        assert r[1..] == WithoutAcceptFailures(turns[1..]);
      }
    }
  }

  /** The captures of every accepted client of a fitting script fit. */
  lemma TurnFits(turns: seq<Turn>, t: nat, bufferSize: nat)
    requires FramesFit(turns, bufferSize) && t < |turns| && turns[t].Client?
    ensures CapturesFit(turns[t].captures, bufferSize)
  {
  }

  // ---------------------------------------------------------------------
  // The service

  class AudioCaptureService {
    // Platform state: the mute flag of STREAM_MUSIC and the arguments of the
    // setStreamMute calls made on it, in order.
    var musicMuted: bool
    var muteCalls: seq<bool>
    // The socket of the client being served is open, and the number of
    // accepted client sockets closed so far.
    var clientOpen: bool
    var clientsClosed: nat

    // Fields of the service; `has…` stands for "the reference is not null".
    var hasAudioManager: bool
    var wasMuted: bool
    var isStreaming: bool
    var hasMediaProjection: bool
    var hasServerThread: bool
    var hasServerSocket: bool
    var listenerOpen: bool      // the bound listener has not been closed
    var hasAudioRecord: bool
    var recording: bool         // startRecording was called and stop was not
    var recorderLive: bool      // a recorder was built and not released
    var stopSelfCalled: bool
    var pendingWorkers: nat     // worker threads started whose body has not run

    /** Only a recorder that is held records, only a built recorder is held,
        and only a held listener is open. */
    ghost predicate Valid()
      reads this
    {
      (recording ==> hasAudioRecord) && (hasAudioRecord ==> recorderLive) &&
      (listenerOpen ==> hasServerSocket)
    }

    /** A fresh service on a device whose music stream is muted or not. */
    constructor(muted: bool)
      ensures musicMuted == muted && muteCalls == []
      ensures !hasAudioManager && !wasMuted && !isStreaming && !hasMediaProjection
      ensures !hasServerThread && !hasServerSocket && !listenerOpen
      ensures !hasAudioRecord && !recording && !recorderLive
      ensures !stopSelfCalled && pendingWorkers == 0
      ensures !clientOpen && clientsClosed == 0
      ensures Valid()
    {
      musicMuted, muteCalls := muted, [];
      clientOpen, clientsClosed := false, 0;
      hasAudioManager, wasMuted, isStreaming, hasMediaProjection := false, false, false, false;
      hasServerThread, hasServerSocket, listenerOpen := false, false, false;
      hasAudioRecord, recording, recorderLive := false, false, false;
      stopSelfCalled, pendingWorkers := false, 0;
    }

    /** `AudioManager.setStreamMute(STREAM_MUSIC, muted)`. */
    method SetStreamMute(muted: bool)
      modifies this`musicMuted, this`muteCalls
      ensures musicMuted == muted && muteCalls == old(muteCalls) + [muted]
    {
      musicMuted := muted;
      muteCalls := muteCalls + [muted];
    }

    /** `onStartCommand`: without an intent, or without projection data (then
        after `stopSelf`), nothing starts; otherwise save the mute status,
        mute if it was not muted, keep the projection and start streaming. */
    method OnStartCommand(intent: Option<Intent>) returns (result: int)
      modifies this`stopSelfCalled, this`hasAudioManager, this`wasMuted, this`musicMuted
      modifies this`muteCalls, this`hasMediaProjection, this`isStreaming
      modifies this`hasServerThread, this`pendingWorkers
      requires Valid()
      ensures Valid()
      ensures intent.None? ==> result == StartNotSticky && unchanged(this)
      ensures intent.Some? && !intent.value.hasProjectionData ==>
        result == StartNotSticky && stopSelfCalled &&
        musicMuted == old(musicMuted) && muteCalls == old(muteCalls) &&
        wasMuted == old(wasMuted) && isStreaming == old(isStreaming) &&
        hasAudioManager == old(hasAudioManager) && pendingWorkers == old(pendingWorkers) &&
        hasMediaProjection == old(hasMediaProjection) && hasServerThread == old(hasServerThread)
      ensures intent.Some? && intent.value.hasProjectionData ==>
        result == StartSticky &&
        wasMuted == old(musicMuted) && musicMuted &&
        muteCalls == old(muteCalls) + (if old(musicMuted) then [] else [true]) &&
        hasAudioManager && hasMediaProjection && isStreaming &&
        pendingWorkers == old(pendingWorkers) + (if old(isStreaming) then 0 else 1) &&
        hasServerThread == (old(hasServerThread) || !old(isStreaming)) &&
        stopSelfCalled == old(stopSelfCalled)
    {
      if intent.None? {
        return StartNotSticky;
      }
      if !intent.value.hasProjectionData {
        stopSelfCalled := true;
        return StartNotSticky;
      }
      hasAudioManager := true;
      wasMuted := musicMuted;
      if !wasMuted {
        SetStreamMute(true);
      }
      hasMediaProjection := true;
      StartStreaming();
      result := StartSticky;
    }

    /** `onStartCommand` with the mute status saved once per session: only
        the first start after a destroy (the audio manager is not yet set)
        reads and changes it; a later start keeps the saved value. */
    method OnStartCommandSavingOnce(intent: Option<Intent>) returns (result: int)
      modifies this`stopSelfCalled, this`hasAudioManager, this`wasMuted, this`musicMuted
      modifies this`muteCalls, this`hasMediaProjection, this`isStreaming
      modifies this`hasServerThread, this`pendingWorkers
      requires Valid()
      ensures Valid()
      ensures intent.None? ==> result == StartNotSticky && unchanged(this)
      ensures intent.Some? && !intent.value.hasProjectionData ==>
        result == StartNotSticky && stopSelfCalled &&
        musicMuted == old(musicMuted) && muteCalls == old(muteCalls) &&
        wasMuted == old(wasMuted) && isStreaming == old(isStreaming) &&
        hasAudioManager == old(hasAudioManager) && pendingWorkers == old(pendingWorkers) &&
        hasMediaProjection == old(hasMediaProjection) && hasServerThread == old(hasServerThread)
      ensures intent.Some? && intent.value.hasProjectionData ==>
        result == StartSticky &&
        wasMuted == (if old(hasAudioManager) then old(wasMuted) else old(musicMuted)) &&
        musicMuted == (old(musicMuted) || !old(hasAudioManager)) &&
        muteCalls == old(muteCalls) +
          (if old(hasAudioManager) || old(musicMuted) then [] else [true]) &&
        hasAudioManager && hasMediaProjection && isStreaming &&
        pendingWorkers == old(pendingWorkers) + (if old(isStreaming) then 0 else 1) &&
        hasServerThread == (old(hasServerThread) || !old(isStreaming)) &&
        stopSelfCalled == old(stopSelfCalled)
    {
      if intent.None? {
        return StartNotSticky;
      }
      if !intent.value.hasProjectionData {
        stopSelfCalled := true;
        return StartNotSticky;
      }
      if !hasAudioManager {
        hasAudioManager := true;
        wasMuted := musicMuted;
        if !wasMuted {
          SetStreamMute(true);
        }
      }
      hasMediaProjection := true;
      StartStreaming();
      result := StartSticky;
    }

    /** `startStreaming`: a no-op while streaming; otherwise set the flag and
        start one worker thread. */
    method StartStreaming()
      modifies this`isStreaming, this`hasServerThread, this`pendingWorkers
      requires Valid()
      ensures Valid()
      ensures isStreaming
      ensures pendingWorkers == old(pendingWorkers) + (if old(isStreaming) then 0 else 1)
      ensures hasServerThread == (old(hasServerThread) || !old(isStreaming))
      ensures old(isStreaming) ==> unchanged(this)
    {
      if isStreaming {
        return;
      }
      isStreaming := true;
      hasServerThread := true;
      pendingWorkers := pendingWorkers + 1;
    }

    /** The body of the worker thread: set up, serve clients while
        `isStreaming`, then stop, release and drop the recorder. Each
        accepted client gets one session; with a ready set-up the loop is
        left only once `isStreaming` is false. */
    method RunWorker(setup: Setup, turns: seq<Turn>, bufferSize: nat)
      returns (sessions: seq<Session>)
      requires Valid() && pendingWorkers > 0 && !clientOpen
      requires bufferSize > 0 && FramesFit(turns, bufferSize)
      modifies this`pendingWorkers, this`isStreaming, this`hasServerSocket, this`listenerOpen
      modifies this`hasAudioRecord, this`recording, this`recorderLive
      modifies this`clientOpen, this`clientsClosed
      ensures pendingWorkers == old(pendingWorkers) - 1
      ensures sessions == if setup == Ready && old(isStreaming) then Deliveries(turns) else []
      ensures !clientOpen && clientsClosed == old(clientsClosed) + |sessions|
      ensures setup == Ready ==> !isStreaming
      ensures setup != Ready ==> isStreaming == old(isStreaming)
      ensures setup == BindFailed ==>
        hasServerSocket == old(hasServerSocket) && listenerOpen == old(listenerOpen)
      ensures setup != BindFailed ==> hasServerSocket && listenerOpen
      ensures !hasAudioRecord && !recording
      ensures recorderLive == (setup != Ready && old(recorderLive) && !old(hasAudioRecord))
      ensures Valid()
    {
      pendingWorkers := pendingWorkers - 1;
      sessions := [];
      if setup == BindFailed {
        // The exception leaves serverSocket as it was.
      } else {
        hasServerSocket, listenerOpen := true, true;
        if setup == Ready {
          hasAudioRecord, recorderLive := true, true;
          recording := true;
          var t := 0;
          while isStreaming
            invariant 0 <= t <= |turns|
            invariant isStreaming ==> sessions + Deliveries(turns[t..]) == Deliveries(turns)
            invariant !isStreaming ==> sessions == if old(isStreaming) then Deliveries(turns) else []
            invariant old(isStreaming) || !isStreaming
            invariant pendingWorkers == old(pendingWorkers) - 1
            invariant !clientOpen && clientsClosed == old(clientsClosed) + |sessions|
            invariant hasServerSocket && listenerOpen && hasAudioRecord && recording && recorderLive
            decreases |turns| - t, isStreaming
          {
            if t == |turns| {
              // The script ran out: onDestroy.
              isStreaming := false;
            } else {
              assert turns[t..][1..] == turns[t + 1..];
              match turns[t] {
                case Shutdown =>
                  isStreaming := false;
                case AcceptFailed =>
                case Client(captures) =>
                  TurnFits(turns, t, bufferSize);
                  var received := ServeClient(captures, bufferSize);
                  sessions := sessions + [Session(received)];
              }
              t := t + 1;
            }
          }
        }
      }
      // finally: audioRecord?.stop(); audioRecord?.release(); audioRecord = null
      if hasAudioRecord {
        recording := false;
        recorderLive := false;
      }
      hasAudioRecord := false;
    }

    /** One iteration of the accept loop that got a client: relay to it and,
        in the `finally`, close its socket. */
    method ServeClient(captures: seq<Capture>, bufferSize: nat) returns (received: seq<byte>)
      requires Valid() && isStreaming && !clientOpen
      requires bufferSize > 0 && CapturesFit(captures, bufferSize)
      modifies this`isStreaming, this`clientOpen, this`clientsClosed
      ensures received == Served(captures)
      ensures isStreaming == !Halted(captures)
      ensures !clientOpen && clientsClosed == old(clientsClosed) + 1
      ensures Valid()
    {
      clientOpen := true;
      received := RelayToClient(captures, bufferSize);
      // finally: clientSocket?.close()
      clientOpen, clientsClosed := false, clientsClosed + 1;
    }

    /** The inner loop for one accepted client: read a buffer from the
        recorder and write its first `read` bytes to the client, until a read
        of 0 or less, a failed write or `isStreaming` is cleared. */
    method RelayToClient(captures: seq<Capture>, bufferSize: nat) returns (received: seq<byte>)
      requires Valid() && isStreaming && clientOpen
      requires bufferSize > 0 && CapturesFit(captures, bufferSize)
      modifies this`isStreaming
      ensures received == Served(captures)
      ensures isStreaming == !Halted(captures)
      ensures Valid()
    {
      var buffer := new byte[bufferSize];
      received := [];
      var i := 0;
      while isStreaming
        invariant 0 <= i <= |captures|
        invariant isStreaming ==> received + Served(captures[i..]) == Served(captures)
        invariant isStreaming ==> (Halted(captures[i..]) <==> Halted(captures))
        invariant !isStreaming ==> received == Served(captures) && Halted(captures)
        invariant buffer.Length == bufferSize
        decreases |captures| - i
      {
        if i == |captures| {
          break;
        }
        assert captures[i..][1..] == captures[i + 1..];
        match captures[i] {
          case Halt =>
            isStreaming := false;
          case NoFrame =>
            break;
          case Fault =>
            break;
          case Frame(bytes, sent) =>
            assert FrameFits(captures[i], bufferSize);
            var read := |bytes|;
            forall k | 0 <= k < read {
              buffer[k] := bytes[k];
            }
            if !sent {
              break;
            }
            assert buffer[..read] == bytes;
            received := received + buffer[..read];
        }
        i := i + 1;
      }
    }

    /** `onDestroy`: clear the flag, close the listener, stop the recorder,
        drop the thread, socket, recorder and projection, and unmute only if
        the stream was not muted before and the audio manager is set. */
    method OnDestroy()
      modifies this`isStreaming, this`listenerOpen, this`recording, this`hasServerThread
      modifies this`hasServerSocket, this`hasAudioRecord, this`hasMediaProjection
      modifies this`musicMuted, this`muteCalls, this`hasAudioManager
      requires Valid()
      ensures Valid()
      ensures !isStreaming && !listenerOpen && !hasServerSocket && !hasServerThread
      ensures !hasAudioRecord && !hasMediaProjection && !hasAudioManager
      ensures !recording
      ensures old(hasAudioManager) && !old(wasMuted) ==>
        !musicMuted && muteCalls == old(muteCalls) + [false]
      ensures !(old(hasAudioManager) && !old(wasMuted)) ==>
        musicMuted == old(musicMuted) && muteCalls == old(muteCalls)
    {
      isStreaming := false;
      if hasServerSocket {
        listenerOpen := false;
      }
      if hasAudioRecord {
        recording := false;
      }
      // serverThread?.join(500) is not modelled.
      hasServerThread, hasServerSocket, hasAudioRecord := false, false, false;
      hasMediaProjection := false;
      if hasAudioManager && !wasMuted {
        SetStreamMute(false);
      }
      hasAudioManager := false;
    }
  }

  // ---------------------------------------------------------------------
  // Whole service runs

  /** A valid start, the worker's run and a destroy leave the music stream
      as it was found, whatever the worker met; every accepted client's
      socket was closed, and none is left open. */
  method StartThenDestroy(initiallyMuted: bool, setup: Setup, turns: seq<Turn>, bufferSize: nat)
    returns (mutedAfter: bool, sessions: seq<Session>, socketsClosed: nat, clientLeftOpen: bool)
    requires bufferSize > 0 && FramesFit(turns, bufferSize)
    ensures mutedAfter == initiallyMuted
    ensures sessions == if setup == Ready then Deliveries(turns) else []
    ensures socketsClosed == |sessions| && !clientLeftOpen
  {
    var service := new AudioCaptureService(initiallyMuted);
    var result := service.OnStartCommand(Some(Intent(-1, true)));
    sessions := service.RunWorker(setup, turns, bufferSize);
    service.OnDestroy();
    mutedAfter := service.musicMuted;
    socketsClosed, clientLeftOpen := service.clientsClosed, service.clientOpen;
  }

  /** A second valid start while streaming records the stream as already
      muted and starts no second worker, so the final destroy leaves the
      stream muted even when it was not muted at first. */
  method StartTwiceThenDestroy(initiallyMuted: bool) returns (mutedAfter: bool, workers: nat)
    ensures mutedAfter
    ensures workers == 1
  {
    var service := new AudioCaptureService(initiallyMuted);
    var first := service.OnStartCommand(Some(Intent(-1, true)));
    var second := service.OnStartCommand(Some(Intent(-1, true)));
    workers := service.pendingWorkers;
    service.OnDestroy();
    mutedAfter := service.musicMuted;
  }

  /** With the mute status saved once per session, two valid starts and a
      destroy leave the music stream as it was found. */
  method StartTwiceThenDestroySavingOnce(initiallyMuted: bool)
    returns (mutedAfter: bool, workers: nat)
    ensures mutedAfter == initiallyMuted
    ensures workers == 1
  {
    var service := new AudioCaptureService(initiallyMuted);
    var first := service.OnStartCommandSavingOnce(Some(Intent(-1, true)));
    var second := service.OnStartCommandSavingOnce(Some(Intent(-1, true)));
    workers := service.pendingWorkers;
    service.OnDestroy();
    mutedAfter := service.musicMuted;
  }

  /** A start command without an intent, or without projection data, leaves
      the mute status alone and starts nothing. */
  method RejectedStart(initiallyMuted: bool, intent: Option<Intent>)
    returns (result: int, mutedAfter: bool, streaming: bool)
    requires intent.None? || !intent.value.hasProjectionData
    ensures result == StartNotSticky && mutedAfter == initiallyMuted && !streaming
  {
    var service := new AudioCaptureService(initiallyMuted);
    result := service.OnStartCommand(intent);
    mutedAfter := service.musicMuted;
    streaming := service.isStreaming;
  }
}
