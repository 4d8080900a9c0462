# WiFi audio streamer — a Dafny model of its session and transport core

The app forwards live, uncompressed PCM audio from a server device to a client
device over one TCP connection on port 8080. This project models the parts of
the Android app that carry that job and proves what they guarantee:

- **Preferences** (`PreferenceManager`): the set of recent server addresses
  kept under the key `recent_ips`. `getRecentIpAddresses` lists it in
  `String.compareTo` order. `saveIpAddress` ignores a blank address. Otherwise
  it appends the address to the insertion order of the sorted list and writes
  back the first five. **StringOrder** models Kotlin's string order
  (`compareTo`, as used by `sorted()`) and proves it is a total order with a
  least element in every non-empty set.
- **Client** (`AudioClient`): `startPlaying` does nothing while already
  playing. Otherwise its worker connects with a timeout, reports
  `onConnected` and writes every chunk it reads to the audio track. The worker
  ends with `onError` and/or `onDisconnected`, depending on how the relay
  ended. `stopPlaying` clears the flag and releases the track and the socket.
  The worker runs to completion inside `StartPlaying`, driven by a script: how
  the connect ends and what each read returns. A stop from the UI thread is
  one of the read events.
- **Server** (`AudioCaptureService`):
  - `onStartCommand` checks its intent, saves the music stream's mute status
    and mutes it, then starts streaming.
  - The streaming worker (`RunWorker`) binds the listener and builds the
    recorder, then serves one client at a time. It relays each captured
    buffer until a read returns 0 or less, a write fails or streaming stops.
  - `onDestroy` clears the streaming flag, closes the listener, stops (but
    does not release) the recorder and drops every reference. It does not
    close the socket of a client being served. It unmutes only when the
    stream was unmuted before.
  - The worker is driven by a script of accept and capture outcomes.
    `onDestroy`'s clearing of `isStreaming` reaches the worker as events in
    that script.
- **LocalAddress** (`getIpAddress` in the main activity): the first address,
  in interface order and then address order, that is not loopback and has no
  `:`. It returns `0.0.0.0` when the interfaces cannot be enumerated or no
  address qualifies.

A most-recently-used history would keep the five newest addresses. The code
keeps the first five of the sorted
list with the new address appended, so on a full store a new address is
dropped. The model follows the code (`Preferences.SavedIpsDropsWhenFull`,
`Preferences.SixDistinctKeepFirstFive`).

## Model

| member | source | states |
|---|---|---|
| StringOrder.LexLeReflexive | app/src/main/java/com/example/wifiaudiostreamer/PreferenceManager.kt:17 | every string compares at most itself under `compareTo` |
| StringOrder.LexLeAntisymmetric | app/src/main/java/com/example/wifiaudiostreamer/PreferenceManager.kt:17 | two strings that each compare at most the other are equal |
| StringOrder.LexLeTransitive | app/src/main/java/com/example/wifiaudiostreamer/PreferenceManager.kt:17 | the `compareTo` order is transitive |
| StringOrder.LexLeTotal | app/src/main/java/com/example/wifiaudiostreamer/PreferenceManager.kt:17 | any two strings are comparable |
| StringOrder.LeastIsUnique | app/src/main/java/com/example/wifiaudiostreamer/PreferenceManager.kt:17 | a set has at most one least string |
| StringOrder.LeastExists | app/src/main/java/com/example/wifiaudiostreamer/PreferenceManager.kt:17 | every non-empty set of strings has a least element |
| StringOrder.Least | app/src/main/java/com/example/wifiaudiostreamer/PreferenceManager.kt:17 | the result is in the set and at most every element of it |
| Preferences.SortedList | app/src/main/java/com/example/wifiaudiostreamer/PreferenceManager.kt:17 | `toList().sorted()` of the stored set lists each stored address exactly once, strictly ascending |
| Preferences.SortedListUnique | app/src/main/java/com/example/wifiaudiostreamer/PreferenceManager.kt:17 | any strictly ascending listing of a set is that sorted list, so the listing depends on the set alone |
| Preferences.DistinctToSetSize | app/src/main/java/com/example/wifiaudiostreamer/PreferenceManager.kt:13 | `toSet()` of a list without duplicates has as many elements as the list |
| Preferences.KeepFirstFive | app/src/main/java/com/example/wifiaudiostreamer/PreferenceManager.kt:11-13 | appending to a listing of at most five addresses and taking five adds the address only when it is new and there is room |
| Preferences.SavedIpsCases | app/src/main/java/com/example/wifiaudiostreamer/PreferenceManager.kt:9-14 | on a store of at most five, a save leaves the store unchanged for a blank address, a stored address or a full store, and otherwise adds the address |
| Preferences.SavedIpsBounded | app/src/main/java/com/example/wifiaudiostreamer/PreferenceManager.kt:13 | after a non-blank save, or any save on a store of at most five, at most five addresses are stored |
| Preferences.AddKeepsDistinct | app/src/main/java/com/example/wifiaudiostreamer/PreferenceManager.kt:11-12 | `add` on the mutable set built from the list never creates a duplicate |
| Preferences.SavedIpsWithin | app/src/main/java/com/example/wifiaudiostreamer/PreferenceManager.kt:11-13 | a save stores only old entries and the saved address |
| Preferences.SavedIpsKeepsOld | app/src/main/java/com/example/wifiaudiostreamer/PreferenceManager.kt:11-13 | on a store of at most five, a save drops no address |
| Preferences.SavedIpsAddsWhenRoom | app/src/main/java/com/example/wifiaudiostreamer/PreferenceManager.kt:10-13 | with fewer than five stored, a non-blank address is stored after its save |
| Preferences.SavedIpsDropsWhenFull | app/src/main/java/com/example/wifiaudiostreamer/PreferenceManager.kt:13 | with five stored, a new address is not kept and the store is unchanged |
| Preferences.SavedIpsOverfull | app/src/main/java/com/example/wifiaudiostreamer/PreferenceManager.kt:13 | a non-blank save on a store of more than five cuts it to the first five of its sorted list, exactly five addresses |
| Preferences.SavedIpsHoldsOrFull | app/src/main/java/com/example/wifiaudiostreamer/PreferenceManager.kt:10-13 | after a non-blank save, either the address is stored or five addresses are |
| Preferences.SavedIpsIdempotent | app/src/main/java/com/example/wifiaudiostreamer/PreferenceManager.kt:9-14 | saving an address twice stores the same as saving it once, whatever was stored |
| Preferences.SaveAllWhenFull | app/src/main/java/com/example/wifiaudiostreamer/PreferenceManager.kt:9-14 | once five are stored, saving any sequence of new addresses changes nothing |
| Preferences.SaveAllDistinct | app/src/main/java/com/example/wifiaudiostreamer/PreferenceManager.kt:9-14 | saving distinct new addresses in turn adds exactly the first ones that fit in the free places |
| Preferences.SixDistinctKeepFirstFive | app/src/main/java/com/example/wifiaudiostreamer/PreferenceManager.kt:9-14 | six distinct addresses saved into an empty store keep the first five; the sixth is not kept |
| Preferences.PreferenceManager.constructor | app/src/main/java/com/example/wifiaudiostreamer/PreferenceManager.kt:6-7 | the manager reads the given stored set |
| Preferences.PreferenceManager.GetRecentIpAddresses | app/src/main/java/com/example/wifiaudiostreamer/PreferenceManager.kt:16-18 | the result has each stored address exactly once, in ascending `compareTo` order |
| Preferences.PreferenceManager.SaveIpAddress | app/src/main/java/com/example/wifiaudiostreamer/PreferenceManager.kt:9-14 | the new store is `SavedIps` of the old one: blank ignored, else sorted list, insertion-ordered add, first five |
| Client.DataRun | app/src/main/java/com/example/wifiaudiostreamer/AudioClient.kt:42-46 | the number of leading reads that return data; the read after them does not |
| Client.Ending | app/src/main/java/com/example/wifiaudiostreamer/AudioClient.kt:42-46 | the event that ends the relay loop is never a data read |
| Client.DataChunksAre | app/src/main/java/com/example/wifiaudiostreamer/AudioClient.kt:42-46 | the relayed chunks are exactly the bytes of the leading data reads, one per read, in order |
| Client.PlaybackShape | app/src/main/java/com/example/wifiaudiostreamer/AudioClient.kt:42-59 | after `onConnected`, the callbacks depend only on how the loop ended, and the track gets exactly the leading data chunks |
| Client.ClientCallbacks | app/src/main/java/com/example/wifiaudiostreamer/AudioClient.kt:20-59 | the full callback sequence for each way a start can end, from connect timeout to a stop that broke a blocked read |
| Client.ClientTrackWrites | app/src/main/java/com/example/wifiaudiostreamer/AudioClient.kt:24-46 | byte-exact relay: the track receives the leading data reads chunk by chunk, and nothing when the connect failed |
| Client.ConnectedOnceFirst | app/src/main/java/com/example/wifiaudiostreamer/AudioClient.kt:24-29 | `onConnected` fires if and only if the connect succeeded, exactly once, before anything else |
| Client.DisconnectedLast | app/src/main/java/com/example/wifiaudiostreamer/AudioClient.kt:53-59 | when `onDisconnected` fires it fires once and is the last event |
| Client.ErrorAndDisconnected | app/src/main/java/com/example/wifiaudiostreamer/AudioClient.kt:50-59 | both `onError` and `onDisconnected` fire if and only if a connected run ends in an exception while still playing |
| Client.StopSuppressesDisconnected | app/src/main/java/com/example/wifiaudiostreamer/AudioClient.kt:53-64 | a stop from the UI thread during playback means `onDisconnected` never fires |
| Client.AudioClient.constructor | app/src/main/java/com/example/wifiaudiostreamer/AudioClient.kt:13-15 | a new client is not playing and holds no track and no socket |
| Client.AudioClient.StopPlaying | app/src/main/java/com/example/wifiaudiostreamer/AudioClient.kt:63-70 | afterwards: not playing, no track, no socket, whatever the state before |
| Client.AudioClient.StartPlaying | app/src/main/java/com/example/wifiaudiostreamer/AudioClient.kt:17-61 | while playing: no events and no state change; otherwise the worker's log is `ClientLog` and the client ends stopped |
| Client.AudioClient.Worker | app/src/main/java/com/example/wifiaudiostreamer/AudioClient.kt:20-60 | the loop's callbacks and track writes equal `ClientLog` of the connect outcome and the reads; the client ends stopped |
| Server.SentRun | app/src/main/java/com/example/wifiaudiostreamer/AudioCaptureService.kt:109-117 | the number of leading captures that were read and written; the next one was not |
| Server.WithoutAcceptFailures | app/src/main/java/com/example/wifiaudiostreamer/AudioCaptureService.kt:104-119 | the accept script with its failed accepts removed is no longer and holds exactly the turns of the script that are not failed accepts |
| Server.ServedIsSentFrames | app/src/main/java/com/example/wifiaudiostreamer/AudioCaptureService.kt:109-117 | a client receives the leading written frames one after the other, and nothing after them |
| Server.ServedStopsAtFirstUnsent | app/src/main/java/com/example/wifiaudiostreamer/AudioCaptureService.kt:109-117 | nothing captured after a read of 0 or less, a failed write or a stop reaches the client |
| Server.HaltedAt | app/src/main/java/com/example/wifiaudiostreamer/AudioCaptureService.kt:102-117 | a client's loop stops the server if and only if it ended because `isStreaming` was cleared |
| Server.ClientFailureKeepsServing | app/src/main/java/com/example/wifiaudiostreamer/AudioCaptureService.kt:102-123 | a failed write or an empty read ends only that client; the accept loop goes on with the next |
| Server.AcceptFailuresSwallowed | app/src/main/java/com/example/wifiaudiostreamer/AudioCaptureService.kt:104-119 | failed accepts change no session: removing them from the script gives the same sessions |
| Server.AudioCaptureService.constructor | app/src/main/java/com/example/wifiaudiostreamer/AudioCaptureService.kt:30-37 | a new service holds nothing, streams nothing and sees the device's mute status |
| Server.AudioCaptureService.SetStreamMute | app/src/main/java/com/example/wifiaudiostreamer/AudioCaptureService.kt:59-61 | the stream's mute flag becomes the argument and the call is recorded |
| Server.AudioCaptureService.OnStartCommand | app/src/main/java/com/example/wifiaudiostreamer/AudioCaptureService.kt:39-69 | no intent: not sticky, nothing changes; no projection data: `stopSelf`, not sticky, nothing else changes; otherwise sticky, the mute state saved and muted, streaming started |
| Server.AudioCaptureService.OnStartCommandSavingOnce | app/src/main/java/com/example/wifiaudiostreamer/AudioCaptureService.kt:57-61 | the start with the mute status saved once per session: only the first start reads and sets it |
| Server.AudioCaptureService.StartStreaming | app/src/main/java/com/example/wifiaudiostreamer/AudioCaptureService.kt:71-75 | a no-op while streaming; otherwise sets the flag and starts exactly one worker |
| Server.AudioCaptureService.RunWorker | app/src/main/java/com/example/wifiaudiostreamer/AudioCaptureService.kt:75-131 | with a ready set-up, the clients' sessions are `Deliveries` of the script and the loop ends with streaming off; one client socket is closed per session and none is left open; the recorder is always stopped, released and dropped |
| Server.AudioCaptureService.ServeClient | app/src/main/java/com/example/wifiaudiostreamer/AudioCaptureService.kt:103-122 | one accepted client receives `Served` of the captures, and its socket is closed in the `finally` whichever way the relay ended |
| Server.AudioCaptureService.RelayToClient | app/src/main/java/com/example/wifiaudiostreamer/AudioCaptureService.kt:106-117 | the client receives exactly `Served` of the captures, and streaming stays on unless the loop was halted |
| Server.AudioCaptureService.OnDestroy | app/src/main/java/com/example/wifiaudiostreamer/AudioCaptureService.kt:135-164 | streaming off, listener closed, recorder stopped, everything dropped; unmuted if and only if the audio manager was set and the stream was not muted before |
| Server.StartThenDestroy | app/src/main/java/com/example/wifiaudiostreamer/AudioCaptureService.kt:39-164 | a start, the worker's run and a destroy restore the mute status, whatever the worker met; every accepted client's socket was closed and none is left open |
| Server.StartTwiceThenDestroy | app/src/main/java/com/example/wifiaudiostreamer/AudioCaptureService.kt:57-73 | two starts start one worker, and after destroy the stream is muted even if it was not muted at first |
| Server.StartTwiceThenDestroySavingOnce | app/src/main/java/com/example/wifiaudiostreamer/AudioCaptureService.kt:57-61 | with the corrected start, two starts and a destroy restore the mute status |
| Server.RejectedStart | app/src/main/java/com/example/wifiaudiostreamer/AudioCaptureService.kt:40-47 | a start without an intent or without projection data returns not sticky, keeps the mute status and starts nothing |
| LocalAddress.FirstQualifying | app/src/main/java/com/example/wifiaudiostreamer/MainActivity.kt:172-180 | the position of the first non-loopback address without `:`; every address before it fails the test |
| LocalAddress.FirstQualifyingIs | app/src/main/java/com/example/wifiaudiostreamer/MainActivity.kt:172-180 | a position whose predecessors fail the test and which passes it is the first qualifying one |
| LocalAddress.AllAddressesPrefix | app/src/main/java/com/example/wifiaudiostreamer/MainActivity.kt:172-175 | the addresses of the first interfaces come first in the enumeration order |
| LocalAddress.SelectedIsQualifying | app/src/main/java/com/example/wifiaudiostreamer/MainActivity.kt:169-186 | the result has no `:`; it is `0.0.0.0` or a non-loopback address of some interface; with no qualifying address it is `0.0.0.0` |
| LocalAddress.GetIpAddress | app/src/main/java/com/example/wifiaudiostreamer/MainActivity.kt:169-186 | the result is the first qualifying address (or the fallback), and no address after it is inspected |

## Findings

| source | as written | input that shows it | evidently intended | confidence | as-written member | corrected member |
|---|---|---|---|---|---|---|
| app/src/main/java/com/example/wifiaudiostreamer/AudioCaptureService.kt:57-61 | every `onStartCommand` with projection data re-reads the mute status into `wasMuted`, including one that arrives while streaming | stream unmuted, two valid start commands (the screen's `isStreaming` is plain `remember` state, so it resets while the service keeps running), then `onDestroy`: the stream stays muted | the mute status is saved once per session and restored when the service stops | medium, not executed | Server.StartTwiceThenDestroy | Server.StartTwiceThenDestroySavingOnce |

The corrected start is `Server.AudioCaptureService.OnStartCommandSavingOnce`.
The rest of the model keeps the start as written, because a single start
behaves the same under both definitions.

## Left out

- The client screen, the server screen, notifications and `startForeground` are not modelled. They are UI and platform bookkeeping.
- Building `AudioTrack`/`AudioRecord` and `getMinBufferSize` are left out. The buffer size is a parameter, and a failed build is one of the worker's scripted outcomes.
- Real sockets, DNS, the 5000 ms connect timeout and the 500 ms `join` are replaced by scripted outcomes. Time is not modelled.
- Threads, `@Volatile` and interleavings are not modelled. A stop from another thread is an event at a loop test or inside a blocked read. A race between two near-simultaneous `startPlaying` calls, which can start two workers in the source, is not captured.
- `SharedPreferences`, `apply()` and the asynchronous persistence are replaced by the `recentIps` field. The file format is not modelled.
- StringOrder.LexLe: compares Unicode scalar values, while Kotlin's `compareTo` compares UTF-16 code units. A character above U+FFFF and one in U+E000–U+FFFF are therefore ordered differently.
- Preferences.IsBlank: characters are Unicode scalar values, not UTF-16 code units. A string with surrogate pairs is judged per scalar value.
- Client.AudioClient.Worker: a write to the track is recorded as a whole chunk. A failed write is a `ReadFailure`, and no partial write is modelled.
- `startPlaying`'s `serverIp` argument only selects where to connect. The address itself is not modelled; the connect outcome is a parameter.
- Server.AudioCaptureService.OnStartCommand: the media projection is a flag. A second start that replaces the projection without stopping the old one is not distinguished, and `resultCode` is carried but not used.
- Server.AudioCaptureService.RunWorker: a script that runs out reads as a shutdown. In the client, a read script that runs out reads as end of stream.
- `stopSelf` is recorded as a flag. The `onDestroy` it eventually triggers is a separate call of `OnDestroy`.
- `getNetworkInterfaces` failing part-way is not modelled. The enumeration either fails up front or yields all interfaces.
