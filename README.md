# Signalling bookkeeping of the stream pages

This project models the two pages of a React live-streaming front end. The model covers
what the pages remember, and what they emit on their Socket.IO connection, while a
broadcaster streams WebRTC video to its viewers.

- **Broadcaster page** (`src/components/StreamerStudio.tsx`), module `StreamerStudio`,
  class `Studio`. It stores one peer connection per viewer in a dictionary keyed by
  viewer id. The dictionary is filled on `viewer-connected`. `viewerAnswer` and
  `viewerICECandidate` look connections up; `viewerDisconnected` removes one; "End
  Stream" closes and clears all of them. For a private stream the page also keeps a
  queue of viewers waiting to be approved or rejected.
- **Viewer page** (`src/components/ViewerPage.tsx`), module `ViewerPage`, class
  `Viewer`. It holds at most one current peer connection; each `offer` closes the old
  one and installs a new one. It also keeps a status line, the join result, a queue of
  donation alerts, the chat lines and a like counter.

Browser objects are opaque (module `Rtc`):
- A peer connection is a number giving its creation order. Closing one adds it to a set
  of closed connections.
- SDP descriptions, ICE candidates and media tracks are values that are passed around
  but never inspected.
- Every emitted socket message is appended to an `outbox` sequence. The two pages use
  different message vocabularies (`streamerOffer`, `viewerAnswer` on one side; `offer`,
  `answer` on the other), so each page is modelled on its own.

Every asynchronous browser step becomes a parameter of the handler that awaits it:
- `createOffer`, `createAnswer`, `getUserMedia`: an `Option` that is `None` when the
  call fails.
- `setLocalDescription`, `setRemoteDescription`, `addIceCandidate`: a `bool` that says
  whether the call succeeds.

Each handler runs to completion before the next one starts. Each handler is a method
whose field-level `modifies` clause names exactly the state it may change.

Each page's connection bookkeeping is also specified as a value: `StreamerStudio.Links`
and `ViewerPage.PeerSlot`. The methods prove that the new state equals a function of the
old state (`Attach`, `Disconnect`, `TearDown`, `CloseEvery`; `Replace`, `Release`).
Lemmas then prove the properties of those functions. On the viewer page, `Valid()` states
that every connection other than the current one is closed, and every method preserves it.

The code does not buffer ICE candidates: a candidate that arrives with no current
connection (viewer) or for an unknown viewer id (broadcaster) is dropped, and the model
does the same.

## Model

| member | source | states |
|---|---|---|
| StreamerStudio.Without | src/components/StreamerStudio.tsx:156 | the filtered pending list no longer holds `v`, is no longer than before, and holds only ids that were there |
| StreamerStudio.WithoutCounts | src/components/StreamerStudio.tsx:154-162 | approving/rejecting removes every occurrence of `v` and keeps every other id exactly as often as before (multiset equality) |
| StreamerStudio.WithoutConcat | src/components/StreamerStudio.tsx:156 | the filter distributes over concatenation, so the remaining ids keep their original order |
| StreamerStudio.WithoutAbsent | src/components/StreamerStudio.tsx:156 | a list that does not contain `v` is unchanged |
| StreamerStudio.WithoutIdempotent | src/components/StreamerStudio.tsx:154-162 | settling the same viewer twice equals settling it once |
| StreamerStudio.WithoutCommutes | src/components/StreamerStudio.tsx:154-162 | settling two viewers gives the same queue in either order |
| StreamerStudio.SettleUndoesRequest | src/components/StreamerStudio.tsx:36 | approving or rejecting `v` after its request leaves the queue as if the request had not been appended |
| StreamerStudio.Attach | src/components/StreamerStudio.tsx:43-44 | `viewer-connected`: the new connection is stored under the viewer id, replacing any earlier entry; nothing is closed |
| StreamerStudio.Disconnect | src/components/StreamerStudio.tsx:98-102 | `viewerDisconnected`: a stored connection is closed and its entry deleted; an unknown id changes nothing |
| StreamerStudio.TearDown | src/components/StreamerStudio.tsx:146-147 | stopStream: every stored connection is closed and the dictionary is reset to empty |
| StreamerStudio.CloseEvery | src/components/StreamerStudio.tsx:107 | the effect cleanup: every stored connection is closed and the entries are kept |
| StreamerStudio.StreamTracks | src/components/StreamerStudio.tsx:46-50 | the tracks a new connection receives: all tracks of the local stream, or none when there is none |
| StreamerStudio.AttachStores | src/components/StreamerStudio.tsx:43-44 | after `viewer-connected(v)` the dictionary maps `v` to the new connection, every other entry is unchanged, nothing is closed |
| StreamerStudio.AttachOrphansPrevious | src/components/StreamerStudio.tsx:40-44 | a repeated `viewer-connected(v)` replaces the old connection without closing it; the old one is then unreachable and stays open even after stopStream |
| StreamerStudio.AttachInjective | src/components/StreamerStudio.tsx:43-44 | storing a fresh connection keeps "no two viewers share a connection" |
| StreamerStudio.DisconnectClosesOnly | src/components/StreamerStudio.tsx:97-103 | `viewerDisconnected(v)` closes exactly `v`'s connection and removes only `v` |
| StreamerStudio.DisconnectUnknown | src/components/StreamerStudio.tsx:97-103 | `viewerDisconnected` for an unknown id changes nothing |
| StreamerStudio.DisconnectIdempotent | src/components/StreamerStudio.tsx:97-103 | handling `viewerDisconnected(v)` twice equals handling it once |
| StreamerStudio.TearDownCloses | src/components/StreamerStudio.tsx:146-147 | stopStream closes every stored connection and empties the dictionary; a second stopStream closes nothing more and the dictionary stays empty |
| StreamerStudio.DisconnectAfterTearDown | src/components/StreamerStudio.tsx:147 | after stopStream a `viewerDisconnected` is a no-op |
| StreamerStudio.CloseEveryThenTearDown | src/components/StreamerStudio.tsx:105-109 | the effect cleanup closes every stored connection; a later stopStream closes nothing new |
| StreamerStudio.Studio.constructor | src/components/StreamerStudio.tsx:7-27 | initial state: no connections, empty queue, public, not streaming, empty key, socket listening |
| StreamerStudio.Studio.SetPrivate | src/components/StreamerStudio.tsx:192-196 | the checkbox sets `isPrivate` |
| StreamerStudio.Studio.OnStreamKey | src/components/StreamerStudio.tsx:29-32 | `streamKey` event sets the key |
| StreamerStudio.Studio.OnViewerRequest | src/components/StreamerStudio.tsx:34-38 | `v` is appended to the pending list iff the stream is private; otherwise the list is unchanged |
| StreamerStudio.Studio.AddTracks | src/components/StreamerStudio.tsx:46-50 | the loop adds every track, in order, to the connection |
| StreamerStudio.Studio.ValidInjective | src/components/StreamerStudio.tsx:43-44 | under the object invariant (each stored connection was made for the viewer it is stored under) no two viewers share a connection |
| StreamerStudio.Studio.OnViewerConnected | src/components/StreamerStudio.tsx:40-71 | a fresh connection (never stored, never closed) is stored under `v`, other entries unchanged; it holds all local tracks in order, or none without a local stream; `streamerOffer` is emitted and the offer set as local description iff createOffer and setLocalDescription both succeed, otherwise nothing is emitted and the entry stays |
| StreamerStudio.Studio.OnLocalIceCandidate | src/components/StreamerStudio.tsx:52-59 | a gathered candidate is emitted as `streamerICECandidate` to the viewer the connection was made for; an end-of-candidates event emits nothing |
| StreamerStudio.Studio.OnViewerAnswer | src/components/StreamerStudio.tsx:73-83 | the answer becomes the remote description of `v`'s connection when `v` is stored and the call succeeds; otherwise nothing changes |
| StreamerStudio.Studio.OnViewerIceCandidate | src/components/StreamerStudio.tsx:85-95 | the candidate is applied to `v`'s connection when `v` is stored and the call succeeds; otherwise nothing changes |
| StreamerStudio.Studio.OnViewerDisconnected | src/components/StreamerStudio.tsx:97-103 | the bookkeeping becomes `Disconnect(old, v)` |
| StreamerStudio.Studio.CloseStored | src/components/StreamerStudio.tsx:146 | the loop closes exactly the connections stored in the dictionary |
| StreamerStudio.Studio.StopLocalTracks | src/components/StreamerStudio.tsx:145 | every local track is stopped; nothing when there is no local stream |
| StreamerStudio.Studio.StartStreaming | src/components/StreamerStudio.tsx:127-142 | on media success: stream kept, `startStream{isPrivate}` emitted, streaming; on failure nothing changes |
| StreamerStudio.Studio.StopStreaming | src/components/StreamerStudio.tsx:144-152 | local tracks stopped, every stored connection closed, dictionary empty, exactly one `endStream`, not streaming, empty key, empty pending list |
| StreamerStudio.Studio.Approve | src/components/StreamerStudio.tsx:154-157 | exactly one `approveViewer(v)` emitted; pending list becomes `Without(old, v)` |
| StreamerStudio.Studio.Reject | src/components/StreamerStudio.tsx:159-162 | exactly one `rejectViewer(v)` emitted; pending list becomes `Without(old, v)` |
| StreamerStudio.Studio.Cleanup | src/components/StreamerStudio.tsx:105-109 | socket disconnected, every stored connection closed (entries kept), local tracks stopped |
| ViewerPage.UpperAscii | src/components/ViewerPage.tsx:94 | a lower-case ASCII letter becomes its capital; every other character is unchanged |
| ViewerPage.Capitalize | src/components/ViewerPage.tsx:92-95 | the status has the state's length, its first character upper-cased and the rest unchanged; empty state gives empty status |
| ViewerPage.CapitalizeIdempotent | src/components/ViewerPage.tsx:94 | capitalising twice equals capitalising once |
| ViewerPage.IceStatusShown | src/components/ViewerPage.tsx:92-95 | "connected", "failed", "disconnected" show as "Connected", "Failed", "Disconnected"; distinct ICE states give distinct statuses |
| ViewerPage.IsJsSpace | src/components/ViewerPage.tsx:272 | the characters `trim` removes: the ECMAScript WhiteSpace and LineTerminator code points |
| ViewerPage.Trim | src/components/ViewerPage.tsx:272 | `msg.trim()`: leading and then trailing white space removed |
| ViewerPage.IsBlank | src/components/ViewerPage.tsx:272 | `!msg.trim()`: the trimmed message is the empty string |
| ViewerPage.TrimStart | src/components/ViewerPage.tsx:272 | the result is a suffix of the input, everything dropped is white space, and it does not start with white space |
| ViewerPage.TrimEnd | src/components/ViewerPage.tsx:272 | the result is a prefix of the input, everything dropped is white space, and it does not end with white space |
| ViewerPage.BlankIffAllSpace | src/components/ViewerPage.tsx:272 | `!msg.trim()` holds iff every character of the message is ECMAScript white space or a line terminator |
| ViewerPage.VisibleIsNotBlank | src/components/ViewerPage.tsx:271-278 | a message with one visible character is sent |
| ViewerPage.Shift | src/components/ViewerPage.tsx:131 | one timer tick, `d.slice(1)`: the head alert is dropped and an empty queue stays empty |
| ViewerPage.ShiftN | src/components/ViewerPage.tsx:131 | the queue after `n` timer ticks |
| ViewerPage.ShiftNDrops | src/components/ViewerPage.tsx:131 | each tick removes exactly the head: after `n` ticks the queue is the input without its first `n` alerts, or empty |
| ViewerPage.ShiftNEmpty | src/components/ViewerPage.tsx:131 | ticks on an empty queue leave it empty |
| ViewerPage.ShiftAppend | src/components/ViewerPage.tsx:130-131 | appending then ticking equals ticking then appending on a non-empty queue (first in, first out) |
| ViewerPage.DonationReachesHead | src/components/ViewerPage.tsx:116 | an alert appended behind `k` others is at the head after exactly `k` ticks, followed by the later ones |
| ViewerPage.Release | src/components/ViewerPage.tsx:126 | `pcRef.current?.close()`: the current connection, if any, is closed and stays current |
| ViewerPage.Replace | src/components/ViewerPage.tsx:74-77 | `handleOffer`: the current connection, if any, is closed and a newly created one becomes current |
| ViewerPage.AtMostOneOpen | src/components/ViewerPage.tsx:74-77 | when every non-current connection is closed, at most one connection is open and it is the current one |
| ViewerPage.ReplaceOpensOnlyNew | src/components/ViewerPage.tsx:74-77 | after an offer the invariant still holds and the only open connection is the new, current one |
| ViewerPage.ReleaseClosesAll | src/components/ViewerPage.tsx:126 | after the cleanup no connection is open; closing again changes nothing |
| ViewerPage.Viewer.constructor | src/components/ViewerPage.tsx:37-57 | initial state: status "Connecting...", no access, no connection, counts zero, empty queues; socket only when there is a stream id |
| ViewerPage.Viewer.OnConnect | src/components/ViewerPage.tsx:59-61 | `joinStream(streamId)` emitted |
| ViewerPage.Viewer.OnJoinAck | src/components/ViewerPage.tsx:61-69 | success: access granted, exactly one `watcher` emitted, status "Negotiating connection..."; failure: status "Access denied", nothing emitted, access unchanged |
| ViewerPage.Viewer.OnOffer | src/components/ViewerPage.tsx:72-105 | previous connection closed and a fresh one made current; `answer` emitted and local description set iff setRemoteDescription, createAnswer and setLocalDescription all succeed; any failure sets "Connection failed" and emits nothing |
| ViewerPage.Viewer.OnLocalIceCandidate | src/components/ViewerPage.tsx:79-81 | a gathered candidate is emitted as `candidate` to the broadcaster whose offer made the connection |
| ViewerPage.Viewer.OnIceStateChange | src/components/ViewerPage.tsx:92-95 | the status becomes the name of the connection's ICE state with its first letter capitalised |
| ViewerPage.Viewer.OnCandidate | src/components/ViewerPage.tsx:107-110 | the candidate is applied to the current connection if there is one and the call succeeds; otherwise it is dropped, not kept |
| ViewerPage.Viewer.OnViewerUpdate | src/components/ViewerPage.tsx:115 | the viewer count is the value the server sends |
| ViewerPage.Viewer.OnDonation | src/components/ViewerPage.tsx:116 | the alert is appended at the end of the queue |
| ViewerPage.Viewer.OnConnectError | src/components/ViewerPage.tsx:117-120 | status "Connection failed" |
| ViewerPage.Viewer.OnVideoError | src/components/ViewerPage.tsx:199-202 | status "Video playback error" |
| ViewerPage.Viewer.DonationTick | src/components/ViewerPage.tsx:130-133 | the queue becomes `Shift(old)`: head removed, empty stays empty |
| ViewerPage.Viewer.Like | src/components/ViewerPage.tsx:211-212 | likes rise by exactly one |
| ViewerPage.Viewer.EditDraft | src/components/ViewerPage.tsx:262-266 | the chat input holds the typed text |
| ViewerPage.Viewer.SendChat | src/components/ViewerPage.tsx:270-278 | a blank draft changes nothing; otherwise `{user: "Guest", message: draft}` is appended with the untrimmed text and the input is cleared |
| ViewerPage.Viewer.Cleanup | src/components/ViewerPage.tsx:122-127 | socket disconnected and the current connection closed; no connection is left open |

## Left out

- Socket.IO transport: connection and reconnection options, back-off and the choice of
  server URL (`src/components/ViewerPage.tsx:14-28`). Emissions are only appended to the
  outbox, and the connection is a flag (`listening`) that socket handlers require.
- WebRTC internals: SDP contents, ICE gathering, STUN server lists, `ontrack` and video
  playback (including the "Click to play" status of a rejected `play()`). These are
  browser behaviour; a connection is an opaque id that can be closed.
- Media acquisition: what `getUserMedia` returns is a parameter. The effect of
  `track.stop()` on devices, assigning `srcObject`, the `alert` calls, clipboard writes,
  the QR modal, theatre mode and chat visibility are not modelled.
- React mechanics: the broadcaster effect re-runs (cleanup plus a new socket) when
  `isPrivate` changes (`src/components/StreamerStudio.tsx:110`), and `socket.off`
  removes listeners. Neither is modelled. Cleanup sets `listening` to false, after which
  no socket handler may run.
- Interleaving of asynchronous handlers: each handler is atomic, and each awaited step is
  a success parameter. Stale completions that arrive after a connection has been
  replaced are therefore not represented.
- Wallet connection on the broadcaster page (`connectWallet`): a browser wallet request
  with no bookkeeping.
- `src/utils/walletConnection.ts`, `src/utils/renderApi.ts`, `Navbar.tsx`,
  `WalletProvider.tsx`, `App.tsx`, `main.tsx`, the `ui/` components and `vite.config.ts`:
  UI wiring, an HTTP call and configuration, with no signalling logic.
- The code has no candidate buffering, no enforcement of approval state and no viewer
  counting, so the model has none either.
- ViewerPage.UpperAscii: upper-cases ASCII letters only. JavaScript `toUpperCase` also
  maps other letters, and some of them map to two characters (for example "ß" becomes
  "SS"), which would break the equal-length claim. It is applied only to the ICE
  connection state names of `IceState.Name`, which are all lower-case ASCII.
- ViewerPage.Donation: the amount is a JavaScript number; it is kept as an opaque `real`
  because the page never computes with it.
