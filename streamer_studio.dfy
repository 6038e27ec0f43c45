/**
 * The broadcaster page: one peer connection per viewer, kept in a dictionary
 * keyed by the viewer's socket id, an approval queue for private streams,
 * and the socket messages the page emits.
 */
module StreamerStudio {
  import opened Rtc

  /** A viewer, as identified by the signalling server. */
  type ViewerId = string

  /** The messages the broadcaster page emits on its socket. */
  datatype Outgoing =
    | StartStream(isPrivate: bool)
    | StreamerOffer(viewerId: ViewerId, offer: Sdp)
    | StreamerIceCandidate(viewerId: ViewerId, candidate: IceCandidate)
    | EndStream
    | ApproveViewer(viewerId: ViewerId)
    | RejectViewer(viewerId: ViewerId)

  // ---------------------------------------------------------------------
  // Pending viewers: `prev.filter(id => id !== viewerId)`
  // ---------------------------------------------------------------------

  /** The pending list with every occurrence of `v` filtered out. */
  function Without(s: seq<ViewerId>, v: ViewerId): (r: seq<ViewerId>)
    ensures |r| <= |s|
    ensures v !in r
    ensures forall x :: x in r ==> x in s
  {
    if s == [] then []
    else if s[0] == v then Without(s[1..], v)
    else [s[0]] + Without(s[1..], v)
  }

  /** Filtering removes exactly the occurrences of `v` and keeps every other id as often as it was there. */
  lemma {:induction false} WithoutCounts(s: seq<ViewerId>, v: ViewerId)
    ensures multiset(Without(s, v)) == multiset(s)[v := 0]
  {
    if s != [] {
      WithoutCounts(s[1..], v);
      assert s == [s[0]] + s[1..];
    }
  }

  /** Filtering works piecewise, so the ids that stay keep their relative order. */
  lemma {:induction false} WithoutConcat(a: seq<ViewerId>, b: seq<ViewerId>, v: ViewerId)
    ensures Without(a + b, v) == Without(a, v) + Without(b, v)
  {
    if a != [] {
      assert (a + b)[1..] == a[1..] + b;
      WithoutConcat(a[1..], b, v);
    } else {
      assert a + b == b;
    }
  }

  /** A list that does not hold `v` is left as it is. */
  lemma {:induction false} WithoutAbsent(s: seq<ViewerId>, v: ViewerId)
    requires v !in s
    ensures Without(s, v) == s
  {
    if s != [] {
      WithoutAbsent(s[1..], v);
    }
  }

  /** Approving or rejecting the same viewer a second time leaves the list unchanged. */
  lemma WithoutIdempotent(s: seq<ViewerId>, v: ViewerId)
    ensures Without(Without(s, v), v) == Without(s, v)
  {
    WithoutAbsent(Without(s, v), v);
  }

  /** Settling two different viewers gives the same list in either order. */
  lemma {:induction false} WithoutCommutes(s: seq<ViewerId>, v: ViewerId, w: ViewerId)
    ensures Without(Without(s, v), w) == Without(Without(s, w), v)
  {
    if s != [] {
      WithoutCommutes(s[1..], v, w);
    }
  }

  /**
   * A request queued by `viewerRequest` is settled by approving or
   * rejecting that viewer: the queue is as if the request had never come,
   * minus any earlier requests of the same viewer.
   */
  lemma SettleUndoesRequest(s: seq<ViewerId>, v: ViewerId)
    ensures Without(s + [v], v) == Without(s, v)
  {
    WithoutConcat(s, [v], v);
    assert Without([v], v) == [];
  }

  // ---------------------------------------------------------------------
  // Peer-connection bookkeeping as a value
  // ---------------------------------------------------------------------

  /** Which connection serves which viewer, and which connections have been closed. */
  datatype Links = Links(peers: map<ViewerId, ConnId>, closed: set<ConnId>)

  /** No two viewers share a connection. */
  ghost predicate Injective(m: map<ViewerId, ConnId>) {
    forall v, w :: v in m && w in m && v != w ==> m[v] != m[w]
  }

  /** `viewer-connected`: the new connection `c` is stored under `v`; nothing is closed. */
  function Attach(l: Links, v: ViewerId, c: ConnId): Links {
    Links(l.peers[v := c], l.closed)
  }

  /** `viewerDisconnected`: close and forget `v`'s connection, if there is one. */
  function Disconnect(l: Links, v: ViewerId): Links {
    if v in l.peers then Links(l.peers - {v}, l.closed + {l.peers[v]}) else l
  }

  /** `stopStream`: close every stored connection and empty the dictionary. */
  function TearDown(l: Links): Links {
    Links(map[], l.closed + l.peers.Values)
  }

  /** The effect cleanup: close every stored connection but keep the dictionary. */
  function CloseEvery(l: Links): Links {
    Links(l.peers, l.closed + l.peers.Values)
  }

  /** After `viewer-connected(v)` the dictionary holds `c` under `v` and every other entry as before. */
  lemma AttachStores(l: Links, v: ViewerId, c: ConnId)
    ensures var r := Attach(l, v, c);
      && r.peers.Keys == l.peers.Keys + {v}
      && r.peers[v] == c
      && (forall w :: w in l.peers && w != v ==> r.peers[w] == l.peers[w])
      && r.closed == l.closed
  {
  }

  /**
   * A second `viewer-connected` for the same id replaces the stored
   * connection without closing it: the earlier connection is then neither
   * reachable from the dictionary nor closed, and `stopStream` does not
   * close it either.
   */
  lemma AttachOrphansPrevious(l: Links, v: ViewerId, c: ConnId)
    requires Injective(l.peers)
    requires v in l.peers && l.peers[v] !in l.closed && l.peers[v] != c
    ensures var r := Attach(l, v, c);
      && l.peers[v] !in r.peers.Values
      && l.peers[v] !in r.closed
      && l.peers[v] !in TearDown(r).closed
  {
  }

  /** A fresh connection keeps the dictionary injective. */
  lemma AttachInjective(l: Links, v: ViewerId, c: ConnId)
    requires Injective(l.peers) && c !in l.peers.Values
    ensures Injective(Attach(l, v, c).peers)
  {
  }

  /** `viewerDisconnected(v)` closes exactly `v`'s connection and removes only `v`. */
  lemma DisconnectClosesOnly(l: Links, v: ViewerId)
    requires v in l.peers
    ensures var r := Disconnect(l, v);
      && r.peers.Keys == l.peers.Keys - {v}
      && (forall w :: w in r.peers ==> r.peers[w] == l.peers[w])
      && r.closed == l.closed + {l.peers[v]}
  {
  }

  /** `viewerDisconnected` for an id that is not stored changes nothing. */
  lemma DisconnectUnknown(l: Links, v: ViewerId)
    requires v !in l.peers
    ensures Disconnect(l, v) == l
  {
  }

  /** Handling `viewerDisconnected(v)` twice is the same as handling it once. */
  lemma DisconnectIdempotent(l: Links, v: ViewerId)
    ensures Disconnect(Disconnect(l, v), v) == Disconnect(l, v)
  {
  }

  /** `stopStream` closes every stored connection, leaves none stored, and a second call closes nothing more. */
  lemma TearDownCloses(l: Links)
    ensures TearDown(l).peers == map[]
    ensures forall v :: v in l.peers ==> l.peers[v] in TearDown(l).closed
    ensures TearDown(TearDown(l)) == TearDown(l)
  {
    assert TearDown(l).peers.Values == {};
  }

  /** A viewer that disconnects after the stream was stopped is a no-op. */
  lemma DisconnectAfterTearDown(l: Links, v: ViewerId)
    ensures Disconnect(TearDown(l), v) == TearDown(l)
  {
  }

  /** The cleanup closes every stored connection; when stopStream runs afterwards it closes nothing new. */
  lemma CloseEveryThenTearDown(l: Links)
    ensures forall v :: v in l.peers ==> l.peers[v] in CloseEvery(l).closed
    ensures TearDown(CloseEvery(l)).closed == TearDown(l).closed
  {
  }

  /** The tracks a new connection receives: all of the local stream's, or none without one. */
  function StreamTracks(localStream: Option<seq<TrackId>>): seq<TrackId> {
    match localStream
    case None => []
    case Some(ts) => ts
  }

  // ---------------------------------------------------------------------
  // The page itself
  // ---------------------------------------------------------------------

  /** What the page has done with one `RTCPeerConnection`. */
  datatype Conn = Conn(
    viewer: ViewerId,                // the id captured by its ICE callback
    tracks: seq<TrackId>,            // `addTrack` calls, in order
    local: Option<Sdp>,              // the offer set as local description
    remote: Option<Sdp>,             // the viewer's answer set as remote description
    candidates: seq<IceCandidate>)   // viewer candidates added, in order

  /** The state the broadcaster page keeps in React state and refs. */
  class Studio {
    /** `peerConnectionsRef.current`: viewer id to connection. */
    var peers: map<ViewerId, ConnId>
    /** Connections on which `close()` has been called. */
    var closed: set<ConnId>
    /** Every connection created so far; connection `c` is `conns[c]`. */
    var conns: seq<Conn>
    /** `localStreamRef.current`: the tracks of the camera/microphone stream, once acquired. */
    var localStream: Option<seq<TrackId>>
    /** Local tracks on which `stop()` has been called. */
    var stopped: set<TrackId>
    var pendingViewers: seq<ViewerId>
    var isPrivate: bool
    var isStreaming: bool
    var streamKey: string
    /** Every socket message emitted, oldest first. */
    var outbox: seq<Outgoing>
    /** The socket created by the effect is connected and its handlers are registered. */
    var listening: bool

    /** Every stored or closed connection exists, and each is stored under the viewer it was made for. */
    ghost predicate Valid()
      reads this`peers, this`closed, this`conns
    {
      && (forall v :: v in peers ==> peers[v] < |conns| && conns[peers[v]].viewer == v)
      && (forall c :: c in closed ==> c < |conns|)
    }

    /** No two viewers share a connection. */
    lemma ValidInjective()
      requires Valid()
      ensures Injective(peers)
    {
    }

    /** The bookkeeping part of the state, as a value. */
    ghost function Bookkeeping(): Links
      reads this`peers, this`closed
    {
      Links(peers, closed)
    }

    /** Mounting the page: the effect opens the socket and registers the handlers. */
    constructor ()
      ensures Valid() && listening
      ensures peers == map[] && closed == {} && conns == []
      ensures pendingViewers == [] && !isPrivate && !isStreaming && streamKey == ""
      ensures localStream == None && stopped == {} && outbox == []
    {
      peers, closed, conns := map[], {}, [];
      localStream, stopped := None, {};
      pendingViewers, isPrivate, isStreaming, streamKey := [], false, false, "";
      outbox, listening := [], true;
    }

    /** The "Private Stream" checkbox. */
    method SetPrivate(b: bool)
      modifies this`isPrivate
      ensures isPrivate == b
    {
      isPrivate := b;
    }

    /** Socket event `streamKey`. */
    method OnStreamKey(key: string)
      requires listening
      modifies this`streamKey
      ensures streamKey == key
    {
      streamKey := key;
    }

    /** Socket event `viewerRequest`: only a private stream queues the viewer for approval. */
    method OnViewerRequest(v: ViewerId)
      requires listening
      modifies this`pendingViewers
      ensures isPrivate ==> pendingViewers == old(pendingViewers) + [v]
      ensures !isPrivate ==> pendingViewers == old(pendingViewers)
    {
      if isPrivate {
        pendingViewers := pendingViewers + [v];
      }
    }

    /** Adds every track of `ts`, in order, to connection `c`, which has none yet. */
    method AddTracks(c: ConnId, ts: seq<TrackId>)
      requires c < |conns| && conns[c].tracks == []
      modifies this`conns
      ensures conns == old(conns)[c := old(conns)[c].(tracks := ts)]
    {
      for i := 0 to |ts|
        invariant conns == old(conns)[c := old(conns)[c].(tracks := ts[..i])]
      {
        assert ts[..i + 1] == ts[..i] + [ts[i]];
        conns := conns[c := conns[c].(tracks := conns[c].tracks + [ts[i]])];
      }
      assert ts[..|ts|] == ts;
    }

    /**
     * Socket event `viewer-connected`: create a connection for `v`, store it
     * (replacing any earlier one), add the local tracks, then create an
     * offer and set it as local description. `offer` is None when
     * createOffer fails; `localSet` says whether setLocalDescription succeeds.
     * The offer is emitted only when both succeed; the stored connection
     * stays either way.
     */
    method OnViewerConnected(v: ViewerId, offer: Option<Sdp>, localSet: bool)
      requires Valid() && listening
      modifies this`peers, this`conns, this`outbox
      ensures Valid()
      ensures old(|conns|) !in old(peers).Values && old(|conns|) !in closed
      ensures Bookkeeping() == Attach(old(Bookkeeping()), v, old(|conns|))
      ensures var sent := offer.Some? && localSet;
        conns == old(conns) + [Conn(v, StreamTracks(localStream), if sent then offer else None, None, [])]
      ensures offer.Some? && localSet ==> outbox == old(outbox) + [StreamerOffer(v, offer.value)]
      ensures !(offer.Some? && localSet) ==> outbox == old(outbox)
    {
      var c := |conns|;
      conns := conns + [Conn(v, [], None, None, [])];
      peers := peers[v := c];
      if localStream.Some? {
        AddTracks(c, localStream.value);
      }
      if offer.Some? && localSet {
        conns := conns[c := conns[c].(local := offer)];
        outbox := outbox + [StreamerOffer(v, offer.value)];
      }
    }

    /**
     * A connection's `onicecandidate` callback: a gathered candidate is sent
     * to the viewer the connection was created for; the end-of-candidates
     * event (no candidate) sends nothing.
     */
    method OnLocalIceCandidate(c: ConnId, candidate: Option<IceCandidate>)
      requires c < |conns| && c !in closed
      modifies this`outbox
      ensures candidate.Some? ==> outbox == old(outbox) + [StreamerIceCandidate(conns[c].viewer, candidate.value)]
      ensures candidate.None? ==> outbox == old(outbox)
    {
      if candidate.Some? {
        outbox := outbox + [StreamerIceCandidate(conns[c].viewer, candidate.value)];
      }
    }

    /**
     * Socket event `viewerAnswer`: set the answer as remote description on
     * `v`'s connection; `ok` says whether setRemoteDescription succeeds.
     * An unknown viewer changes nothing.
     */
    method OnViewerAnswer(v: ViewerId, answer: Sdp, ok: bool)
      requires Valid() && listening
      modifies this`conns
      ensures Valid()
      ensures v in peers && ok ==> conns == old(conns)[peers[v] := old(conns)[peers[v]].(remote := Some(answer))]
      ensures !(v in peers && ok) ==> conns == old(conns)
    {
      if v in peers && ok {
        var c := peers[v];
        conns := conns[c := conns[c].(remote := Some(answer))];
      }
    }

    /**
     * Socket event `viewerICECandidate`: add the candidate to `v`'s
     * connection; `ok` says whether addIceCandidate succeeds. An unknown
     * viewer changes nothing.
     */
    method OnViewerIceCandidate(v: ViewerId, candidate: IceCandidate, ok: bool)
      requires Valid() && listening
      modifies this`conns
      ensures Valid()
      ensures v in peers && ok ==>
        conns == old(conns)[peers[v] := old(conns)[peers[v]].(candidates := old(conns)[peers[v]].candidates + [candidate])]
      ensures !(v in peers && ok) ==> conns == old(conns)
    {
      if v in peers && ok {
        var c := peers[v];
        conns := conns[c := conns[c].(candidates := conns[c].candidates + [candidate])];
      }
    }

    /** Socket event `viewerDisconnected`: close and forget `v`'s connection. */
    method OnViewerDisconnected(v: ViewerId)
      requires Valid() && listening
      modifies this`peers, this`closed
      ensures Valid()
      ensures Bookkeeping() == Disconnect(old(Bookkeeping()), v)
    {
      if v in peers {
        closed := closed + {peers[v]};
        peers := peers - {v};
      }
    }

    /** Closes every connection stored in the dictionary (`Object.values(...).forEach(c => c.close())`). */
    method CloseStored()
      requires Valid()
      modifies this`closed
      ensures Valid()
      ensures closed == old(closed) + peers.Values
    {
      var rest := peers.Values;
      while rest != {}
        invariant rest <= peers.Values
        invariant closed == old(closed) + (peers.Values - rest)
        invariant Valid()
        decreases rest
      {
        var c :| c in rest;
        closed := closed + {c};
        rest := rest - {c};
      }
    }

    /** Stops every track of the local stream, if there is one. */
    method StopLocalTracks()
      modifies this`stopped
      ensures stopped == old(stopped) + Elements(StreamTracks(localStream))
    {
      if localStream.Some? {
        var ts := localStream.value;
        for i := 0 to |ts|
          invariant stopped == old(stopped) + Elements(ts[..i])
        {
          assert ts[..i + 1] == ts[..i] + [ts[i]];
          stopped := stopped + {ts[i]};
        }
        assert ts[..|ts|] == ts;
      }
    }

    /**
     * "Start Streaming": `acquired` holds the tracks getUserMedia returns,
     * or None when it fails, in which case nothing changes.
     */
    method StartStreaming(acquired: Option<seq<TrackId>>)
      modifies this`localStream, this`outbox, this`isStreaming
      ensures acquired.Some? ==>
        localStream == acquired && isStreaming
        && outbox == old(outbox) + [StartStream(isPrivate)]
      ensures acquired.None? ==>
        localStream == old(localStream) && isStreaming == old(isStreaming) && outbox == old(outbox)
    {
      if acquired.Some? {
        localStream := acquired;
        outbox := outbox + [StartStream(isPrivate)];
        isStreaming := true;
      }
    }

    /**
     * "End Stream": stop the local tracks, close every stored connection,
     * empty the dictionary, emit exactly one `endStream` and reset the
     * stream state. The local stream itself stays referenced.
     */
    method StopStreaming()
      requires Valid()
      modifies this`stopped, this`closed, this`peers, this`outbox, this`isStreaming,
        this`streamKey, this`pendingViewers
      ensures Valid()
      ensures Bookkeeping() == TearDown(old(Bookkeeping()))
      ensures stopped == old(stopped) + Elements(StreamTracks(localStream))
      ensures outbox == old(outbox) + [EndStream]
      ensures !isStreaming && streamKey == "" && pendingViewers == []
    {
      StopLocalTracks();
      CloseStored();
      peers := map[];
      outbox := outbox + [EndStream];
      isStreaming := false;
      streamKey := "";
      pendingViewers := [];
    }

    /** The "Approve" button: tell the server and drop every occurrence of `v` from the queue. */
    method Approve(v: ViewerId)
      modifies this`outbox, this`pendingViewers
      ensures outbox == old(outbox) + [ApproveViewer(v)]
      ensures pendingViewers == Without(old(pendingViewers), v)
    {
      outbox := outbox + [ApproveViewer(v)];
      pendingViewers := Without(pendingViewers, v);
    }

    /** The "Reject" button: tell the server and drop every occurrence of `v` from the queue. */
    method Reject(v: ViewerId)
      modifies this`outbox, this`pendingViewers
      ensures outbox == old(outbox) + [RejectViewer(v)]
      ensures pendingViewers == Without(old(pendingViewers), v)
    {
      outbox := outbox + [RejectViewer(v)];
      pendingViewers := Without(pendingViewers, v);
    }

    /**
     * The effect cleanup: disconnect the socket, close every stored
     * connection (the dictionary keeps them) and stop the local tracks.
     */
    method Cleanup()
      requires Valid() && listening
      modifies this`listening, this`closed, this`stopped
      ensures Valid() && !listening
      ensures Bookkeeping() == CloseEvery(old(Bookkeeping()))
      ensures stopped == old(stopped) + Elements(StreamTracks(localStream))
    {
      listening := false;
      CloseStored();
      StopLocalTracks();
    }
  }
}
