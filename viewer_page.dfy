/**
 * The viewer page: at most one current peer connection to the broadcaster,
 * a status line, and the chat, donation and like widgets fed by the socket
 * and by the user.
 */
module ViewerPage {
  import opened Rtc

  /** The messages the viewer page emits on its socket. */
  datatype Outgoing =
    | JoinStream(streamId: string)
    | Watcher
    | Answer(peerId: string, answer: Sdp)
    | Candidate(peerId: string, candidate: IceCandidate)

  /** A `donation` event's payload; the amount is only displayed, never computed with. */
  datatype Donation = Donation(user: string, amount: real)

  /** One chat line. */
  datatype ChatMessage = ChatMessage(user: string, message: string)

  // ---------------------------------------------------------------------
  // Status line: `state.charAt(0).toUpperCase() + state.slice(1)`
  // ---------------------------------------------------------------------

  /** `toUpperCase` on one character, for the ASCII letters. */
  function UpperAscii(c: char): (u: char)
    ensures 'a' <= c <= 'z' ==> 'A' <= u <= 'Z' && u as int == c as int - 32
    ensures !('a' <= c <= 'z') ==> u == c
  {
    if 'a' <= c <= 'z' then (c as int - 32) as char else c
  }

  /** The status shown for an ICE connection state. */
  function Capitalize(state: string): (r: string)
    ensures |r| == |state|
    ensures state != [] ==> r[0] == UpperAscii(state[0])
    ensures forall i :: 1 <= i < |state| ==> r[i] == state[i]
    ensures state != [] ==> r[1..] == state[1..]
  {
    if state == [] then [] else [UpperAscii(state[0])] + state[1..]
  }

  /** Capitalising a status again changes nothing. */
  lemma CapitalizeIdempotent(state: string)
    ensures Capitalize(Capitalize(state)) == Capitalize(state)
  {
  }

  /** The values of `RTCPeerConnection.iceConnectionState`. */
  datatype IceState = New | Checking | Connected | Completed | Failed | Disconnected | Closed {
    function Name(): string {
      match this
      case New => "new"
      case Checking => "checking"
      case Connected => "connected"
      case Completed => "completed"
      case Failed => "failed"
      case Disconnected => "disconnected"
      case Closed => "closed"
    }
  }

  /** Each ICE state is shown as its name with a capital first letter, and no two states look alike. */
  lemma IceStatusShown(s: IceState, t: IceState)
    ensures s == Connected ==> Capitalize(s.Name()) == "Connected"
    ensures s == Failed ==> Capitalize(s.Name()) == "Failed"
    ensures s == Disconnected ==> Capitalize(s.Name()) == "Disconnected"
    ensures s != t ==> Capitalize(s.Name()) != Capitalize(t.Name())
  {
  }

  // ---------------------------------------------------------------------
  // Chat input: `if (!msg.trim()) return;`
  // ---------------------------------------------------------------------

  /** The characters `String.prototype.trim` removes: ECMAScript WhiteSpace and LineTerminator. */
  predicate IsJsSpace(c: char) {
    || c == '\t' || c == '\n' || c == '\U{B}' || c == '\U{C}' || c == '\r' || c == ' '
    || c == '\U{A0}' || c == '\U{1680}' || ('\U{2000}' <= c <= '\U{200A}')
    || c == '\U{2028}' || c == '\U{2029}' || c == '\U{202F}' || c == '\U{205F}'
    || c == '\U{3000}' || c == '\U{FEFF}'
  }

  /** `s` with its leading white space removed. */
  function TrimStart(s: string): (r: string)
    ensures |r| <= |s| && r == s[|s| - |r|..]
    ensures forall i :: 0 <= i < |s| - |r| ==> IsJsSpace(s[i])
    ensures r != [] ==> !IsJsSpace(r[0])
  {
    if s != [] && IsJsSpace(s[0]) then TrimStart(s[1..]) else s
  }

  /** `s` with its trailing white space removed. */
  function TrimEnd(s: string): (r: string)
    ensures |r| <= |s| && r == s[..|r|]
    ensures forall i :: |r| <= i < |s| ==> IsJsSpace(s[i])
    ensures r != [] ==> !IsJsSpace(r[|r| - 1])
  {
    if s != [] && IsJsSpace(s[|s| - 1]) then TrimEnd(s[..|s| - 1]) else s
  }

  /** `String.prototype.trim`. */
  function Trim(s: string): string {
    TrimEnd(TrimStart(s))
  }

  /** `!msg.trim()`: the trimmed text is the empty, falsy string. */
  predicate IsBlank(s: string) {
    Trim(s) == ""
  }

  /** A message is blank exactly when every character of it is white space. */
  lemma BlankIffAllSpace(s: string)
    ensures IsBlank(s) <==> forall i :: 0 <= i < |s| ==> IsJsSpace(s[i])
  {
  }

  /** Trimming keeps the words: a message with a visible character is never blank. */
  lemma VisibleIsNotBlank(s: string, i: nat)
    requires i < |s| && !IsJsSpace(s[i])
    ensures !IsBlank(s)
  {
    BlankIffAllSpace(s);
  }

  // ---------------------------------------------------------------------
  // Donation alerts: appended on `donation`, `d.slice(1)` every 5 seconds
  // ---------------------------------------------------------------------

  /** One timer tick: `d.slice(1)`, which leaves an empty queue empty. */
  function Shift(q: seq<Donation>): seq<Donation> {
    if q == [] then [] else q[1..]
  }

  /** The queue after `n` timer ticks. */
  function ShiftN(q: seq<Donation>, n: nat): seq<Donation> {
    if n == 0 then q else ShiftN(Shift(q), n - 1)
  }

  /** Each tick removes exactly the head: after `n` ticks the first `n` alerts are gone, or all of them. */
  lemma {:induction false} ShiftNDrops(q: seq<Donation>, n: nat)
    ensures ShiftN(q, n) == if n <= |q| then q[n..] else []
  {
    if n > 0 {
      ShiftNDrops(Shift(q), n - 1);
      if q != [] && n <= |q| {
        assert q[1..][n - 1..] == q[n..];
      }
    }
  }

  /** Any number of ticks on an empty queue leave it empty: the case of ShiftNDrops past the end. */
  lemma ShiftNEmpty(n: nat)
    ensures ShiftN([], n) == []
  {
    ShiftNDrops([], n);
  }

  /** Ticks and arrivals commute while the queue is not empty: the queue is first in, first out. */
  lemma ShiftAppend(q: seq<Donation>, d: Donation)
    requires q != []
    ensures Shift(q + [d]) == Shift(q) + [d]
  {
    assert (q + [d])[1..] == q[1..] + [d];
  }

  /**
   * A donation that arrives behind `|q|` earlier ones is shown at the head
   * after exactly `|q|` ticks, followed by the ones that came after it.
   */
  lemma {:induction false} DonationReachesHead(q: seq<Donation>, d: Donation, later: seq<Donation>)
    ensures ShiftN(q + [d] + later, |q|) == [d] + later
  {
    ShiftNDrops(q + [d] + later, |q|);
    assert (q + [d] + later)[|q|..] == [d] + later;
  }

  // ---------------------------------------------------------------------
  // The current peer connection, as a value
  // ---------------------------------------------------------------------

  /** `pcRef.current`, the connections closed so far, and how many were created. */
  datatype PeerSlot = PeerSlot(current: Option<ConnId>, closed: set<ConnId>, created: nat)

  /** Every connection other than the current one has been closed. */
  ghost predicate SlotValid(s: PeerSlot) {
    && (s.current.Some? ==> s.current.value < s.created)
    && (forall c :: c in s.closed ==> c < s.created)
    && (forall c: ConnId :: c < s.created && c !in s.closed ==> s.current == Some(c))
  }

  /** The connections that were created and not closed. */
  ghost function Open(s: PeerSlot): set<ConnId> {
    set c: ConnId | c < s.created && c !in s.closed
  }

  /** `pcRef.current?.close()`. */
  function Release(s: PeerSlot): PeerSlot {
    match s.current
    case None => s
    case Some(c) => PeerSlot(s.current, s.closed + {c}, s.created)
  }

  /** `handleOffer`: close the previous connection, then install a new one. */
  function Replace(s: PeerSlot): PeerSlot {
    PeerSlot(Some(s.created), Release(s).closed, s.created + 1)
  }

  /** In a valid slot at most one connection is open, and it is the current one. */
  lemma AtMostOneOpen(s: PeerSlot)
    requires SlotValid(s)
    ensures s.current.None? ==> Open(s) == {}
    ensures s.current.Some? ==> Open(s) <= {s.current.value}
    ensures |Open(s)| <= 1
  {
    if s.current.Some? {
      assert Open(s) <= {s.current.value};
      SubsetSize(Open(s), {s.current.value});
    } else {
      assert Open(s) == {};
    }
  }

  lemma {:induction false} SubsetSize(a: set<ConnId>, b: set<ConnId>)
    requires a <= b
    ensures |a| <= |b|
  {
    if a != {} {
      var x :| x in a;
      SubsetSize(a - {x}, b - {x});
    }
  }

  /** After an offer exactly one connection is open: the new, current one. */
  lemma ReplaceOpensOnlyNew(s: PeerSlot)
    requires SlotValid(s)
    ensures SlotValid(Replace(s))
    ensures Replace(s).current == Some(s.created)
    ensures Open(Replace(s)) == {s.created}
  {

  }

  /** The effect cleanup leaves no connection open, and releasing again changes nothing. */
  lemma ReleaseClosesAll(s: PeerSlot)
    requires SlotValid(s)
    ensures SlotValid(Release(s))
    ensures Open(Release(s)) == {}
    ensures Release(Release(s)) == Release(s)
  {

  }

  // ---------------------------------------------------------------------
  // The page itself
  // ---------------------------------------------------------------------

  /** What the page has done with one `RTCPeerConnection`. */
  datatype Conn = Conn(
    offerer: string,                 // the broadcaster id captured by its ICE callback
    remote: Option<Sdp>,             // the offer set as remote description
    local: Option<Sdp>,              // the answer set as local description
    candidates: seq<IceCandidate>)   // broadcaster candidates added, in order

  /** The state the viewer page keeps in React state and refs. */
  class Viewer {
    /** The route parameter; the socket effect does nothing without one. */
    const streamId: string
    /** The socket exists, is not disconnected, and its handlers are registered. */
    var listening: bool
    /** `pcRef.current`. */
    var current: Option<ConnId>
    /** Connections on which `close()` has been called. */
    var closed: set<ConnId>
    /** Every connection created so far; connection `c` is `conns[c]`. */
    var conns: seq<Conn>
    var status: string
    var hasStreamAccess: bool
    var viewerCount: int
    var likes: nat
    var donations: seq<Donation>
    var chat: seq<ChatMessage>
    /** The chat input box (`msg`). */
    var draft: string
    /** Every socket message emitted, oldest first. */
    var outbox: seq<Outgoing>

    /** Every connection other than the current one is closed. */
    ghost predicate Valid()
      reads this`current, this`closed, this`conns
    {
      SlotValid(Slot())
    }

    /** The connection bookkeeping, as a value. */
    ghost function Slot(): PeerSlot
      reads this`current, this`closed, this`conns
    {
      PeerSlot(current, closed, |conns|)
    }

    /** Mounting the page: the socket is created only when there is a stream id. */
    constructor (streamId: string)
      ensures Valid() && this.streamId == streamId
      ensures listening == (streamId != "")
      ensures current == None && closed == {} && conns == []
      ensures status == "Connecting..." && !hasStreamAccess && viewerCount == 0 && likes == 0
      ensures donations == [] && chat == [] && draft == "" && outbox == []
    {
      this.streamId := streamId;
      listening := streamId != "";
      current, closed, conns := None, {}, [];
      status, hasStreamAccess, viewerCount, likes := "Connecting...", false, 0, 0;
      donations, chat, draft, outbox := [], [], "", [];
    }

    /** Socket event `connect`: ask to join the stream. */
    method OnConnect()
      requires listening
      modifies this`outbox
      ensures outbox == old(outbox) + [JoinStream(streamId)]
    {
      outbox := outbox + [JoinStream(streamId)];
    }

    /** The acknowledgement of `joinStream`. */
    method OnJoinAck(success: bool)
      requires listening
      modifies this`hasStreamAccess, this`outbox, this`status
      ensures success ==>
        hasStreamAccess && outbox == old(outbox) + [Watcher]
        && status == "Negotiating connection..."
      ensures !success ==>
        hasStreamAccess == old(hasStreamAccess) && outbox == old(outbox)
        && status == "Access denied"
    {
      if success {
        hasStreamAccess := true;
        outbox := outbox + [Watcher];
        status := "Negotiating connection...";
      } else {
        status := "Access denied";
      }
    }

    /**
     * Socket event `offer` from broadcaster `id`: close the current
     * connection, install a new one, then set the offer as remote
     * description, create an answer and set it as local description.
     * `remoteSet` and `localSet` say whether the two set calls succeed;
     * `answer` is None when createAnswer fails. The answer is emitted only
     * when all three steps succeed; any failure shows "Connection failed".
     */
    method OnOffer(id: string, description: Sdp, remoteSet: bool, answer: Option<Sdp>, localSet: bool)
      requires Valid() && listening
      modifies this`current, this`closed, this`conns, this`outbox, this`status
      ensures Valid()
      ensures Slot() == Replace(old(Slot()))
      ensures var answered := remoteSet && answer.Some? && localSet;
        conns == old(conns) + [Conn(id, if remoteSet then Some(description) else None,
                                    if answered then answer else None, [])]
      ensures remoteSet && answer.Some? && localSet ==>
        outbox == old(outbox) + [Answer(id, answer.value)] && status == old(status)
      ensures !(remoteSet && answer.Some? && localSet) ==>
        outbox == old(outbox) && status == "Connection failed"
    {
      ReplaceOpensOnlyNew(Slot());
      if current.Some? {
        closed := closed + {current.value};
      }
      var c := |conns|;
      conns := conns + [Conn(id, None, None, [])];
      current := Some(c);
      if !remoteSet {
        status := "Connection failed";
        return;
      }
      conns := conns[c := conns[c].(remote := Some(description))];
      if answer.None? || !localSet {
        status := "Connection failed";
        return;
      }
      conns := conns[c := conns[c].(local := answer)];
      outbox := outbox + [Answer(id, answer.value)];
    }

    /**
     * A connection's `onicecandidate` callback: a gathered candidate is sent
     * to the broadcaster whose offer created the connection.
     */
    method OnLocalIceCandidate(c: ConnId, candidate: Option<IceCandidate>)
      requires c < |conns| && c !in closed
      modifies this`outbox
      ensures candidate.Some? ==> outbox == old(outbox) + [Candidate(conns[c].offerer, candidate.value)]
      ensures candidate.None? ==> outbox == old(outbox)
    {
      if candidate.Some? {
        outbox := outbox + [Candidate(conns[c].offerer, candidate.value)];
      }
    }

    /** A connection's `oniceconnectionstatechange` callback: show the state, capitalised. */
    method OnIceStateChange(c: ConnId, state: IceState)
      requires c < |conns| && c !in closed
      modifies this`status
      ensures status == Capitalize(state.Name())
    {
      status := Capitalize(state.Name());
    }

    /**
     * Socket event `candidate`: add it to the current connection; `ok` says
     * whether addIceCandidate succeeds. Without a current connection the
     * candidate is dropped, not kept for later.
     */
    method OnCandidate(id: string, candidate: IceCandidate, ok: bool)
      requires Valid() && listening
      modifies this`conns
      ensures Valid()
      ensures current.Some? && ok ==>
        var c := current.value;
        conns == old(conns)[c := old(conns)[c].(candidates := old(conns)[c].candidates + [candidate])]
      ensures !(current.Some? && ok) ==> conns == old(conns)
    {
      if current.Some? && ok {
        var c := current.value;
        conns := conns[c := conns[c].(candidates := conns[c].candidates + [candidate])];
      }
    }

    /** Socket event `viewerUpdate`: the count is whatever the server says. */
    method OnViewerUpdate(count: int)
      requires listening
      modifies this`viewerCount
      ensures viewerCount == count
    {
      viewerCount := count;
    }

    /** Socket event `donation`: the alert joins the back of the queue. */
    method OnDonation(d: Donation)
      requires listening
      modifies this`donations
      ensures donations == old(donations) + [d]
    {
      donations := donations + [d];
    }

    /** Socket event `connect_error`. */
    method OnConnectError()
      requires listening
      modifies this`status
      ensures status == "Connection failed"
    {
      status := "Connection failed";
    }

    /** The video element's `onError`. */
    method OnVideoError()
      modifies this`status
      ensures status == "Video playback error"
    {
      status := "Video playback error";
    }

    /** The five-second timer: the oldest alert goes away. */
    method DonationTick()
      modifies this`donations
      ensures donations == Shift(old(donations))
    {
      if donations != [] {
        donations := donations[1..];
      }
    }

    /** The like button. */
    method Like()
      modifies this`likes
      ensures likes == old(likes) + 1
    {
      likes := likes + 1;
    }

    /** Typing in the chat box. */
    method EditDraft(text: string)
      modifies this`draft
      ensures draft == text
    {
      draft := text;
    }

    /**
     * The send button: a blank draft changes nothing; otherwise the draft,
     * untrimmed, is appended as a line from "Guest" and the box is cleared.
     */
    method SendChat()
      modifies this`chat, this`draft
      ensures IsBlank(old(draft)) ==> chat == old(chat) && draft == old(draft)
      ensures !IsBlank(old(draft)) ==>
        chat == old(chat) + [ChatMessage("Guest", old(draft))] && draft == ""
    {
      if IsBlank(draft) {
        return;
      }
      chat := chat + [ChatMessage("Guest", draft)];
      draft := "";
    }

    /** The effect cleanup: disconnect the socket and close the current connection. */
    method Cleanup()
      requires Valid() && listening
      modifies this`listening, this`closed
      ensures Valid() && !listening
      ensures Slot() == Release(old(Slot()))
      ensures Open(Slot()) == {}
    {
      ReleaseClosesAll(Slot());
      listening := false;
      if current.Some? {
        closed := closed + {current.value};
      }
    }
  }
}
