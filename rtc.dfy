/**
 * Opaque stand-ins for the browser objects both stream pages talk to.
 * A peer connection is known only by an id that says in which order it was
 * created; session descriptions, ICE candidates and media tracks are carried
 * around but never looked into.
 */
module Rtc {

  datatype Option<+T> = None | Some(value: T)

  /** An `RTCPeerConnection`, numbered in creation order. */
  type ConnId = nat

  /** The SDP text of an offer or an answer. */
  type Sdp = string

  /** One ICE candidate, as relayed over the socket. */
  type IceCandidate = string

  /** One `MediaStreamTrack` of the local camera/microphone stream. */
  type TrackId = nat

  /** The set of elements of a sequence. */
  function Elements<T>(s: seq<T>): set<T> {
    set x | x in s
  }
}
