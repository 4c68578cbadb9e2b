/**
 * The call hook (`useCallService`): a call state machine driven by local
 * actions and by messages from the signalling service, emitting signalling
 * messages as it goes.
 *
 * Each transition is first a pure function from the hook's state (`CallView`)
 * to a `Step`: the new state and the messages emitted, in order. The class
 * `CallService` holds the state as fields over a `SignalingService` and each
 * of its methods is proved to perform its step. The media layer (camera,
 * microphone, peer connection) is an oracle: the outcome of acquiring media
 * and creating an offer, and the answer to a received offer, are parameters.
 */
module CallService {
  import opened Wrappers
  import Signaling

  type SignalingMessage = Signaling.SignalingMessage

  datatype CallState = Idle | Connecting | Connected | Ended

  /** The `currentCall` record; name and type are absent when an incoming request carries none. */
  datatype CurrentCall = CurrentCall(contactId: string, contactName: Option<string>, callType: Option<Signaling.CallType>, isIncoming: bool)

  /** The hook's state, with the media layer's track switches and the pending return-to-idle timers. */
  datatype CallView = CallView(
    callState: CallState,
    currentCall: Option<CurrentCall>,
    localStream: bool,
    remoteStream: bool,
    isMuted: bool,
    isVideoEnabled: bool,
    audioTrackEnabled: bool,
    videoTrackEnabled: bool,
    idleTimers: nat)

  /** A transition's result: the new state and the signalling messages it sent. */
  datatype Step = Step(state: CallView, emitted: seq<SignalingMessage>)

  /** What acquiring local media and then creating an offer gave. */
  datatype MediaOutcome = MediaDenied | OfferFailed | OfferCreated(sdp: string)

  /** The peer connection's `connectionState`. */
  datatype PeerConnectionState = PcNew | PcConnecting | PcConnected | PcDisconnected | PcFailed | PcClosed

  /** The handle under which the hook subscribes to the signalling service. */
  const CallHandle: nat := 0

  const InitialView := CallView(Idle, None, false, false, false, true, true, true, 0)

  predicate IsVideoCall(call: Option<CurrentCall>)
  {
    call.Some? && call.value.callType == Some(Signaling.Video)
  }

  function Message(kind: Signaling.SignalKind, sender: string, recipient: string, payload: Signaling.Payload): SignalingMessage
  {
    Signaling.SignalingMessage(kind, sender, recipient, payload)
  }

  /**
   * `startCall`: the call becomes the current, outgoing one, the state
   * `connecting`, and one call request carrying the caller's name and the
   * call type goes to the contact.
   */
  function StartCallStep(s: CallView, userId: string, userName: string, contactId: string, contactName: string, callType: Signaling.CallType): (r: Step)
    ensures r.state == s.(currentCall := Some(CurrentCall(contactId, Some(contactName), Some(callType), false)), callState := Connecting)
    ensures |r.emitted| == 1 && r.emitted[0].kind == Signaling.CallRequest
    ensures r.emitted[0].sender == userId && r.emitted[0].recipient == contactId
    ensures r.emitted[0].payload.userName == Some(userName) && r.emitted[0].payload.callType == Some(callType)
  {
    Step(s.(currentCall := Some(CurrentCall(contactId, Some(contactName), Some(callType), false)), callState := Connecting),
         [Message(Signaling.CallRequest, userId, contactId, Signaling.Payload(Some(userName), Some(callType), None, None))])
  }

  /** `acceptCall`: without a current call nothing happens; otherwise the state becomes `connecting` and the caller is told. */
  function AcceptStep(s: CallView, userId: string, userName: string): (r: Step)
    ensures s.currentCall.None? ==> r == Step(s, [])
    ensures s.currentCall.Some? ==>
      r.state == s.(callState := Connecting) && |r.emitted| == 1 &&
      r.emitted[0].kind == Signaling.CallAccepted && r.emitted[0].sender == userId && r.emitted[0].recipient == s.currentCall.value.contactId &&
      r.emitted[0].payload.userName == Some(userName)
  {
    match s.currentCall
    case None => Step(s, [])
    case Some(call) =>
      Step(s.(callState := Connecting), [Message(Signaling.CallAccepted, userId, call.contactId, Signaling.Payload(Some(userName), None, None, None))])
  }

  /** `rejectCall`: without a current call nothing happens; otherwise the caller is told, the call dropped and the state `idle`. */
  function RejectStep(s: CallView, userId: string): (r: Step)
    ensures s.currentCall.None? ==> r == Step(s, [])
    ensures s.currentCall.Some? ==>
      r.state == s.(currentCall := None, callState := Idle) && |r.emitted| == 1 &&
      r.emitted[0].kind == Signaling.CallRejected && r.emitted[0].sender == userId && r.emitted[0].recipient == s.currentCall.value.contactId
  {
    match s.currentCall
    case None => Step(s, [])
    case Some(call) =>
      Step(s.(currentCall := None, callState := Idle), [Message(Signaling.CallRejected, userId, call.contactId, Signaling.EmptyPayload)])
  }

  /**
   * `endCall`: without a current call nothing happens; otherwise the contact
   * is told, both streams and the call are dropped, the state becomes
   * `ended`, and a timer to return to `idle` is started.
   */
  function EndStep(s: CallView, userId: string): (r: Step)
    ensures s.currentCall.None? ==> r == Step(s, [])
    ensures s.currentCall.Some? ==>
      r.state == s.(localStream := false, remoteStream := false, currentCall := None, callState := Ended, idleTimers := s.idleTimers + 1) &&
      |r.emitted| == 1 && r.emitted[0].kind == Signaling.CallEnded && r.emitted[0].sender == userId && r.emitted[0].recipient == s.currentCall.value.contactId
  {
    match s.currentCall
    case None => Step(s, [])
    case Some(call) =>
      Step(s.(localStream := false, remoteStream := false, currentCall := None, callState := Ended, idleTimers := s.idleTimers + 1),
           [Message(Signaling.CallEnded, userId, call.contactId, Signaling.EmptyPayload)])
  }

  /** Ending a call that has just ended changes nothing and sends nothing. */
  lemma EndTwice(s: CallView, userId: string)
    ensures EndStep(EndStep(s, userId).state, userId) == Step(EndStep(s, userId).state, [])
  {
  }

  /**
   * `startWebRTCConnection`: once local media is acquired it is the local
   * stream (its tracks on) and video is on exactly when asked for; a created
   * offer goes to the recipient, while a failure at either stage ends the call.
   */
  function WebRTCStep(s: CallView, userId: string, recipientId: string, video: bool, media: MediaOutcome): (r: Step)
    ensures media.MediaDenied? ==> r == EndStep(s, userId)
    ensures media.OfferFailed? ==> r == EndStep(s.(localStream := true, isVideoEnabled := video, audioTrackEnabled := true, videoTrackEnabled := true), userId)
    ensures media.OfferCreated? ==>
      r.state == s.(localStream := true, isVideoEnabled := video, audioTrackEnabled := true, videoTrackEnabled := true) &&
      |r.emitted| == 1 && r.emitted[0].kind == Signaling.Offer && r.emitted[0].sender == userId && r.emitted[0].recipient == recipientId &&
      r.emitted[0].payload.sdp == Some(media.sdp) && r.emitted[0].payload.sdpType == Some("offer")
  {
    var withMedia := s.(localStream := true, isVideoEnabled := video, audioTrackEnabled := true, videoTrackEnabled := true);
    match media
    case MediaDenied => EndStep(s, userId)
    case OfferFailed => EndStep(withMedia, userId)
    case OfferCreated(sdp) =>
      Step(withMedia, [Message(Signaling.Offer, userId, recipientId, Signaling.Payload(None, None, Some(sdp), Some("offer")))])
  }

  /**
   * `handleSignalingMessage`, run against the current state: a call request
   * becomes the current, incoming call (replacing any other, state
   * unchanged); an acceptance starts the media connection towards its sender,
   * with video exactly when the current call is a video call; a rejection or
   * an end ends the call; an offer whose answer the media layer produces is
   * answered to its sender; answers and candidates change nothing here.
   */
  function SignalStep(s: CallView, userId: string, m: SignalingMessage, media: MediaOutcome, answer: Option<string>): (r: Step)
    ensures m.kind == Signaling.CallRequest ==>
      r == Step(s.(currentCall := Some(CurrentCall(m.sender, m.payload.userName, m.payload.callType, true))), [])
    ensures m.kind == Signaling.CallAccepted ==> r == WebRTCStep(s, userId, m.sender, IsVideoCall(s.currentCall), media)
    ensures m.kind == Signaling.CallRejected || m.kind == Signaling.CallEnded ==> r == EndStep(s, userId)
    ensures m.kind == Signaling.Offer ==> r.state == s && |r.emitted| == (if answer.Some? then 1 else 0)
    ensures m.kind == Signaling.Offer && answer.Some? ==>
      r.emitted[0].kind == Signaling.Answer && r.emitted[0].sender == userId && r.emitted[0].recipient == m.sender &&
      r.emitted[0].payload.sdp == answer
    ensures m.kind == Signaling.Answer || m.kind == Signaling.IceCandidate ==> r == Step(s, [])
  {
    match m.kind
    case CallRequest => Step(s.(currentCall := Some(CurrentCall(m.sender, m.payload.userName, m.payload.callType, true))), [])
    case CallAccepted => WebRTCStep(s, userId, m.sender, IsVideoCall(s.currentCall), media)
    case CallRejected => EndStep(s, userId)
    case CallEnded => EndStep(s, userId)
    case Offer =>
      (match answer
       case Some(sdp) => Step(s, [Message(Signaling.Answer, userId, m.sender, Signaling.Payload(None, None, Some(sdp), Some("answer")))])
       case None => Step(s, []))
    case Answer => Step(s, [])
    case IceCandidate => Step(s, [])
  }

  /** The media-state callback: `connected` sets the state; `disconnected`, `failed` and `closed` end the call; the rest change nothing. */
  function MediaStep(s: CallView, userId: string, pc: PeerConnectionState): (r: Step)
    ensures pc == PcConnected ==> r == Step(s.(callState := Connected), [])
    ensures pc == PcDisconnected || pc == PcFailed || pc == PcClosed ==> r == EndStep(s, userId)
    ensures pc == PcNew || pc == PcConnecting ==> r == Step(s, [])
  {
    match pc
    case PcConnected => Step(s.(callState := Connected), [])
    case PcDisconnected => EndStep(s, userId)
    case PcFailed => EndStep(s, userId)
    case PcClosed => EndStep(s, userId)
    case _ => Step(s, [])
  }

  /** `toggleMute`: the flag flips, and while there is a local stream its audio is on exactly when not muted. */
  function ToggleMuteView(s: CallView): (r: CallView)
    ensures r.isMuted == !s.isMuted
    ensures s.localStream ==> r.audioTrackEnabled == !r.isMuted
    ensures !s.localStream ==> r.audioTrackEnabled == s.audioTrackEnabled
    ensures r.(isMuted := s.isMuted, audioTrackEnabled := s.audioTrackEnabled) == s
  {
    var muted := !s.isMuted;
    s.(isMuted := muted, audioTrackEnabled := if s.localStream then !muted else s.audioTrackEnabled)
  }

  /** `toggleVideo`: only during a video call, the flag flips, and while there is a local stream its video follows the flag. */
  function ToggleVideoView(s: CallView): (r: CallView)
    ensures !IsVideoCall(s.currentCall) ==> r == s
    ensures IsVideoCall(s.currentCall) ==> r.isVideoEnabled == !s.isVideoEnabled
    ensures IsVideoCall(s.currentCall) && s.localStream ==> r.videoTrackEnabled == r.isVideoEnabled
    ensures r.(isVideoEnabled := s.isVideoEnabled, videoTrackEnabled := s.videoTrackEnabled) == s
  {
    if !IsVideoCall(s.currentCall) then s
    else
      var enabled := !s.isVideoEnabled;
      s.(isVideoEnabled := enabled, videoTrackEnabled := if s.localStream then enabled else s.videoTrackEnabled)
  }

  /** Muting twice restores the state. */
  lemma ToggleMuteTwice(s: CallView)
    requires s.localStream ==> s.audioTrackEnabled == !s.isMuted
    ensures ToggleMuteView(ToggleMuteView(s)) == s
  {
  }

  /**
   * The outgoing handshake against the simulated peer: the reply to the call
   * request, handled, sends an offer to the contact with video exactly for a
   * video call; the reply to that offer, handled, changes nothing; and a
   * connected peer connection then leaves the call connected.
   */
  lemma OutgoingHandshake(s: CallView, userId: string, userName: string, contactId: string, contactName: string, callType: Signaling.CallType, sdp: string)
    ensures var started := StartCallStep(s, userId, userName, contactId, contactName, callType);
      var accepted := Signaling.SimulatedReply(started.emitted[0]);
      accepted.Some? && accepted.value.kind == Signaling.CallAccepted && accepted.value.sender == contactId &&
      var offered := SignalStep(started.state, userId, accepted.value, OfferCreated(sdp), None);
      |offered.emitted| == 1 && offered.emitted[0].recipient == contactId &&
      offered.state.isVideoEnabled == (callType == Signaling.Video) &&
      var answered := Signaling.SimulatedReply(offered.emitted[0]);
      answered.Some? && SignalStep(offered.state, userId, answered.value, MediaDenied, None) == Step(offered.state, []) &&
      MediaStep(offered.state, userId, PcConnected).state.callState == Connected &&
      MediaStep(offered.state, userId, PcConnected).state.currentCall == Some(CurrentCall(contactId, Some(contactName), Some(callType), false))
  {
  }

  class CallService {
    const userId: string
    const userName: string
    /** The service held in `signalingServiceRef`, created by the mount effect. */
    const signaling: Signaling.SignalingService

    var callState: CallState
    var currentCall: Option<CurrentCall>
    var localStream: bool
    var remoteStream: bool
    var isMuted: bool
    var isVideoEnabled: bool
    /** Whether the local stream's audio tracks are enabled. */
    var audioTrackEnabled: bool
    /** Whether the local stream's video tracks are enabled. */
    var videoTrackEnabled: bool
    /** Return-to-idle timers started by `endCall` that have not fired. */
    var idleTimers: nat

    function View(): CallView
      reads this
    {
      CallView(callState, currentCall, localStream, remoteStream, isMuted, isVideoEnabled, audioTrackEnabled, videoTrackEnabled, idleTimers)
    }

    /** The hook is the signalling service's message subscriber. */
    ghost predicate Valid()
      reads signaling`sent, signaling`pending, signaling`fired, signaling`onMessage
    {
      signaling.Valid() && signaling.onMessage == Some(CallHandle)
    }

    /** The mount effect: the signalling service is created, subscribed to and connected. */
    constructor (userId: string, userName: string)
      ensures Valid() && fresh(signaling)
      ensures this.userId == userId && this.userName == userName
      ensures View() == InitialView
      ensures signaling.sent == [] && signaling.pending == [] && signaling.delivered == []
      ensures signaling.pendingConnects == 1 && signaling.stateNotices == [] && signaling.onConnectionStateChange == None
    {
      var sig := new Signaling.SignalingService();
      sig.OnMessage(CallHandle);
      sig.Connect(userId);
      this.userId := userId;
      this.userName := userName;
      signaling := sig;
      callState := Idle;
      currentCall := None;
      localStream := false;
      remoteStream := false;
      isMuted := false;
      isVideoEnabled := true;
      audioTrackEnabled := true;
      videoTrackEnabled := true;
      idleTimers := 0;
    }

    method SetView(v: CallView)
      modifies this
      ensures View() == v
    {
      callState := v.callState;
      currentCall := v.currentCall;
      localStream := v.localStream;
      remoteStream := v.remoteStream;
      isMuted := v.isMuted;
      isVideoEnabled := v.isVideoEnabled;
      audioTrackEnabled := v.audioTrackEnabled;
      videoTrackEnabled := v.videoTrackEnabled;
      idleTimers := v.idleTimers;
    }

    /** Hands a step's messages, at most one, to the signalling service. */
    method Emit(msgs: seq<SignalingMessage>)
      requires Valid() && |msgs| <= 1
      modifies signaling`sent, signaling`pending
      ensures Valid()
      ensures signaling.sent == old(signaling.sent) + msgs
      ensures signaling.pending == old(signaling.pending) + Signaling.Replies(msgs)
    {
      if |msgs| == 1 {
        assert msgs == [msgs[0]];
        signaling.SendMessage(msgs[0]);
      }
    }

    /** Performs step `r`. */
    method Perform(r: Step)
      requires Valid() && |r.emitted| <= 1
      modifies this, signaling`sent, signaling`pending
      ensures Valid()
      ensures View() == r.state
      ensures signaling.sent == old(signaling.sent) + r.emitted
      ensures signaling.pending == old(signaling.pending) + Signaling.Replies(r.emitted)
    {
      Emit(r.emitted);
      SetView(r.state);
    }

    method StartCall(contactId: string, contactName: string, callType: Signaling.CallType)
      requires Valid()
      modifies this, signaling`sent, signaling`pending
      ensures Valid()
      ensures var r := StartCallStep(old(View()), userId, userName, contactId, contactName, callType);
        View() == r.state && signaling.sent == old(signaling.sent) + r.emitted &&
        signaling.pending == old(signaling.pending) + Signaling.Replies(r.emitted)
    {
      Perform(StartCallStep(View(), userId, userName, contactId, contactName, callType));
    }

    method AcceptCall()
      requires Valid()
      modifies this, signaling`sent, signaling`pending
      ensures Valid()
      ensures var r := AcceptStep(old(View()), userId, userName);
        View() == r.state && signaling.sent == old(signaling.sent) + r.emitted &&
        signaling.pending == old(signaling.pending) + Signaling.Replies(r.emitted)
    {
      Perform(AcceptStep(View(), userId, userName));
    }

    method RejectCall()
      requires Valid()
      modifies this, signaling`sent, signaling`pending
      ensures Valid()
      ensures var r := RejectStep(old(View()), userId);
        View() == r.state && signaling.sent == old(signaling.sent) + r.emitted &&
        signaling.pending == old(signaling.pending) + Signaling.Replies(r.emitted)
    {
      Perform(RejectStep(View(), userId));
    }

    method EndCall()
      requires Valid()
      modifies this, signaling`sent, signaling`pending
      ensures Valid()
      ensures var r := EndStep(old(View()), userId);
        View() == r.state && signaling.sent == old(signaling.sent) + r.emitted &&
        signaling.pending == old(signaling.pending) + Signaling.Replies(r.emitted)
    {
      Perform(EndStep(View(), userId));
    }

    /** The return-to-idle timer fires: the state becomes `idle` whatever it is now. */
    method IdleTimerFired()
      requires idleTimers > 0
      modifies this`callState, this`idleTimers
      ensures View() == old(View()).(callState := Idle, idleTimers := old(idleTimers) - 1)
    {
      callState := Idle;
      idleTimers := idleTimers - 1;
    }

    /** The subscribed `handleSignalingMessage`, for a message the signalling service delivered. */
    method HandleSignalingMessage(m: SignalingMessage, media: MediaOutcome, answer: Option<string>)
      requires Valid()
      modifies this, signaling`sent, signaling`pending
      ensures Valid()
      ensures var r := SignalStep(old(View()), userId, m, media, answer);
        View() == r.state && signaling.sent == old(signaling.sent) + r.emitted &&
        signaling.pending == old(signaling.pending) + Signaling.Replies(r.emitted)
    {
      Perform(SignalStep(View(), userId, m, media, answer));
    }

    /** The peer connection's state-change callback. */
    method MediaStateChanged(pc: PeerConnectionState)
      requires Valid()
      modifies this, signaling`sent, signaling`pending
      ensures Valid()
      ensures var r := MediaStep(old(View()), userId, pc);
        View() == r.state && signaling.sent == old(signaling.sent) + r.emitted &&
        signaling.pending == old(signaling.pending) + Signaling.Replies(r.emitted)
    {
      Perform(MediaStep(View(), userId, pc));
    }

    /** The remote-stream callback. */
    method RemoteStreamArrived()
      modifies this`remoteStream
      ensures View() == old(View()).(remoteStream := true)
    {
      remoteStream := true;
    }

    method ToggleMute()
      modifies this`isMuted, this`audioTrackEnabled
      ensures View() == ToggleMuteView(old(View()))
    {
      var muted := !isMuted;
      if localStream {
        audioTrackEnabled := !muted;
      }
      isMuted := muted;
    }

    method ToggleVideo()
      modifies this`isVideoEnabled, this`videoTrackEnabled
      ensures View() == ToggleVideoView(old(View()))
    {
      if !(currentCall.Some? && currentCall.value.callType == Some(Signaling.Video)) {
        return;
      }
      var enabled := !isVideoEnabled;
      if localStream {
        videoTrackEnabled := enabled;
      }
      isVideoEnabled := enabled;
    }

    /** The unmount cleanup: the signalling service is disconnected. */
    method Unmount()
      modifies signaling`stateNotices
      ensures signaling.stateNotices == old(signaling.stateNotices) +
        (if signaling.onConnectionStateChange.Some? then [Signaling.StateNotice(signaling.onConnectionStateChange.value, Signaling.Disconnected)] else [])
    {
      signaling.Disconnect();
    }
  }

  /**
   * An outgoing call is started against the simulated peer, and the timer of
   * the acceptance it provokes fires: the acceptance, from the contact, is
   * delivered to the hook.
   */
  method Ring(call: CallService, contactId: string, contactName: string, callType: Signaling.CallType) returns (accepted: SignalingMessage)
    requires call.Valid() && call.View() == InitialView && call.signaling.sent == [] && call.signaling.pending == []
    modifies call, call.signaling`sent, call.signaling`pending, call.signaling`fired, call.signaling`delivered
    ensures call.Valid()
    ensures call.View() == InitialView.(callState := Connecting, currentCall := Some(CurrentCall(contactId, Some(contactName), Some(callType), false)))
    ensures call.signaling.sent == [Message(Signaling.CallRequest, call.userId, contactId, Signaling.Payload(Some(call.userName), Some(callType), None, None))]
    ensures call.signaling.pending == []
    ensures accepted.kind == Signaling.CallAccepted && accepted.sender == contactId
    ensures call.signaling.delivered == old(call.signaling.delivered) + [Signaling.Delivered(CallHandle, accepted)]
  {
    call.StartCall(contactId, contactName, callType);
    var request := call.signaling.sent[0];
    Signaling.RepliesSnoc([], request);
    assert [] + [request] == [request];
    var d := call.signaling.ReplyTimerFired(0);
    accepted := d.value.message;
  }

  /**
   * The hook handles the acceptance of its outgoing call: media is acquired
   * and an offer goes to the contact, whose simulated answer is scheduled.
   */
  method Offer(call: CallService, accepted: SignalingMessage, callType: Signaling.CallType, sdp: string)
    requires call.Valid() && call.signaling.pending == []
    requires accepted.kind == Signaling.CallAccepted
    requires call.currentCall.Some? && call.currentCall.value.callType == Some(callType)
    modifies call, call.signaling`sent, call.signaling`pending
    ensures call.Valid()
    ensures call.View() == old(call.View()).(localStream := true, isVideoEnabled := callType == Signaling.Video, audioTrackEnabled := true, videoTrackEnabled := true)
    ensures call.signaling.sent == old(call.signaling.sent) + [Message(Signaling.Offer, call.userId, accepted.sender, Signaling.Payload(None, None, Some(sdp), Some("offer")))]
    ensures |call.signaling.pending| == 1 && call.signaling.pending[0].kind == Signaling.Answer
  {
    call.HandleSignalingMessage(accepted, OfferCreated(sdp), None);
    var offer := Message(Signaling.Offer, call.userId, accepted.sender, Signaling.Payload(None, None, Some(sdp), Some("offer")));
    Signaling.RepliesSnoc([], offer);
    assert [] + [offer] == [offer];
  }

  /**
   * A whole outgoing call against the simulated peer: the call is started,
   * the acceptance's timer fires and the hook sends an offer, the answer's
   * timer fires and is handled, the peer connection reports `connected`,
   * and the user hangs up.
   */
  method OutgoingCall(userId: string, userName: string, contactId: string, contactName: string, callType: Signaling.CallType, sdp: string)
    returns (call: CallService)
    ensures call.callState == Ended && call.currentCall == None && call.idleTimers == 1
    ensures |call.signaling.sent| == 3
    ensures call.signaling.sent[0] == Message(Signaling.CallRequest, userId, contactId, Signaling.Payload(Some(userName), Some(callType), None, None))
    ensures call.signaling.sent[1] == Message(Signaling.Offer, userId, contactId, Signaling.Payload(None, None, Some(sdp), Some("offer")))
    ensures call.signaling.sent[2] == Message(Signaling.CallEnded, userId, contactId, Signaling.EmptyPayload)
    ensures call.signaling.pending == []
  {
    call := new CallService(userId, userName);
    var accepted := Ring(call, contactId, contactName, callType);
    Offer(call, accepted, callType, sdp);
    Answered(call);
    HangUp(call);
  }

  /** The user hangs up a call: `call-ended` goes to the contact, which the simulated peer does not answer. */
  method HangUp(call: CallService)
    requires call.Valid() && call.signaling.pending == [] && call.currentCall.Some?
    modifies call, call.signaling`sent, call.signaling`pending
    ensures call.Valid()
    ensures call.callState == Ended && call.currentCall == None && call.idleTimers == old(call.idleTimers) + 1
    ensures call.signaling.sent == old(call.signaling.sent) + [Message(Signaling.CallEnded, call.userId, old(call.currentCall.value.contactId), Signaling.EmptyPayload)]
    ensures call.signaling.pending == []
  {
    var m := Message(Signaling.CallEnded, call.userId, call.currentCall.value.contactId, Signaling.EmptyPayload);
    assert Signaling.Replies([m]) == [] by {
      Signaling.RepliesNone([m]);
    }
    call.EndCall();
  }

  /** The answer's timer fires and the hook hands it to the media layer; the peer connection then reports `connected`. */
  method Answered(call: CallService)
    requires call.Valid() && |call.signaling.pending| == 1 && call.signaling.pending[0].kind == Signaling.Answer
    modifies call, call.signaling`sent, call.signaling`pending, call.signaling`fired, call.signaling`delivered
    ensures call.Valid()
    ensures call.View() == old(call.View()).(callState := Connected)
    ensures call.signaling.sent == old(call.signaling.sent) && call.signaling.pending == []
  {
    var d := call.signaling.ReplyTimerFired(0);
    var v := call.View();
    var sent := call.signaling.sent;
    assert call.signaling.pending == [] && Signaling.Replies([]) == [];
    assert SignalStep(v, call.userId, d.value.message, MediaDenied, None) == Step(v, []);
    call.HandleSignalingMessage(d.value.message, MediaDenied, None);
    assert call.View() == v && call.signaling.sent == sent && call.signaling.pending == [];
    call.MediaStateChanged(PcConnected);
  }
}
