/**
 * The simulated signalling channel (`SignalingService`). Sending a call
 * request or an offer schedules one reply from the simulated remote peer,
 * with sender and recipient swapped; when its timer fires the reply goes to
 * the message callback registered at that moment, if any. The service holds
 * at most one message callback and one connection-state callback; registering
 * another replaces it.
 *
 * Callbacks are numbered handles. Timers are explicit events: a scheduled
 * reply waits in `pending` until `ReplyTimerFired` picks it (the two delays
 * differ, so replies may fire in any order), and each `connect` waits in
 * `pendingConnects` until `ConnectTimerFired`.
 */
module Signaling {
  import opened Wrappers

  datatype SignalKind = Offer | Answer | IceCandidate | CallRequest | CallAccepted | CallRejected | CallEnded

  datatype CallType = Audio | Video

  /** The fields of `payload` the program reads or writes; an absent field is `None`. */
  datatype Payload = Payload(userName: Option<string>, callType: Option<CallType>, sdp: Option<string>, sdpType: Option<string>)

  datatype SignalingMessage = SignalingMessage(kind: SignalKind, sender: string, recipient: string, payload: Payload)

  datatype ConnectionState = Connected | Disconnected

  /** One invocation of the message callback. */
  datatype Delivered = Delivered(callback: nat, message: SignalingMessage)

  /** One invocation of the connection-state callback. */
  datatype StateNotice = StateNotice(callback: nat, state: ConnectionState)

  const EmptyPayload := Payload(None, None, None, None)

  const SimulatedSdpAnswer := "simulated-sdp-answer"

  /**
   * The simulated remote peer's reply: a call request is accepted with the
   * same call type, an offer is answered with the simulated answer, and no
   * other message is answered. The reply goes back from the recipient to the
   * sender.
   */
  function SimulatedReply(m: SignalingMessage): (r: Option<SignalingMessage>)
    ensures r.Some? <==> m.kind == CallRequest || m.kind == Offer
    ensures r.Some? ==> r.value.sender == m.recipient && r.value.recipient == m.sender
    ensures m.kind == CallRequest ==> r.value.kind == CallAccepted && r.value.payload.callType == m.payload.callType
    ensures m.kind == Offer ==> r.value.kind == Answer && r.value.payload.sdpType == Some("answer") && r.value.payload.sdp == Some(SimulatedSdpAnswer)
  {
    match m.kind
    case CallRequest => Some(SignalingMessage(CallAccepted, m.recipient, m.sender, Payload(None, m.payload.callType, None, None)))
    case Offer => Some(SignalingMessage(Answer, m.recipient, m.sender, Payload(None, None, Some(SimulatedSdpAnswer), Some("answer"))))
    case _ => None
  }

  /** A reply is never itself answered, so the simulated exchange always stops after one reply. */
  lemma ReplyIsFinal(m: SignalingMessage)
    requires SimulatedReply(m).Some?
    ensures SimulatedReply(SimulatedReply(m).value).None?
  {
  }

  /** The replies scheduled by sending `m`: none or one. */
  function ReplyTo(m: SignalingMessage): (r: seq<SignalingMessage>)
    ensures |r| <= 1
    ensures |r| == 1 <==> SimulatedReply(m).Some?
    ensures |r| == 1 ==> r[0] == SimulatedReply(m).value
  {
    match SimulatedReply(m)
    case Some(reply) => [reply]
    case None => []
  }

  /** The replies scheduled by sending `sent`, in sending order. */
  function Replies(sent: seq<SignalingMessage>): (r: seq<SignalingMessage>)
    ensures |r| <= |sent|
  {
    if sent == [] then []
    else Replies(sent[..|sent| - 1]) + ReplyTo(sent[|sent| - 1])
  }

  lemma RepliesSnoc(sent: seq<SignalingMessage>, m: SignalingMessage)
    ensures Replies(sent + [m]) == Replies(sent) + ReplyTo(m)
  {
    assert (sent + [m])[..|sent|] == sent;
  }

  /** Sending `a` and then `b` schedules the replies to `a` and then those to `b`. */
  lemma {:induction false} RepliesConcat(a: seq<SignalingMessage>, b: seq<SignalingMessage>)
    ensures Replies(a + b) == Replies(a) + Replies(b)
  {
    if b != [] {
      var b' := b[..|b| - 1];
      assert a + b == (a + b') + [b[|b| - 1]];
      assert b == b' + [b[|b| - 1]];
      RepliesConcat(a, b');
      RepliesSnoc(a + b', b[|b| - 1]);
      RepliesSnoc(b', b[|b| - 1]);
    } else {
      assert a + b == a;
    }
  }

  /** Sending only messages that get no reply (answers, candidates, accepts, rejects, ends) schedules nothing. */
  lemma {:induction false} RepliesNone(sent: seq<SignalingMessage>)
    requires forall i :: 0 <= i < |sent| ==> sent[i].kind != CallRequest && sent[i].kind != Offer
    ensures Replies(sent) == []
  {
    if sent != [] {
      RepliesNone(sent[..|sent| - 1]);
    }
  }

  lemma RemoveAt<T>(s: seq<T>, i: nat)
    requires i < |s|
    ensures multiset(s[..i] + s[i + 1..]) + multiset{s[i]} == multiset(s)
  {
    assert s == s[..i] + [s[i]] + s[i + 1..];
  }

  /** Every scheduled reply answers exactly one sent message: the pending and the fired replies together are the replies to what was sent. */
  ghost predicate Accounted(pending: seq<SignalingMessage>, fired: seq<SignalingMessage>, sent: seq<SignalingMessage>)
  {
    multiset(pending) + multiset(fired) == multiset(Replies(sent))
  }

  /** Moving the `i`-th pending reply to the fired ones keeps pending and fired replies in step with what was sent. */
  lemma FireKeepsAccount(pending: seq<SignalingMessage>, fired: seq<SignalingMessage>, sent: seq<SignalingMessage>, i: nat)
    requires i < |pending|
    requires Accounted(pending, fired, sent)
    ensures Accounted(pending[..i] + pending[i + 1..], fired + [pending[i]], sent)
  {
    RemoveAt(pending, i);
  }

  /** Scheduling the reply to one more sent message keeps pending and fired replies in step with what was sent. */
  lemma SendKeepsAccount(pending: seq<SignalingMessage>, fired: seq<SignalingMessage>, sent: seq<SignalingMessage>, m: SignalingMessage)
    requires Accounted(pending, fired, sent)
    ensures Accounted(pending + ReplyTo(m), fired, sent + [m])
    ensures Replies([m]) == ReplyTo(m)
  {
    RepliesSnoc(sent, m);
    RepliesSnoc([], m);
    assert [] + [m] == [m];
  }

  class SignalingService {
    var onMessage: Option<nat>
    var onConnectionStateChange: Option<nat>
    /** Every message handed to `sendMessage`, in order. */
    var sent: seq<SignalingMessage>
    /** Scheduled replies whose timers have not fired yet. */
    var pending: seq<SignalingMessage>
    /** Scheduled replies whose timers have fired. */
    ghost var fired: seq<SignalingMessage>
    /** Every invocation of the message callback, in order. */
    var delivered: seq<Delivered>
    /** `connect` timers that have not fired yet. */
    var pendingConnects: nat
    /** Every invocation of the connection-state callback, in order. */
    var stateNotices: seq<StateNotice>

    /** Every scheduled reply answers exactly one sent message. */
    ghost predicate Valid()
      reads this`sent, this`pending, this`fired
    {
      Accounted(pending, fired, sent)
    }

    constructor ()
      ensures Valid()
      ensures onMessage == None && onConnectionStateChange == None
      ensures sent == [] && pending == [] && delivered == [] && pendingConnects == 0 && stateNotices == []
    {
      onMessage := None;
      onConnectionStateChange := None;
      sent := [];
      pending := [];
      fired := [];
      delivered := [];
      pendingConnects := 0;
      stateNotices := [];
    }

    /** `connect(userId)`: the connection is reported later, when its timer fires. */
    method Connect(userId: string)
      modifies this`pendingConnects
      ensures pendingConnects == old(pendingConnects) + 1
    {
      pendingConnects := pendingConnects + 1;
    }

    /** A `connect` timer fires: `"connected"` goes to the state callback, if one is registered. */
    method ConnectTimerFired()
      requires pendingConnects > 0
      modifies this`pendingConnects, this`stateNotices
      ensures pendingConnects == old(pendingConnects) - 1
      ensures stateNotices == old(stateNotices) + (if onConnectionStateChange.Some? then [StateNotice(onConnectionStateChange.value, Connected)] else [])
    {
      pendingConnects := pendingConnects - 1;
      if onConnectionStateChange.Some? {
        stateNotices := stateNotices + [StateNotice(onConnectionStateChange.value, Connected)];
      }
    }

    /** `sendMessage`: the message is logged, and its simulated reply (if any) scheduled. */
    method SendMessage(m: SignalingMessage)
      requires Valid()
      modifies this`sent, this`pending
      ensures Valid()
      ensures sent == old(sent) + [m]
      ensures pending == old(pending) + Replies([m])
    {
      SendKeepsAccount(pending, fired, sent, m);
      sent := sent + [m];
      pending := pending + ReplyTo(m);
    }

    /** The `i`-th pending reply leaves the pending ones and is returned. */
    method TakePending(i: nat) returns (reply: SignalingMessage)
      requires Valid() && i < |pending|
      modifies this`pending, this`fired
      ensures Valid()
      ensures reply == old(pending[i]) && pending == old(pending[..i] + pending[i + 1..])
    {
      reply := pending[i];
      FireKeepsAccount(pending, fired, sent, i);
      pending := pending[..i] + pending[i + 1..];
      fired := fired + [reply];
    }

    /**
     * The timer of the `i`-th pending reply fires: the reply goes to the
     * message callback registered now, if any, and is returned together with
     * that callback.
     */
    method ReplyTimerFired(i: nat) returns (r: Option<Delivered>)
      requires Valid() && i < |pending|
      modifies this`pending, this`fired, this`delivered
      ensures Valid()
      ensures pending == old(pending[..i] + pending[i + 1..])
      ensures r.Some? <==> onMessage.Some?
      ensures r.Some? ==> r.value == Delivered(onMessage.value, old(pending[i]))
      ensures delivered == old(delivered) + (if r.Some? then [r.value] else [])
    {
      var reply := TakePending(i);
      if onMessage.Some? {
        r := Some(Delivered(onMessage.value, reply));
        delivered := delivered + [r.value];
      } else {
        r := None;
      }
    }

    /** `onMessage(callback)`: replaces any earlier message callback. */
    method OnMessage(callback: nat)
      modifies this`onMessage
      ensures onMessage == Some(callback)
    {
      onMessage := Some(callback);
    }

    /** `onConnectionStateChange(callback)`: replaces any earlier state callback. */
    method OnConnectionStateChange(callback: nat)
      modifies this`onConnectionStateChange
      ensures onConnectionStateChange == Some(callback)
    {
      onConnectionStateChange := Some(callback);
    }

    /** `disconnect()`: `"disconnected"` goes to the state callback, if one is registered. */
    method Disconnect()
      modifies this`stateNotices
      ensures stateNotices == old(stateNotices) + (if onConnectionStateChange.Some? then [StateNotice(onConnectionStateChange.value, Disconnected)] else [])
    {
      if onConnectionStateChange.Some? {
        stateNotices := stateNotices + [StateNotice(onConnectionStateChange.value, Disconnected)];
      }
    }
  }
}
