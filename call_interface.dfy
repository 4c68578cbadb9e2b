/**
 * The call screen (`CallInterface`): the `mm:ss` duration display and the
 * screen's own status flow — connecting, connected, ended — with its timers
 * and toggles.
 *
 * The 2-second connection delay, the 1-second duration ticks and the
 * 0.5-second delay before `onEndCall` are explicit events. The `onAccept`,
 * `onReject` and `onEndCall` callbacks are counted. Local video capture is
 * left out.
 */
module CallInterface {
  import opened Text
  import Signaling

  // ---------------------------------------------------------------------------
  // Duration display

  /** `n.toString().padStart(2, "0")`. */
  function TwoDigits(n: nat): (r: string)
    ensures |r| >= 2 && AllDigits(r)
    ensures n < 100 ==> |r| == 2
  {
    PadStart(NatToString(n), 2, '0')
  }

  /** `formatDuration`: whole minutes and remaining seconds, each at least two digits, joined by `:`. */
  function FormatDuration(seconds: nat): (r: string)
    ensures |r| >= 5 && r[|r| - 3] == ':'
  {
    TwoDigits(seconds / 60) + ":" + TwoDigits(seconds % 60)
  }

  /** The minutes field of a formatted duration: everything before the last `:`. */
  function MinutesField(s: string): string
    requires |s| >= 3
  {
    s[..|s| - 3]
  }

  /** The seconds field of a formatted duration: its last two characters. */
  function SecondsField(s: string): string
    requires |s| >= 2
  {
    s[|s| - 2..]
  }

  /** Padding a number with leading zeros does not change the number it denotes. */
  lemma ParseTwoDigits(n: nat)
    ensures ParseNat(TwoDigits(n)) == n
  {
    ParseNatToString(n);
    var s := NatToString(n);
    if |s| < 2 {
      assert TwoDigits(n) == "0" + s;
      ParseNatLeadingZero(s);
    }
  }

  /** Below 60 the two-digit rendering is a tens digit from `0` to `5` followed by a units digit. */
  lemma SecondsDigits(n: nat)
    requires n < 60
    ensures TwoDigits(n)[0] in "012345" && IsDigit(TwoDigits(n)[1])
  {
    if n >= 10 {
      assert NatToString(n) == NatToString(n / 10) + [DigitChar(n % 10)];
      assert NatToString(n / 10) == [DigitChar(n / 10)];
      assert DigitChar(n / 10) in "012345";
    }
  }

  /** Under 100 minutes the display is exactly `mm:ss`. */
  lemma FormatDurationLength(seconds: nat)
    requires seconds < 6000
    ensures |FormatDuration(seconds)| == 5
    ensures FormatDuration(seconds)[2] == ':'
  {
  }

  /** The seconds field always reads `00` to `59`. */
  lemma FormatDurationSeconds(seconds: nat)
    ensures SecondsField(FormatDuration(seconds)) == TwoDigits(seconds % 60)
    ensures SecondsField(FormatDuration(seconds))[0] in "012345"
    ensures IsDigit(SecondsField(FormatDuration(seconds))[1])
  {
    var r := FormatDuration(seconds);
    assert SecondsField(r) == TwoDigits(seconds % 60);
    SecondsDigits(seconds % 60);
  }

  /** Reading the display back as minutes times 60 plus seconds gives the duration. */
  lemma FormatDurationRoundTrip(seconds: nat)
    ensures AllDigits(MinutesField(FormatDuration(seconds))) && AllDigits(SecondsField(FormatDuration(seconds)))
    ensures ParseNat(MinutesField(FormatDuration(seconds))) * 60 + ParseNat(SecondsField(FormatDuration(seconds))) == seconds
  {
    var r := FormatDuration(seconds);
    assert MinutesField(r) == TwoDigits(seconds / 60);
    assert SecondsField(r) == TwoDigits(seconds % 60);
    ParseTwoDigits(seconds / 60);
    ParseTwoDigits(seconds % 60);
  }

  // ---------------------------------------------------------------------------
  // The screen

  datatype CallStatus = Connecting | Connected | Ended

  class CallScreen {
    const contactName: string
    const callType: Signaling.CallType
    const isIncoming: bool
    var callStatus: CallStatus
    var isMuted: bool
    var isVideoEnabled: bool
    var isSpeakerOn: bool
    var callDuration: nat
    /** The duration interval is running. */
    var timerRunning: bool
    /** The connection delay of an outgoing call has not elapsed yet. */
    var connectPending: bool
    /** `onEndCall` notifications scheduled but not yet made. */
    var endPending: nat
    var acceptCalls: nat
    var rejectCalls: nat
    var endCalls: nat

    /**
     * Only an outgoing call waits for the connection delay, the duration
     * runs only while connected, and an incoming call is connected only once
     * it has been accepted.
     */
    predicate Valid()
      reads this
    {
      (isIncoming ==> !connectPending) &&
      (timerRunning ==> callStatus == Connected) &&
      (isIncoming && callStatus == Connected ==> acceptCalls > 0)
    }

    /** The screen opens connecting, with video on exactly for a video call; an outgoing call starts its connection delay. */
    constructor (contactName: string, callType: Signaling.CallType, isIncoming: bool)
      ensures Valid()
      ensures this.contactName == contactName && this.callType == callType && this.isIncoming == isIncoming
      ensures callStatus == Connecting && callDuration == 0 && !timerRunning
      ensures !isMuted && !isSpeakerOn && (isVideoEnabled <==> callType == Signaling.Video)
      ensures connectPending == !isIncoming
      ensures endPending == 0 && acceptCalls == 0 && rejectCalls == 0 && endCalls == 0
    {
      this.contactName := contactName;
      this.callType := callType;
      this.isIncoming := isIncoming;
      callStatus := Connecting;
      isMuted := false;
      isVideoEnabled := callType == Signaling.Video;
      isSpeakerOn := false;
      callDuration := 0;
      timerRunning := false;
      connectPending := !isIncoming;
      endPending := 0;
      acceptCalls := 0;
      rejectCalls := 0;
      endCalls := 0;
    }

    /** The accept and reject buttons are shown for an incoming call still connecting. */
    predicate Ringing()
      reads this
    {
      isIncoming && callStatus == Connecting
    }

    /** The connection delay of an outgoing call elapses, exactly as written: the call becomes connected and the duration starts, even after the call was ended. */
    method ConnectTimerFiredAsWritten()
      requires Valid() && connectPending
      modifies this`callStatus, this`timerRunning, this`connectPending
      ensures Valid()
      ensures callStatus == Connected && timerRunning && !connectPending
    {
      callStatus := Connected;
      timerRunning := true;
      connectPending := false;
    }

    /** The connection delay elapses: a call still connecting becomes connected and its duration starts; an ended call stays ended. */
    method ConnectTimerFired()
      requires Valid() && connectPending
      modifies this`callStatus, this`timerRunning, this`connectPending
      ensures Valid() && !connectPending
      ensures old(callStatus) == Ended ==> callStatus == Ended && timerRunning == old(timerRunning)
      ensures old(callStatus) != Ended ==> callStatus == Connected && timerRunning
    {
      connectPending := false;
      if callStatus != Ended {
        callStatus := Connected;
        timerRunning := true;
      }
    }

    /** One second passes while the duration runs. */
    method Tick()
      requires timerRunning
      modifies this`callDuration
      ensures callDuration == old(callDuration) + 1
    {
      callDuration := callDuration + 1;
    }

    /** The accept button: `onAccept` is called, the call becomes connected and its duration starts. */
    method Accept()
      requires Valid() && Ringing()
      modifies this`acceptCalls, this`callStatus, this`timerRunning
      ensures Valid()
      ensures acceptCalls == old(acceptCalls) + 1 && callStatus == Connected && timerRunning
    {
      acceptCalls := acceptCalls + 1;
      callStatus := Connected;
      timerRunning := true;
    }

    /** The reject button: `onReject` is called; the screen itself does not change. */
    method Reject()
      requires Ringing()
      modifies this`rejectCalls
      ensures rejectCalls == old(rejectCalls) + 1
    {
      rejectCalls := rejectCalls + 1;
    }

    /** `handleEndCall`: the duration stops, the call is ended, and `onEndCall` is scheduled. */
    method HandleEndCall()
      requires Valid()
      modifies this`timerRunning, this`callStatus, this`endPending
      ensures Valid()
      ensures !timerRunning && callStatus == Ended && endPending == old(endPending) + 1
    {
      timerRunning := false;
      callStatus := Ended;
      endPending := endPending + 1;
    }

    /** The delay after ending elapses: `onEndCall` is called. */
    method EndTimerFired()
      requires endPending > 0
      modifies this`endPending, this`endCalls
      ensures endPending == old(endPending) - 1 && endCalls == old(endCalls) + 1
    {
      endPending := endPending - 1;
      endCalls := endCalls + 1;
    }

    method ToggleMute()
      modifies this`isMuted
      ensures isMuted == !old(isMuted)
    {
      isMuted := !isMuted;
    }

    /** The video toggle is rendered only on a video call. */
    method ToggleVideo()
      requires callType == Signaling.Video
      modifies this`isVideoEnabled
      ensures isVideoEnabled == !old(isVideoEnabled)
    {
      isVideoEnabled := !isVideoEnabled;
    }

    method ToggleSpeaker()
      modifies this`isSpeakerOn
      ensures isSpeakerOn == !old(isSpeakerOn)
    {
      isSpeakerOn := !isSpeakerOn;
    }
  }

  /**
   * Ending an outgoing call before its connection delay has elapsed, as
   * written: when the delay elapses before the screen is gone, the ended call
   * shows as connected again and its duration runs.
   */
  method EndBeforeConnectAsWritten(contactName: string, callType: Signaling.CallType) returns (screen: CallScreen)
    ensures screen.callStatus == Connected && screen.timerRunning && screen.endPending == 1
  {
    screen := new CallScreen(contactName, callType, false);
    screen.HandleEndCall();
    screen.ConnectTimerFiredAsWritten();
  }

  /** With the delay ignored after the end, an ended call stays ended and its duration stays stopped. */
  method EndBeforeConnect(contactName: string, callType: Signaling.CallType) returns (screen: CallScreen)
    ensures screen.callStatus == Ended && !screen.timerRunning && screen.endPending == 1
  {
    screen := new CallScreen(contactName, callType, false);
    screen.HandleEndCall();
    screen.ConnectTimerFired();
  }

  /** An outgoing call: it connects after the delay, runs for `n` seconds, and the display read back gives `n`. */
  method OutgoingCallRuns(contactName: string, callType: Signaling.CallType, n: nat) returns (screen: CallScreen)
    ensures screen.callStatus == Connected && screen.callDuration == n
    ensures var shown := FormatDuration(screen.callDuration);
      ParseNat(MinutesField(shown)) * 60 + ParseNat(SecondsField(shown)) == n
  {
    screen := new CallScreen(contactName, callType, false);
    screen.ConnectTimerFired();
    var i := 0;
    while i < n
      invariant 0 <= i <= n
      invariant screen.Valid() && screen.timerRunning && screen.callStatus == Connected
      invariant screen.callDuration == i
    {
      screen.Tick();
      i := i + 1;
    }
    FormatDurationRoundTrip(n);
  }
}
