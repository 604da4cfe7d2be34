/**
 * The SOS dialog of the landing page
 * (src/pages/home-landing/components/EmergencySOSModal.jsx): the form
 * fields, the five-second countdown driven by a one-second timer, the
 * alert it sends, and the reset when the dialog opens.
 *
 * Each firing of the countdown timer is one call of `Tick`; the effect that
 * sends at zero runs right after it. The two-second simulated send delay is
 * not modelled: `SendAlert` returns the payload and ends with the flags the
 * handler leaves. The clock is a parameter.
 */
module SosModal {
  import opened Common
  import opened JsText

  /** A position in ten-thousandths of a degree, with its address text. */
  datatype Location = Location(latitude: int, longitude: int, address: string)

  /** `{ latitude: 37.7749, longitude: -122.4194, address: "Current Location" }`. */
  const DefaultLocation := Location(377749, -1224194, "Current Location")

  /** The alert handed to `onSendAlert`; the ISO timestamp is kept as the clock reading in milliseconds. */
  datatype AlertData = AlertData(
    id: string,
    alertType: string,
    urgency: string,
    description: string,
    location: Location,
    timestamp: int,
    status: string)

  /** The description: the typed information, or a sentence naming the type when nothing was typed. */
  function Description(alertType: string, additionalInfo: string): (r: string)
    ensures additionalInfo != "" ==> r == additionalInfo
    ensures additionalInfo == "" ==> r == alertType + " emergency - immediate assistance needed"
  {
    TextOr(Some(additionalInfo), alertType + " emergency - immediate assistance needed")
  }

  /** The payload of handleSendAlert. */
  function Payload(alertType: string, urgency: string, additionalInfo: string, userLocation: Option<Location>, now: int): (a: AlertData)
    ensures a.alertType == alertType && a.urgency == urgency && a.status == "active" && a.timestamp == now
    ensures a.location == userLocation.GetOr(DefaultLocation)
    ensures a.description == Description(alertType, additionalInfo)
    ensures |a.id| >= 6 && a.id[..6] == "alert_" && ParseInt(a.id[6..]) == Some(now)
  {
    var id := "alert_" + IntStr(now);
    assert id[6..] == IntStr(now);
    ParseIntStr(now);
    AlertData(id, alertType, urgency, Description(alertType, additionalInfo), userLocation.GetOr(DefaultLocation), now, "active")
  }

  /** The countdown part of the dialog's state. */
  datatype Countdown = Countdown(counting: bool, remaining: int)

  /** One firing of the timer: while counting with time left, one second less. */
  function TickStep(c: Countdown): (r: Countdown)
    ensures c.counting && c.remaining > 0 ==> r == c.(remaining := c.remaining - 1)
    ensures !(c.counting && c.remaining > 0) ==> r == c
  {
    if c.counting && c.remaining > 0 then c.(remaining := c.remaining - 1) else c
  }

  /** The effect sends exactly when the countdown is running and at zero. */
  predicate SendsAt(c: Countdown) {
    c.counting && c.remaining == 0
  }

  /** The countdown after a tick and the send it may trigger (sending stops the count). */
  function AfterTick(c: Countdown): Countdown {
    var t := TickStep(c);
    if SendsAt(t) then t.(counting := false) else t
  }

  /** The countdown after `k` ticks. */
  function Run(c: Countdown, k: nat): Countdown
    decreases k
  {
    if k == 0 then c else Run(AfterTick(c), k - 1)
  }

  /** How many of `k` ticks send the alert. */
  function Sends(c: Countdown, k: nat): nat
    decreases k
  {
    if k == 0 then 0 else (if SendsAt(TickStep(c)) then 1 else 0) + Sends(AfterTick(c), k - 1)
  }

  /** A stopped countdown stays put and sends nothing. */
  lemma {:induction false} StoppedStaysSilent(c: Countdown, k: nat)
    requires !c.counting
    ensures Sends(c, k) == 0 && Run(c, k) == c
  {
    if k > 0 {
      StoppedStaysSilent(AfterTick(c), k - 1);
    }
  }

  /**
   * Started from `n >= 1` seconds and never cancelled, the countdown sends
   * exactly once, on the `n`-th tick, and stops at zero.
   */
  lemma {:induction false} SendsExactlyOnce(n: int, k: nat)
    requires n >= 1
    ensures Sends(Countdown(true, n), k) == (if k >= n then 1 else 0)
    ensures k >= n ==> Run(Countdown(true, n), k) == Countdown(false, 0)
    ensures k < n ==> Run(Countdown(true, n), k) == Countdown(true, n - k)
  {
    var c := Countdown(true, n);
    if k > 0 {
      if n == 1 {
        assert AfterTick(c) == Countdown(false, 0);
        StoppedStaysSilent(Countdown(false, 0), k - 1);
      } else {
        assert AfterTick(c) == Countdown(true, n - 1);
        SendsExactlyOnce(n - 1, k - 1);
      }
    }
  }

  class SosDialog {
    var selectedType: string
    var urgencyLevel: string
    var additionalInfo: string
    var isCountingDown: bool
    var countdown: int
    var isSending: bool

    /** The count never goes below zero, and a running countdown has time left: the effect sends at zero and stops it. */
    predicate Valid()
      reads this
    {
      countdown >= 0 && (isCountingDown ==> countdown > 0)
    }

    function State(): Countdown
      reads this
    {
      Countdown(isCountingDown, countdown)
    }

    constructor ()
      ensures Valid() && selectedType == "" && urgencyLevel == "high" && additionalInfo == ""
      ensures !isCountingDown && countdown == 5 && !isSending
    {
      selectedType, urgencyLevel, additionalInfo := "", "high", "";
      isCountingDown, countdown, isSending := false, 5, false;
    }

    /** The effect on becoming visible: everything back to its start value. */
    method Open()
      modifies this
      ensures Valid() && selectedType == "" && urgencyLevel == "high" && additionalInfo == ""
      ensures !isCountingDown && countdown == 5 && !isSending
    {
      selectedType := "";
      urgencyLevel := "high";
      additionalInfo := "";
      isCountingDown := false;
      countdown := 5;
      isSending := false;
    }

    method SelectType(t: string)
      modifies this
      ensures selectedType == t && urgencyLevel == old(urgencyLevel) && additionalInfo == old(additionalInfo)
      ensures State() == old(State()) && isSending == old(isSending)
    {
      selectedType := t;
    }

    method SelectUrgency(u: string)
      modifies this
      ensures urgencyLevel == u && selectedType == old(selectedType) && additionalInfo == old(additionalInfo)
      ensures State() == old(State()) && isSending == old(isSending)
    {
      urgencyLevel := u;
    }

    method EditInfo(s: string)
      modifies this
      ensures additionalInfo == s && selectedType == old(selectedType) && urgencyLevel == old(urgencyLevel)
      ensures State() == old(State()) && isSending == old(isSending)
    {
      additionalInfo := s;
    }

    /**
     * handleSendAlert: the countdown stops (its count stays where it was),
     * the payload goes to `onSendAlert`, and `isSending` is down again at
     * the end.
     */
    method SendAlert(userLocation: Option<Location>, now: int) returns (sent: AlertData)
      requires countdown >= 0
      modifies this
      ensures sent == Payload(selectedType, urgencyLevel, additionalInfo, userLocation, now)
      ensures !isCountingDown && !isSending && Valid()
      ensures countdown == old(countdown) && selectedType == old(selectedType)
      ensures urgencyLevel == old(urgencyLevel) && additionalInfo == old(additionalInfo)
    {
      isSending := true;
      isCountingDown := false;
      sent := Payload(selectedType, urgencyLevel, additionalInfo, userLocation, now);
      isSending := false;
    }

    /**
     * handleStartCountdown: nothing starts without a chosen type. Otherwise
     * the countdown runs; if it is already at zero (left there by an earlier
     * send) the effect sends at once.
     */
    method StartCountdown(userLocation: Option<Location>, now: int) returns (sent: Option<AlertData>)
      requires Valid()
      modifies this
      ensures Valid()
      ensures selectedType == "" ==> State() == old(State()) && sent.None? && isSending == old(isSending)
      ensures selectedType != "" && old(countdown) != 0 ==> isCountingDown && countdown == old(countdown) && sent.None?
      ensures selectedType != "" && old(countdown) == 0 ==>
                !isCountingDown && sent == Some(Payload(selectedType, urgencyLevel, additionalInfo, userLocation, now))
      ensures selectedType == old(selectedType) && urgencyLevel == old(urgencyLevel) && additionalInfo == old(additionalInfo)
    {
      if selectedType == "" {
        return None;
      }
      isCountingDown := true;
      if countdown == 0 {
        var a := SendAlert(userLocation, now);
        sent := Some(a);
      } else {
        sent := None;
      }
    }

    /** One firing of the countdown timer, followed by the effect that sends at zero. */
    method Tick(userLocation: Option<Location>, now: int) returns (sent: Option<AlertData>)
      requires Valid()
      modifies this
      ensures Valid()
      ensures State() == AfterTick(old(State()))
      ensures sent.Some? <==> SendsAt(TickStep(old(State())))
      ensures sent.Some? ==> sent.value == Payload(selectedType, urgencyLevel, additionalInfo, userLocation, now)
      ensures selectedType == old(selectedType) && urgencyLevel == old(urgencyLevel) && additionalInfo == old(additionalInfo)
    {
      if isCountingDown && countdown > 0 {
        countdown := countdown - 1;
      }
      if isCountingDown && countdown == 0 {
        var a := SendAlert(userLocation, now);
        sent := Some(a);
      } else {
        sent := None;
      }
    }

    /** handleCancel: the countdown stops and is back at five seconds. */
    method Cancel()
      modifies this
      ensures Valid() && !isCountingDown && countdown == 5
      ensures selectedType == old(selectedType) && urgencyLevel == old(urgencyLevel)
      ensures additionalInfo == old(additionalInfo) && isSending == old(isSending)
    {
      isCountingDown := false;
      countdown := 5;
    }
  }

  /** Choosing a type, starting, and letting five ticks pass sends the alert on the fifth tick and on no other. */
  method FiveTicksSendOnce(t: string, userLocation: Option<Location>, now: int) returns (sends: seq<bool>)
    requires t != ""
    ensures sends == [false, false, false, false, true]
  {
    var d := new SosDialog();
    d.SelectType(t);
    var s0 := d.StartCountdown(userLocation, now);
    sends := [];
    var i := 0;
    while i < 5
      invariant 0 <= i <= 5 && d.Valid()
      invariant d.State() == Run(Countdown(true, 5), i)
      invariant |sends| == i && forall j | 0 <= j < i :: sends[j] == (j == 4)
    {
      SendsExactlyOnce(5, i);
      SendsExactlyOnce(5, i + 1);
      var s := d.Tick(userLocation, now);
      sends := sends + [s.Some?];
      i := i + 1;
    }
  }
}
