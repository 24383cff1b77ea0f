/** The voice/video call screen: a three-state call (ringing, ongoing, ended),
    a one-second duration counter, `mm:ss` formatting and three toggles. */
module CallInterface {

  datatype Status = Ringing | Ongoing | Ended

  datatype Call = Call(
    incoming: bool, status: Status,
    muted: bool, videoOn: bool, speakerOn: bool,
    duration: nat)

  /** The state when the screen opens: an incoming call rings, an outgoing
      one is ongoing; microphone on, camera on, speaker on, zero seconds. */
  function Open(incoming: bool): (c: Call)
    ensures c.status == Ringing <==> incoming
    ensures c.status == Ongoing <==> !incoming
    ensures c.duration == 0 && !c.muted && c.videoOn && c.speakerOn
  {
    Call(incoming, if incoming then Ringing else Ongoing, false, true, true, 0)
  }

  /** The three screens the component renders. */
  datatype Screen = IncomingScreen | EndedScreen | CallScreen

  function ScreenOf(c: Call): Screen {
    if c.status == Ringing && c.incoming then IncomingScreen
    else if c.status == Ended then EndedScreen
    else CallScreen
  }

  /** User actions and the one-second timer. */
  datatype Event = Accept | Decline | EndCall | ToggleMute | ToggleVideo | ToggleSpeaker | Second

  /** The buttons each screen offers: accept/decline while ringing, the three
      toggles and hang-up during the call, nothing but leaving once ended. */
  predicate Offered(s: Screen, e: Event) {
    match s
    case IncomingScreen => e == Accept || e == Decline
    case CallScreen => e == EndCall || e == ToggleMute || e == ToggleVideo || e == ToggleSpeaker
    case EndedScreen => false
  }

  /** The effect of one event. The timer interval exists only while the call is
      ongoing; a button not on the current screen cannot be pressed. */
  function Step(c: Call, e: Event): (r: Call)
    ensures r.incoming == c.incoming && r.duration >= c.duration
    ensures r.status != c.status ==>
              c.status != Ended && e != Second
              && (r.status == Ongoing <==> e == Accept) && (r.status == Ended <==> e in {Decline, EndCall})
    ensures r.muted != c.muted ==> e == ToggleMute && c.status != Ended
  {
    if e == Second then
      if c.status == Ongoing then c.(duration := c.duration + 1) else c
    else if !Offered(ScreenOf(c), e) then c
    else match e
      case Accept => c.(status := Ongoing)
      case Decline => c.(status := Ended)
      case EndCall => c.(status := Ended)
      case ToggleMute => c.(muted := !c.muted)
      case ToggleVideo => c.(videoOn := !c.videoOn)
      case ToggleSpeaker => c.(speakerOn := !c.speakerOn)
      case Second => c
  }

  /** Accepting moves a ringing call to ongoing; declining it or hanging up
      ends the call. */
  lemma Transitions(c: Call)
    ensures c.status == Ringing && c.incoming ==> Step(c, Accept).status == Ongoing
    ensures c.status == Ringing && c.incoming ==> Step(c, Decline).status == Ended
    ensures c.status == Ongoing ==> Step(c, EndCall).status == Ended
  {
  }

  /** `ended` is absorbing: no event leaves it, and after it nothing changes. */
  lemma EndedAbsorbs(c: Call, e: Event)
    requires c.status == Ended
    ensures Step(c, e) == c
  {
  }

  /** The duration grows by exactly one per second while ongoing, and no event
      ever lowers or resets it. */
  lemma DurationTicks(c: Call, e: Event)
    ensures Step(c, e).duration == if e == Second && c.status == Ongoing then c.duration + 1 else c.duration
  {
  }

  /** Each toggle flips its own flag only, and flipping twice restores the call. */
  lemma TogglesInvolutive(c: Call, e: Event)
    requires c.status == Ongoing
    requires e == ToggleMute || e == ToggleVideo || e == ToggleSpeaker
    ensures Step(Step(c, e), e) == c
    ensures var r := Step(c, e);
            && r.status == c.status && r.duration == c.duration
            && (r.muted != c.muted <==> e == ToggleMute)
            && (r.videoOn != c.videoOn <==> e == ToggleVideo)
            && (r.speakerOn != c.speakerOn <==> e == ToggleSpeaker)
  {
  }

  function Run(c: Call, es: seq<Event>): Call
    decreases |es|
  {
    if |es| == 0 then c else Run(Step(c, es[0]), es[1..])
  }

  function Seconds(c: Call, es: seq<Event>): nat
    decreases |es|
  {
    if |es| == 0 then 0
    else (if es[0] == Second && c.status == Ongoing then 1 else 0) + Seconds(Step(c, es[0]), es[1..])
  }

  /** Over any run the duration is the starting duration plus the number of
      timer seconds that fell while the call was ongoing; once ended a call
      stays ended. */
  lemma {:induction false} RunDuration(c: Call, es: seq<Event>)
    ensures Run(c, es).duration == c.duration + Seconds(c, es)
    ensures c.status == Ended ==> Run(c, es) == c
    decreases |es|
  {
    if |es| > 0 {
      DurationTicks(c, es[0]);
      RunDuration(Step(c, es[0]), es[1..]);
    }
  }

  // ---- formatTime ----

  function DigitChar(d: nat): char
    requires d < 10
  {
    "0123456789"[d]
  }

  predicate IsDigit(c: char) {
    '0' <= c <= '9'
  }

  function DigitValue(c: char): nat
    requires IsDigit(c)
  {
    c as int - '0' as int
  }

  /** `n.toString()` for a non-negative integer. */
  function Decimal(n: nat): (s: string)
    ensures |s| >= 1
    ensures forall i :: 0 <= i < |s| ==> IsDigit(s[i])
    ensures n < 10 <==> |s| == 1
    ensures 10 <= n < 100 <==> |s| == 2
  {
    if n < 10 then [DigitChar(n)] else Decimal(n / 10) + [DigitChar(n % 10)]
  }

  /** The value of a string of decimal digits. */
  function Value(s: string): nat
    requires forall i :: 0 <= i < |s| ==> IsDigit(s[i])
  {
    if |s| == 0 then 0 else 10 * Value(s[..|s| - 1]) + DigitValue(s[|s| - 1])
  }

  lemma {:induction false} ValueOfDecimal(n: nat)
    ensures Value(Decimal(n)) == n
  {
    if n >= 10 {
      var s := Decimal(n);
      assert s[..|s| - 1] == Decimal(n / 10);
      ValueOfDecimal(n / 10);
    }
  }

  /** A leading zero does not change the value. */
  lemma {:induction false} ValueLeadingZero(s: string)
    requires forall i :: 0 <= i < |s| ==> IsDigit(s[i])
    ensures Value("0" + s) == Value(s)
    decreases |s|
  {
    if |s| > 0 {
      assert ("0" + s)[..|"0" + s| - 1] == "0" + s[..|s| - 1];
      ValueLeadingZero(s[..|s| - 1]);
    }
  }

  /** `s.padStart(2, '0')`. */
  function Pad2(s: string): (r: string)
    ensures |r| == if |s| < 2 then 2 else |s|
    ensures (forall i :: 0 <= i < |s| ==> IsDigit(s[i])) ==> forall i :: 0 <= i < |r| ==> IsDigit(r[i])
  {
    if |s| == 0 then "00" else if |s| == 1 then "0" + s else s
  }

  /** `formatTime`: whole minutes, a colon, and the remaining seconds, each
      padded to two digits. */
  function FormatTime(seconds: nat): (r: string)
    ensures |r| >= 5 && r[|r| - 3] == ':'
    ensures forall i :: 0 <= i < |r| && i != |r| - 3 ==> IsDigit(r[i])
  {
    Pad2(Decimal(seconds / 60)) + ":" + Pad2(Decimal(seconds % 60))
  }

  /** The value read back from a padded number is the number. */
  lemma PaddedValue(n: nat)
    ensures forall i :: 0 <= i < |Pad2(Decimal(n))| ==> IsDigit(Pad2(Decimal(n))[i])
    ensures Value(Pad2(Decimal(n))) == n
  {
    ValueOfDecimal(n);
    if n < 10 {
      ValueLeadingZero(Decimal(n));
    }
  }

  /** The seconds part is always two digits worth 0..59, the minutes part is at
      least two digits worth `s div 60`, and they are joined by one colon. */
  lemma FormatTimeParts(s: nat)
    ensures var t := FormatTime(s);
            var m := Pad2(Decimal(s / 60));
            && |t| == |m| + 3
            && t[..|m|] == m && t[|m|] == ':'
            && |m| >= 2 && Value(m) == s / 60
            && IsDigit(t[|m| + 1]) && IsDigit(t[|m| + 2])
            && Value(t[|m| + 1..]) == s % 60 < 60
  {
    PaddedValue(s / 60);
    PaddedValue(s % 60);
    var t := FormatTime(s);
    var m := Pad2(Decimal(s / 60));
    assert t[|m| + 1..] == Pad2(Decimal(s % 60));
  }

  /** Reading a `mm:ss` string back: sixty times the minutes plus the seconds. */
  function ParseClock(t: string): nat
    requires |t| == 5 && t[2] == ':'
    requires IsDigit(t[0]) && IsDigit(t[1]) && IsDigit(t[3]) && IsDigit(t[4])
  {
    60 * (10 * DigitValue(t[0]) + DigitValue(t[1])) + 10 * DigitValue(t[3]) + DigitValue(t[4])
  }

  /** Below 100 minutes the display is exactly `mm:ss` and reads back to the
      number of seconds it shows. */
  lemma TwoDigitValue(s: string)
    requires |s| == 2 && IsDigit(s[0]) && IsDigit(s[1])
    ensures Value(s) == 10 * DigitValue(s[0]) + DigitValue(s[1])
  {
    var h := s[..1];
    assert h[..0] == [];
    assert Value(h) == DigitValue(s[0]);
  }

  lemma {:induction false} FormatTimeRoundTrip(s: nat)
    requires s < 6000
    ensures var t := FormatTime(s);
            && |t| == 5 && t[2] == ':'
            && IsDigit(t[0]) && IsDigit(t[1]) && IsDigit(t[3]) && IsDigit(t[4])
            && ParseClock(t) == s
  {
    FormatTimeParts(s);
    var t := FormatTime(s);
    var m := Pad2(Decimal(s / 60));
    assert |m| == 2;
    assert m[0] == t[0] && m[1] == t[1];
    TwoDigitValue(m);
    var sec := t[3..];
    TwoDigitValue(sec);
    assert Value(m) * 60 + Value(sec) == s;
  }
}
