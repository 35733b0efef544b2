/**
 * The recording overlay's clock. The timer counts ticks of a tenth of a
 * second; the display is minutes and seconds, each zero-padded to two
 * digits (minutes grow past two digits after 100 minutes).
 */
module ChatTimer {
  import opened Strings

  /** A zero-padded decimal rendering reads back as the number it renders. */
  lemma Pad2Value(n: nat)
    ensures AllDigits(PadStart2(NatToString(n)))
    ensures DigitsValue(PadStart2(NatToString(n))) == n
    ensures n < 100 ==> |PadStart2(NatToString(n))| == 2
    ensures n >= 100 ==> |PadStart2(NatToString(n))| >= 3
  {
    var s := NatToString(n);
    NatToStringRoundTrip(n);
    if |s| < 2 {
      LeadingZeros(2 - |s|, s);
    }
  }

  lemma ClockFields(m: string, sec: string)
    requires |sec| == 2
    ensures var r := m + ":" + sec; |r| == |m| + 3 && r[..|r| - 3] == m && r[|r| - 3] == ':' && r[|r| - 2..] == sec
  {
  }

  lemma TickArithmetic(t: nat)
    ensures (t % 600) / 10 < 60
    ensures t / 600 < 100 <==> t < 60000
  {
  }

  /** `formatTimer`: ticks of 0.1 s rendered as `MM:SS`. */
  function FormatTimer(t: nat): (r: string)
    ensures |r| >= 5 && r[|r| - 3] == ':'
    ensures AllDigits(r[..|r| - 3]) && AllDigits(r[|r| - 2..])
    // the minutes field reads back as whole minutes, the seconds field as the seconds past them
    ensures DigitsValue(r[..|r| - 3]) == t / 600
    ensures DigitsValue(r[|r| - 2..]) == (t % 600) / 10
    ensures DigitsValue(r[|r| - 2..]) < 60
    // the display keeps its five-character shape for the first 100 minutes
    ensures |r| == 5 <==> t < 60000
  {
    var minutes := PadStart2(NatToString(t / 600));
    var seconds := PadStart2(NatToString((t % 600) / 10));
    Pad2Value(t / 600);
    Pad2Value((t % 600) / 10);
    TickArithmetic(t);
    ClockFields(minutes, seconds);
    minutes + ":" + seconds
  }

  lemma FormatTimerExamples()
    ensures FormatTimer(0) == "00:00"
    ensures FormatTimer(655) == "01:05"
  {
  }
}
