/** `components/RecorderControl.tsx`: the `MM:SS` clock text and the flags
    that choose what the record button does and which labels are shown. */
module Recorder {
  import opened Types

  // ---------------------------------------------------------------------
  // Decimal digits

  predicate IsDigit(c: char) {
    '0' <= c <= '9'
  }

  predicate AllDigits(s: string) {
    forall i :: 0 <= i < |s| ==> IsDigit(s[i])
  }

  function DigitChar(d: nat): (c: char)
    requires d < 10
    ensures IsDigit(c)
  {
    ['0', '1', '2', '3', '4', '5', '6', '7', '8', '9'][d]
  }

  function DigitValue(c: char): (d: nat)
    requires IsDigit(c)
    ensures d < 10
  {
    (c as int - '0' as int) as nat
  }

  /** The number a string of decimal digits denotes (leading zeros allowed). */
  function Value(s: string): nat
    requires AllDigits(s)
  {
    if |s| == 0 then 0 else Value(s[..|s| - 1]) * 10 + DigitValue(s[|s| - 1])
  }

  /** `Number.prototype.toString()` on a non-negative integer: its decimal
      digits, without leading zeros. */
  function Dec(n: nat): (s: string)
    ensures |s| >= 1 && AllDigits(s)
    ensures |s| == 1 <==> n < 10
    ensures n >= 10 ==> s[0] != '0'
  {
    if n < 10 then [DigitChar(n)] else Dec(n / 10) + [DigitChar(n % 10)]
  }

  /** Reading the decimal digits back gives the number. */
  lemma {:induction false} DecValue(n: nat)
    ensures Value(Dec(n)) == n
  {
    if n >= 10 {
      var s := Dec(n);
      assert s[..|s| - 1] == Dec(n / 10);
      DecValue(n / 10);
      assert DigitValue(DigitChar(n % 10)) == n % 10;
    } else {
      assert DigitValue(DigitChar(n)) == n;
    }
  }

  /** A leading zero does not change the value. */
  lemma {:induction false} LeadingZeroValue(s: string)
    requires AllDigits(s)
    ensures AllDigits("0" + s) && Value("0" + s) == Value(s)
  {
    if |s| > 0 {
      var t := "0" + s;
      assert t[..|t| - 1] == "0" + s[..|s| - 1];
      LeadingZeroValue(s[..|s| - 1]);
    }
  }

  /** `padStart(2, '0')`: a one-character string gets a leading zero. */
  function Pad2(s: string): (r: string)
    ensures |s| >= 2 ==> r == s
    ensures |s| < 2 ==> |r| == 2 && r[2 - |s|..] == s && forall i :: 0 <= i < 2 - |s| ==> r[i] == '0'
  {
    if |s| >= 2 then s else if |s| == 1 then "0" + s else "00"
  }

  lemma Pad2Value(s: string)
    requires |s| >= 1 && AllDigits(s)
    ensures AllDigits(Pad2(s)) && Value(Pad2(s)) == Value(s)
  {
    if |s| == 1 {
      LeadingZeroValue(s);
    }
  }

  // ---------------------------------------------------------------------
  // The clock text

  /** formatTime: whole minutes, a colon and the remaining seconds, each
      padded to two digits. */
  function FormatTime(seconds: nat): string {
    Pad2(Dec(seconds / 60)) + ":" + Pad2(Dec(seconds % 60))
  }

  /** The shape of the clock text: at least two minute digits, a colon, then
      exactly two second digits naming 0..59; and minutes * 60 + seconds is
      the input. */
  lemma FormatTimeShape(seconds: nat)
    ensures var r := FormatTime(seconds);
      && |r| >= 5 && r[|r| - 3] == ':'
      && AllDigits(r[..|r| - 3]) && AllDigits(r[|r| - 2..])
      && Value(r[|r| - 2..]) < 60
      && Value(r[..|r| - 3]) * 60 + Value(r[|r| - 2..]) == seconds
  {
    var m := Pad2(Dec(seconds / 60));
    var s := Pad2(Dec(seconds % 60));
    var r := FormatTime(seconds);
    assert |s| == 2;
    assert r[..|r| - 3] == m;
    assert r[|r| - 2..] == s;
    Pad2Value(Dec(seconds / 60));
    Pad2Value(Dec(seconds % 60));
    DecValue(seconds / 60);
    DecValue(seconds % 60);
  }

  /** Distinct times read differently. */
  lemma FormatTimeInjective(a: nat, b: nat)
    requires FormatTime(a) == FormatTime(b)
    ensures a == b
  {
    FormatTimeShape(a);
    FormatTimeShape(b);
  }

  // ---------------------------------------------------------------------
  // The control's flags

  /** What the big button calls when clicked. */
  datatype ButtonAction = OnStop | OnStart

  /** What the control shows for a status, an elapsed time and a limit; a
      label is `None` when it is not rendered. */
  datatype ControlView = ControlView(
    action: ButtonAction,
    disabled: bool,
    elapsedLabel: Option<string>,
    limitLabel: Option<string>,
    autoStopNotice: Option<string>)

  function IsRecording(status: Status): bool {
    status == RECORDING
  }

  function HasLimit(maxDuration: int): bool {
    maxDuration > 0
  }

  /** The rendered control: recording swaps the button to stop and shows the
      clock; the limit and the auto-stop notice appear only with a limit;
      the button is disabled only while notes are being generated. */
  function Render(status: Status, elapsedTime: nat, maxDuration: int): (v: ControlView)
    ensures v.action == OnStop <==> status == RECORDING
    ensures v.disabled <==> status == GENERATING
    ensures v.elapsedLabel.Some? <==> status == RECORDING
    ensures v.limitLabel.Some? <==> status == RECORDING && maxDuration > 0
    ensures v.autoStopNotice.Some? <==> v.limitLabel.Some?
    ensures v.elapsedLabel.Some? ==> v.elapsedLabel.value == FormatTime(elapsedTime)
    ensures v.limitLabel.Some? ==> v.limitLabel.value == FormatTime(maxDuration as nat)
    ensures v.autoStopNotice.Some? ==>
      v.autoStopNotice.value == "Recording will stop automatically at " + FormatTime(maxDuration as nat)
  {
    var recording := IsRecording(status);
    var limited := HasLimit(maxDuration);
    ControlView(
      if recording then OnStop else OnStart,
      status == GENERATING,
      if recording then Some(FormatTime(elapsedTime)) else None,
      if recording && limited then Some(FormatTime(maxDuration as nat)) else None,
      if recording && limited then Some("Recording will stop automatically at " + FormatTime(maxDuration as nat)) else None)
  }
}
