/** The PIN unlock screen: a PIN of up to four digits, entered one key at a time; the
    press that fills it schedules the return to the previous screen. */
module PinPad {

  const PinLength := 4

  /** The PIN after a handler runs, and whether that press scheduled the navigation. */
  datatype PinUpdate = PinUpdate(pin: string, completed: bool)

  /** `handlePress`: a digit is appended only while the PIN is short of its length. */
  function Press(pin: string, digit: char): (r: PinUpdate)
    ensures |pin| < PinLength ==> r.pin == pin + [digit]
    ensures |pin| >= PinLength ==> r.pin == pin
    ensures r.completed <==> |pin| == PinLength - 1
  {
    if |pin| < PinLength then
      var next := pin + [digit];
      PinUpdate(next, |next| == PinLength)
    else PinUpdate(pin, false)
  }

  /** `handleClear`. */
  function Clear(pin: string): (r: string)
    ensures r == []
  {
    ""
  }

  /** `handleBackspace`: `slice(0, -1)`, which leaves an empty PIN empty. */
  function Backspace(pin: string): (r: string)
    ensures pin == [] ==> r == []
    ensures pin != [] ==> r + [pin[|pin| - 1]] == pin
  {
    if pin == [] then [] else pin[..|pin| - 1]
  }

  datatype PinEvent = DigitKey(d: char) | ClearKey | BackspaceKey

  function Step(pin: string, e: PinEvent): PinUpdate {
    match e
    case DigitKey(d) => Press(pin, d)
    case ClearKey => PinUpdate(Clear(pin), false)
    case BackspaceKey => PinUpdate(Backspace(pin), false)
  }

  /** The PIN after a sequence of key presses, and how many presses completed it. */
  function Run(pin: string, events: seq<PinEvent>): (string, nat)
    decreases |events|
  {
    if events == [] then (pin, 0)
    else
      var u := Step(pin, events[0]);
      var rest := Run(u.pin, events[1..]);
      (rest.0, rest.1 + if u.completed then 1 else 0)
  }

  /** Whatever is pressed, the PIN never grows past its length. */
  lemma {:induction false} RunBounded(pin: string, events: seq<PinEvent>)
    requires |pin| <= PinLength
    ensures |Run(pin, events).0| <= PinLength
    decreases |events|
  {
    if events != [] {
      RunBounded(Step(pin, events[0]).pin, events[1..]);
    }
  }

  function Digits(ds: seq<char>): (events: seq<PinEvent>)
    ensures |events| == |ds|
  {
    seq(|ds|, i requires 0 <= i < |ds| => DigitKey(ds[i]))
  }

  /** Typing digits into an empty PIN keeps the first four, and completes exactly once as
      soon as four have been typed. */
  lemma {:induction false} TypingDigits(pin: string, ds: seq<char>)
    requires |pin| <= PinLength
    ensures var r := Run(pin, Digits(ds));
      var n := if |pin| + |ds| <= PinLength then |ds| else PinLength - |pin|;
      r.0 == pin + ds[..n]
      && r.1 == if |pin| < PinLength && |pin| + |ds| >= PinLength then 1 else 0
    decreases |ds|
  {
    if ds != [] {
      var u := Press(pin, ds[0]);
      assert Digits(ds)[1..] == Digits(ds[1..]);
      TypingDigits(u.pin, ds[1..]);
      if |pin| < PinLength {
        var n := if |pin| + |ds| <= PinLength then |ds| else PinLength - |pin|;
        assert pin + ds[..n] == u.pin + ds[1..][..n - 1];
      }
    }
  }
}
