/** The amount keypad of the add-contribution screen: the amount is a string edited one
    key at a time, starting from `'0.00'`. */
module Keypad {
  import opened Base

  const InitialAmount := "0.00"

  /** A key press. The screen wires ten digit keys, `'.'` and `'backspace'`; the handler
      treats any other key text as a digit. */
  datatype Key = Digit(c: char) | Dot | Backspace

  /** A key the screen actually shows. */
  predicate OnKeypad(k: Key) {
    k.Digit? ==> IsDigit(k.c)
  }

  /** `parts[1] && parts[1].length >= 2`, where `parts = amount.split('.')`: at least two
      characters already follow the first `'.'` (up to any second one). */
  predicate DecimalsFull(amount: string) {
    var parts := Split(amount, '.');
    |parts| > 1 && |parts[1]| >= 2
  }

  /** `handleKeypadPress`. */
  function Press(amount: string, k: Key): (r: string)
    ensures r != []
    // backspace drops the last character, and never empties the display
    ensures k.Backspace? && |amount| > 1 ==> r == amount[..|amount| - 1]
    ensures k.Backspace? && |amount| <= 1 ==> r == "0"
    // a dot is added once, at the end
    ensures k.Dot? && '.' in amount ==> r == amount
    ensures k.Dot? && '.' !in amount ==> r == amount + "."
    // a digit replaces a zero display, and is otherwise appended unless two decimals are there
    ensures k.Digit? && (amount == "0" || amount == InitialAmount) ==> r == [k.c]
    ensures k.Digit? && amount != "0" && amount != InitialAmount ==>
      (r == amount <==> DecimalsFull(amount)) && (r != amount ==> r == amount + [k.c])
  {
    match k
    case Backspace => if |amount| > 1 then amount[..|amount| - 1] else "0"
    case Dot => if '.' in amount then amount else amount + "."
    case Digit(c) =>
      if amount == "0" || amount == InitialAmount then [c]
      else if DecimalsFull(amount) then amount
      else amount + [c]
  }

  /** The amount after a sequence of presses. */
  function PressAll(amount: string, keys: seq<Key>): string
    decreases |keys|
  {
    if keys == [] then amount else PressAll(Press(amount, keys[0]), keys[1..])
  }

  /** There is a `'.'` at index `i`. */
  predicate DotAt(a: string, i: int) {
    0 <= i < |a| && a[i] == '.'
  }

  ghost predicate AtMostOneDot(a: string) {
    forall i, j :: DotAt(a, i) && DotAt(a, j) ==> i == j
  }

  /** For an amount with at most one `'.'`, `split('.')` sees the decimals as everything
      after it, so a digit is refused exactly when two decimals are already there. */
  lemma DecimalsFullIff(a: string)
    requires AtMostOneDot(a)
    ensures DecimalsFull(a) <==> exists i :: DotAt(a, i) && |a| - i - 1 >= 2
  {
    if '.' in a {
      var i :| 0 <= i < |a| && a[i] == '.';
      assert DotAt(a, i);
      var p, q := a[..i], a[i + 1..];
      assert a == p + ['.'] + q;
      assert '.' !in p by {
        forall j | 0 <= j < |p| ensures p[j] != '.' { assert !DotAt(a, j); }
      }
      assert '.' !in q by {
        forall j | 0 <= j < |q| ensures q[j] != '.' { assert !DotAt(a, i + 1 + j); }
      }
      SplitAtFirst(p, '.', q);
      SplitNoSeparator(q, '.');
      assert Split(a, '.') == [p, q];
    } else {
      SplitNoSeparator(a, '.');
    }
  }

  /** What the display can show: a non-empty run of digits with at most one `'.'`, at
      most two digits after it, a leading digit and no redundant leading zero. */
  ghost predicate WellFormed(a: string) {
    && a != [] && IsDigit(a[0])
    && (forall i :: 0 <= i < |a| ==> IsDigit(a[i]) || a[i] == '.')
    && AtMostOneDot(a)
    && (forall i :: DotAt(a, i) ==> |a| - i <= 3)
    && !(|a| >= 2 && a[0] == '0' && IsDigit(a[1]))
  }

  lemma PressWellFormed(a: string, k: Key)
    requires WellFormed(a) && OnKeypad(k)
    ensures WellFormed(Press(a, k))
  {
    var r := Press(a, k);
    match k
    case Backspace =>
      if |a| > 1 {
        assert forall i :: DotAt(r, i) ==> DotAt(a, i);
      }
    case Dot =>
      if '.' !in a {
        assert forall i :: DotAt(r, i) ==> i == |a|;
      }
    case Digit(c) =>
      if a != "0" && a != InitialAmount {
        DecimalsFullIff(a);
        if !DecimalsFull(a) {
          assert forall i :: DotAt(r, i) ==> DotAt(a, i);
          if |a| == 1 {
            assert a[0] != '0';
          }
        }
      }
  }

  /** Every amount reachable from the initial `'0.00'` through the screen's keys is well
      formed. */
  lemma {:induction false} ReachableWellFormed(a: string, keys: seq<Key>)
    requires WellFormed(a)
    requires forall i :: 0 <= i < |keys| ==> OnKeypad(keys[i])
    ensures WellFormed(PressAll(a, keys))
    decreases |keys|
  {
    if keys != [] {
      PressWellFormed(a, keys[0]);
      ReachableWellFormed(Press(a, keys[0]), keys[1..]);
    }
  }

  lemma InitialWellFormed()
    ensures WellFormed(InitialAmount)
  {
    assert forall i :: DotAt(InitialAmount, i) ==> i == 1;
  }

  /** The screen's amount, whatever keys were pressed since it opened. */
  lemma ReachableFromInitial(keys: seq<Key>)
    requires forall i :: 0 <= i < |keys| ==> OnKeypad(keys[i])
    ensures WellFormed(PressAll(InitialAmount, keys))
  {
    InitialWellFormed();
    ReachableWellFormed(InitialAmount, keys);
  }

  /** Backspace undoes any key that lengthened the amount. */
  lemma BackspaceUndoes(a: string, k: Key)
    requires a != [] && |Press(a, k)| == |a| + 1
    ensures Press(Press(a, k), Backspace) == a
  {
  }

  /** On a well-formed amount other than `'0'` and `'0.00'`, a digit is ignored exactly
      when two decimals are already present, and appended otherwise. */
  lemma DigitIgnoredIff(a: string, c: char)
    requires WellFormed(a) && a != "0" && a != InitialAmount
    ensures Press(a, Digit(c)) == a <==> exists i :: DotAt(a, i) && |a| - i - 1 == 2
    ensures Press(a, Digit(c)) != a ==> Press(a, Digit(c)) == a + [c]
  {
    DecimalsFullIff(a);
    assert |a + [c]| != |a|;
  }
}
