/** The keydown filter on an item's editable price: which keystrokes it lets
    through to the text, and what that means for the number of decimal points. */
module PriceKeys {

  type DigitValue = d: int | 0 <= d < 10

  /** A keystroke, classified the way the filter looks at it: a key whose name
      is a numeral; the space bar, whose name " " also reads as a finite
      number; the full-stop key (key code 190), which types '>' when shifted;
      backspace (8); the left and right arrows (37, 39); or any other key. */
  datatype Key = Digit(d: DigitValue) | Space | Point(shifted: bool) | Backspace | ArrowLeft | ArrowRight | Other

  /** The number of decimal points in a text. */
  function PointCount(s: string): (n: nat)
  {
    if s == [] then 0 else (if s[0] == '.' then 1 else 0) + PointCount(s[1..])
  }

  /** Whether the keydown handler lets the keystroke through (does not call
      preventDefault) when the price currently reads `text`. */
  function Accepts(k: Key, text: string): (r: bool)
    ensures r <==> k.Digit? || k == Space || k == Backspace || k == ArrowLeft || k == ArrowRight || (k.Point? && '.' !in text)
  {
    if k.Point? && '.' in text then false
    else if !(k.Digit? || k == Space) && !k.Point? && k != Backspace && k != ArrowLeft && k != ArrowRight then false
    else true
  }

  function DigitChar(d: DigitValue): (c: char)
    ensures '0' <= c <= '9'
  {
    ('0' as int + d) as char
  }

  /** The browser's default action for a keystroke that is let through, with
      the caret at `caret`: a numeral, a space, a point or (shifted) '>' is
      inserted there, backspace deletes the character before it, and the
      arrows leave the text alone. */
  function Edit(text: string, caret: nat, k: Key): (r: string)
    requires caret <= |text|
  {
    match k
    case Digit(d) => text[..caret] + [DigitChar(d)] + text[caret..]
    case Space => text[..caret] + [' '] + text[caret..]
    case Point(shifted) => text[..caret] + [if shifted then '>' else '.'] + text[caret..]
    case Backspace => if caret == 0 then text else text[..caret - 1] + text[caret..]
    case _ => text
  }

  /** The text after one keystroke: edited when let through, unchanged when prevented. */
  function Keystroke(text: string, caret: nat, k: Key): (r: string)
    requires caret <= |text|
  {
    if Accepts(k, text) then Edit(text, caret, k) else text
  }

  lemma {:induction false} PointCountConcat(a: string, b: string)
    ensures PointCount(a + b) == PointCount(a) + PointCount(b)
    decreases |a|
  {
    if a == [] {
      assert a + b == b;
    } else {
      assert (a + b)[1..] == a[1..] + b;
      PointCountConcat(a[1..], b);
    }
  }

  lemma {:induction false} NoPointCountsZero(s: string)
    requires '.' !in s
    ensures PointCount(s) == 0
    decreases |s|
  {
    if s != [] {
      assert s[0] in s;
      assert forall c :: c in s[1..] ==> c in s;
      NoPointCountsZero(s[1..]);
    }
  }

  lemma PointCountInsert(a: string, c: char, b: string)
    ensures PointCount(a + [c] + b) == PointCount(a) + (if c == '.' then 1 else 0) + PointCount(b)
  {
    PointCountConcat(a, [c]);
    PointCountConcat(a + [c], b);
  }

  lemma PointCountDelete(text: string, caret: nat)
    requires 0 < caret <= |text|
    ensures PointCount(text[..caret - 1] + text[caret..]) <= PointCount(text)
  {
    assert text == text[..caret - 1] + [text[caret - 1]] + text[caret..];
    PointCountInsert(text[..caret - 1], text[caret - 1], text[caret..]);
    PointCountConcat(text[..caret - 1], text[caret..]);
  }

  /** Typing into a price that holds at most one decimal point never produces
      a second one: a point is only let through while there is none. */
  lemma {:induction false} AtMostOnePoint(text: string, caret: nat, k: Key)
    requires caret <= |text|
    requires PointCount(text) <= 1
    ensures PointCount(Keystroke(text, caret, k)) <= 1
  {
    if Accepts(k, text) {
      assert text == text[..caret] + text[caret..];
      PointCountConcat(text[..caret], text[caret..]);
      match k
      case Digit(d) =>
        PointCountInsert(text[..caret], DigitChar(d), text[caret..]);
      case Space =>
        PointCountInsert(text[..caret], ' ', text[caret..]);
      case Point(shifted) =>
        NoPointCountsZero(text);
        PointCountInsert(text[..caret], if shifted then '>' else '.', text[caret..]);
      case Backspace =>
        if caret > 0 {
          PointCountDelete(text, caret);
        }
      case _ =>
    }
  }

  /** A prevented keystroke leaves the price text exactly as it was. */
  lemma {:induction false} RejectedLeavesText(text: string, caret: nat, k: Key)
    requires caret <= |text|
    requires !Accepts(k, text)
    ensures Keystroke(text, caret, k) == text
    ensures k == Other || (k.Point? && PointCount(text) >= 1)
  {
    if k.Point? {
      assert '.' in text;
      var i :| 0 <= i < |text| && text[i] == '.';
      assert text == text[..i] + text[i..];
      PointCountConcat(text[..i], text[i..]);
    }
  }
}
