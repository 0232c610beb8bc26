/** The key bindings of the terminal UI's configuration file: a key is
    written as a single character, `^` followed by a character for Ctrl, or
    `@` followed by a character for Alt. Reading a binding first drops all
    non-ASCII and whitespace characters; printing writes the same notation
    back, and serialising a binding writes its printed form. */
module KantuiConfig {
  import opened Wrappers

  const CtrlRepr: char := '^'
  const AltRepr: char := '@'

  /** The terminal library's events: the three character events a binding
      can name, and every other event (function keys, mouse, resize, ...). */
  datatype Event = Char(c: char) | CtrlChar(c: char) | AltChar(c: char) | OtherEvent(code: int)

  datatype KbdEvent = KbdEvent(event: Event)

  datatype DecodeError = NoFirstChar | NoSecondChar(prefix: char)

  /** Rust's `char::is_whitespace` on ASCII: tab, line feed, vertical tab,
      form feed, carriage return and space. */
  predicate IsAsciiWhitespace(c: char)
  {
    c == ' ' || ('\t' <= c <= '\r')
  }

  /** The characters a binding keeps: ASCII and not whitespace. */
  predicate Kept(c: char)
  {
    (c as int) < 128 && !IsAsciiWhitespace(c)
  }

  /** The kept characters of `s`, in order. */
  function Filter(s: string): string
  {
    if s == [] then [] else (if Kept(s[0]) then [s[0]] else []) + Filter(s[1..])
  }

  /** The printed form of a binding (`Display`, also what `Serialize`
      writes). */
  function Display(k: KbdEvent): string
  {
    match k.event
    case Char(c) => [c]
    case CtrlChar(c) => [CtrlRepr, c]
    case AltChar(c) => [AltRepr, c]
    case OtherEvent(_) => ""
  }

  /** Reading a binding from a configuration string. */
  function Deserialize(text: string): Result<KbdEvent, DecodeError>
  {
    var s := Filter(text);
    if |s| == 0 then Err(NoFirstChar)
    else if s[0] == CtrlRepr then
      (if |s| < 2 then Err(NoSecondChar(CtrlRepr)) else Ok(KbdEvent(CtrlChar(s[1]))))
    else if s[0] == AltRepr then
      (if |s| < 2 then Err(NoSecondChar(AltRepr)) else Ok(KbdEvent(AltChar(s[1]))))
    else Ok(KbdEvent(Char(s[0])))
  }

  /** The filter keeps exactly the kept characters: every kept character
      as often as it occurs, and no other character at all. */
  lemma {:induction false} FilterKeepsCounts(s: string)
    ensures forall x :: multiset(Filter(s))[x] == if Kept(x) then multiset(s)[x] else 0
  {
    if s != [] {
      FilterKeepsCounts(s[1..]);
      var head := if Kept(s[0]) then [s[0]] else [];
      assert Filter(s) == head + Filter(s[1..]);
      assert multiset(Filter(s)) == multiset(head) + multiset(Filter(s[1..]));
      assert s == [s[0]] + s[1..];
      assert multiset(s) == multiset([s[0]]) + multiset(s[1..]);
    }
  }

  /** The filter's output is made of kept characters only; it never
      lengthens and leaves a string of kept characters alone. Which
      characters it keeps is `FilterKeepsCounts`; that it keeps their order
      is `FilterAppend`. */
  lemma {:induction false} FilterSpec(s: string)
    ensures |Filter(s)| <= |s|
    ensures forall j :: 0 <= j < |Filter(s)| ==> Kept(Filter(s)[j])
    ensures (forall j :: 0 <= j < |s| ==> Kept(s[j])) ==> Filter(s) == s
  {
    if s != [] {
      FilterSpec(s[1..]);
      var head := if Kept(s[0]) then [s[0]] else [];
      assert Filter(s) == head + Filter(s[1..]);
      forall j | 0 <= j < |Filter(s)| ensures Kept(Filter(s)[j]) {
        if j >= |head| {
          assert Filter(s)[j] == Filter(s[1..])[j - |head|];
        }
      }
      if forall j :: 0 <= j < |s| ==> Kept(s[j]) {
        assert forall j :: 0 <= j < |s[1..]| ==> s[1..][j] == s[j + 1];
        assert s == [s[0]] + s[1..];
      }
    }
  }

  lemma {:induction false} FilterAppend(a: string, b: string)
    ensures Filter(a + b) == Filter(a) + Filter(b)
  {
    if a == [] {
      assert a + b == b;
    } else {
      var head := if Kept(a[0]) then [a[0]] else [];
      assert (a + b)[0] == a[0];
      assert (a + b)[1..] == a[1..] + b;
      calc {
        Filter(a + b);
        head + Filter(a[1..] + b);
        { FilterAppend(a[1..], b); }
        head + (Filter(a[1..]) + Filter(b));
      }
    }
  }

  /** Printing then reading gives the binding back for every character
      event on a kept character, except the plain keys `^` and `@`, which
      read back as an incomplete Ctrl or Alt binding. */
  lemma RoundTrip(k: KbdEvent)
    requires !k.event.OtherEvent? && Kept(k.event.c)
    ensures k.event != Char(CtrlRepr) && k.event != Char(AltRepr) ==> Deserialize(Display(k)) == Ok(k)
    ensures k.event == Char(CtrlRepr) ==> Deserialize(Display(k)) == Err(NoSecondChar(CtrlRepr))
    ensures k.event == Char(AltRepr) ==> Deserialize(Display(k)) == Err(NoSecondChar(AltRepr))
  {
    FilterSpec(Display(k));
  }

  /** An event that is not a character event prints as the empty string,
      which does not read back. */
  lemma OtherEventNotReadable(k: KbdEvent)
    requires k.event.OtherEvent?
    ensures Display(k) == ""
    ensures Deserialize(Display(k)) == Err(NoFirstChar)
  {
  }

  /** A binding read from any text prints to a canonical form that reads
      back to the same binding. */
  lemma ReadPrintRead(text: string)
    requires Deserialize(text).Ok?
    ensures Deserialize(Display(Deserialize(text).value)) == Deserialize(text)
  {
    FilterSpec(text);
    var k := Deserialize(text).value;
    RoundTrip(k);
  }

  /** Once the kept characters of `text` name a complete binding, whatever
      follows is ignored. */
  lemma IgnoresRest(text: string, rest: string)
    requires Deserialize(text).Ok?
    ensures Deserialize(text + rest) == Deserialize(text)
  {
    FilterAppend(text, rest);
    var s := Filter(text);
    assert (s + Filter(rest))[..|s|] == s;
  }

  /** Reading: no kept character is an error, a lone prefix is an error,
      and otherwise the first one or two kept characters decide. */
  lemma DeserializeCases(text: string)
    ensures Filter(text) == [] ==> Deserialize(text) == Err(NoFirstChar)
    ensures Filter(text) == [CtrlRepr] ==> Deserialize(text) == Err(NoSecondChar(CtrlRepr))
    ensures Filter(text) == [AltRepr] ==> Deserialize(text) == Err(NoSecondChar(AltRepr))
    ensures Deserialize(text).Ok? ==> Display(Deserialize(text).value) == Filter(text)[..|Display(Deserialize(text).value)|]
  {
  }

  /** Whitespace and non-ASCII characters anywhere are skipped. */
  lemma DeserializeSkipsWhitespace()
    ensures Deserialize(" ^ \U{e9}\tq") == Ok(KbdEvent(CtrlChar('q')))
  {
    assert Filter(" ^ \U{e9}\tq") == "^q";
  }
}
