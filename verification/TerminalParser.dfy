/** The escape-sequence parser of the terminal emulator: what each byte does to the parse state, and to which of
    the two screens is shown. It does not depend on what the screens hold. */
module TerminalParser {
  type Byte = n: int | 0 <= n < 256

  datatype ParseState = Normal | Escape | CSI | DCS | OSC

  datatype Parser = Parser(
    state: ParseState,
    escapeSeq: seq<Byte>,
    csiIntermediate: Byte,
    expectingCharSet: bool,
    utf8Buffer: seq<Byte>,
    useAltScreen: bool)

  const ESC: Byte := 0x1b
  const BEL: Byte := 0x07
  const ALT_SCREEN_MODE := 1049
  const MAX_INT := 0x7fff_ffff_ffff_ffff

  predicate IsDigits(part: seq<Byte>) {
    forall i :: 0 <= i < |part| ==> 0x30 <= part[i] <= 0x39
  }

  function Number(part: seq<Byte>): nat
    requires IsDigits(part)
  {
    if part == [] then 0 else 10 * Number(part[..|part| - 1]) + part[|part| - 1] - 0x30
  }

  function SplitSemicolons(s: seq<Byte>): (parts: seq<seq<Byte>>)
    ensures |parts| > 0
  {
    if s == [] then [[]]
    else
      var rest := SplitSemicolons(s[1..]);
      if s[0] == 0x3b then [[]] + rest else [[s[0]] + rest[0]] + rest[1..]
  }

  /** Every parameter is a 64-bit number. */
  predicate ParamsFit(params: seq<nat>) {
    forall i :: 0 <= i < |params| ==> params[i] <= MAX_INT
  }

  /** An empty part counts as 0; a part that is no number, or too large a one, is left out. */
  function ParseNumbers(parts: seq<seq<Byte>>): (params: seq<nat>)
    ensures ParamsFit(params)
  {
    if parts == [] then []
    else
      var part, rest := parts[0], ParseNumbers(parts[1..]);
      if part == [] then [0] + rest
      else if IsDigits(part) && Number(part) <= MAX_INT then [Number(part)] + rest
      else rest
  }

  function ParseCSIParams(escapeSeq: seq<Byte>): (params: seq<nat>)
    ensures ParamsFit(params)
  {
    if escapeSeq == [] then []
    else ParseNumbers(SplitSemicolons(if escapeSeq[0] == 0x3f then escapeSeq[1..] else escapeSeq))
  }

  function AltScreenAfter(command: Byte, params: seq<nat>, useAltScreen: bool): bool {
    if command == 'h' as int && ALT_SCREEN_MODE in params then true
    else if command == 'l' as int && ALT_SCREEN_MODE in params then false
    else useAltScreen
  }

  function NextNormal(fullRune: seq<Byte> -> bool, p: Parser, b: Byte): Parser {
    if |p.utf8Buffer| > 0 || b >= 128 then
      p.(utf8Buffer := if fullRune(p.utf8Buffer + [b]) then [] else p.utf8Buffer + [b])
    else if p.expectingCharSet then p.(expectingCharSet := false)
    else if b == ESC then p.(state := Escape, escapeSeq := [])
    else p
  }

  function NextEscape(p: Parser, b: Byte): Parser {
    if b == '[' as int then p.(state := CSI, escapeSeq := [], csiIntermediate := 0)
    else if b == '(' as int then p.(state := Normal, expectingCharSet := true)
    else if b == 'P' as int then p.(state := DCS, escapeSeq := [])
    else if b == ']' as int then p.(state := OSC, escapeSeq := [])
    else p.(state := Normal)
  }

  predicate IsFinal(b: Byte) {
    0x40 <= b <= 0x7e
  }

  function NextCSI(p: Parser, b: Byte): Parser {
    if 0x30 <= b <= 0x3f then p.(escapeSeq := p.escapeSeq + [b])
    else if 0x20 <= b <= 0x2f then p.(csiIntermediate := b)
    else
      var alt := if IsFinal(b) && p.csiIntermediate == 0
                 then AltScreenAfter(b, ParseCSIParams(p.escapeSeq), p.useAltScreen) else p.useAltScreen;
      p.(state := Normal, csiIntermediate := 0, useAltScreen := alt)
  }

  function Next(fullRune: seq<Byte> -> bool, p: Parser, b: Byte): Parser {
    match p.state
    case Normal => NextNormal(fullRune, p, b)
    case Escape => NextEscape(p, b)
    case CSI => NextCSI(p, b)
    case DCS => if b == ESC then p.(state := Escape) else p
    case OSC => if b == ESC then p.(state := Escape) else if b == BEL then p.(state := Normal) else p
  }

  function After(fullRune: seq<Byte> -> bool, p: Parser, data: seq<Byte>): Parser {
    if data == [] then p else Next(fullRune, After(fullRune, p, data[..|data| - 1]), data[|data| - 1])
  }

  /** Every byte of data is handled on the alternate screen or enters it: an excursion from the main screen, up
      to and including the byte that leaves. */
  ghost predicate Excursion(fullRune: seq<Byte> -> bool, p: Parser, data: seq<Byte>) {
    forall i :: 0 <= i < |data| ==>
      After(fullRune, p, data[..i]).useAltScreen || After(fullRune, p, data[..i + 1]).useAltScreen
  }

  lemma AfterNext(fullRune: seq<Byte> -> bool, p: Parser, data: seq<Byte>, n: nat)
    requires n < |data|
    ensures After(fullRune, p, data[..n + 1]) == Next(fullRune, After(fullRune, p, data[..n]), data[n])
  {
    assert data[..n + 1][..n] == data[..n];
  }

  lemma ExcursionPrefix(fullRune: seq<Byte> -> bool, p: Parser, data: seq<Byte>, n: nat)
    requires n < |data| && Excursion(fullRune, p, data[..n + 1])
    ensures Excursion(fullRune, p, data[..n])
    ensures After(fullRune, p, data[..n]).useAltScreen || After(fullRune, p, data[..n + 1]).useAltScreen
  {
    forall i | 0 <= i < n
      ensures After(fullRune, p, data[..n][..i]).useAltScreen || After(fullRune, p, data[..n][..i + 1]).useAltScreen
    {
      assert data[..n][..i] == data[..n + 1][..i] && data[..n][..i + 1] == data[..n + 1][..i + 1];
    }
    assert data[..n + 1][..n] == data[..n] && data[..n + 1][..n + 1] == data[..n + 1];
  }

  /** ESC [ ? 1 0 4 9 followed by h or l. */
  function SwitchSequence(final: Byte): seq<Byte> {
    [ESC, 0x5b, 0x3f, 0x31, 0x30, 0x34, 0x39, final]
  }

  lemma {:induction false} OnePart(s: seq<Byte>)
    requires 0x3b !in s
    ensures SplitSemicolons(s) == [s]
  {
    if s != [] {
      OnePart(s[1..]);
      assert [s[0]] + s[1..] == s;
    }
  }

  lemma AltScreenParams()
    ensures ParseCSIParams([0x3f, 0x31, 0x30, 0x34, 0x39]) == [ALT_SCREEN_MODE]
  {
    var s: seq<Byte> := [0x31, 0x30, 0x34, 0x39];
    OnePart(s);
    assert s[..3] == [0x31, 0x30, 0x34] && s[..3][..2] == [0x31, 0x30] && s[..3][..2][..1] == [0x31];
    assert Number([0x31]) == 1 && Number([0x31, 0x30]) == 10 && Number([0x31, 0x30, 0x34]) == 104 && Number(s) == 1049;
    var withMark: seq<Byte> := [0x3f, 0x31, 0x30, 0x34, 0x39];
    assert withMark[1..] == s && [s][1..] == [];
    assert ParseNumbers([s]) == [Number(s)] + ParseNumbers([]);
    assert ParseCSIParams(withMark) == ParseNumbers(SplitSemicolons(withMark[1..]));
  }

  /** From the normal state the sequence enters or leaves the alternate screen, with its last byte. */
  lemma SwitchSequenceSwitches(fullRune: seq<Byte> -> bool, p: Parser, final: Byte)
    requires p.state == Normal && p.utf8Buffer == [] && !p.expectingCharSet
    requires final == 'h' as int || final == 'l' as int
    ensures After(fullRune, p, SwitchSequence(final)[..7]).useAltScreen == p.useAltScreen
    ensures After(fullRune, p, SwitchSequence(final)).useAltScreen == (final == 'h' as int)
  {
    hide ParseCSIParams;
    var s := SwitchSequence(final);
    var p2 := p.(state := CSI, escapeSeq := [], csiIntermediate := 0);
    assert s[..0] == [] && s[..1][..0] == s[..0] && s[..2][..1] == s[..1] && s[..3][..2] == s[..2]
        && s[..4][..3] == s[..3]
        && s[..5][..4] == s[..4] && s[..6][..5] == s[..5] && s[..7][..6] == s[..6];
    assert After(fullRune, p, s[..1]) == p.(state := Escape, escapeSeq := []);
    assert After(fullRune, p, s[..2]) == p2;
    assert After(fullRune, p, s[..3]) == p2.(escapeSeq := [0x3f]);
    assert After(fullRune, p, s[..4]) == p2.(escapeSeq := [0x3f, 0x31]);
    assert After(fullRune, p, s[..5]) == p2.(escapeSeq := [0x3f, 0x31, 0x30]);
    assert After(fullRune, p, s[..6]) == p2.(escapeSeq := [0x3f, 0x31, 0x30, 0x34]);
    assert After(fullRune, p, s[..7]) == p2.(escapeSeq := [0x3f, 0x31, 0x30, 0x34, 0x39]);
    AltScreenParams();
  }
}
