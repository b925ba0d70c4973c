/** Sequences as an application writes them: a control sequence comes out of the parser with the parameters that went
    in, and text between saving and restoring the cursor leaves the cursor where it was. */
module TerminalSequences {
  import opened TerminalParser
  import opened TerminalScreen
  import opened TerminalText

  // ----- Writing a control sequence -----

  /** A number in decimal digits. */
  function Digits(n: nat): (part: seq<Byte>)
    ensures IsDigits(part) && Number(part) == n && |part| > 0
  {
    if n < 10 then
      assert Number([]) == 0;
      [n + 0x30]
    else
      var front: seq<Byte> := Digits(n / 10);
      var part := front + [n % 10 + 0x30];
      assert part[..|part| - 1] == front;
      part
  }

  /** Parameters, separated by semicolons. */
  function Rendered(params: seq<nat>): seq<Byte> {
    if params == [] then []
    else if |params| == 1 then Digits(params[0])
    else Digits(params[0]) + [0x3b] + Rendered(params[1..])
  }

  lemma {:induction false} SplitsOff(part: seq<Byte>, rest: seq<Byte>)
    requires 0x3b !in part
    ensures SplitSemicolons(part + [0x3b] + rest) == [part] + SplitSemicolons(rest)
    decreases |part|
  {
    var s := part + [0x3b] + rest;
    if part == [] {
      assert s[1..] == rest;
    } else {
      assert s[1..] == part[1..] + [0x3b] + rest;
      SplitsOff(part[1..], rest);
      assert [part[0]] + part[1..] == part;
    }
  }

  function PartsOf(params: seq<nat>): seq<seq<Byte>> {
    if params == [] then [] else [Digits(params[0])] + PartsOf(params[1..])
  }

  lemma {:induction false} SplitsRendered(params: seq<nat>)
    requires params != []
    ensures SplitSemicolons(Rendered(params)) == PartsOf(params)
  {
    var part := Digits(params[0]);
    assert 0x3b !in part;
    if |params| == 1 {
      OnePart(part);
      assert PartsOf(params[1..]) == [];
    } else {
      SplitsOff(part, Rendered(params[1..]));
      SplitsRendered(params[1..]);
    }
  }

  lemma {:induction false} NumbersOf(params: seq<nat>)
    requires ParamsFit(params)
    ensures ParseNumbers(PartsOf(params)) == params
  {
    if params != [] {
      assert params[0] <= MAX_INT;
      NumbersOf(params[1..]);
      assert PartsOf(params)[1..] == PartsOf(params[1..]);
    }
  }

  lemma {:induction false} RenderedBytes(params: seq<nat>)
    ensures forall i :: 0 <= i < |Rendered(params)| ==> 0x30 <= Rendered(params)[i] <= 0x3b
    ensures params != [] ==> |Rendered(params)| > 0
  {
    if |params| > 1 {
      RenderedBytes(params[1..]);
    }
  }

  /** The parameter bytes of a sequence; a private one is marked. */
  function ParamBytes(private: bool, params: seq<nat>): seq<Byte> {
    if private then [0x3f] + Rendered(params) else Rendered(params)
  }

  /** Parsing gives back the parameters that were rendered, whether the sequence is private or not. */
  lemma ParsesBack(private: bool, params: seq<nat>)
    requires ParamsFit(params) && params != []
    ensures ParseCSIParams(ParamBytes(private, params)) == params
  {
    RenderedBytes(params);
    SplitsRendered(params);
    NumbersOf(params);
    if private {
      assert ParamBytes(private, params)[1..] == Rendered(params);
    }
  }

  /** A whole control sequence. */
  function Sequence(private: bool, params: seq<nat>, final: Byte): seq<Byte> {
    [ESC, 0x5b] + ParamBytes(private, params) + [final]
  }

  /** Between sequences and characters. */
  predicate Rests(p: Parser) {
    p.state == Normal && p.utf8Buffer == [] && !p.expectingCharSet
  }

  lemma CollectsOne(c: Coding, s: Screen, p: Parser, b: Byte)
    requires ScreenOk(s) && p.state == CSI && 0x30 <= b <= 0x3f
    ensures Next(c.fullRune, p, b) == p.(escapeSeq := p.escapeSeq + [b]) && ByteOn(c, s, p, b) == s
  {
  }

  lemma {:induction false} Collects(c: Coding, s: Screen, p: Parser, data: seq<Byte>)
    requires ScreenOk(s) && p.state == CSI && forall i :: 0 <= i < |data| ==> 0x30 <= data[i] <= 0x3f
    ensures After(c.fullRune, p, data) == p.(escapeSeq := p.escapeSeq + data) && Written(c, s, p, data) == s
  {
    if data != [] {
      var n := |data| - 1;
      Collects(c, s, p, data[..n]);
      assert p.escapeSeq + data == p.escapeSeq + data[..n] + [data[n]];
      CollectsOne(c, s, p.(escapeSeq := p.escapeSeq + data[..n]), data[n]);
      hide Next, ByteOn, ScreenOk;
    } else {
      assert p.escapeSeq + data == p.escapeSeq;
    }
  }

  lemma {:induction false} WrittenOn(c: Coding, s: Screen, p: Parser, a: seq<Byte>, b: seq<Byte>)
    requires ScreenOk(s)
    ensures After(c.fullRune, p, a + b) == After(c.fullRune, After(c.fullRune, p, a), b)
    ensures Written(c, s, p, a + b) == Written(c, Written(c, s, p, a), After(c.fullRune, p, a), b)
    decreases |b|
  {
    hide ByteOn, Next, ScreenOk;
    if b == [] {
      assert a + b == a;
    } else {
      var n := |b| - 1;
      WrittenOn(c, s, p, a, b[..n]);
      assert (a + b)[..|a| + n] == a + b[..n];
    }
  }

  lemma Begins(c: Coding, s: Screen, p: Parser)
    requires ScreenOk(s) && Rests(p)
    ensures After(c.fullRune, p, [ESC, 0x5b]) == p.(state := CSI, escapeSeq := [], csiIntermediate := 0)
    ensures Written(c, s, p, [ESC, 0x5b]) == s
  {
    var data: seq<Byte> := [ESC, 0x5b];
    assert data[..1] == [ESC] && data[..1][..0] == [];
    assert After(c.fullRune, p, data[..1]) == p.(state := Escape, escapeSeq := []);
    assert Written(c, s, p, data[..1]) == s;
  }

  lemma Ends(c: Coding, s: Screen, p: Parser, final: Byte)
    requires ScreenOk(s) && p.state == CSI && p.csiIntermediate == 0 && IsFinal(final)
    ensures After(c.fullRune, p, [final]) == NextCSI(p, final)
    ensures Written(c, s, p, [final]) == Commanded(c.selectStyle, s, final, ParseCSIParams(p.escapeSeq))
  {
    hide Commanded, ScreenOk, ParseCSIParams;
    assert [final][..0] == [];
  }

  /** All but the final byte only collects the parameters. */
  lemma Prepares(c: Coding, s: Screen, p: Parser, private: bool, params: seq<nat>)
    requires ScreenOk(s) && Rests(p) && params != []
    ensures var bytes := ParamBytes(private, params);
            && After(c.fullRune, p, [ESC, 0x5b] + bytes) == p.(state := CSI, escapeSeq := bytes, csiIntermediate := 0)
            && Written(c, s, p, [ESC, 0x5b] + bytes) == s
  {
    var head: seq<Byte>, bytes := [ESC, 0x5b], ParamBytes(private, params);
    RenderedBytes(params);
    Begins(c, s, p);
    Collects(c, s, p.(state := CSI, escapeSeq := [], csiIntermediate := 0), bytes);
    assert [] + bytes == bytes;
    hide ScreenOk, ParamBytes, Written, After, Rendered;
    WrittenOn(c, s, p, head, bytes);
  }

  /** A control sequence of any parameters, written when the parser rests, carries out its command with these
      parameters, shows nothing of itself, and leaves the parser at rest. */
  lemma SequenceCommands(c: Coding, s: Screen, p: Parser, private: bool, params: seq<nat>, final: Byte)
    requires ScreenOk(s) && Rests(p) && ParamsFit(params) && params != [] && 0x40 <= final <= 0x7e
    ensures Written(c, s, p, Sequence(private, params, final)) == Commanded(c.selectStyle, s, final, params)
    ensures Rests(After(c.fullRune, p, Sequence(private, params, final)))
  {
    hide Commanded, ScreenOk, ParseCSIParams, ParamBytes, Written, After, Rendered;
    var head: seq<Byte> := [ESC, 0x5b] + ParamBytes(private, params);
    ParsesBack(private, params);
    Prepares(c, s, p, private, params);
    Ends(c, s, p.(state := CSI, escapeSeq := ParamBytes(private, params), csiIntermediate := 0), final);
    WrittenOn(c, s, p, head, [final]);
  }

  // ----- Escape sequences of two bytes -----

  lemma EscapePair(c: Coding, s: Screen, p: Parser, b: Byte)
    requires ScreenOk(s) && Rests(p) && b in {'7' as int, '8' as int, 'M' as int}
    ensures Written(c, s, p, [ESC, b]) == EscapeByte(s, b)
    ensures After(c.fullRune, p, [ESC, b]) == p.(escapeSeq := [])
  {
    var data: seq<Byte> := [ESC, b];
    assert data[..1] == [ESC] && data[..1][..0] == [];
    assert After(c.fullRune, p, data[..1]) == p.(state := Escape, escapeSeq := []);
    assert Written(c, s, p, data[..1]) == s;
  }

  lemma {:induction false} TextKeepsSaved(s: Screen, rs: seq<int>)
    requires ScreenOk(s)
    ensures PutAll(s, rs).saved == s.saved && PutAll(s, rs).alt == s.alt && PutAll(s, rs).aside == s.aside
    ensures PutAll(s, rs).style == s.style && (s.alt ==> PutAll(s, rs).past == s.past)
  {
    if rs != [] {
      TextKeepsSaved(s, rs[..|rs| - 1]);
    }
  }

  /** Text of any length, however it wraps and scrolls, between saving and restoring the cursor: the cursor is where it
      was, and so is the style. */
  lemma SavedAroundText(c: Coding, s: Screen, p: Parser, data: seq<Byte>)
    requires ScreenOk(s) && Rests(p) && IsText(c, p.(escapeSeq := []), data)
    requires Rests(After(c.fullRune, p.(escapeSeq := []), data))
    ensures var r := Written(c, s, p, [ESC, '7' as int] + data + [ESC, '8' as int]);
            r.at == Cursor(s.at.x, s.at.y, false) && r.style == s.style
  {
    hide ScreenOk, Written, After, IsText;
    var save: seq<Byte>, restore: seq<Byte> := [ESC, '7' as int], [ESC, '8' as int];
    var p1, s1 := p.(escapeSeq := []), WithSaved(s);
    EscapePair(c, s, p, '7' as int);
    SavedOk(s);
    TextIsPut(c, s1, p1, data);
    TextKeepsSaved(s1, Runes(c, p1, data));
    WrittenOn(c, s, p, save, data);
    EscapePair(c, Written(c, s1, p1, data), After(c.fullRune, p1, data), '8' as int);
    WrittenOn(c, s, p, save + data, restore);
  }

  lemma SavedOk(s: Screen)
    requires ScreenOk(s)
    ensures ScreenOk(WithSaved(s))
  {
  }

  /** The private sequence that switches screens. */
  function Switch(final: Byte): seq<Byte> {
    Sequence(true, [ALT_SCREEN_MODE], final)
  }

  lemma Switches(c: Coding, s: Screen, p: Parser)
    requires ScreenOk(s) && Rests(p)
    ensures !s.alt ==> Written(c, s, p, Switch('h' as int)) == ToAlternate(s)
    ensures s.alt ==> Written(c, s, p, Switch('l' as int)) == ToMain(s)
    ensures Rests(After(c.fullRune, p, Switch('h' as int))) && Rests(After(c.fullRune, p, Switch('l' as int)))
  {
    hide ScreenOk, Written, After, Sequence, Edited, Moved, ToAlternate, ToMain;
    SequenceCommands(c, s, p, true, [ALT_SCREEN_MODE], 'h' as int);
    SequenceCommands(c, s, p, true, [ALT_SCREEN_MODE], 'l' as int);
  }

  /** Text of any length written on the alternate screen, between the sequences that switch to it and back, leaves the
      main screen and its history as they were. */
  lemma AlternateAroundText(c: Coding, s: Screen, p: Parser, data: seq<Byte>)
    requires ScreenOk(s) && !s.alt && Rests(p)
    requires var p1 := After(c.fullRune, p, Switch('h' as int));
             IsText(c, p1, data) && Rests(After(c.fullRune, p1, data))
    ensures var r := Written(c, s, p, Switch('h' as int) + data + Switch('l' as int));
            r.grid == s.grid && r.past == s.past && !r.alt && r.style == s.style
  {
    hide ScreenOk, Written, After, IsText, Switch, PutAll;
    var p1, s1 := After(c.fullRune, p, Switch('h' as int)), ToAlternate(s);
    Switches(c, s, p);
    TextIsPut(c, s1, p1, data);
    TextKeepsSaved(s1, Runes(c, p1, data));
    Switches(c, Written(c, s1, p1, data), After(c.fullRune, p1, data));
    WrittenOn(c, s, p, Switch('h' as int), data);
    WrittenOn(c, s, p, Switch('h' as int) + data, Switch('l' as int));
  }
}
